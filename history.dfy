/**
 * `NetflixTvHistory` (NetflixTvShow.py:13-371): the mutable root of the history, whose
 * methods append shows and movies, update the known show names, park and resolve
 * ambiguous records and count classifications. Each method is proved to move the
 * object's state exactly as the matching function of HistorySpec says.
 */
module NetflixHistory {
  import opened Wrappers
  import opened Text
  import opened Search
  import opened Media
  import opened Classifier
  import opened HistorySpec
  import HistoryProperties

  /** The dictionary getJson builds for one season. */
  datatype SeasonJson = SeasonJson(seasonNumber: int, seasonName: Option<string>, episodes: map<string, Stamps>)

  /** The dictionary getJson builds: shows and movies keyed by name. */
  datatype HistoryJson = HistoryJson(tvshows: map<string, seq<SeasonJson>>, movies: map<string, Stamps>)

  function EpisodesJson(episodes: seq<Episode>): (r: map<string, Stamps>)
    ensures r.Keys == set e | e in episodes :: e.name
  {
    if episodes == [] then map[]
    else
      var last := episodes[|episodes| - 1];
      var r := EpisodesJson(episodes[..|episodes| - 1])[last.name := last.watchedAt];
      assert episodes == episodes[..|episodes| - 1] + [last];
      r
  }

  function SeasonsJson(seasons: seq<Season>): (r: seq<SeasonJson>)
    ensures |r| == |seasons|
    ensures forall j :: 0 <= j < |seasons| ==>
              r[j].seasonNumber == seasons[j].number && r[j].seasonName == seasons[j].name
              && r[j].episodes == EpisodesJson(seasons[j].episodes)
  {
    seq(|seasons|, j requires 0 <= j < |seasons| =>
      SeasonJson(seasons[j].number, seasons[j].name, EpisodesJson(seasons[j].episodes)))
  }

  /** The "tvshows" part of getJson; a later show of the same name overwrites an earlier one. */
  function ShowsJson(shows: seq<TvShow>): (r: map<string, seq<SeasonJson>>)
    ensures r.Keys == set s | s in shows :: s.name
  {
    if shows == [] then map[]
    else
      var last := shows[|shows| - 1];
      var r := ShowsJson(shows[..|shows| - 1])[last.name := SeasonsJson(last.seasons)];
      assert shows == shows[..|shows| - 1] + [last];
      r
  }

  /** The "movies" part of getJson. */
  function MoviesJson(movies: seq<Movie>): (r: map<string, Stamps>)
    ensures r.Keys == set m | m in movies :: m.name
  {
    if movies == [] then map[]
    else
      var last := movies[|movies| - 1];
      var r := MoviesJson(movies[..|movies| - 1])[last.name := last.watchedAt];
      assert movies == movies[..|movies| - 1] + [last];
      r
  }

  /** With distinct show names, getJson lists every season of every show, in order. */
  lemma {:induction false} ShowsJsonAt(shows: seq<TvShow>, i: nat)
    requires i < |shows| && Distinct(ShowNames(shows))
    ensures ShowsJson(shows)[shows[i].name] == SeasonsJson(shows[i].seasons)
  {
    var front := shows[..|shows| - 1];
    if i < |shows| - 1 {
      assert ShowNames(front) == ShowNames(shows)[..|shows| - 1];
      assert shows[|shows| - 1].name != shows[i].name by {
        assert ShowNames(shows)[i] != ShowNames(shows)[|shows| - 1];
      }
      assert front[i] == shows[i];
      ShowsJsonAt(front, i);
    }
  }

  /** With distinct movie names, getJson lists every movie with all its timestamps. */
  lemma {:induction false} MoviesJsonAt(movies: seq<Movie>, i: nat)
    requires i < |movies| && Distinct(MovieNames(movies))
    ensures MoviesJson(movies)[movies[i].name] == movies[i].watchedAt
  {
    var front := movies[..|movies| - 1];
    if i < |movies| - 1 {
      assert MovieNames(front) == MovieNames(movies)[..|movies| - 1];
      assert movies[|movies| - 1].name != movies[i].name by {
        assert MovieNames(movies)[i] != MovieNames(movies)[|movies| - 1];
      }
      assert front[i] == movies[i];
      MoviesJsonAt(front, i);
    }
  }

  class NetflixTvHistory {
    var shows: seq<TvShow>
    var movies: seq<Movie>
    var knownShowNames: set<string>
    var ambiguousEntries: seq<PendingEntry>
    var classificationStats: Stats
    /** The five title patterns of addEntry. */
    const matchers: TitleMatchers
    /** The date parsing of addWatchedDate, fixed by the configured CSV date format. */
    const parser: DateParser

    function State(): HistoryState
      reads this
    {
      HistoryState(shows, movies, knownShowNames, ambiguousEntries, classificationStats)
    }

    constructor (matchers: TitleMatchers, parser: DateParser)
      ensures State() == EmptyHistory
      ensures this.matchers == matchers && this.parser == parser
    {
      shows := [];
      movies := [];
      knownShowNames := {};
      ambiguousEntries := [];
      classificationStats := Stats(0, 0, 0, 0);
      this.matchers := matchers;
      this.parser := parser;
    }

    /** `hasTvShow` (NetflixTvShow.py:28-35). */
    method HasTvShow(showName: string) returns (found: bool)
      ensures found <==> exists i :: 0 <= i < |shows| && shows[i].name == showName
    {
      var index := GetTvShow(showName);
      found := index.Some?;
      if !found {
        assert forall i :: 0 <= i < |shows| ==> ShowNames(shows)[i] != showName;
      }
    }

    /** `getTvShow` (NetflixTvShow.py:37-46): the first show with that name. */
    method GetTvShow(showName: string) returns (index: Option<nat>)
      ensures index == IndexOf(ShowNames(shows), showName)
    {
      index := FindIndex(ShowNames(shows), showName);
    }

    /** `getMovie` (NetflixTvShow.py:48-58): the first movie with that name. */
    method GetMovie(movieName: string) returns (index: Option<nat>)
      ensures index == IndexOf(MovieNames(movies), movieName)
    {
      index := FindIndex(MovieNames(movies), movieName);
    }

    /** `addTvShow` (NetflixTvShow.py:202-214). */
    method AddTvShow(showName: string) returns (index: nat)
      modifies this`shows
      ensures (shows, index) == ShowAdded(old(shows), showName)
    {
      var found := GetTvShow(showName);
      if found.Some? {
        return found.value;
      }
      shows := shows + [TvShow(showName, [])];
      index := |shows| - 1;
    }

    /** `addTvShowEntry` (NetflixTvShow.py:155-200). */
    method AddTvShowEntry(showName: string, number: Option<int>, episodeTitle: string, date: string,
                          seasonName: Option<string>)
      modifies this
      ensures State() == TvShowEntryAdded(old(State()), parser, showName, number, episodeTitle, date, seasonName)
    {
      if date == "" || Lower(date) == "date" || Lower(date) == "datum" {
        return;
      }
      if !HasDigit(date) {
        return;
      }
      var i := AddTvShow(showName);
      var show, j := AddSeason(shows[i], number, seasonName);
      var season, k := AddEpisode(show.seasons[j], episodeTitle);
      var added := StampsAdded(season.episodes[k].watchedAt, date, parser);
      var episode := season.episodes[k].(watchedAt := added.0);
      shows := shows[i := show.(seasons := show.seasons[j := season.(episodes := season.episodes[k := episode])])];
      knownShowNames := knownShowNames + {showName};
      classificationStats := CountEpisode(classificationStats, number, seasonName);
    }

    /** `addMovieEntry` (NetflixTvShow.py:216-247): the index of the movie, or None when nothing was stored. */
    method AddMovieEntry(title: string, date: string) returns (index: Option<nat>)
      modifies this`movies
      ensures State() == MovieEntryAdded(old(State()), parser, title, date)
      ensures index.Some? ==> index.value < |movies| && movies[index.value].name == title
      ensures index.None? ==> movies == old(movies)
    {
      if date == "" || Lower(date) == "date" || Lower(date) == "datum" {
        return None;
      }
      if !HasDigit(date) {
        return None;
      }
      assert !IsRejectedDate(date);
      var found := GetMovie(title);
      if found.Some? {
        var i := found.value;
        var added := StampsAdded(movies[i].watchedAt, date, parser);
        movies := movies[i := movies[i].(watchedAt := added.0)];
        assert movies == MovieEntryAdded(old(State()), parser, title, date).movies;
        return found;
      }
      ghost var before := movies;
      movies := movies + [Movie(title, [], None)];
      var last := |movies| - 1;
      var added := StampsAdded(movies[last].watchedAt, date, parser);
      assert added == StampsAdded([], date, parser);
      if !added.1 {
        movies := movies[..last];
        assert movies == before;
        return None;
      }
      movies := movies[last := movies[last].(watchedAt := added.0)];
      assert movies == before + [Movie(title, added.0, None)];
      index := Some(last);
    }

    /** `addEntry` (NetflixTvShow.py:60-153): the pattern cascade, first match wins; always true. */
    method AddEntry(title: string, date: string) returns (ok: bool)
      modifies this
      ensures ok
      ensures State() == EntryAdded(old(State()), matchers, parser, title, date)
    {
      ok := true;
      var numbered := matchers.seasonNumbered(title);
      if numbered.Some? {
        AddTvShowEntry(numbered.value.show, Some(numbered.value.season), numbered.value.episode, date, None);
        return;
      }
      var part := matchers.partNumbered(title);
      if part.Some? {
        AddTvShowEntry(part.value.show, Some(part.value.season), part.value.episode, date, None);
        return;
      }
      var mini := matchers.miniseries(title);
      if mini.Some? {
        AddTvShowEntry(mini.value.show, Some(1), mini.value.episode, date, None);
        return;
      }
      var named := matchers.namedSeason(title);
      if named.Some? {
        AddTvShowEntry(named.value.show, None, named.value.episode, date, Some(named.value.seasonName));
        return;
      }
      var pair := matchers.showEpisode(title);
      if pair.Some? {
        var classification := IsLikelyTvShow(knownShowNames, pair.value.show, pair.value.episode);
        if classification == LikelyEpisode {
          AddTvShowEntry(pair.value.show, Some(1), pair.value.episode, date, None);
          return;
        } else if classification == Uncertain {
          ambiguousEntries := ambiguousEntries + [PendingEntry(title, pair.value.show, pair.value.episode, date)];
          return;
        }
      }
      var _ := AddMovieEntry(title, date);
    }

    /**
     * One record of resolveAmbiguousEntries (NetflixTvShow.py:309-337): a season-1 episode
     * when its show is known or recurs in the queue, otherwise a movie under the full title.
     */
    method ResolveEntry(all: seq<PendingEntry>, frequencies: map<string, nat>, entry: PendingEntry)
      requires forall n :: n in frequencies ==> frequencies[n] == Frequency(all, n)
      requires forall n :: n !in frequencies ==> Frequency(all, n) == 0
      modifies this
      ensures State() == ResolveOne(old(State()), parser, entry, ResolvesAsEpisode(old(State()), all, entry))
    {
      if entry.showName in knownShowNames {
        AddTvShowEntry(entry.showName, Some(1), entry.episodeTitle, entry.date, None);
        classificationStats := classificationStats.(ambiguousResolved := classificationStats.ambiguousResolved + 1);
      } else if entry.showName in frequencies && frequencies[entry.showName] >= 2 {
        AddTvShowEntry(entry.showName, Some(1), entry.episodeTitle, entry.date, None);
        classificationStats := classificationStats.(ambiguousResolved := classificationStats.ambiguousResolved + 1);
      } else {
        var _ := AddMovieEntry(entry.title, entry.date);
      }
    }

    /** `resolveAmbiguousEntries` (NetflixTvShow.py:294-343). */
    method ResolveAmbiguousEntries()
      modifies this
      ensures State() == AmbiguousResolved(old(State()), parser)
    {
      var all := ambiguousEntries;
      var frequencies := ShowFrequencies(all);
      ghost var start := State();
      var i := 0;
      while i < |all|
        invariant 0 <= i <= |all|
        invariant State() == ResolvedPrefix(start, parser, all, i)
      {
        ResolveEntry(all, frequencies, all[i]);
        i := i + 1;
      }
      ambiguousEntries := [];
    }
    /** `getJson` (NetflixTvShow.py:345-371). */
    function GetJson(): (r: HistoryJson)
      reads this
      ensures r.tvshows.Keys == set s | s in shows :: s.name
      ensures r.movies.Keys == set m | m in movies :: m.name
      ensures Valid(State()) ==>
                && (forall i :: 0 <= i < |shows| ==> r.tvshows[shows[i].name] == SeasonsJson(shows[i].seasons))
                && (forall i :: 0 <= i < |movies| ==> r.movies[movies[i].name] == movies[i].watchedAt)
    {
      var r := HistoryJson(ShowsJson(shows), MoviesJson(movies));
      if Valid(State()) then
        assert forall i :: 0 <= i < |shows| ==> r.tvshows[shows[i].name] == SeasonsJson(shows[i].seasons) by {
          forall i | 0 <= i < |shows| ensures r.tvshows[shows[i].name] == SeasonsJson(shows[i].seasons) {
            ShowsJsonAt(shows, i);
          }
        }
        assert forall i :: 0 <= i < |movies| ==> r.movies[movies[i].name] == movies[i].watchedAt by {
          forall i | 0 <= i < |movies| ensures r.movies[movies[i].name] == movies[i].watchedAt {
            MoviesJsonAt(movies, i);
          }
        }
        r
      else r
    }
  }

  /** `show_frequencies` (NetflixTvShow.py:301-307): for every show name in the queue, how many records carry it. */
  method ShowFrequencies(all: seq<PendingEntry>) returns (frequencies: map<string, nat>)
    ensures forall n :: n in frequencies ==> frequencies[n] == Frequency(all, n) > 0
    ensures forall n :: n !in frequencies ==> Frequency(all, n) == 0
  {
    frequencies := map[];
    var i := 0;
    while i < |all|
      invariant 0 <= i <= |all|
      invariant forall n :: n in frequencies ==> frequencies[n] == Frequency(all[..i], n) > 0
      invariant forall n :: n !in frequencies ==> Frequency(all[..i], n) == 0
    {
      var name := all[i].showName;
      assert all[..i + 1] == all[..i] + [all[i]];
      forall n ensures Frequency(all[..i + 1], n) == Frequency(all[..i], n) + (if name == n then 1 else 0) {
        HistoryProperties.FrequencyAppend(all[..i], all[i], n);
      }
      if name !in frequencies {
        frequencies := frequencies[name := 1];
      } else {
        frequencies := frequencies[name := frequencies[name] + 1];
      }
      i := i + 1;
    }
    assert all[..|all|] == all;
  }
}
