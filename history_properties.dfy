/**
 * What the history operations guarantee: lookup-or-create never duplicates an entity,
 * rejected dates change nothing, a repeated entry only re-adds a date, each record
 * takes exactly one path, and the resolution of parked records depends only on the
 * names known before it started and on how often a name is parked.
 */
module HistoryProperties {
  import opened Wrappers
  import opened Search
  import opened Media
  import opened Classifier
  import opened HistorySpec

  /** addTvShow is lookup-or-create: an existing name leaves `shows` unchanged, a new one appends exactly one show. */
  lemma ShowAddedLookupOrCreate(shows: seq<TvShow>, name: string)
    ensures name in ShowNames(shows) ==> ShowAdded(shows, name).0 == shows
    ensures name !in ShowNames(shows) ==>
              ShowAdded(shows, name).0 == shows + [TvShow(name, [])] && ShowAdded(shows, name).1 == |shows|
    ensures Distinct(ShowNames(shows)) ==> Distinct(ShowNames(ShowAdded(shows, name).0))
  {
    if name !in ShowNames(shows) {
      assert ShowNames(shows + [TvShow(name, [])]) == ShowNames(shows) + [name];
      if Distinct(ShowNames(shows)) {
        DistinctAppend(ShowNames(shows), name);
      }
    }
  }

  /** The season and episode of a show under which ShowWithEntry files an entry. */
  predicate ShowFiles(show: TvShow, number: Option<int>, seasonName: Option<string>, episodeTitle: string, stamp: Option<string>) {
    exists j, k | 0 <= j < |show.seasons| && 0 <= k < |show.seasons[j].episodes| ::
      && (show.seasons[j].number == EffectiveSeasonNumber(number)
          || (seasonName.Some? && show.seasons[j].name == seasonName))
      && show.seasons[j].episodes[k].name == episodeTitle
      && (stamp.Some? ==> stamp.value in show.seasons[j].episodes[k].watchedAt)
  }

  lemma ShowWithEntryFiles(show: TvShow, p: DateParser, number: Option<int>, episodeTitle: string,
                           date: string, seasonName: Option<string>)
    ensures ShowFiles(ShowWithEntry(show, p, number, episodeTitle, date, seasonName),
                      number, seasonName, episodeTitle, ParseWatchedDate(p, date))
  {
    var (show2, j) := SeasonAdded(show, number, seasonName);
    var (season3, k) := EpisodeAdded(show2.seasons[j], episodeTitle);
    SeasonAddedSpec(show, number, seasonName);
    EpisodeAddedKeepsNamesDistinctOrName(show2.seasons[j], episodeTitle);
    var r := ShowWithEntry(show, p, number, episodeTitle, date, seasonName);
    var stamps := StampsAdded(season3.episodes[k].watchedAt, date, p).0;
    assert r.seasons[j].episodes[k].watchedAt == stamps;
    var stamp := ParseWatchedDate(p, date);
    if stamp.Some? {
      assert stamp.value in (set t | t in stamps);
    }
    assert r.seasons[j].number == show2.seasons[j].number && r.seasons[j].name == show2.seasons[j].name;
    assert r.seasons[j].episodes[k].name == episodeTitle;
  }

  /**
   * addTvShowEntry: a rejected date (empty, "date" or "datum" in any case, or without a
   * digit) changes nothing; otherwise the show, season and episode exist afterwards, the
   * parsed date is among the episode's timestamps, and the show name is known.
   */
  lemma TvShowEntryOutcome(st: HistoryState, p: DateParser, showName: string, number: Option<int>,
                           episodeTitle: string, date: string, seasonName: Option<string>)
    ensures IsRejectedDate(date) ==> TvShowEntryAdded(st, p, showName, number, episodeTitle, date, seasonName) == st
    ensures !IsRejectedDate(date) ==>
              var r := TvShowEntryAdded(st, p, showName, number, episodeTitle, date, seasonName);
              && r.known == st.known + {showName}
              && r.movies == st.movies && r.pending == st.pending
              && exists i | 0 <= i < |r.shows| :: r.shows[i].name == showName
                   && ShowFiles(r.shows[i], number, seasonName, episodeTitle, ParseWatchedDate(p, date))
  {
    if !IsRejectedDate(date) {
      var (shows1, i) := ShowAdded(st.shows, showName);
      ShowWithEntryFiles(shows1[i], p, number, episodeTitle, date, seasonName);
      var r := TvShowEntryAdded(st, p, showName, number, episodeTitle, date, seasonName);
      assert r.shows[i] == ShowWithEntry(shows1[i], p, number, episodeTitle, date, seasonName);
    }
  }

  /** The episode addEpisode returns carries the requested name. */
  lemma EpisodeAddedKeepsNamesDistinctOrName(season: Season, name: string)
    ensures EpisodeAdded(season, name).0.episodes[EpisodeAdded(season, name).1].name == name
  {
  }

  /** Replacing an episode by one with the same name and distinct timestamps keeps a season well formed. */
  lemma EpisodeReplaced(episodes: seq<Episode>, k: nat, e: Episode)
    requires k < |episodes| && e.name == episodes[k].name && Distinct(e.watchedAt)
    requires Distinct(EpisodeNames(episodes)) && forall x :: x in episodes ==> Distinct(x.watchedAt)
    ensures Distinct(EpisodeNames(episodes[k := e]))
    ensures forall x :: x in episodes[k := e] ==> Distinct(x.watchedAt)
  {
    assert EpisodeNames(episodes[k := e]) == EpisodeNames(episodes);
    forall x | x in episodes[k := e] ensures Distinct(x.watchedAt) {
      var n :| 0 <= n < |episodes| && episodes[k := e][n] == x;
      if n != k { assert x in episodes; }
    }
  }

  /** Replacing a season by one with the same keys and well-formed episodes keeps a show well formed. */
  lemma SeasonReplaced(show: TvShow, j: nat, s: Season)
    requires ShowWellFormed(show) && j < |show.seasons|
    requires s.number == show.seasons[j].number && s.name == show.seasons[j].name
    requires Distinct(EpisodeNames(s.episodes)) && forall e :: e in s.episodes ==> Distinct(e.watchedAt)
    ensures ShowWellFormed(show.(seasons := show.seasons[j := s]))
  {
    var seasons := show.seasons[j := s];
    assert SeasonNumbers(seasons) == SeasonNumbers(show.seasons);
    forall a, b | 0 <= a < b < |seasons| && seasons[a].name.Some? ensures seasons[a].name != seasons[b].name {
      assert seasons[a].name == show.seasons[a].name && seasons[b].name == show.seasons[b].name;
    }
    forall x | x in seasons
      ensures Distinct(EpisodeNames(x.episodes)) && forall e :: e in x.episodes ==> Distinct(e.watchedAt)
    {
      var n :| 0 <= n < |seasons| && seasons[n] == x;
      if n != j { assert x in show.seasons; }
    }
  }

  /** Replacing an element by one with the same name keeps the name projection. */
  lemma ShowNamesReplaced(shows: seq<TvShow>, i: nat, s: TvShow)
    requires i < |shows| && s.name == shows[i].name
    ensures ShowNames(shows[i := s]) == ShowNames(shows)
  {
  }

  /** addSeason keeps a show well formed: a new season starts without episodes. */
  lemma SeasonAddedKeepsWellFormed(show: TvShow, number: Option<int>, seasonName: Option<string>)
    requires ShowWellFormed(show)
    ensures ShowWellFormed(SeasonAdded(show, number, seasonName).0)
  {
    var (show2, j) := SeasonAdded(show, number, seasonName);
    SeasonAddedSpec(show, number, seasonName);
    SeasonAddedKeepsKeysDistinct(show, number, seasonName);
    if show2 != show {
      forall x | x in show2.seasons
        ensures Distinct(EpisodeNames(x.episodes)) && forall e :: e in x.episodes ==> Distinct(e.watchedAt)
      {
        var n :| 0 <= n < |show2.seasons| && show2.seasons[n] == x;
        if n < |show.seasons| { assert x in show.seasons; }
      }
    }
  }

  /** addEpisode keeps every timestamp set of the season free of repetition: a new episode has none. */
  lemma EpisodeAddedKeepsStampsDistinct(season: Season, episodeTitle: string)
    requires forall e :: e in season.episodes ==> Distinct(e.watchedAt)
    ensures forall e :: e in EpisodeAdded(season, episodeTitle).0.episodes ==> Distinct(e.watchedAt)
  {
    var (season3, k) := EpisodeAdded(season, episodeTitle);
    forall e | e in season3.episodes ensures Distinct(e.watchedAt) {
      var n :| 0 <= n < |season3.episodes| && season3.episodes[n] == e;
      if n < |season.episodes| { assert e in season.episodes; }
    }
  }

  /** Filing an entry under a show keeps its seasons, episode names and timestamps free of repetition. */
  lemma ShowWithEntryKeepsWellFormed(show: TvShow, p: DateParser, number: Option<int>, episodeTitle: string,
                                     date: string, seasonName: Option<string>)
    requires ShowWellFormed(show)
    ensures ShowWellFormed(ShowWithEntry(show, p, number, episodeTitle, date, seasonName))
  {
    var (show2, j) := SeasonAdded(show, number, seasonName);
    SeasonAddedKeepsWellFormed(show, number, seasonName);
    assert show2.seasons[j] in show2.seasons;
    var (season3, k) := EpisodeAdded(show2.seasons[j], episodeTitle);
    EpisodeAddedKeepsNamesDistinct(show2.seasons[j], episodeTitle);
    EpisodeAddedKeepsStampsDistinct(show2.seasons[j], episodeTitle);
    var episode4 := season3.episodes[k].(watchedAt := StampsAdded(season3.episodes[k].watchedAt, date, p).0);
    EpisodeReplaced(season3.episodes, k, episode4);
    SeasonReplaced(show2, j, season3.(episodes := season3.episodes[k := episode4]));
  }

  /** addTvShowEntry keeps every name unique within its scope and every timestamp set free of repetition. */
  lemma TvShowEntryKeepsValid(st: HistoryState, p: DateParser, showName: string, number: Option<int>,
                              episodeTitle: string, date: string, seasonName: Option<string>)
    requires Valid(st)
    ensures Valid(TvShowEntryAdded(st, p, showName, number, episodeTitle, date, seasonName))
  {
    if !IsRejectedDate(date) {
      ShowAddedLookupOrCreate(st.shows, showName);
      var (shows1, i) := ShowAdded(st.shows, showName);
      assert ShowWellFormed(shows1[i]) by {
        if showName !in ShowNames(st.shows) { assert shows1[i] == TvShow(showName, []); }
        else { assert shows1[i] in st.shows; }
      }
      var show4 := ShowWithEntry(shows1[i], p, number, episodeTitle, date, seasonName);
      ShowWithEntryKeepsWellFormed(shows1[i], p, number, episodeTitle, date, seasonName);
      ShowNamesReplaced(shows1, i, show4);
      var r := TvShowEntryAdded(st, p, showName, number, episodeTitle, date, seasonName);
      assert r.shows == shows1[i := show4];
      forall x | x in r.shows ensures ShowWellFormed(x) {
        var n :| 0 <= n < |r.shows| && r.shows[n] == x;
        if n != i && n < |st.shows| { assert x in st.shows; }
      }
    }
  }

  /** addMovieEntry never creates a second movie of the same name and keeps timestamps free of repetition. */
  lemma MovieEntryKeepsValid(st: HistoryState, p: DateParser, title: string, date: string)
    requires Valid(st)
    ensures Valid(MovieEntryAdded(st, p, title, date))
  {
    if !IsRejectedDate(date) {
      match IndexOf(MovieNames(st.movies), title)
      case Some(i) =>
        var m := st.movies[i].(watchedAt := StampsAdded(st.movies[i].watchedAt, date, p).0);
        assert MovieNames(st.movies[i := m]) == MovieNames(st.movies);
        forall x | x in st.movies[i := m] ensures Distinct(x.watchedAt) {
          var n :| 0 <= n < |st.movies| && st.movies[i := m][n] == x;
          if n != i { assert x in st.movies; }
        }
      case None =>
        var (stamps, ok) := StampsAdded([], date, p);
        if ok {
          assert MovieNames(st.movies + [Movie(title, stamps, None)]) == MovieNames(st.movies) + [title];
          DistinctAppend(MovieNames(st.movies), title);
        }
    }
  }

  /** The lookup-or-create semantics of addMovieEntry: an existing movie only gains the date. */
  lemma MovieEntryLookupOrCreate(st: HistoryState, p: DateParser, title: string, date: string)
    ensures !IsRejectedDate(date) && title in MovieNames(st.movies) ==>
              |MovieEntryAdded(st, p, title, date).movies| == |st.movies|
              && MovieNames(MovieEntryAdded(st, p, title, date).movies) == MovieNames(st.movies)
    ensures !IsRejectedDate(date) && title !in MovieNames(st.movies) ==>
              MovieEntryAdded(st, p, title, date).movies ==
                (if ParseWatchedDate(p, date).Some? then st.movies + [Movie(title, [ParseWatchedDate(p, date).value], None)]
                 else st.movies)
    ensures IsRejectedDate(date) ==> MovieEntryAdded(st, p, title, date) == st
  {
    if !IsRejectedDate(date) && title in MovieNames(st.movies) {
      var i := IndexOf(MovieNames(st.movies), title).value;
      var m := st.movies[i].(watchedAt := StampsAdded(st.movies[i].watchedAt, date, p).0);
      assert MovieNames(st.movies[i := m]) == MovieNames(st.movies);
    }
  }

  /**
   * Every record takes exactly one path: a parked record touches only the queue, an
   * episode never touches movies or the queue, and a movie never touches shows, known
   * names or the queue.
   */
  lemma EntryTakesOnePath(st: HistoryState, m: TitleMatchers, p: DateParser, title: string, date: string)
    ensures var r := EntryAdded(st, m, p, title, date);
      match RouteOf(m, st.known, title)
      case PendingRoute(show, episode) =>
        r == st.(pending := st.pending + [PendingEntry(title, show, episode, date)])
      case EpisodeRoute(_, _, _, _) =>
        r.movies == st.movies && r.pending == st.pending
      case MovieRoute =>
        r.shows == st.shows && r.known == st.known && r.pending == st.pending && r.stats == st.stats
  {
  }

  /** addEntry keeps the history free of duplicates. */
  lemma EntryKeepsValid(st: HistoryState, m: TitleMatchers, p: DateParser, title: string, date: string)
    requires Valid(st)
    ensures Valid(EntryAdded(st, m, p, title, date))
  {
    match RouteOf(m, st.known, title)
    case EpisodeRoute(show, number, episode, seasonName) =>
      TvShowEntryKeepsValid(st, p, show, number, episode, date, seasonName);
    case PendingRoute(_, _) =>
    case MovieRoute =>
      MovieEntryKeepsValid(st, p, title, date);
  }

  /** A season lookup finds again the season it found or created, once that season has gained episodes. */
  lemma SeasonAddedStable(show: TvShow, number: Option<int>, name: Option<string>, s: Season)
    requires var (show2, j) := SeasonAdded(show, number, name);
      s.number == show2.seasons[j].number && s.name == show2.seasons[j].name
    ensures var (show2, j) := SeasonAdded(show, number, name);
      SeasonAdded(show2.(seasons := show2.seasons[j := s]), number, name) == (show2.(seasons := show2.seasons[j := s]), j)
  {
    var (show2, j) := SeasonAdded(show, number, name);
    var show4 := show2.(seasons := show2.seasons[j := s]);
    var n := EffectiveSeasonNumber(number);
    assert SeasonNumbers(show4.seasons) == SeasonNumbers(show2.seasons);
    assert SeasonNames(show4.seasons) == SeasonNames(show2.seasons);
    if IndexOf(SeasonNumbers(show.seasons), n).None? && SeasonNameIndex(show.seasons, name).None? {
      assert SeasonNumbers(show2.seasons) == SeasonNumbers(show.seasons) + [n];
      assert IndexOf(SeasonNumbers(show2.seasons), n) == Some(j);
    } else if IndexOf(SeasonNumbers(show.seasons), n).None? {
      assert IndexOf(SeasonNumbers(show4.seasons), n).None?;
    }
  }

  /** An episode lookup finds again the episode it found or created. */
  lemma EpisodeAddedStable(season: Season, name: string, e: Episode)
    requires e.name == name
    ensures var (season3, k) := EpisodeAdded(season, name);
      EpisodeAdded(season3.(episodes := season3.episodes[k := e]), name) == (season3.(episodes := season3.episodes[k := e]), k)
  {
    var (season3, k) := EpisodeAdded(season, name);
    EpisodeAddedKeepsNamesDistinctOrName(season, name);
    assert EpisodeNames(season3.episodes[k := e]) == EpisodeNames(season3.episodes);
    if IndexOf(EpisodeNames(season.episodes), name).None? {
      assert EpisodeNames(season3.episodes) == EpisodeNames(season.episodes) + [name];
    }
  }

  /** A show lookup finds again the show it found or created. */
  lemma ShowAddedStable(shows: seq<TvShow>, name: string, s: TvShow)
    requires s.name == name
    ensures var (shows1, i) := ShowAdded(shows, name);
      ShowAdded(shows1[i := s], name) == (shows1[i := s], i)
  {
    var (shows1, i) := ShowAdded(shows, name);
    ShowNamesReplaced(shows1, i, s);
    if IndexOf(ShowNames(shows), name).None? {
      assert ShowNames(shows1) == ShowNames(shows) + [name];
    }
  }

  /** Filing the same entry under a show twice gives the show it had after the first time. */
  lemma ShowWithEntryRepeated(show: TvShow, p: DateParser, number: Option<int>, episodeTitle: string,
                              date: string, seasonName: Option<string>)
    ensures var once := ShowWithEntry(show, p, number, episodeTitle, date, seasonName);
      ShowWithEntry(once, p, number, episodeTitle, date, seasonName) == once
  {
    var (show2, j) := SeasonAdded(show, number, seasonName);
    var (season3, k) := EpisodeAdded(show2.seasons[j], episodeTitle);
    EpisodeAddedKeepsNamesDistinctOrName(show2.seasons[j], episodeTitle);
    var episode4 := season3.episodes[k].(watchedAt := StampsAdded(season3.episodes[k].watchedAt, date, p).0);
    var season4 := season3.(episodes := season3.episodes[k := episode4]);
    var show4 := show2.(seasons := show2.seasons[j := season4]);
    assert show4 == ShowWithEntry(show, p, number, episodeTitle, date, seasonName);
    SeasonAddedStable(show, number, seasonName, season4);
    assert SeasonAdded(show4, number, seasonName) == (show4, j);
    EpisodeAddedStable(show2.seasons[j], episodeTitle, episode4);
    assert EpisodeAdded(show4.seasons[j], episodeTitle) == (season4, k);
    StampsAddedIdempotent(season3.episodes[k].watchedAt, date, p);
    assert season4.episodes[k].(watchedAt := StampsAdded(season4.episodes[k].watchedAt, date, p).0) == episode4;
    assert season4.(episodes := season4.episodes[k := episode4]) == season4;
    assert show4.(seasons := show4.seasons[j := season4]) == show4;
  }

  /**
   * Repeating an addTvShowEntry call creates no show, season or episode and stores no
   * second timestamp: the shows and the known names are exactly as after the first call.
   */
  lemma TvShowEntryRepeated(st: HistoryState, p: DateParser, showName: string, number: Option<int>,
                            episodeTitle: string, date: string, seasonName: Option<string>)
    ensures var once := TvShowEntryAdded(st, p, showName, number, episodeTitle, date, seasonName);
      var twice := TvShowEntryAdded(once, p, showName, number, episodeTitle, date, seasonName);
      twice.shows == once.shows && twice.known == once.known && twice.movies == once.movies
  {
    if !IsRejectedDate(date) {
      var (shows1, i) := ShowAdded(st.shows, showName);
      var show4 := ShowWithEntry(shows1[i], p, number, episodeTitle, date, seasonName);
      var once := TvShowEntryAdded(st, p, showName, number, episodeTitle, date, seasonName);
      assert once.shows == shows1[i := show4];
      ShowAddedStable(st.shows, showName, show4);
      ShowWithEntryRepeated(shows1[i], p, number, episodeTitle, date, seasonName);
    }
  }

  /** A name parked at some position is counted at least once. */
  lemma {:induction false} FrequencyPositive(all: seq<PendingEntry>, k: nat)
    requires k < |all|
    ensures Frequency(all, all[k].showName) >= 1
  {
    if k > 0 {
      FrequencyPositive(all[1..], k - 1);
    }
  }

  /** A name parked at two positions is counted at least twice. */
  lemma {:induction false} FrequencyOfRepeat(all: seq<PendingEntry>, a: nat, b: nat)
    requires a < b < |all| && all[a].showName == all[b].showName
    ensures Frequency(all, all[a].showName) >= 2
  {
    if a == 0 {
      FrequencyPositive(all[1..], b - 1);
    } else {
      FrequencyOfRepeat(all[1..], a - 1, b - 1);
    }
  }

  /** Counting over a longer prefix adds the new record's share. */
  lemma {:induction false} FrequencyAppend(entries: seq<PendingEntry>, e: PendingEntry, name: string)
    ensures Frequency(entries + [e], name) == Frequency(entries, name) + (if e.showName == name then 1 else 0)
  {
    if entries != [] {
      assert (entries + [e])[1..] == entries[1..] + [e];
      FrequencyAppend(entries[1..], e, name);
    }
  }

  /** One resolution step only ever adds the record's own show name to the known names. */
  lemma ResolveOneKnown(st: HistoryState, p: DateParser, e: PendingEntry, asEpisode: bool)
    ensures st.known <= ResolveOne(st, p, e, asEpisode).known <= st.known + {e.showName}
  {
    if asEpisode {
      TvShowEntryOutcome(st, p, e.showName, Some(1), e.episodeTitle, e.date, None);
    }
  }

  /** During resolution the known names grow only by names of records already resolved. */
  lemma {:induction false} KnownDuringResolution(st0: HistoryState, p: DateParser, all: seq<PendingEntry>, i: nat)
    requires i <= |all|
    ensures st0.known <= ResolvedPrefix(st0, p, all, i).known
    ensures forall n :: n in ResolvedPrefix(st0, p, all, i).known ==>
              n in st0.known || exists k :: 0 <= k < i && all[k].showName == n
  {
    if i > 0 {
      KnownDuringResolution(st0, p, all, i - 1);
      var st := ResolvedPrefix(st0, p, all, i - 1);
      ResolveOneKnown(st, p, all[i - 1], ResolvesAsEpisode(st, all, all[i - 1]));
      forall n | n in ResolvedPrefix(st0, p, all, i).known
        ensures n in st0.known || exists k :: 0 <= k < i && all[k].showName == n
      {
        if n !in st.known {
          assert all[i - 1].showName == n;
        }
      }
    }
  }

  /**
   * resolveAmbiguousEntries turns a parked record into an episode exactly when its show
   * name was known before resolution began or is parked at least twice; the names
   * learned during the loop never change a decision.
   */
  lemma ResolutionDecision(st0: HistoryState, p: DateParser, all: seq<PendingEntry>, i: nat)
    requires i < |all|
    ensures ResolvesAsEpisode(ResolvedPrefix(st0, p, all, i), all, all[i])
            <==> all[i].showName in st0.known || Frequency(all, all[i].showName) >= 2
  {
    KnownDuringResolution(st0, p, all, i);
    var n := all[i].showName;
    if n in ResolvedPrefix(st0, p, all, i).known && n !in st0.known {
      var k :| 0 <= k < i && all[k].showName == n;
      FrequencyOfRepeat(all, k, i);
    }
  }

  /** Resolution keeps the history free of duplicates. */
  lemma {:induction false} ResolutionKeepsValid(st0: HistoryState, p: DateParser, all: seq<PendingEntry>, i: nat)
    requires i <= |all| && Valid(st0)
    ensures Valid(ResolvedPrefix(st0, p, all, i))
  {
    if i > 0 {
      ResolutionKeepsValid(st0, p, all, i - 1);
      var st := ResolvedPrefix(st0, p, all, i - 1);
      var e := all[i - 1];
      if ResolvesAsEpisode(st, all, e) {
        TvShowEntryKeepsValid(st, p, e.showName, Some(1), e.episodeTitle, e.date, None);
      } else {
        MovieEntryKeepsValid(st, p, e.title, e.date);
      }
    }
  }

  /** After resolveAmbiguousEntries nothing is parked and the history is still free of duplicates. */
  lemma AmbiguousResolvedOutcome(st: HistoryState, p: DateParser)
    requires Valid(st)
    ensures AmbiguousResolved(st, p).pending == []
    ensures Valid(AmbiguousResolved(st, p))
  {
    ResolutionKeepsValid(st, p, st.pending, |st.pending|);
  }
}
