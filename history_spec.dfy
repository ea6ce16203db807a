/**
 * The state of `NetflixTvHistory` (NetflixTvShow.py:13-371) as a value, and each of its
 * operations as a function from the old state to the new one. The class in
 * NetflixHistory is proved to follow these functions; the lemmas here state what the
 * operations guarantee.
 */
module HistorySpec {
  import opened Wrappers
  import opened Text
  import opened Search
  import opened Media
  import opened Classifier

  /** One record parked by addEntry for later resolution (NetflixTvShow.py:143-148). */
  datatype PendingEntry = PendingEntry(title: string, showName: string, episodeTitle: string, date: string)

  /** `classification_stats` (NetflixTvShow.py:21-26). */
  datatype Stats = Stats(episodesCertain: nat, episodesInferred: nat, moviesCertain: nat, ambiguousResolved: nat)

  datatype HistoryState = HistoryState(
    shows: seq<TvShow>,
    movies: seq<Movie>,
    known: set<string>,
    pending: seq<PendingEntry>,
    stats: Stats)

  const EmptyHistory := HistoryState([], [], {}, [], Stats(0, 0, 0, 0))

  /** No show, movie, season or episode is duplicated, and no timestamp is stored twice. */
  predicate Valid(st: HistoryState) {
    && Distinct(ShowNames(st.shows))
    && Distinct(MovieNames(st.movies))
    && (forall s :: s in st.shows ==> ShowWellFormed(s))
    && (forall m :: m in st.movies ==> Distinct(m.watchedAt))
  }

  /** The date guard of addTvShowEntry and addMovieEntry (NetflixTvShow.py:178-186, 225-233). */
  predicate IsRejectedDate(date: string) {
    date == "" || Lower(date) == "date" || Lower(date) == "datum" || !HasDigit(date)
  }

  /** `addTvShow` (NetflixTvShow.py:202-214): the first show with that name, or a new one at the end. */
  function ShowAdded(shows: seq<TvShow>, name: string): (r: (seq<TvShow>, nat))
    ensures r.1 < |r.0| && r.0[r.1].name == name
  {
    match IndexOf(ShowNames(shows), name)
    case Some(i) => (shows, i)
    case None => (shows + [TvShow(name, [])], |shows|)
  }

  /** The number-or-name bookkeeping of addTvShowEntry (NetflixTvShow.py:197-200). */
  function CountEpisode(stats: Stats, number: Option<int>, seasonName: Option<string>): Stats {
    if number.Some? || seasonName.Some? then stats.(episodesCertain := stats.episodesCertain + 1)
    else stats.(episodesInferred := stats.episodesInferred + 1)
  }

  /**
   * The part of addTvShowEntry below the show (NetflixTvShow.py:189-191): look up or create
   * the season, then the episode, and add the watch date to the episode.
   */
  function ShowWithEntry(show: TvShow, p: DateParser, number: Option<int>, episodeTitle: string,
                         date: string, seasonName: Option<string>): (r: TvShow)
    ensures r.name == show.name
  {
    var (show2, j) := SeasonAdded(show, number, seasonName);
    var (season3, k) := EpisodeAdded(show2.seasons[j], episodeTitle);
    var episode4 := season3.episodes[k].(watchedAt := StampsAdded(season3.episodes[k].watchedAt, date, p).0);
    show2.(seasons := show2.seasons[j := season3.(episodes := season3.episodes[k := episode4])])
  }

  /**
   * `addTvShowEntry` (NetflixTvShow.py:155-200): unless the date is rejected, look up or
   * create the show, file the entry under it (the parse result of the date is not
   * checked), and record the show name as known.
   */
  function TvShowEntryAdded(st: HistoryState, p: DateParser, showName: string, number: Option<int>,
                            episodeTitle: string, date: string, seasonName: Option<string>): HistoryState
  {
    if IsRejectedDate(date) then st
    else
      var (shows1, i) := ShowAdded(st.shows, showName);
      st.(shows := shows1[i := ShowWithEntry(shows1[i], p, number, episodeTitle, date, seasonName)],
          known := st.known + {showName},
          stats := CountEpisode(st.stats, number, seasonName))
  }

  /**
   * `addMovieEntry` (NetflixTvShow.py:216-247): unless the date is rejected, add the date to
   * the movie of that name; a new movie is kept only if its first date parses.
   */
  function MovieEntryAdded(st: HistoryState, p: DateParser, title: string, date: string): HistoryState
  {
    if IsRejectedDate(date) then st
    else
      match IndexOf(MovieNames(st.movies), title)
      case Some(i) =>
        st.(movies := st.movies[i := st.movies[i].(watchedAt := StampsAdded(st.movies[i].watchedAt, date, p).0)])
      case None =>
        var (stamps, ok) := StampsAdded([], date, p);
        if ok then st.(movies := st.movies + [Movie(title, stamps, None)]) else st
  }

  /** `addEntry` (NetflixTvShow.py:60-153): follow the route the cascade picks. */
  function EntryAdded(st: HistoryState, m: TitleMatchers, p: DateParser, title: string, date: string): HistoryState
  {
    match RouteOf(m, st.known, title)
    case EpisodeRoute(show, number, episode, seasonName) =>
      TvShowEntryAdded(st, p, show, number, episode, date, seasonName)
    case PendingRoute(show, episode) =>
      st.(pending := st.pending + [PendingEntry(title, show, episode, date)])
    case MovieRoute =>
      MovieEntryAdded(st, p, title, date)
  }

  /** How many pending records carry this show name (`len(show_frequencies[name])`). */
  function Frequency(entries: seq<PendingEntry>, name: string): nat {
    if entries == [] then 0
    else (if entries[0].showName == name then 1 else 0) + Frequency(entries[1..], name)
  }

  /** One step of resolveAmbiguousEntries: a season-1 episode, or a movie under the full title. */
  function ResolveOne(st: HistoryState, p: DateParser, e: PendingEntry, asEpisode: bool): HistoryState {
    if asEpisode then
      var st1 := TvShowEntryAdded(st, p, e.showName, Some(1), e.episodeTitle, e.date, None);
      st1.(stats := st1.stats.(ambiguousResolved := st1.stats.ambiguousResolved + 1))
    else MovieEntryAdded(st, p, e.title, e.date)
  }

  /** The decision of NetflixTvShow.py:313 and 324, taken with the state reached so far. */
  predicate ResolvesAsEpisode(st: HistoryState, all: seq<PendingEntry>, e: PendingEntry) {
    e.showName in st.known || Frequency(all, e.showName) >= 2
  }

  /** The state after the resolution loop has handled `all[..i]`. */
  function ResolvedPrefix(st0: HistoryState, p: DateParser, all: seq<PendingEntry>, i: nat): HistoryState
    requires i <= |all|
  {
    if i == 0 then st0
    else
      var st := ResolvedPrefix(st0, p, all, i - 1);
      ResolveOne(st, p, all[i - 1], ResolvesAsEpisode(st, all, all[i - 1]))
  }

  /** `resolveAmbiguousEntries` (NetflixTvShow.py:294-343): resolve every parked record, then clear the queue. */
  function AmbiguousResolved(st: HistoryState, p: DateParser): HistoryState {
    ResolvedPrefix(st, p, st.pending, |st.pending|).(pending := [])
  }
}
