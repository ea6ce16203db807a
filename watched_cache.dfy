/**
 * The duplicate cache TraktIO builds in `cacheWatchedHistory` (TraktIO.py:112-204):
 * which keys a snapshot of the account's watched shows and movies puts in
 * `_watched_episodes` and `_watched_movies`.
 */
module WatchedCache {
  import opened Wrappers
  import opened Text

  /** A show's `pk`: the (service, id) pair of its primary identifier. */
  datatype ShowPk = ShowPk(service: string, id: int)

  datatype WatchedEpisode = WatchedEpisode(number: int, watched: bool)
  datatype WatchedSeason = WatchedSeason(number: int, episodes: seq<WatchedEpisode>)
  datatype WatchedShow = WatchedShow(title: string, pk: Option<ShowPk>, seasons: seq<WatchedSeason>)
  datatype WatchedMovie = WatchedMovie(tmdb: Option<int>)

  /**
   * What `sync/watched` returned: for each of shows and movies a list, or None when the
   * call failed; `Broken` is a snapshot whose traversal raises, which sends the method
   * to its `except` branch.
   */
  datatype Snapshot = Snapshot(shows: Option<seq<WatchedShow>>, movies: Option<seq<WatchedMovie>>) | Broken

  /** The two tuple shapes stored in `_watched_episodes`. */
  datatype EpisodeKey =
    | TraktIdKey(service: string, showId: int, season: int, episode: int)
    | TitleKey(title: string, season: int, episode: int)

  /** Which of the two passes over a show builds the key. */
  datatype KeyKind = ByTraktId(pk: ShowPk) | ByTitle(lowerTitle: string)

  function MakeKey(kind: KeyKind, season: int, episode: int): EpisodeKey {
    match kind
    case ByTraktId(pk) => TraktIdKey(pk.service, pk.id, season, episode)
    case ByTitle(t) => TitleKey(t, season, episode)
  }

  /** The keys of the watched episodes among the first `n` of a season. */
  function SeasonKeys(kind: KeyKind, season: WatchedSeason, n: nat): set<EpisodeKey>
    requires n <= |season.episodes|
  {
    if n == 0 then {}
    else SeasonKeys(kind, season, n - 1)
         + (if season.episodes[n - 1].watched then {MakeKey(kind, season.number, season.episodes[n - 1].number)} else {})
  }

  /** The keys of the first `m` seasons. */
  function SeasonsKeys(kind: KeyKind, seasons: seq<WatchedSeason>, m: nat): set<EpisodeKey>
    requires m <= |seasons|
  {
    if m == 0 then {}
    else SeasonsKeys(kind, seasons, m - 1) + SeasonKeys(kind, seasons[m - 1], |seasons[m - 1].episodes|)
  }

  /** Both passes over one show: by Trakt id when it has a `pk`, then by lower-cased title. */
  function ShowKeys(show: WatchedShow): set<EpisodeKey> {
    (if show.pk.Some? then SeasonsKeys(ByTraktId(show.pk.value), show.seasons, |show.seasons|) else {})
    + SeasonsKeys(ByTitle(Lower(show.title)), show.seasons, |show.seasons|)
  }

  function ShowsKeys(shows: seq<WatchedShow>, k: nat): set<EpisodeKey>
    requires k <= |shows|
  {
    if k == 0 then {} else ShowsKeys(shows, k - 1) + ShowKeys(shows[k - 1])
  }

  /** The TMDB ids of the first `k` movies that carry one. */
  function MovieIds(movies: seq<WatchedMovie>, k: nat): set<int>
    requires k <= |movies|
  {
    if k == 0 then {}
    else MovieIds(movies, k - 1) + (if movies[k - 1].tmdb.Some? then {movies[k - 1].tmdb.value} else {})
  }

  /** `_watched_episodes` after `cacheWatchedHistory`; nothing when the snapshot is broken. */
  function CachedEpisodes(snapshot: Snapshot): set<EpisodeKey> {
    match snapshot
    case Broken => {}
    case Snapshot(shows, _) => if shows.Some? then ShowsKeys(shows.value, |shows.value|) else {}
  }

  /** `_watched_movies` after `cacheWatchedHistory`; nothing when the snapshot is broken. */
  function CachedMovies(snapshot: Snapshot): set<int> {
    match snapshot
    case Broken => {}
    case Snapshot(_, movies) => if movies.Some? then MovieIds(movies.value, |movies.value|) else {}
  }

  /** The season holds a watched episode numbered `e`. */
  predicate SeasonWatched(season: WatchedSeason, e: int) {
    exists j | 0 <= j < |season.episodes| :: season.episodes[j].watched && season.episodes[j].number == e
  }

  /** The show holds season `s` with a watched episode `e`. */
  predicate ShowWatched(show: WatchedShow, s: int, e: int) {
    exists i | 0 <= i < |show.seasons| :: show.seasons[i].number == s && SeasonWatched(show.seasons[i], e)
  }

  lemma {:induction false} SeasonKeysMember(kind: KeyKind, season: WatchedSeason, n: nat, key: EpisodeKey)
    requires n <= |season.episodes|
    ensures key in SeasonKeys(kind, season, n) <==>
              exists j | 0 <= j < n :: season.episodes[j].watched
                                       && key == MakeKey(kind, season.number, season.episodes[j].number)
  {
    if n > 0 {
      SeasonKeysMember(kind, season, n - 1, key);
    }
  }

  lemma {:induction false} SeasonsTitleKeys(t: string, seasons: seq<WatchedSeason>, m: nat, s: int, e: int)
    requires m <= |seasons|
    ensures TitleKey(t, s, e) in SeasonsKeys(ByTitle(t), seasons, m) <==>
              exists i | 0 <= i < m :: seasons[i].number == s && SeasonWatched(seasons[i], e)
  {
    if m > 0 {
      SeasonsTitleKeys(t, seasons, m - 1, s, e);
      var last := seasons[m - 1];
      SeasonKeysMember(ByTitle(t), last, |last.episodes|, TitleKey(t, s, e));
    }
  }

  lemma {:induction false} SeasonsKeysAreOfKind(kind: KeyKind, seasons: seq<WatchedSeason>, m: nat, key: EpisodeKey)
    requires m <= |seasons|
    requires key in SeasonsKeys(kind, seasons, m)
    ensures kind.ByTitle? ==> key.TitleKey? && key.title == kind.lowerTitle
    ensures kind.ByTraktId? ==> key.TraktIdKey?
  {
    if key !in SeasonsKeys(kind, seasons, m - 1) {
      var last := seasons[m - 1];
      SeasonKeysMember(kind, last, |last.episodes|, key);
    } else {
      SeasonsKeysAreOfKind(kind, seasons, m - 1, key);
    }
  }

  /**
   * A title key is cached exactly when some show of the snapshot whose lower-cased title
   * is that title has a season with that number holding a watched episode with that number.
   */
  lemma {:induction false} ShowsTitleKeys(shows: seq<WatchedShow>, k: nat, t: string, s: int, e: int)
    requires k <= |shows|
    ensures TitleKey(t, s, e) in ShowsKeys(shows, k) <==>
              exists i | 0 <= i < k :: Lower(shows[i].title) == t && ShowWatched(shows[i], s, e)
  {
    if k > 0 {
      ShowsTitleKeys(shows, k - 1, t, s, e);
      var show := shows[k - 1];
      var key := TitleKey(t, s, e);
      if show.pk.Some? && key in SeasonsKeys(ByTraktId(show.pk.value), show.seasons, |show.seasons|) {
        SeasonsKeysAreOfKind(ByTraktId(show.pk.value), show.seasons, |show.seasons|, key);
      }
      if key in SeasonsKeys(ByTitle(Lower(show.title)), show.seasons, |show.seasons|) {
        SeasonsKeysAreOfKind(ByTitle(Lower(show.title)), show.seasons, |show.seasons|, key);
      }
      SeasonsTitleKeys(t, show.seasons, |show.seasons|, s, e);
    }
  }

  /** A TMDB id is cached exactly when some movie of the snapshot carries it. */
  lemma {:induction false} MovieIdsMember(movies: seq<WatchedMovie>, k: nat, id: int)
    requires k <= |movies|
    ensures id in MovieIds(movies, k) <==> exists i | 0 <= i < k :: movies[i].tmdb == Some(id)
  {
    if k > 0 {
      MovieIdsMember(movies, k - 1, id);
    }
  }
}
