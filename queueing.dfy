/**
 * `addShowToTrakt` and `addMovieToTrakt` (netflix2trakt.py:314-351): turn matched episodes
 * and movies into history entries in the TraktIO buffers, one per watch timestamp,
 * skipping what has no TMDB id or is already watched on Trakt.
 */
module Queueing {
  import opened Wrappers
  import opened Text
  import opened Media
  import opened TraktSpec
  import opened WatchedCache
  import opened TraktClient

  /** The entries of one episode: `{"watched_at": t, "ids": {"tmdb": id}}` per timestamp. */
  function EpisodeItems(episode: Episode): (r: seq<HistoryItem>)
    ensures |r| == |episode.watchedAt|
    ensures forall i :: 0 <= i < |r| ==> r[i] == HistoryItem(None, episode.watchedAt[i], episode.tmdbId)
  {
    seq(|episode.watchedAt|, i requires 0 <= i < |episode.watchedAt| =>
      HistoryItem(None, episode.watchedAt[i], episode.tmdbId))
  }

  /** An episode is queued when it has a usable id and is not known watched (an unknown number is never known). */
  predicate EpisodeQueued(showName: string, seasonNumber: int, episode: Episode, watched: set<EpisodeKey>) {
    HasTmdbId(episode.tmdbId)
    && !(episode.number.Some? && TitleKey(Lower(showName), seasonNumber, episode.number.value) in watched)
  }

  /** The entries of the first `n` episodes of a season. */
  function SeasonItems(showName: string, season: Season, watched: set<EpisodeKey>, n: nat): seq<HistoryItem>
    requires n <= |season.episodes|
  {
    if n == 0 then []
    else SeasonItems(showName, season, watched, n - 1)
         + (if EpisodeQueued(showName, season.number, season.episodes[n - 1], watched)
            then EpisodeItems(season.episodes[n - 1]) else [])
  }

  /** The entries of the first `m` seasons of a show. */
  function ShowItems(show: TvShow, watched: set<EpisodeKey>, m: nat): seq<HistoryItem>
    requires m <= |show.seasons|
  {
    if m == 0 then []
    else ShowItems(show, watched, m - 1)
         + SeasonItems(show.name, show.seasons[m - 1], watched, |show.seasons[m - 1].episodes|)
  }

  /** The item stands for one timestamp of a queued episode of the season. */
  predicate SeasonQueues(showName: string, season: Season, watched: set<EpisodeKey>, item: HistoryItem) {
    exists j | 0 <= j < |season.episodes| ::
      && EpisodeQueued(showName, season.number, season.episodes[j], watched)
      && item == HistoryItem(None, item.watchedAt, season.episodes[j].tmdbId)
      && item.watchedAt in season.episodes[j].watchedAt
  }

  lemma {:induction false} SeasonItemsMember(showName: string, season: Season, watched: set<EpisodeKey>, n: nat,
                                             item: HistoryItem)
    requires n <= |season.episodes|
    ensures item in SeasonItems(showName, season, watched, n) <==>
              exists j | 0 <= j < n ::
                && EpisodeQueued(showName, season.number, season.episodes[j], watched)
                && item == HistoryItem(None, item.watchedAt, season.episodes[j].tmdbId)
                && item.watchedAt in season.episodes[j].watchedAt
  {
    if n > 0 {
      SeasonItemsMember(showName, season, watched, n - 1, item);
      var e := season.episodes[n - 1];
      if item in EpisodeItems(e) {
        var t :| 0 <= t < |e.watchedAt| && EpisodeItems(e)[t] == item;
      }
      if item == HistoryItem(None, item.watchedAt, e.tmdbId) && item.watchedAt in e.watchedAt {
        var t :| 0 <= t < |e.watchedAt| && e.watchedAt[t] == item.watchedAt;
        assert EpisodeItems(e)[t] == item;
      }
    }
  }

  /**
   * The entries addShowToTrakt queues are exactly one per timestamp of each episode that
   * has a usable TMDB id and is not known watched, and each carries that episode's id.
   */
  lemma {:induction false} ShowItemsMember(show: TvShow, watched: set<EpisodeKey>, m: nat, item: HistoryItem)
    requires m <= |show.seasons|
    ensures item in ShowItems(show, watched, m) <==>
              exists i | 0 <= i < m :: SeasonQueues(show.name, show.seasons[i], watched, item)
  {
    if m > 0 {
      ShowItemsMember(show, watched, m - 1, item);
      var s := show.seasons[m - 1];
      SeasonItemsMember(show.name, s, watched, |s.episodes|, item);
      var last := SeasonItems(show.name, s, watched, |s.episodes|);
      assert item in last <==> SeasonQueues(show.name, s, watched, item);
      assert item in ShowItems(show, watched, m) <==> item in ShowItems(show, watched, m - 1) || item in last;
    }
  }

  /** Every queued episode entry carries a usable TMDB id. */
  lemma ShowItemsHaveIds(show: TvShow, watched: set<EpisodeKey>, item: HistoryItem)
    requires item in ShowItems(show, watched, |show.seasons|)
    ensures HasTmdbId(item.tmdb) && item.title.None?
  {
    ShowItemsMember(show, watched, |show.seasons|, item);
  }

  /**
   * An episode that the Trakt snapshot marks watched under the same lower-cased show title,
   * season and number is not queued once the cache has been built from that snapshot.
   */
  lemma SnapshotWatchedNotQueued(snapshot: Snapshot, show: TvShow, season: Season, episode: Episode, k: nat)
    requires snapshot.Snapshot? && snapshot.shows.Some? && k < |snapshot.shows.value|
    requires Lower(snapshot.shows.value[k].title) == Lower(show.name)
    requires episode.number.Some? && ShowWatched(snapshot.shows.value[k], season.number, episode.number.value)
    ensures !EpisodeQueued(show.name, season.number, episode, CachedEpisodes(snapshot))
  {
    CachedEpisodeWatched(snapshot, show.name, season.number, episode.number.value);
  }

  /** `addShowToTrakt` (netflix2trakt.py:314-334). */
  method AddShowToTrakt(show: TvShow, trakt: TraktIO)
    modifies trakt`episodes
    ensures trakt.episodes == old(trakt.episodes) + ShowItems(show, trakt.watchedEpisodes, |show.seasons|)
  {
    var i := 0;
    while i < |show.seasons|
      invariant 0 <= i <= |show.seasons|
      invariant trakt.episodes == old(trakt.episodes) + ShowItems(show, trakt.watchedEpisodes, i)
    {
      var season := show.seasons[i];
      var j := 0;
      while j < |season.episodes|
        invariant 0 <= j <= |season.episodes|
        invariant trakt.episodes == old(trakt.episodes) + ShowItems(show, trakt.watchedEpisodes, i)
                                    + SeasonItems(show.name, season, trakt.watchedEpisodes, j)
      {
        var episode := season.episodes[j];
        var skip := !HasTmdbId(episode.tmdbId)
                    || (episode.number.Some? && trakt.IsEpisodeWatched(show.name, season.number, episode.number));
        if !skip {
          var t := 0;
          while t < |episode.watchedAt|
            invariant 0 <= t <= |episode.watchedAt|
            invariant trakt.episodes == old(trakt.episodes) + ShowItems(show, trakt.watchedEpisodes, i)
                                        + SeasonItems(show.name, season, trakt.watchedEpisodes, j)
                                        + EpisodeItems(episode)[..t]
          {
            trakt.AddEpisodeToHistory(HistoryItem(None, episode.watchedAt[t], episode.tmdbId));
            assert EpisodeItems(episode)[..t + 1] == EpisodeItems(episode)[..t] + [EpisodeItems(episode)[t]];
            t := t + 1;
          }
          assert EpisodeItems(episode)[..t] == EpisodeItems(episode);
        }
        j := j + 1;
      }
      i := i + 1;
    }
  }

  // addMovieToTrakt

  /** What addMovieToTrakt does to one movie. */
  datatype MovieOutcome = Queued(items: seq<HistoryItem>) | RaisedAttributeError

  /**
   * addMovieToTrakt as written (netflix2trakt.py:337-351): with a usable id it first calls
   * `traktIO.isWatchedMovie`, a method TraktIO does not define, so it raises before
   * queueing anything; without one it queues nothing. The AttributeError is not the
   * TMDbException getMovieInformation catches (line 305) and main has no handler, so the
   * run ends there and syncToTrakt never sends what was queued before.
   */
  function MovieOutcomeAsWritten(movie: Movie): (r: MovieOutcome)
    ensures r.Queued? ==> r.items == []
  {
    if HasTmdbId(movie.tmdbId) then RaisedAttributeError else Queued([])
  }

  /**
   * addMovieToTrakt calling `isMovieWatched` (TraktIO.py:224-226), as evidently intended:
   * a movie with a usable id that is not known watched is queued once per timestamp, with
   * its title.
   */
  function MovieItems(movie: Movie, watchedMovies: set<int>): (r: seq<HistoryItem>)
    ensures HasTmdbId(movie.tmdbId) && movie.tmdbId.value !in watchedMovies ==>
              |r| == |movie.watchedAt|
              && forall i :: 0 <= i < |r| ==> r[i] == HistoryItem(Some(movie.name), movie.watchedAt[i], movie.tmdbId)
    ensures !(HasTmdbId(movie.tmdbId) && movie.tmdbId.value !in watchedMovies) ==> r == []
  {
    if HasTmdbId(movie.tmdbId) && movie.tmdbId.value !in watchedMovies then
      seq(|movie.watchedAt|, i requires 0 <= i < |movie.watchedAt| =>
        HistoryItem(Some(movie.name), movie.watchedAt[i], movie.tmdbId))
    else []
  }

  /**
   * The misspelt method name loses every movie that could be queued: where the intended
   * version queues one entry per timestamp, the code as written raises and queues none.
   */
  lemma MovieLookupNameMismatch(movie: Movie, watchedMovies: set<int>)
    requires HasTmdbId(movie.tmdbId) && movie.tmdbId.value !in watchedMovies && movie.watchedAt != []
    ensures MovieOutcomeAsWritten(movie) == RaisedAttributeError
    ensures |MovieItems(movie, watchedMovies)| == |movie.watchedAt| > 0
  {
  }

  /** A concrete movie on which the two versions differ. */
  lemma MovieLookupNameMismatchExample()
    ensures MovieOutcomeAsWritten(Movie("Heat", ["1995-12-15T00:00:00.00Z"], Some(949))) == RaisedAttributeError
    ensures MovieItems(Movie("Heat", ["1995-12-15T00:00:00.00Z"], Some(949)), {})
            == [HistoryItem(Some("Heat"), "1995-12-15T00:00:00.00Z", Some(949))]
  {
  }

  /** addMovieToTrakt with the intended `isMovieWatched` call. */
  method AddMovieToTrakt(movie: Movie, trakt: TraktIO)
    modifies trakt`movies
    ensures trakt.movies == old(trakt.movies) + MovieItems(movie, trakt.watchedMovies)
  {
    if HasTmdbId(movie.tmdbId) {
      if trakt.IsMovieWatched(movie.tmdbId.value) {
        return;
      }
      ghost var items := MovieItems(movie, trakt.watchedMovies);
      var t := 0;
      while t < |movie.watchedAt|
        invariant 0 <= t <= |movie.watchedAt|
        invariant trakt.movies == old(trakt.movies) + items[..t]
      {
        trakt.AddMovie(HistoryItem(Some(movie.name), movie.watchedAt[t], movie.tmdbId));
        assert items[..t + 1] == items[..t] + [items[t]];
        t := t + 1;
      }
      assert items[..t] == items;
    }
  }
}
