/**
 * `TraktIO` (TraktIO.py:28-568): the watched caches, the two pending buffers, the
 * failed lists and the rate-limit state, with the methods that fill and sync them.
 * The Trakt calls are oracles: a snapshot of the account for the cache, and for the
 * sync one `(batch, attempt) -> Attempt` function per content type plus a clock read
 * before each batch.
 */
module TraktClient {
  import opened Wrappers
  import opened Text
  import opened Batching
  import opened TraktSpec
  import opened WatchedCache

  /** `getData`: the two pending buffers. */
  datatype PendingData = PendingData(movies: seq<HistoryItem>, episodes: seq<HistoryItem>)

  /** `get_failed_items`: the two failed lists. */
  datatype FailedItems = FailedItems(movies: seq<HistoryItem>, episodes: seq<HistoryItem>)

  class TraktIO {
    var watchedEpisodes: set<EpisodeKey>
    var watchedMovies: set<int>
    var episodes: seq<HistoryItem>
    var movies: seq<HistoryItem>
    var failedEpisodes: seq<HistoryItem>
    var failedMovies: seq<HistoryItem>
    var consecutiveRateLimits: nat
    var lastApiCallTime: real
    const pageSize: PageSize
    const dryRun: bool

    /** The fields as `__init__` leaves them (TraktIO.py:48-78); authentication is not modelled. */
    constructor (pageSize: PageSize, dryRun: bool)
      ensures this.pageSize == pageSize && this.dryRun == dryRun
      ensures watchedEpisodes == {} && watchedMovies == {}
      ensures episodes == [] && movies == [] && failedEpisodes == [] && failedMovies == []
      ensures consecutiveRateLimits == 0 && lastApiCallTime == 0.0
    {
      this.pageSize := pageSize;
      this.dryRun := dryRun;
      watchedEpisodes := {};
      watchedMovies := {};
      episodes := [];
      movies := [];
      failedEpisodes := [];
      failedMovies := [];
      consecutiveRateLimits := 0;
      lastApiCallTime := 0.0;
    }

    /**
     * `cacheWatchedHistory` (TraktIO.py:112-204): clear both caches, then add the keys of
     * every watched episode and the TMDB id of every movie; a broken snapshot ends with
     * both caches empty.
     */
    method CacheWatchedHistory(snapshot: Snapshot)
      modifies this`watchedEpisodes, this`watchedMovies
      ensures watchedEpisodes == CachedEpisodes(snapshot)
      ensures watchedMovies == CachedMovies(snapshot)
    {
      watchedEpisodes := {};
      watchedMovies := {};
      if snapshot.Broken? {
        watchedEpisodes := {};
        watchedMovies := {};
        return;
      }
      if snapshot.shows.Some? {
        var shows := snapshot.shows.value;
        var k := 0;
        while k < |shows|
          invariant 0 <= k <= |shows|
          invariant watchedEpisodes == ShowsKeys(shows, k)
          invariant watchedMovies == {}
        {
          var show := shows[k];
          if show.pk.Some? {
            CacheSeasons(ByTraktId(show.pk.value), show.seasons);
          }
          CacheSeasons(ByTitle(Lower(show.title)), show.seasons);
          k := k + 1;
        }
      }
      if snapshot.movies.Some? {
        var ms := snapshot.movies.value;
        var k := 0;
        while k < |ms|
          invariant 0 <= k <= |ms|
          invariant watchedMovies == MovieIds(ms, k)
          invariant watchedEpisodes == CachedEpisodes(snapshot)
        {
          if ms[k].tmdb.Some? {
            watchedMovies := watchedMovies + {ms[k].tmdb.value};
          }
          k := k + 1;
        }
      }
    }

    /** One pass of cacheWatchedHistory over a show's seasons and their watched episodes. */
    method CacheSeasons(kind: KeyKind, seasons: seq<WatchedSeason>)
      modifies this`watchedEpisodes
      ensures watchedEpisodes == old(watchedEpisodes) + SeasonsKeys(kind, seasons, |seasons|)
    {
      var i := 0;
      while i < |seasons|
        invariant 0 <= i <= |seasons|
        invariant watchedEpisodes == old(watchedEpisodes) + SeasonsKeys(kind, seasons, i)
      {
        var season := seasons[i];
        var j := 0;
        while j < |season.episodes|
          invariant 0 <= j <= |season.episodes|
          invariant watchedEpisodes == old(watchedEpisodes) + SeasonsKeys(kind, seasons, i) + SeasonKeys(kind, season, j)
        {
          if season.episodes[j].watched {
            watchedEpisodes := watchedEpisodes + {MakeKey(kind, season.number, season.episodes[j].number)};
          }
          j := j + 1;
        }
        i := i + 1;
      }
    }

    /** `isMovieWatched` (TraktIO.py:224-226). */
    predicate IsMovieWatched(tmdbId: int)
      reads this
    {
      tmdbId in watchedMovies
    }

    /** `isEpisodeWatched` (TraktIO.py:228-243): never for an unknown episode number. */
    predicate IsEpisodeWatched(showName: string, seasonNumber: int, episodeNumber: Option<int>)
      reads this
    {
      episodeNumber.Some? && TitleKey(Lower(showName), seasonNumber, episodeNumber.value) in watchedEpisodes
    }

    /** `addMovie` (TraktIO.py:245-247). */
    method AddMovie(item: HistoryItem)
      modifies this`movies
      ensures movies == old(movies) + [item]
    {
      movies := movies + [item];
    }

    /** `addEpisodeToHistory` (TraktIO.py:249-251). */
    method AddEpisodeToHistory(item: HistoryItem)
      modifies this`episodes
      ensures episodes == old(episodes) + [item]
    {
      episodes := episodes + [item];
    }

    /** `getData` (TraktIO.py:253-255). */
    function GetData(): PendingData
      reads this
    {
      PendingData(movies, episodes)
    }

    /** `get_failed_items` (TraktIO.py:566-568). */
    function GetFailedItems(): FailedItems
      reads this
    {
      FailedItems(failedMovies, failedEpisodes)
    }

    /**
     * `_enforce_rate_limit` (TraktIO.py:257-280) at clock reading `now`: returns how long
     * it sleeps and records the time after the sleep as the last call.
     */
    method EnforceRateLimit(minDelay: real, now: real) returns (slept: real)
      modifies this`lastApiCallTime
      ensures slept == SleepTime(EnforcedDelay(minDelay, consecutiveRateLimits), old(lastApiCallTime), now)
      ensures lastApiCallTime == now + slept
    {
      var delay := minDelay;
      if consecutiveRateLimits > 0 {
        delay := Max(minDelay, RateLimitDelay * (1.0 + consecutiveRateLimits as real * 0.5));
      }
      var elapsed := now - lastApiCallTime;
      slept := 0.0;
      if elapsed < delay {
        slept := delay - elapsed;
      }
      lastApiCallTime := now + slept;
    }

    /**
     * `_sync_batch_with_retry` (TraktIO.py:509-564) for batch `batch`: up to five calls;
     * a None response becomes the "No response" error; every failed call is classified
     * and a rate limit bumps the counter. The classification rule is passed down from
     * Sync, which supplies ClassifyError.
     */
    method SyncBatchWithRetry(remote: (nat, nat) -> Attempt, classify: string -> ErrorClass, batch: nat)
      returns (reply: Option<Reply>)
      modifies this`consecutiveRateLimits
      ensures reply == Retry(remote, classify, batch, old(consecutiveRateLimits)).reply
      ensures consecutiveRateLimits == Retry(remote, classify, batch, old(consecutiveRateLimits)).rateLimits
    {
      var attempt := 0;
      while true
        invariant attempt < MaxRetryAttempts
        invariant RetryFrom(remote, classify, batch, attempt, consecutiveRateLimits)
                  == Retry(remote, classify, batch, old(consecutiveRateLimits))
        decreases MaxRetryAttempts - attempt
      {
        var outcome := remote(batch, attempt);
        var error := AttemptError(outcome);
        if error.None? {
          return Some(outcome.reply);
        }
        ghost var before := consecutiveRateLimits;
        var kind := classify(error.value);
        if kind == RateLimited {
          consecutiveRateLimits := consecutiveRateLimits + 1;
        }
        assert consecutiveRateLimits == CounterAfterError(classify, before, error.value);
        if attempt + 1 == MaxRetryAttempts {
          return None;
        }
        RetryFromStep(remote, classify, batch, attempt, before);
        attempt := attempt + 1;
      }
    }

    /**
     * One page of the batch loop: wait as `_enforce_rate_limit` says, retry the call, then
     * either add the response's counts and reset the counter, or fail the whole page.
     */
    method SyncBatch(before: BatchTotals, batch: seq<HistoryItem>, k: nat, remote: (nat, nat) -> Attempt,
                     classify: string -> ErrorClass, clock: nat -> real, batchDelay: real)
      returns (after: BatchTotals)
      requires before.rateLimits == consecutiveRateLimits && before.lastCall == lastApiCallTime
      modifies this`consecutiveRateLimits, this`lastApiCallTime
      ensures after == BatchStep(before, batch, k, remote, classify, clock, batchDelay)
      ensures consecutiveRateLimits == after.rateLimits && lastApiCallTime == after.lastCall
    {
      var _ := EnforceRateLimit(batchDelay, clock(k));
      var reply := SyncBatchWithRetry(remote, classify, k);
      if reply.Some? && reply.value.Reply? {
        consecutiveRateLimits := 0;
        after := before.(added := before.added + reply.value.added,
                         notFound := before.notFound + reply.value.notFound,
                         updated := before.updated + reply.value.updated,
                         rateLimits := 0, lastCall := lastApiCallTime);
      } else {
        after := before.(failed := before.failed + |batch|, failedItems := before.failedItems + batch,
                         rateLimits := consecutiveRateLimits, lastCall := lastApiCallTime);
      }
    }

    /**
     * The loop shared by `_sync_movies_in_batches` (TraktIO.py:358-412) and
     * `_sync_episodes_in_batches` (TraktIO.py:414-507): page through `items`, wait, retry,
     * and either add the response's counts or fail the whole page.
     */
    method SyncInBatches(items: seq<HistoryItem>, failedSoFar: seq<HistoryItem>, remote: (nat, nat) -> Attempt,
                         classify: string -> ErrorClass, clock: nat -> real, batchDelay: real)
      returns (totals: BatchTotals)
      modifies this`consecutiveRateLimits, this`lastApiCallTime
      ensures totals == SyncedInBatches(items, pageSize,
                                        StartTotals(failedSoFar, old(consecutiveRateLimits), old(lastApiCallTime)),
                                        remote, classify, clock, batchDelay)
      ensures consecutiveRateLimits == totals.rateLimits && lastApiCallTime == totals.lastCall
    {
      var acc0 := StartTotals(failedSoFar, consecutiveRateLimits, lastApiCallTime);
      ghost var batches := Batches(items, pageSize);
      totals := acc0;
      var i, k := 0, 0;
      while i < |items|
        invariant i == Scaled(k, pageSize) && (k == 0 || Scaled(k - 1, pageSize) < |items|)
        invariant k <= |batches|
        invariant totals == RunBatches(batches, k, acc0, remote, classify, clock, batchDelay)
        invariant consecutiveRateLimits == totals.rateLimits && lastApiCallTime == totals.lastCall
      {
        BatchAt(items, pageSize, k);
        var batch := items[i..Min(i + pageSize, |items|)];
        assert batch == batches[k];
        ghost var prev := totals;
        totals := SyncBatch(totals, batch, k, remote, classify, clock, batchDelay);
        assert totals == RunBatches(batches, k + 1, acc0, remote, classify, clock, batchDelay) by {
          assert RunBatches(batches, k + 1, acc0, remote, classify, clock, batchDelay)
                 == BatchStep(prev, batches[k], k, remote, classify, clock, batchDelay);
        }
        assert Scaled(k + 1, pageSize) == i + pageSize;
        i, k := i + pageSize, k + 1;
      }
      BatchesExhausted(items, pageSize, k);
    }

    /**
     * `sync` (TraktIO.py:282-356). A dry run reports the buffer lengths and changes
     * nothing; a live run syncs the movies, then the episodes, each only when queued, and
     * appends each failed page to its failed list.
     */
    method Sync(movieRemote: (nat, nat) -> Attempt, episodeRemote: (nat, nat) -> Attempt,
                movieClock: nat -> real, episodeClock: nat -> real, batchDelay: real) returns (report: SyncReport)
      modifies this`failedMovies, this`failedEpisodes, this`consecutiveRateLimits, this`lastApiCallTime
      ensures dryRun ==> report == DryRunReport(|movies|, |episodes|) && unchanged(this)
      ensures !dryRun ==>
        var (m, e) := LiveSync(movies, episodes, pageSize, old(failedMovies), old(failedEpisodes),
                               old(consecutiveRateLimits), old(lastApiCallTime),
                               movieRemote, episodeRemote, ClassifyError, movieClock, episodeClock, batchDelay);
        && report == SyncReport(ReportOf(m), ReportOf(e))
        && failedMovies == m.failedItems && failedEpisodes == e.failedItems
        && consecutiveRateLimits == e.rateLimits && lastApiCallTime == e.lastCall
    {
      if dryRun {
        return DryRunReport(|movies|, |episodes|);
      }
      var m := StartTotals(failedMovies, consecutiveRateLimits, lastApiCallTime);
      if movies != [] {
        m := SyncInBatches(movies, failedMovies, movieRemote, ClassifyError, movieClock, batchDelay);
        failedMovies := m.failedItems;
      }
      var e := StartTotals(failedEpisodes, consecutiveRateLimits, lastApiCallTime);
      if episodes != [] {
        e := SyncInBatches(episodes, failedEpisodes, episodeRemote, ClassifyError, episodeClock, batchDelay);
        failedEpisodes := e.failedItems;
      }
      report := SyncReport(ReportOf(m), ReportOf(e));
    }
  }

  /** After caching, a movie is reported watched exactly when the snapshot's movie list carries its TMDB id. */
  lemma CachedMovieWatched(snapshot: Snapshot, tmdbId: int)
    ensures tmdbId in CachedMovies(snapshot) <==>
              snapshot.Snapshot? && snapshot.movies.Some?
              && exists i | 0 <= i < |snapshot.movies.value| :: snapshot.movies.value[i].tmdb == Some(tmdbId)
  {
    if snapshot.Snapshot? && snapshot.movies.Some? {
      MovieIdsMember(snapshot.movies.value, |snapshot.movies.value|, tmdbId);
    }
  }

  /**
   * After caching, an episode with a known number is reported watched exactly when some
   * snapshot show with the same lower-cased title marks that season and episode watched.
   */
  lemma CachedEpisodeWatched(snapshot: Snapshot, showName: string, seasonNumber: int, episodeNumber: int)
    ensures TitleKey(Lower(showName), seasonNumber, episodeNumber) in CachedEpisodes(snapshot) <==>
              snapshot.Snapshot? && snapshot.shows.Some?
              && exists i | 0 <= i < |snapshot.shows.value| ::
                   Lower(snapshot.shows.value[i].title) == Lower(showName)
                   && ShowWatched(snapshot.shows.value[i], seasonNumber, episodeNumber)
  {
    if snapshot.Snapshot? && snapshot.shows.Some? {
      ShowsTitleKeys(snapshot.shows.value, |snapshot.shows.value|, Lower(showName), seasonNumber, episodeNumber);
    }
  }

  /**
   * The two queries on a client whose caches hold a snapshot: an episode without a
   * number is never watched, one with a number is watched exactly when the snapshot
   * marks it so, and a movie is watched exactly when the snapshot lists its TMDB id.
   */
  lemma WatchedQueriesAfterCache(t: TraktIO, snapshot: Snapshot, showName: string, seasonNumber: int,
                                 episodeNumber: Option<int>, tmdbId: int)
    requires t.watchedEpisodes == CachedEpisodes(snapshot) && t.watchedMovies == CachedMovies(snapshot)
    ensures t.IsEpisodeWatched(showName, seasonNumber, episodeNumber) <==>
              && episodeNumber.Some? && snapshot.Snapshot? && snapshot.shows.Some?
              && exists i | 0 <= i < |snapshot.shows.value| ::
                   Lower(snapshot.shows.value[i].title) == Lower(showName)
                   && ShowWatched(snapshot.shows.value[i], seasonNumber, episodeNumber.value)
    ensures t.IsMovieWatched(tmdbId) <==>
              snapshot.Snapshot? && snapshot.movies.Some?
              && exists i | 0 <= i < |snapshot.movies.value| :: snapshot.movies.value[i].tmdb == Some(tmdbId)
  {
    if episodeNumber.Some? {
      CachedEpisodeWatched(snapshot, showName, seasonNumber, episodeNumber.value);
    }
    CachedMovieWatched(snapshot, tmdbId);
  }
}
