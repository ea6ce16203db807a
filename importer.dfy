/**
 * The driver of netflix2trakt.py: reading the viewing-history rows into a
 * NetflixTvHistory (getNetflixHistory, lines 127-154), reporting submitted titles that
 * the Trakt response does not acknowledge (dump_uncategorized_titles, lines 157-195) and
 * the counts syncToTrakt prints (lines 354-398).
 */
module Importer {
  import opened Wrappers
  import opened Text
  import opened Search
  import opened Batching
  import opened Media
  import opened Classifier
  import opened HistorySpec
  import HistoryProperties
  import opened NetflixHistory
  import opened TraktSpec
  import opened TraktClient

  // Loading the viewing history.

  /** One CSV record: the `Title` and `Date` columns (a missing column reads as ""). */
  datatype Row = Row(title: string, date: string)

  /** The history after addEntry has been applied to the first `n` rows. */
  function RowsAdded(st: HistoryState, m: TitleMatchers, p: DateParser, rows: seq<Row>, n: nat): HistoryState
    requires n <= |rows|
  {
    if n == 0 then st else EntryAdded(RowsAdded(st, m, p, rows, n - 1), m, p, rows[n - 1].title, rows[n - 1].date)
  }

  /** getNetflixHistory as written: skip the first row, add every other one, and stop there. */
  function HistoryAsWritten(m: TitleMatchers, p: DateParser, rows: seq<Row>): HistoryState {
    if rows == [] then EmptyHistory else RowsAdded(EmptyHistory, m, p, rows[1..], |rows| - 1)
  }

  /** getNetflixHistory followed by the resolveAmbiguousEntries pass its records are meant to get. */
  function HistoryResolved(m: TitleMatchers, p: DateParser, rows: seq<Row>): HistoryState {
    AmbiguousResolved(HistoryAsWritten(m, p, rows), p)
  }

  lemma {:induction false} RowsAddedKeepsValid(st: HistoryState, m: TitleMatchers, p: DateParser, rows: seq<Row>, n: nat)
    requires n <= |rows| && Valid(st)
    ensures Valid(RowsAdded(st, m, p, rows, n))
  {
    if n > 0 {
      var j := n - 1;
      RowsAddedKeepsValid(st, m, p, rows, j);
      RowAddedKeepsValid(st, m, p, rows, j);
    }
  }

  /** The inductive step of RowsAddedKeepsValid: adding row `j` keeps the history valid. */
  lemma RowAddedKeepsValid(st: HistoryState, m: TitleMatchers, p: DateParser, rows: seq<Row>, j: nat)
    requires j < |rows| && Valid(RowsAdded(st, m, p, rows, j))
    ensures Valid(RowsAdded(st, m, p, rows, j + 1))
  {
    HistoryProperties.EntryKeepsValid(RowsAdded(st, m, p, rows, j), m, p, rows[j].title, rows[j].date);
  }

  /** Whatever the file holds, the loaded history has no duplicated show, movie, season, episode or timestamp. */
  lemma HistoryAsWrittenValid(m: TitleMatchers, p: DateParser, rows: seq<Row>)
    ensures Valid(HistoryAsWritten(m, p, rows))
  {
    if rows != [] {
      RowsAddedKeepsValid(EmptyHistory, m, p, rows[1..], |rows| - 1);
    }
  }

  /** With the resolution pass nothing stays parked, and the history is still free of duplicates. */
  lemma HistoryResolvedOutcome(m: TitleMatchers, p: DateParser, rows: seq<Row>)
    ensures HistoryResolved(m, p, rows).pending == []
    ensures Valid(HistoryResolved(m, p, rows))
  {
    HistoryAsWrittenValid(m, p, rows);
    HistoryProperties.AmbiguousResolvedOutcome(HistoryAsWritten(m, p, rows), p);
  }

  /**
   * As written, a file whose only record is an uncertain "A: B" title loads as no show and
   * no movie at all: the record stays in the ambiguity queue and never reaches Trakt.
   */
  lemma UncertainRowStaysParked(m: TitleMatchers, p: DateParser, header: Row, row: Row)
    requires RouteOf(m, {}, row.title).PendingRoute?
    ensures var r := RouteOf(m, {}, row.title);
      HistoryAsWritten(m, p, [header, row])
        == EmptyHistory.(pending := [PendingEntry(row.title, r.show, r.episode, row.date)])
  {
    assert [header, row][1..] == [row];
    assert RowsAdded(EmptyHistory, m, p, [row], 1) == EntryAdded(EmptyHistory, m, p, row.title, row.date);
  }

  /** With the resolution pass the same record becomes a movie under its full title. */
  lemma UncertainRowResolved(m: TitleMatchers, p: DateParser, header: Row, row: Row)
    requires RouteOf(m, {}, row.title).PendingRoute?
    requires !IsRejectedDate(row.date) && ParseWatchedDate(p, row.date).Some?
    ensures HistoryResolved(m, p, [header, row]).pending == []
    ensures HistoryResolved(m, p, [header, row]).shows == []
    ensures HistoryResolved(m, p, [header, row]).movies == [Movie(row.title, [ParseWatchedDate(p, row.date).value], None)]
  {
    UncertainRowStaysParked(m, p, header, row);
    var r := RouteOf(m, {}, row.title);
    var e := PendingEntry(row.title, r.show, r.episode, row.date);
    var st := EmptyHistory.(pending := [e]);
    assert !ResolvesAsEpisode(st, [e], e) by {
      assert [e][1..] == [];
      assert Frequency([e], e.showName) == 1;
    }
    var (stamps, ok) := StampsAdded([], row.date, p);
    assert stamps == [ParseWatchedDate(p, row.date).value] by {
      assert ParseWatchedDate(p, row.date).value in (set t | t in stamps);
    }
    assert IndexOf(MovieNames(st.movies), row.title).None?;
    assert MovieEntryAdded(st, p, row.title, row.date) == st.(movies := [Movie(row.title, stamps, None)]);
    assert ResolvedPrefix(st, p, [e], 1) == ResolveOne(st, p, e, false);
  }

  /** getNetflixHistory (netflix2trakt.py:127-154) as written. */
  method GetNetflixHistoryAsWritten(m: TitleMatchers, p: DateParser, rows: seq<Row>) returns (h: NetflixTvHistory)
    ensures fresh(h) && h.matchers == m && h.parser == p
    ensures h.State() == HistoryAsWritten(m, p, rows)
  {
    h := new NetflixTvHistory(m, p);
    if rows == [] {
      return;
    }
    var i := 1;
    while i < |rows|
      invariant 1 <= i <= |rows|
      invariant h.State() == RowsAdded(EmptyHistory, m, p, rows[1..], i - 1)
    {
      assert rows[1..][i - 1] == rows[i];
      var _ := h.AddEntry(rows[i].title, rows[i].date);
      i := i + 1;
    }
  }

  /** getNetflixHistory with the resolution pass the history class provides for it. */
  method GetNetflixHistory(m: TitleMatchers, p: DateParser, rows: seq<Row>) returns (h: NetflixTvHistory)
    ensures fresh(h) && h.State() == HistoryResolved(m, p, rows)
  {
    h := GetNetflixHistoryAsWritten(m, p, rows);
    h.ResolveAmbiguousEntries();
  }

  // The Trakt response as dump_uncategorized_titles reads it.

  /** An acknowledged entry: its `title`, and the `title` of its `show` (absent or not a string: None). */
  datatype Ack = Ack(title: Option<string>, showTitle: Option<string>)

  /** The value under "movies", "episodes" or "shows" of a response section. */
  datatype Field = Absent | IntCount(count: int) | Entries(items: seq<Ack>) | OtherValue

  datatype Section = Section(movies: Field, episodes: Field, shows: Field)

  /** The value under "added", "updated" or "not_found". */
  datatype Bucket = Missing | Dict(section: Section) | NotADict

  /** A falsy response (None or an empty dict), or a dict with its three sections. */
  datatype Response = NoResponse | Response(added: Bucket, updated: Bucket, notFound: Bucket)

  /** `title or show.title or "UNKNOWN"`: an empty string is falsy. */
  function AckTitle(a: Ack): (t: string)
    ensures t != ""
    ensures a.title.Some? && a.title.value != "" ==> t == a.title.value
    ensures !(a.title.Some? && a.title.value != "") && a.showTitle.Some? && a.showTitle.value != "" ==>
              t == a.showTitle.value
    ensures !(a.title.Some? && a.title.value != "") && !(a.showTitle.Some? && a.showTitle.value != "") ==>
              t == "UNKNOWN"
  {
    if a.title.Some? && a.title.value != "" then a.title.value
    else if a.showTitle.Some? && a.showTitle.value != "" then a.showTitle.value
    else "UNKNOWN"
  }

  /** `t.lower().strip()`, the form in which titles are compared. */
  function Normalized(t: string): string {
    Strip(Lower(t))
  }

  function FieldAcks(f: Field): seq<Ack> {
    if f.Entries? then f.items else []
  }

  function BucketAcks(b: Bucket): seq<Ack> {
    if b.Dict? then FieldAcks(b.section.movies) + FieldAcks(b.section.episodes) + FieldAcks(b.section.shows) else []
  }

  /** Every entry that the nested loops visit: lists under every kind of every section that is a dict. */
  function Acks(r: Response): seq<Ack>
    requires r.Response?
  {
    BucketAcks(r.added) + BucketAcks(r.updated) + BucketAcks(r.notFound)
  }

  /** The normalized titles of the visited entries (`known_titles`). */
  function KnownTitles(r: Response): set<string>
    requires r.Response?
  {
    set a | a in Acks(r) :: Normalized(AckTitle(a))
  }

  /** The submitted titles, in order and with their repeats, whose normalized form is not acknowledged. */
  function Unacknowledged(submitted: seq<string>, known: set<string>): (u: seq<string>)
    ensures forall t :: t in u <==> t in submitted && Normalized(t) !in known
    ensures forall t :: multiset(u)[t] == if Normalized(t) !in known then multiset(submitted)[t] else 0
    ensures |u| <= |submitted|
  {
    if submitted == [] then []
    else
      assert submitted == [submitted[0]] + submitted[1..];
      (if Normalized(submitted[0]) !in known then [submitted[0]] else []) + Unacknowledged(submitted[1..], known)
  }

  /** What dump_uncategorized_titles does. */
  datatype Categorized =
    | NothingToCategorize
    | AggregateOnly
    | AddedNotADict
    | Unknown(titles: seq<string>)

  predicate IsCount(f: Field) {
    f.IntCount?
  }

  /**
   * dump_uncategorized_titles (netflix2trakt.py:157-195): no report for a falsy response or
   * for one whose "added" section holds an integer count; `.get` on an "added" value that
   * is not a dict raises; otherwise the submitted titles that no entry acknowledges.
   */
  function Categorize(submitted: seq<string>, r: Response): (c: Categorized)
    ensures c.Unknown? <==>
              r.Response? && !r.added.NotADict?
              && !(r.added.Dict? && (IsCount(r.added.section.movies) || IsCount(r.added.section.episodes)
                                     || IsCount(r.added.section.shows)))
    ensures c.Unknown? ==> forall t :: t in c.titles <==> t in submitted && Normalized(t) !in KnownTitles(r)
    ensures c.Unknown? ==>
              forall t :: multiset(c.titles)[t] == if Normalized(t) !in KnownTitles(r) then multiset(submitted)[t] else 0
  {
    if r.NoResponse? then NothingToCategorize
    else if r.added.NotADict? then AddedNotADict
    else if r.added.Dict? && (IsCount(r.added.section.movies) || IsCount(r.added.section.episodes)
                              || IsCount(r.added.section.shows)) then AggregateOnly
    else Unknown(Unacknowledged(submitted, KnownTitles(r)))
  }

  // The response TraktIO.sync returns.

  function AckOf(item: HistoryItem): Ack {
    Ack(item.title, None)
  }

  function EntriesOf(items: seq<HistoryItem>): (f: Field)
    ensures f.Entries? && |f.items| == |items|
  {
    Entries(seq(|items|, i requires 0 <= i < |items| => AckOf(items[i])))
  }

  /** The dict `sync` returns, as dump_uncategorized_titles reads it ("failed" is not read). */
  function ResponseOf(report: SyncReport): Response {
    Response(
      Dict(Section(IntCount(report.movies.added), IntCount(report.episodes.added), Absent)),
      Dict(Section(EntriesOf(report.movies.updated), EntriesOf(report.episodes.updated), Absent)),
      Dict(Section(EntriesOf(report.movies.notFound), EntriesOf(report.episodes.notFound), Entries([]))))
  }

  /**
   * TraktIO.sync always reports integer "added" counts, so the title analysis never runs
   * on its response: the unacknowledged-titles report can never be produced.
   */
  lemma SyncResponseIsAggregate(submitted: seq<string>, report: SyncReport)
    ensures Categorize(submitted, ResponseOf(report)) == AggregateOnly
  {
  }

  // The counts syncToTrakt prints.

  /** `e.get("title", default)`: the default only when the key is missing. */
  function SubmittedTitles(items: seq<HistoryItem>, default: string): (r: seq<string>)
    ensures |r| == |items|
    ensures forall i :: 0 <= i < |items| ==> r[i] == (if items[i].title.Some? then items[i].title.value else default)
  {
    seq(|items|, i requires 0 <= i < |items| => if items[i].title.Some? then items[i].title.value else default)
  }

  /** `len(x) if isinstance(x, list) else int(x)` for the value under an "added" key (missing: 0). */
  function AddedCount(f: Field): (n: Option<int>)
    ensures f.Absent? ==> n == Some(0)
    ensures f.IntCount? ==> n == Some(f.count)
    ensures f.Entries? ==> n == Some(|f.items|)
    ensures f.OtherValue? ==> n.None?
  {
    match f
    case Absent => Some(0)
    case IntCount(c) => Some(c)
    case Entries(items) => Some(|items|)
    case OtherValue => None
  }

  /** The two numbers printed as "Skipped (already watched / duplicate)": submitted minus added. */
  function SkippedAsWritten(data: PendingData, report: SyncReport): (r: (int, int))
    ensures r.0 + report.movies.added == |data.movies| && r.1 + report.episodes.added == |data.episodes|
  {
    var added := ResponseOf(report).added.section;
    var movieTitles := SubmittedTitles(data.movies, "UNKNOWN_MOVIE");
    var episodeTitles := SubmittedTitles(data.episodes, "UNKNOWN_EPISODE");
    (|movieTitles| - AddedCount(added.movies).value, |episodeTitles| - AddedCount(added.episodes).value)
  }

  /** Submitted minus added minus failed, as TraktIO's own result log computes it (TraktIO.py:334-343). */
  function Skipped(data: PendingData, report: SyncReport): (r: (int, int))
    ensures r.0 + report.movies.added + report.movies.failed == |data.movies|
    ensures r.1 + report.episodes.added + report.episodes.failed == |data.episodes|
  {
    (|data.movies| - report.movies.added - report.movies.failed,
     |data.episodes| - report.episodes.added - report.episodes.failed)
  }

  /** A dry run reports every queued item as added, so neither count skips anything. */
  lemma DryRunSkipsNothing(data: PendingData)
    ensures SkippedAsWritten(data, DryRunReport(|data.movies|, |data.episodes|)) == (0, 0)
    ensures Skipped(data, DryRunReport(|data.movies|, |data.episodes|)) == (0, 0)
  {
  }

  lemma {:induction false} SyncedWhileDown(items: seq<HistoryItem>, pageSize: PageSize, acc0: BatchTotals,
                                           remote: (nat, nat) -> Attempt, classify: string -> ErrorClass,
                                           clock: nat -> real, minDelay: real)
    requires forall b, a :: remote(b, a).Raises?
    ensures var acc := SyncedInBatches(items, pageSize, acc0, remote, classify, clock, minDelay);
      acc.added == acc0.added && acc.failed == acc0.failed + |items|
  {
    var batches := Batches(items, pageSize);
    RemoteDownFailsEverything(batches, |batches|, acc0, remote, classify, clock, minDelay);
    BatchesPartition(items, pageSize);
    JoinedAll(batches);
  }

  /** The report of a live TraktIO.sync over the buffers `data`. */
  function LiveReport(data: PendingData, pageSize: PageSize, failed: FailedItems, rateLimits: nat, lastCall: real,
                      movieRemote: (nat, nat) -> Attempt, episodeRemote: (nat, nat) -> Attempt,
                      classify: string -> ErrorClass, movieClock: nat -> real, episodeClock: nat -> real, batchDelay: real): SyncReport
  {
    var (m, e) := LiveSync(data.movies, data.episodes, pageSize, failed.movies, failed.episodes, rateLimits, lastCall,
                           movieRemote, episodeRemote, classify, movieClock, episodeClock, batchDelay);
    SyncReport(ReportOf(m), ReportOf(e))
  }

  /**
   * When Trakt is down for the whole run, every queued item fails, and the printed
   * "skipped (already watched / duplicate)" counts are the whole buffers, whereas the
   * counts with failures taken out are zero.
   */
  lemma OutageReportedAsSkipped(data: PendingData, pageSize: PageSize, failed: FailedItems, rateLimits: nat,
                                lastCall: real, movieRemote: (nat, nat) -> Attempt, episodeRemote: (nat, nat) -> Attempt,
                                classify: string -> ErrorClass, movieClock: nat -> real, episodeClock: nat -> real,
                                batchDelay: real)
    requires forall b, a :: movieRemote(b, a).Raises?
    requires forall b, a :: episodeRemote(b, a).Raises?
    ensures var report := LiveReport(data, pageSize, failed, rateLimits, lastCall, movieRemote, episodeRemote,
                                     classify, movieClock, episodeClock, batchDelay);
      && report.movies.failed == |data.movies| && report.episodes.failed == |data.episodes|
      && SkippedAsWritten(data, report) == (|data.movies|, |data.episodes|)
      && Skipped(data, report) == (0, 0)
  {
    var (m, e) := LiveSync(data.movies, data.episodes, pageSize, failed.movies, failed.episodes, rateLimits, lastCall,
                           movieRemote, episodeRemote, classify, movieClock, episodeClock, batchDelay);
    var m0 := StartTotals(failed.movies, rateLimits, lastCall);
    SyncedWhileDown(data.movies, pageSize, m0, movieRemote, classify, movieClock, batchDelay);
    var e0 := StartTotals(failed.episodes, m.rateLimits, m.lastCall);
    SyncedWhileDown(data.episodes, pageSize, e0, episodeRemote, classify, episodeClock, batchDelay);
  }

  /** The row `append_not_found` gets for a not-found movie: `title or "UNKNOWN_MOVIE"`. */
  function RecordedTitle(title: Option<string>): (r: string)
    ensures r != ""
    ensures title.Some? && title.value != "" ==> r == title.value
    ensures title.None? || title.value == "" ==> r == "UNKNOWN_MOVIE"
  {
    if title.Some? && title.value != "" then title.value else "UNKNOWN_MOVIE"
  }

  /** The rows syncToTrakt records from the report's "not_found" movies, one per entry, in order. */
  function NotFoundMovieTitles(report: SyncReport): (r: seq<string>)
    ensures |r| == |report.movies.notFound|
    ensures forall i :: 0 <= i < |r| ==> r[i] != ""
    ensures forall i :: 0 <= i < |r| ==> r[i] == RecordedTitle(report.movies.notFound[i].title)
  {
    var items := report.movies.notFound;
    seq(|items|, i requires 0 <= i < |items| => RecordedTitle(items[i].title))
  }

  /**
   * What a live sync leaves in `not_found.csv`: one row per not-found movie in the replies
   * of the movie batches that succeeded, in batch order, and none when no movie was queued
   * or every movie batch failed. The report's "shows" list is always empty (TraktIO.py:300),
   * so the `UNKNOWN_SHOW` loop records nothing; episodes are not recorded at all.
   */
  lemma LiveNotFoundRecorded(data: PendingData, pageSize: PageSize, failed: FailedItems, rateLimits: nat,
                             lastCall: real, movieRemote: (nat, nat) -> Attempt, episodeRemote: (nat, nat) -> Attempt,
                             classify: string -> ErrorClass, movieClock: nat -> real, episodeClock: nat -> real,
                             batchDelay: real)
    ensures var rows := NotFoundMovieTitles(LiveReport(data, pageSize, failed, rateLimits, lastCall, movieRemote,
                                                       episodeRemote, classify, movieClock, episodeClock, batchDelay));
      var batches := Batches(data.movies, pageSize);
      var replied := RepliedNotFound(batches, |batches|, StartTotals(failed.movies, rateLimits, lastCall),
                                     movieRemote, classify, movieClock, batchDelay);
      && (data.movies == [] ==> rows == [])
      && (data.movies != [] ==> |rows| == |replied| && forall i :: 0 <= i < |rows| ==> rows[i] == RecordedTitle(replied[i].title))
  {
    var (m, e) := LiveSync(data.movies, data.episodes, pageSize, failed.movies, failed.episodes, rateLimits, lastCall,
                           movieRemote, episodeRemote, classify, movieClock, episodeClock, batchDelay);
    var report := LiveReport(data, pageSize, failed, rateLimits, lastCall, movieRemote, episodeRemote, classify,
                             movieClock, episodeClock, batchDelay);
    assert report.movies.notFound == m.notFound;
    if data.movies != [] {
      var batches := Batches(data.movies, pageSize);
      var m0 := StartTotals(failed.movies, rateLimits, lastCall);
      assert m == RunBatches(batches, |batches|, m0, movieRemote, classify, movieClock, batchDelay);
      NotFoundGrowth(batches, |batches|, m0, movieRemote, classify, movieClock, batchDelay);
      assert m.notFound == RepliedNotFound(batches, |batches|, m0, movieRemote, classify, movieClock, batchDelay);
    }
  }

  /** While Trakt is down no movie batch succeeds, so nothing is recorded as not found. */
  lemma OutageRecordsNothing(data: PendingData, pageSize: PageSize, failed: FailedItems, rateLimits: nat,
                             lastCall: real, movieRemote: (nat, nat) -> Attempt, episodeRemote: (nat, nat) -> Attempt,
                             classify: string -> ErrorClass, movieClock: nat -> real, episodeClock: nat -> real,
                             batchDelay: real)
    requires forall b, a :: movieRemote(b, a).Raises?
    ensures NotFoundMovieTitles(LiveReport(data, pageSize, failed, rateLimits, lastCall, movieRemote, episodeRemote,
                                           classify, movieClock, episodeClock, batchDelay)) == []
  {
    LiveNotFoundRecorded(data, pageSize, failed, rateLimits, lastCall, movieRemote, episodeRemote, classify,
                         movieClock, episodeClock, batchDelay);
    var batches := Batches(data.movies, pageSize);
    RemoteDownRepliesNothing(batches, |batches|, StartTotals(failed.movies, rateLimits, lastCall), movieRemote,
                             classify, movieClock, batchDelay);
  }
}
