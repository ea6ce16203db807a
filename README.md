# Netflix-to-Trakt import, modelled in Dafny

Netflix-to-Trakt-Import reads a Netflix viewing-history export and records each viewing in a Trakt account. The export is a CSV of title/date rows. The import runs in three stages, and this project models each of them.

1. **History** (`NetflixTvShow.py`). Each title goes through an ordered, first-match-wins cascade of five title patterns:
   - season numbered;
   - season part;
   - miniseries;
   - named season;
   - plain "Show: Episode".

   The result is a graph of shows, seasons, episodes and movies. Every entity is looked up before it is created. Watch timestamps have set semantics.

   The last pattern is three-valued. "A: B" is an episode when the show is already known or the episode title carries an episode indicator. It is a movie when the full title carries a movie indicator. Otherwise it is parked, to be settled later.

   Settling a parked entry: it becomes a season-1 episode when its show is known or occurs at least twice among the parked entries. Otherwise it becomes a movie under its full title.
2. **Client** (`TraktIO.py`).
   - Two watched caches are filled from a snapshot of the account: episode keys and movie TMDB ids.
   - Two append-only pending buffers hold movies and episodes.
   - `sync` cuts each buffer into `page_size` batches. It sends every batch with up to five attempts, keeping a consecutive-rate-limit counter that feeds an adaptive delay.
   - A batch that fails counts as failed, with its items kept in a failed list.
   - A dry run reports the buffer lengths without contacting the server.
3. **Glue** (`netflix2trakt.py`).
   - A TMDB result cache keyed by the lower-cased title, with hit and miss counters. It stores a whitelisted, serialisable view of each result.
   - Episode matching: by case-insensitive title first, then by episode number.
   - Queuing: one history item per timestamp, skipping items with no id and items already watched.
   - The final report: which titles Trakt did not acknowledge, and how many items count as skipped.

## How the model is organised

Each Python object that is updated in place is a Dafny `class`: `NetflixTvHistory`, `TraktIO` and `TmdbHelper`. Each of their methods is proved equal to a pure function of the old state. The properties are lemmas about those functions.

Shows, seasons, episodes and movies are datatype values. An operation that changes a child returns the new child and its index, and the owner stores it back. Oracles stand for what the code gets from outside:
- the title patterns: the `TitleMatchers` datatype;
- date parsing: `DateParser`;
- the account snapshot: `Snapshot`;
- each attempt to add a batch: a function `(batch, attempt) -> Attempt`;
- the clock read before each batch: a function `batch -> real`;
- TMDB lookups: `ShowLookup` and a season-details function.

| module | file | models |
|---|---|---|
| `Wrappers`, `Text`, `Search` | wrappers.dfy, text.dfy, search.dfy | Option, ASCII `lower()`, `strip()`, `isdigit()`, `\d` and `int()` of a string, `re.sub("[^0-9]", ".")`, substring test, list search |
| `Media` | media.dfy | `NetflixWatchableItem`, `NetflixMovie`, `NetflixTvShowEpisode`, `NetflixTvShowSeason`, `NetflixTvShow` |
| `Classifier` | classifier.dfy | the pattern cascade and `isLikelyTvShow` |
| `HistorySpec`, `HistoryProperties`, `NetflixHistory` | history_spec.dfy, history_properties.dfy, history.dfy | `NetflixTvHistory`: the state functions, their properties and the class |
| `WatchedCache` | watched_cache.dfy | the keys `cacheWatchedHistory` puts into the caches |
| `Batching` | batching.dfy | `buffer[i : i + page_size]` for `i in range(0, total, page_size)`, and the batch count |
| `TraktSpec`, `TraktClient` | trakt_spec.dfy, trakt_io.dfy | retry, error classification, delay, batch accounting, the `TraktIO` class |
| `TmdbCache` | tmdb_cache.dfy | `TMDBHelper` and `_serialize_result` |
| `EpisodeMatching` | matching.dfy | the episode-matching part of `getShowInformation` |
| `Queueing` | queueing.dfy | `addShowToTrakt`, `addMovieToTrakt` |
| `Importer` | importer.dfy | `getNetflixHistory`, `dump_uncategorized_titles`, the counts of `syncToTrakt` |

Where the code and the project's own description of it disagree, the model follows the code:
- **Header row.** The first CSV row is skipped unconditionally; no header token is checked.
- **Order.** Parked entries are settled in insertion order, with no sorting.
- **None season number.** `addSeason(None, name)` looks a season up by the number 1 before it looks by name. So a named season is found by its name only when no season 1 exists.
- **Absent features.** There are no alias keys, no catalogue-id query, no coverage backfill and no abort on an authentication failure.

## Model

| member | source | states |
|---|---|---|
| Text.DotNonDigits | NetflixTvShow.py:395 | every non-digit character becomes a dot and every digit is kept, so the length is unchanged |
| Text.Strip | netflix2trakt.py:184 | the result is a contiguous slice of the input, with only whitespace cut on both sides and no whitespace left at either end. Whitespace is the whole `str.isspace()` set of Python 3.12, including 0x1C to 0x1F and the Unicode spaces |
| Text.TrimPadded | netflix2trakt.py:184 | trimming a string padded with blanks on both sides gives back exactly the padded string, when its own ends are not blanks |
| Text.IntOfLayout | netflix2trakt.py:97-101 | `int()` converts every string made of blanks, an optional "+" or "-", decimal digits of any script with single underscores between them, and blanks, to its signed value ("-12", " 12", "+12", "1_000") |
| Text.IntOfOnlyLayouts | netflix2trakt.py:97-101 | `int()` converts nothing else. Its blanks are the `isspace()` set except 0x1C to 0x1F, which `int()` rejects |
| Search.IndexOf | NetflixTvShow.py:43-46 | the first position holding the key, if any; None exactly when the key is absent |
| Search.FindIndex | NetflixTvShow.py:43-46 | the search loop returns the first matching position given by IndexOf |
| Media.StampsAdded | NetflixTvShow.py:385-402 | the result flag is true iff the date parses. On failure the stamps are unchanged. On success the set of stamps gains exactly the formatted timestamp, no repetition appears, and the old stamps stay a prefix |
| Media.StampsAddedIdempotent | NetflixTvShow.py:379 | adding the same date twice stores the same stamps as adding it once |
| Media.SeasonNameIndex | NetflixTvShow.py:514-526 | a season is found by name only for a non-None name equal to that season's name; None exactly when the name is None or absent |
| Media.SeasonAddedSpec | NetflixTvShow.py:488-499 | an existing season with the effective number (None means 1) is returned first. Else the existing season with the given name is returned. Else exactly one season is appended with that number and name. Existing seasons are never changed |
| Media.SeasonAddedKeepsKeysDistinct | NetflixTvShow.py:478-499 | addSeason never creates a second season with a number, or a non-None name, already used |
| Media.EpisodeAddedKeepsNamesDistinct | NetflixTvShow.py:443-456 | addEpisode never creates two episodes of one name in a season, and the returned episode has the requested name |
| Media.AddSeason | NetflixTvShow.py:478-512 | the search-by-number, then search-by-name, then append steps give the season SeasonAdded specifies |
| Media.AddEpisode | NetflixTvShow.py:443-469 | the search-or-append steps give the episode EpisodeAdded specifies |
| Classifier.IsLikelyTvShow | NetflixTvShow.py:251-292 | three exclusive answers: episode iff the show is known or the title has an episode indicator; movie iff neither holds and the full title has a movie indicator; uncertain otherwise |
| Classifier.RouteOf | NetflixTvShow.py:72-153 | the first matching pattern decides the outcome. A season-numbered or part-numbered title gives an episode with the captured season. A miniseries title gives season 1. A named-season title gives its season name. An "A: B" title judged an episode gives season 1. An entry is parked exactly when the four earlier patterns fail, the "A: B" pattern matches and the classifier is uncertain. It is a movie exactly when no earlier pattern matches and "A: B" either fails or is classified a movie. Every episode route has a season number or a season name |
| Classifier.RouteIgnoresKnownBeforeLastRule | NetflixTvShow.py:72-116 | the known show names can change the outcome only through the last pattern |
| Classifier.KnownShowIsEpisode | NetflixTvShow.py:262-264 | an "A: B" title whose A is a known show always becomes an episode |
| Classifier.PilotMarksEpisode | NetflixTvShow.py:267-275 | "Pilot" anywhere in the episode title, in any letter case, marks an episode |
| Classifier.PartNumberMarksEpisode | NetflixTvShow.py:267-275 | a title containing "Part 2" is marked as an episode, whatever surrounds it |
| Classifier.LegendOfMarksMovie | NetflixTvShow.py:278-288 | "Legend of" in the episode title marks the full title as a movie |
| HistoryProperties.ShowAddedLookupOrCreate | NetflixTvShow.py:202-214 | an existing name leaves the show list unchanged; a new name appends exactly one empty show at the end; show names stay free of repetition |
| HistoryProperties.ShowWithEntryFiles | NetflixTvShow.py:188-191 | after filing an entry, the show has the season for that number or name, the season has the episode, and the episode holds the parsed timestamp |
| HistoryProperties.TvShowEntryOutcome | NetflixTvShow.py:177-194 | an empty date, "date"/"datum" in any case, or a date with no character `isdigit()` accepts (in any script) leaves the whole history unchanged. Otherwise the show name becomes known, movies and parked entries are untouched, and a show of that name files the entry |
| HistoryProperties.SeasonAddedKeepsWellFormed | NetflixTvShow.py:496-499 | a season added by addSeason starts without episodes, so the show stays free of repetition |
| HistoryProperties.EpisodeAddedKeepsStampsDistinct | NetflixTvShow.py:451-456 | an episode added by addEpisode starts without timestamps, so no timestamp set gains a repetition |
| HistoryProperties.ShowWithEntryKeepsWellFormed | NetflixTvShow.py:188-191 | filing an entry keeps season keys, episode names and timestamps free of repetition within the show |
| HistoryProperties.TvShowEntryKeepsValid | NetflixTvShow.py:155-200 | addTvShowEntry preserves the history invariant: unique show names, unique movie names, well-formed shows and movies |
| HistoryProperties.MovieEntryKeepsValid | NetflixTvShow.py:216-247 | addMovieEntry preserves the history invariant |
| HistoryProperties.MovieEntryLookupOrCreate | NetflixTvShow.py:224-247 | a rejected date (empty, "date"/"datum", or without an `isdigit()` character) changes nothing. An existing movie keeps its place and the movie names are unchanged. A new movie is appended with its one timestamp only when the date parses; otherwise nothing is added |
| HistoryProperties.EntryTakesOnePath | NetflixTvShow.py:60-153 | each entry lands in exactly one place. Parked means only the parked list grows, by this entry. Episode means movies and parked entries are untouched. Movie means shows, known names, parked entries and statistics are untouched |
| HistoryProperties.EntryKeepsValid | NetflixTvShow.py:60-153 | addEntry preserves the history invariant |
| HistoryProperties.ShowWithEntryRepeated | NetflixTvShow.py:188-191 | filing the same episode entry twice gives the same show as filing it once |
| HistoryProperties.TvShowEntryRepeated | NetflixTvShow.py:155-200 | repeating an episode entry leaves shows, known names and movies as after the first |
| HistoryProperties.FrequencyOfRepeat | NetflixTvShow.py:302-307 | a show name parked twice has a frequency of at least two |
| HistoryProperties.KnownDuringResolution | NetflixTvShow.py:309-337 | while entries are settled, the known names only grow, and only by show names of entries already settled |
| HistoryProperties.ResolutionDecision | NetflixTvShow.py:313-337 | an entry becomes an episode iff its show was known before settling began or occurs at least twice among the parked entries |
| HistoryProperties.ResolutionKeepsValid | NetflixTvShow.py:309-337 | settling any prefix of the parked entries preserves the history invariant |
| HistoryProperties.AmbiguousResolvedOutcome | NetflixTvShow.py:294-343 | after resolveAmbiguousEntries nothing is parked and the invariant holds |
| NetflixHistory.ShowsJsonAt | NetflixTvShow.py:351-366 | in a history without repeated show names, each show's JSON entry lists its seasons |
| NetflixHistory.MoviesJsonAt | NetflixTvShow.py:367-370 | in a history without repeated movie names, each movie's JSON entry is its timestamp list |
| NetflixHistory.NetflixTvHistory.constructor | NetflixTvShow.py:14-26 | an empty history: no shows, movies, known names or parked entries, and zero statistics |
| NetflixHistory.NetflixTvHistory.HasTvShow | NetflixTvShow.py:28-35 | true iff some show has the name |
| NetflixHistory.NetflixTvHistory.GetTvShow | NetflixTvShow.py:37-46 | the first show of that name, or None |
| NetflixHistory.NetflixTvHistory.GetMovie | NetflixTvShow.py:48-58 | the first movie of that name, or None |
| NetflixHistory.NetflixTvHistory.AddTvShow | NetflixTvShow.py:202-214 | the show list and index as ShowAdded gives them (lookup-or-create) |
| NetflixHistory.NetflixTvHistory.AddTvShowEntry | NetflixTvShow.py:155-200 | the new state is TvShowEntryAdded of the old state |
| NetflixHistory.NetflixTvHistory.AddMovieEntry | NetflixTvShow.py:216-247 | the new state is MovieEntryAdded of the old. A returned index names a movie of that title. None leaves the movies unchanged, which covers the popped movie whose date failed to parse |
| NetflixHistory.NetflixTvHistory.AddEntry | NetflixTvShow.py:60-153 | always returns true; the new state is EntryAdded of the old |
| NetflixHistory.NetflixTvHistory.ResolveEntry | NetflixTvShow.py:309-337 | one parked entry is settled as an episode or a movie, as ResolvesAsEpisode decides from the frequency map |
| NetflixHistory.NetflixTvHistory.ResolveAmbiguousEntries | NetflixTvShow.py:294-343 | the new state is AmbiguousResolved of the old: every parked entry settled in order, then the list cleared |
| NetflixHistory.NetflixTvHistory.GetJson | NetflixTvShow.py:345-371 | the keys are exactly the show names and movie names. In a valid history each show maps to its seasons (number, name, episode-to-timestamps map) and each movie to its timestamps |
| NetflixHistory.ShowFrequencies | NetflixTvShow.py:301-307 | the frequency map has exactly the parked show names as keys, each mapped to its number of parked entries |
| WatchedCache.SeasonKeysMember | TraktIO.py:137-172 | a key is cached for a season iff some watched episode of that season produces it |
| WatchedCache.SeasonsTitleKeys | TraktIO.py:149-172 | a title key (t, s, e) comes from a show's seasons iff a season numbered s marks episode e watched |
| WatchedCache.ShowsTitleKeys | TraktIO.py:131-172 | a title key (t, s, e) is cached iff some show whose lower-cased title is t marks season s, episode e watched |
| WatchedCache.MovieIdsMember | TraktIO.py:187-190 | a TMDB id is cached iff some snapshot movie carries it |
| TraktSpec.CounterAfterError | TraktIO.py:536-537 | one failed attempt increments the counter iff its message classifies as a rate limit, and otherwise leaves it unchanged |
| TraktSpec.ClassifyIgnoresCase | TraktIO.py:533-551 | lower-casing a message does not change its class |
| TraktSpec.StatusTooManyRequestsIsRateLimit | TraktIO.py:536 | a message starting with "429" is a rate limit |
| TraktSpec.StatusUnavailableIsServerError | TraktIO.py:547-552 | a message starting with "503" that does not pass the rate-limit test is a server error |
| TraktSpec.RetryFrom | TraktIO.py:509-530 | at most five attempts. A reply is the response of the last attempt made. With no reply, all five attempts were used. The counter grows by at most one per attempt |
| TraktSpec.RetryStopsAtFirstResponse | TraktIO.py:509-564 | every attempt before the last one made raised, and there is no reply exactly when every remaining attempt raises: a response is never thrown away |
| TraktSpec.RetryAlwaysRateLimited | TraktIO.py:509-545 | rate limits on every attempt use all five attempts, add five to the counter and yield no reply |
| TraktSpec.RetryAllRaise | TraktIO.py:509-564 | an attempt function that always raises yields no reply |
| TraktSpec.EnforcedDelay | TraktIO.py:266-270 | the delay is never below min_delay. When the counter n is positive it is at least 30 × (1 + 0.5·n) and equals min_delay or 30 × (1 + 0.5·n); at 0 it equals min_delay |
| TraktSpec.EnforcedDelayMonotone | TraktIO.py:266-270 | more consecutive rate limits never shorten the delay |
| TraktSpec.SleepTime | TraktIO.py:275-278 | the sleep is non-negative, positive iff the elapsed time is below the delay, and a positive sleep ends exactly when the delay since the last call has passed |
| TraktSpec.BatchStep | TraktIO.py:370-410 | a batch runs after the enforced delay. A truthy response adds its counts and extends not_found and updated. It resets the counter to 0 and leaves the failures alone. Otherwise the batch length is added to failed, the batch is appended to the failed list, and the counter is what the retries left |
| TraktSpec.BatchAccounting | TraktIO.py:366-410 | after any number of batches, the items of the successful batches plus the new part of the failed list number exactly the items sent. The failed count grows exactly as the failed list does. The old failed list stays a prefix. A final success leaves the counter at 0 |
| TraktSpec.FailedListGrowth | TraktIO.py:398-410 | the failed list grows by exactly the items of the batches that failed, in batch order |
| TraktSpec.NotFoundGrowth | TraktIO.py:388-392 | the report's movie not_found list grows by exactly the not-found entries of the successful batches' replies, in batch order; a failed batch adds none |
| TraktSpec.RemoteDownRepliesNothing | TraktIO.py:366-410 | when every attempt raises, no batch succeeds and no reply reports anything not found |
| TraktSpec.BatchItemsAccounted | TraktIO.py:366-410 | the items of the failed batches and those of the successful batches are, together, exactly the items sent, counting repeats |
| TraktSpec.SyncedInBatchesAccounting | TraktIO.py:358-412 | over a whole buffer, each item, counting repeats, is either in a successful batch or in the new part of the failed list, and the two parts number exactly the buffer length |
| TraktSpec.RemoteDownFailsEverything | TraktIO.py:397-410 | when every attempt raises, every item lands in the failed list, in order, and nothing is added |
| TraktSpec.DryRunReport | TraktIO.py:287-294 | a dry run reports the buffer lengths as added, zero failures and empty not_found/updated lists |
| TraktSpec.LiveSyncAccounting | TraktIO.py:296-352 | in a live sync, for each content type the failed count is exactly the growth of its failed list, and never exceeds the buffer length |
| Batching.BatchesPartition | TraktIO.py:362-368 | the batches cover the buffer exactly once and in order. Each holds 1..page_size items, and all but the last hold exactly page_size. There are ceil(total / page_size) of them, 0 for an empty buffer |
| Batching.BatchAt | TraktIO.py:366-367 | batch k is the slice starting at offset k·page_size |
| Batching.BatchesExhausted | TraktIO.py:366 | once the offset passes the end, every batch has been visited |
| Batching.OneHundredTwentyInFifties | TraktIO.py:362-368 | 120 items in pages of 50 make three batches of 50, 50 and 20 |
| TraktClient.TraktIO.constructor | TraktIO.py:48-78 | empty caches, buffers and failed lists; counter 0; last call at time 0 |
| TraktClient.TraktIO.CacheWatchedHistory | TraktIO.py:112-204 | both caches are replaced, not extended, by the snapshot's keys. A broken snapshot leaves both empty |
| TraktClient.TraktIO.CacheSeasons | TraktIO.py:137-172 | the season loops add exactly the keys of the watched episodes |
| TraktClient.TraktIO.AddMovie | TraktIO.py:245-247 | appends exactly one item to the movie buffer and changes nothing else |
| TraktClient.TraktIO.AddEpisodeToHistory | TraktIO.py:249-251 | appends exactly one item to the episode buffer and changes nothing else |
| TraktClient.TraktIO.EnforceRateLimit | TraktIO.py:257-280 | sleeps for SleepTime of the adaptive delay and records the time after the sleep as the last call |
| TraktClient.TraktIO.SyncBatchWithRetry | TraktIO.py:509-564 | the reply and the counter are those of Retry from the old counter |
| TraktClient.TraktIO.SyncBatch | TraktIO.py:370-410 | the totals after one batch are BatchStep of those before, and the two fields follow them |
| TraktClient.TraktIO.SyncInBatches | TraktIO.py:358-412 | the batch loop's totals are SyncedInBatches over the buffer; the counter and the last-call time end as the totals say |
| TraktClient.TraktIO.Sync | TraktIO.py:282-356 | a dry run returns DryRunReport and changes nothing. A live sync reports LiveSync's totals and stores its failed lists, counter and time |
| TraktClient.CachedMovieWatched | TraktIO.py:182-190 | a TMDB id is cached iff the snapshot's movie list carries it |
| TraktClient.CachedEpisodeWatched | TraktIO.py:126-172 | a title key is cached iff a snapshot show with the same lower-cased title marks that season and episode watched |
| TraktClient.WatchedQueriesAfterCache | TraktIO.py:224-243 | on a client holding a snapshot, isEpisodeWatched is false without an episode number and otherwise true iff the snapshot marks the episode watched; isMovieWatched is true iff the snapshot lists the id |
| TmdbCache.Whitelisted | netflix2trakt.py:90-95 | a key is kept iff it is whitelisted, present and primitive (str, int, float or None), with its value unchanged |
| TmdbCache.SerializeResult | netflix2trakt.py:75-102 | only whitelisted keys with primitive values survive, and every such key survives. An "id" that does not survive the whitelist is added iff the result is an object whose id attribute `int()` converts, and then it is the converted value |
| TmdbCache.DictResultKeepsOwnId | netflix2trakt.py:81-97 | a plain dict gets an "id" iff it has a primitive one of its own |
| TmdbCache.SerializeIdempotent | netflix2trakt.py:75-102 | serialising an already serialised result changes nothing |
| TmdbCache.TmdbHelper.constructor | netflix2trakt.py:35-45 | starts from the loaded cache with both counters at 0 |
| TmdbCache.TmdbHelper.GetCachedResult | netflix2trakt.py:47-54 | looks the lower-cased title up. A hit returns the entry and increments hits; a miss returns None and increments misses. Exactly one counter grows |
| TmdbCache.TmdbHelper.SetCachedResult | netflix2trakt.py:56-67 | stores the serialised result under the lower-cased title. If persisting fails, the key is removed |
| EpisodeMatching.TitleMatchWins | netflix2trakt.py:249-257 | the first candidate whose lower-cased name equals the episode's, with a truthy id, decides the match |
| EpisodeMatching.NumberFallback | netflix2trakt.py:262-269 | with no title match and no id, the first candidate with the same episode number gives the id. With no number, or no such candidate, the id stays |
| EpisodeMatching.MatchProvenance | netflix2trakt.py:249-269 | every truthy matched id is the episode's own or comes from a candidate matching its title or its number |
| EpisodeMatching.UnmatchedRows | netflix2trakt.py:271-275 | one not-found row is written for exactly the episodes left without a truthy id |
| EpisodeMatching.SeasonMatched | netflix2trakt.py:244-279 | without season details nothing changes and nothing is reported. With them, every episode gets its matched id, nothing else changes, and the rows are those of the episodes left without an id |
| EpisodeMatching.SeasonsMatched | netflix2trakt.py:236-279 | every season is matched against its own season details, and a row is reported exactly when some season reports it |
| EpisodeMatching.SeasonsMatchedReportsUnmatched | netflix2trakt.py:236-279 | a row is reported exactly for each episode of a season with details that matching leaves without a usable id, naming the show, the season number and the episode title |
| EpisodeMatching.ShowInformation | netflix2trakt.py:199-281 | a matched show is produced iff its name is not blank and the TMDB lookup finds it with a truthy id. The show queued is the input with every season matched, and its rows are the season loop's. A show TMDB does not know gives exactly one show-only row, and the other early stops give none |
| Queueing.EpisodeItems | netflix2trakt.py:329-334 | one item per timestamp, carrying the episode's TMDB id |
| Queueing.SeasonItemsMember | netflix2trakt.py:320-334 | an item is queued for a season iff an episode with a truthy id, not known to be watched, has that timestamp |
| Queueing.ShowItemsMember | netflix2trakt.py:316-334 | an item is queued for a show iff one of its seasons queues it |
| Queueing.ShowItemsHaveIds | netflix2trakt.py:321-322 | every queued episode item has a truthy TMDB id and no title |
| Queueing.SnapshotWatchedNotQueued | netflix2trakt.py:323-328 | an episode the snapshot marks watched, with a known number, is never queued |
| Queueing.AddShowToTrakt | netflix2trakt.py:314-334 | the episode buffer grows by exactly the show's queued items, in order |
| Queueing.MovieOutcomeAsWritten | netflix2trakt.py:337-342 | as written, the lookup under the wrong name raises for every movie with an id, and nothing is queued |
| Queueing.MovieItems | netflix2trakt.py:337-351 | a movie with a truthy id that is not watched queues one item per timestamp, with its title and id; any other queues nothing |
| Queueing.MovieLookupNameMismatch | netflix2trakt.py:339-340 | every unwatched movie with an id and a timestamp raises as written, although it should queue its timestamps |
| Queueing.MovieLookupNameMismatchExample | netflix2trakt.py:339-340 | "Heat" with id 949 and one timestamp raises as written, and the intended behaviour queues one item |
| Queueing.AddMovieToTrakt | netflix2trakt.py:337-351 | the movie buffer grows by exactly MovieItems, with the intended isMovieWatched |
| Importer.RowsAddedKeepsValid | netflix2trakt.py:143-151 | feeding any rows to addEntry preserves the history invariant |
| Importer.HistoryAsWrittenValid | netflix2trakt.py:136-154 | the history as loaded satisfies the invariant |
| Importer.HistoryResolvedOutcome | netflix2trakt.py:136-154 | the corrected loading leaves nothing parked, and the invariant holds |
| Importer.UncertainRowStaysParked | netflix2trakt.py:143-154 | as written, a single uncertain "A: B" row after the header ends parked, with no show or movie created |
| Importer.UncertainRowResolved | netflix2trakt.py:127-154 | corrected, that row becomes a movie under its full title with its one timestamp, and nothing stays parked |
| Importer.GetNetflixHistoryAsWritten | netflix2trakt.py:127-154 | skips the first row and feeds every other row to addEntry |
| Importer.GetNetflixHistory | netflix2trakt.py:127-154 | the same, followed by resolveAmbiguousEntries |
| Importer.AckTitle | netflix2trakt.py:179-183 | the entry's truthy title, else its show's truthy title, else "UNKNOWN", so never empty |
| Importer.Unacknowledged | netflix2trakt.py:186 | keeps exactly the submitted titles whose stripped lower-case form is not acknowledged, each as many times as it was submitted |
| Importer.Categorize | netflix2trakt.py:157-186 | titles are listed iff there is a response, its "added" is a dict (or missing) and none of its counts is an integer. The listed titles are exactly the unacknowledged ones, with their repeats |
| Importer.SyncResponseIsAggregate | netflix2trakt.py:163-169 | the report sync returns always has integer added counts, so no title is ever listed |
| Importer.EntriesOf | netflix2trakt.py:177-178 | a list of entries has one acknowledgement per item |
| Importer.SubmittedTitles | netflix2trakt.py:360-361 | each item's title, or the default when it has none |
| Importer.AddedCount | netflix2trakt.py:375-379 | a missing count is 0, an integer is itself and a list is its length |
| Importer.SkippedAsWritten | netflix2trakt.py:375-382 | as written, skipped plus added equals submitted |
| Importer.Skipped | TraktIO.py:336-345 | corrected, skipped plus added plus failed equals submitted |
| Importer.DryRunSkipsNothing | netflix2trakt.py:368-382 | after a dry run nothing counts as skipped under either formula |
| Importer.SyncedWhileDown | TraktIO.py:358-412 | while the remote is down, every queued item fails and none is added |
| Importer.OutageReportedAsSkipped | netflix2trakt.py:368-385 | when every attempt raises, all items fail. As written, all of them are reported as skipped; corrected, none are |
| Importer.LiveNotFoundRecorded | netflix2trakt.py:387-395 | after a live sync, `append_not_found` gets one row per not-found movie in the replies of the movie batches that succeeded, in batch order, titled by its truthy title or "UNKNOWN_MOVIE". Nothing is recorded when no movie was queued |
| Importer.OutageRecordsNothing | netflix2trakt.py:387-392 | while Trakt is down, no movie batch succeeds and no not-found row is recorded |

## Left out

- OAuth device flow, token refresh, `_initialize_auth` and the `threading.Condition` handshake: these are concurrency and a foreign library. The constructor starts with empty caches, and `CacheWatchedHistory` is called with the snapshot separately.
- Trakt and TMDB calls: these are oracles.
  - `Trakt["sync/history"].add` is a function from (batch index, attempt) to an outcome.
  - `getWatchedShows`/`getWatchedMovies` is the `Snapshot` datatype. A failed fetch is a None part, and any exception is `Broken`.
  - `TV().search` with the TMDB cache is the `ShowLookup` value. `Season().details` is a season-details function.
- getMovieInformation (netflix2trakt.py:284-311): the TMDB search, the use of the cache and the strict-mode re-raise are not modelled. In the model a movie reaches `AddMovieToTrakt` with whatever id that search set.
- The tenacity decorators' wall-clock waits, `time.sleep` and `time.time`. The clock is read once per batch through an oracle. The fixed sleeps (30 s, 10 s, `batch_delay`, the initial and the between-buffers delays) do not move `_last_api_call_time` and are not modelled. The retry decorator of `getShowInformation` is not modelled.
- `datetime.strptime`/`strftime`: an abstract primary parser and an abstract fallback parser. The fallback is applied after non-digits become dots.
- The five title regexes: abstract matchers. The indicator phrases of `isLikelyTvShow` are modelled concretely.
- Lower-casing is ASCII only, here and inside case-insensitive regex matching.
- Whitespace (`isspace()`), decimal digits (`\d`, and the digits `int()` reads) and `isdigit()` follow the tables of Python 3.12, which uses Unicode 15.0. Another Python version's Unicode tables may differ.
- TraktSpec.ClassifyError: the literal "No response from Trakt API" message is not proved to fall in the "other" class. Batch runs take the classifier as a parameter, and `Sync` passes `ClassifyError`.
- `page_size` of 0 (which makes `range` raise) is excluded by the `PageSize` type.
- `hasattr` probing in `cacheWatchedHistory`: shows without `pk`, and seasons or episodes without `pk`/`number`, are normalised into the snapshot records.
- File I/O: the CSV reader, `tmdb_cache.json`, `not_found.csv` (`append_not_found`), `uncategorized_*.csv` and `traktAuth.json`. Whether `SetCachedResult` persisted its write is a boolean parameter.
- Logging, tqdm, `print`, `log_summary`, `setupTMDB`, `setupTrakt` and `main`.
- The unused `resolved_count` in `resolveAmbiguousEntries`.
- `setEpisodeNumber` and `setTmdbId`: nothing in the repository calls them. On the value model they are datatype updates; matching sets the id directly.
- Response entries that are not dicts, and the `int()` coercion of a non-list added count (`Field.OtherValue` has no count).
- Python's aliasing of shows, seasons and episodes: children are values, and the owner writes each updated child back in place.
- The iteration order of a Python `set`: `_watchedAt` is kept in insertion order without repetition, and its order is the order items are queued in.

## Findings

| source | as written | input that shows it | evidently intended | confidence | as-written member | corrected member |
|---|---|---|---|---|---|---|
| netflix2trakt.py:340 | `addMovieToTrakt` calls `traktIO.isWatchedMovie`. TraktIO defines only `isMovieWatched` (TraktIO.py:224), so every movie with a truthy TMDB id raises AttributeError. That is not the `TMDbException` that `getMovieInformation` catches (line 305), and `main` (lines 401-434) has no handler, so the run stops before `syncToTrakt` (line 432) and nothing is synced, not even the episodes already queued | movie "Heat" with id 949 and one timestamp | skip watched movies via `isMovieWatched`; otherwise queue one item per timestamp | high (not executed) | Queueing.MovieOutcomeAsWritten, Queueing.MovieLookupNameMismatchExample | Queueing.MovieItems, Queueing.AddMovieToTrakt |
| netflix2trakt.py:127-154 | nothing calls `resolveAmbiguousEntries` (NetflixTvShow.py:294-343), neither `getNetflixHistory` nor `main`. Uncertain "A: B" rows stay parked and never become an episode or a movie | a header then one row whose "A: B" title has no indicator and an unknown show | settle parked entries after loading, as that method's docstring says | high (not executed) | Importer.HistoryAsWritten, Importer.UncertainRowStaysParked | Importer.HistoryResolved, Importer.UncertainRowResolved |
| netflix2trakt.py:381-382 | "Skipped (already watched / duplicate)" is submitted minus added, so items whose batches failed are counted as skipped. TraktIO's own summary subtracts the failures too (TraktIO.py:338, 343) | any live sync in which every attempt raises: all items fail, and all are reported skipped | skipped = submitted − added − failed | medium (not executed) | Importer.SkippedAsWritten, Importer.OutageReportedAsSkipped | Importer.Skipped, Importer.OutageReportedAsSkipped |
