/**
 * The watchable entities of the Netflix history: movies, episodes, seasons and
 * shows (NetflixTvShow.py, classes NetflixWatchableItem, NetflixMovie,
 * NetflixTvShowEpisode, NetflixTvShowSeason and NetflixTvShow), with their
 * lookup-or-create operations.
 *
 * The Python objects are mutable and shared by reference; here every entity is a
 * value, and an operation that mutates a child returns the updated child together
 * with its index so that the owner can store it back.
 */
module Media {
  import opened Wrappers
  import opened Text
  import opened Search

  /**
   * Abstract stand-in for `datetime.strptime` followed by `strftime("%Y-%m-%dT%H:%M:%S.00Z")`:
   * `primary` parses with the configured CSV format, `fallback` with "%m.%d.%y";
   * each yields the formatted timestamp or None when parsing fails.
   */
  datatype DateParser = DateParser(primary: string -> Option<string>, fallback: string -> Option<string>)

  /** Watch timestamps: a Python set, kept here as a repetition-free sequence in insertion order. */
  type Stamps = seq<string>

  datatype Movie = Movie(name: string, watchedAt: Stamps, tmdbId: Option<int>)

  datatype Episode = Episode(name: string, watchedAt: Stamps, tmdbId: Option<int>, number: Option<int>)

  datatype Season = Season(number: int, name: Option<string>, episodes: seq<Episode>)

  datatype TvShow = TvShow(name: string, seasons: seq<Season>)

  /** Python truthiness of a `tmdbId`: neither None nor 0. */
  predicate HasTmdbId(id: Option<int>) {
    id.Some? && id.value != 0
  }

  /** The timestamp `addWatchedDate` stores: the primary format first, then the dotted fallback. */
  function ParseWatchedDate(p: DateParser, date: string): Option<string> {
    match p.primary(date)
    case Some(t) => Some(t)
    case None => p.fallback(DotNonDigits(date))
  }

  /**
   * `addWatchedDate` (NetflixTvShow.py:385-402): on a parse failure nothing changes and
   * the result is false; otherwise the formatted timestamp is inserted with set semantics.
   */
  function StampsAdded(stamps: Stamps, date: string, p: DateParser): (r: (Stamps, bool))
    ensures r.1 <==> ParseWatchedDate(p, date).Some?
    ensures !r.1 ==> r.0 == stamps
    ensures r.1 ==> (set t | t in r.0) == (set t | t in stamps) + {ParseWatchedDate(p, date).value}
    ensures Distinct(stamps) ==> Distinct(r.0)
    ensures |stamps| <= |r.0| <= |stamps| + 1 && r.0[..|stamps|] == stamps
  {
    match ParseWatchedDate(p, date)
    case None => (stamps, false)
    case Some(t) => (if t in stamps then stamps else stamps + [t], true)
  }

  /** Adding the same date twice stores it once: the second insertion changes nothing. */
  lemma StampsAddedIdempotent(stamps: Stamps, date: string, p: DateParser)
    ensures StampsAdded(StampsAdded(stamps, date, p).0, date, p).0 == StampsAdded(stamps, date, p).0
  {
  }

  // Key projections used by the lookups. Each one lists one key field of every element, in
  // order, so an index found in the projection is an index into the list itself. They stay
  // separate functions because the lists have different element types.

  function ShowNames(shows: seq<TvShow>): (r: seq<string>)
    ensures |r| == |shows| && forall i :: 0 <= i < |shows| ==> r[i] == shows[i].name
  {
    seq(|shows|, i requires 0 <= i < |shows| => shows[i].name)
  }

  function MovieNames(movies: seq<Movie>): (r: seq<string>)
    ensures |r| == |movies| && forall i :: 0 <= i < |movies| ==> r[i] == movies[i].name
  {
    seq(|movies|, i requires 0 <= i < |movies| => movies[i].name)
  }

  function EpisodeNames(episodes: seq<Episode>): (r: seq<string>)
    ensures |r| == |episodes| && forall i :: 0 <= i < |episodes| ==> r[i] == episodes[i].name
  {
    seq(|episodes|, i requires 0 <= i < |episodes| => episodes[i].name)
  }

  function SeasonNumbers(seasons: seq<Season>): (r: seq<int>)
    ensures |r| == |seasons| && forall i :: 0 <= i < |seasons| ==> r[i] == seasons[i].number
  {
    seq(|seasons|, i requires 0 <= i < |seasons| => seasons[i].number)
  }

  function SeasonNames(seasons: seq<Season>): (r: seq<Option<string>>)
    ensures |r| == |seasons| && forall i :: 0 <= i < |seasons| ==> r[i] == seasons[i].name
  {
    seq(|seasons|, i requires 0 <= i < |seasons| => seasons[i].name)
  }

  /** addSeason maps an unknown season number to 1 (NetflixTvShow.py:489). */
  function EffectiveSeasonNumber(number: Option<int>): int {
    number.GetOr(1)
  }

  /** `getSeasonByName`: a None name never matches, even a season whose name is None. */
  function SeasonNameIndex(seasons: seq<Season>, name: Option<string>): (r: Option<nat>)
    ensures r.Some? ==> r.value < |seasons| && name.Some? && seasons[r.value].name == name
    ensures r.None? <==> name.None? || name !in SeasonNames(seasons)
  {
    if name.None? then None else IndexOf(SeasonNames(seasons), name)
  }

  /** Seasons are told apart by number, and by name when they have one. */
  predicate SeasonKeysDistinct(seasons: seq<Season>) {
    && Distinct(SeasonNumbers(seasons))
    && forall i, j :: 0 <= i < j < |seasons| && seasons[i].name.Some? ==> seasons[i].name != seasons[j].name
  }

  /** No repeated names or timestamps anywhere inside one show. */
  predicate ShowWellFormed(show: TvShow) {
    && SeasonKeysDistinct(show.seasons)
    && forall s :: s in show.seasons ==>
         && Distinct(EpisodeNames(s.episodes))
         && forall e :: e in s.episodes ==> Distinct(e.watchedAt)
  }

  /**
   * `NetflixTvShow.addSeason` (NetflixTvShow.py:478-499): the season with the effective
   * number if there is one, else the season with the given (non-None) name, else a new
   * season appended at the end.
   */
  function SeasonAdded(show: TvShow, number: Option<int>, name: Option<string>): (r: (TvShow, nat))
    ensures r.1 < |r.0.seasons| && r.0.name == show.name
  {
    var n := EffectiveSeasonNumber(number);
    match IndexOf(SeasonNumbers(show.seasons), n)
    case Some(i) => (show, i)
    case None =>
      match SeasonNameIndex(show.seasons, name)
      case Some(i) => (show, i)
      case None => (show.(seasons := show.seasons + [Season(n, name, [])]), |show.seasons|)
  }

  /** `NetflixTvShowSeason.addEpisode` (NetflixTvShow.py:443-456): find by name or append. */
  function EpisodeAdded(season: Season, name: string): (r: (Season, nat))
    ensures r.1 < |r.0.episodes| && r.0.number == season.number && r.0.name == season.name
  {
    match IndexOf(EpisodeNames(season.episodes), name)
    case Some(i) => (season, i)
    case None => (season.(episodes := season.episodes + [Episode(name, [], None, None)]), |season.episodes|)
  }

  /**
   * The outcome of addSeason, stated outright: the season found by number comes first, then
   * the one found by name; only when neither exists is exactly one season appended, carrying
   * the effective number and the given name. Existing seasons are never altered.
   */
  lemma SeasonAddedSpec(show: TvShow, number: Option<int>, name: Option<string>)
    ensures var (s, j) := SeasonAdded(show, number, name);
      && (EffectiveSeasonNumber(number) in SeasonNumbers(show.seasons) ==>
            s == show && show.seasons[j].number == EffectiveSeasonNumber(number))
      && (EffectiveSeasonNumber(number) !in SeasonNumbers(show.seasons) && SeasonNameIndex(show.seasons, name).Some? ==>
            s == show && show.seasons[j].name == name)
      && (EffectiveSeasonNumber(number) !in SeasonNumbers(show.seasons) && SeasonNameIndex(show.seasons, name).None? ==>
            s.seasons == show.seasons + [Season(EffectiveSeasonNumber(number), name, [])] && j == |show.seasons|)
  {
  }

  /** addSeason keeps season numbers and season names free of repetition. */
  lemma SeasonAddedKeepsKeysDistinct(show: TvShow, number: Option<int>, name: Option<string>)
    requires SeasonKeysDistinct(show.seasons)
    ensures SeasonKeysDistinct(SeasonAdded(show, number, name).0.seasons)
  {
    var n := EffectiveSeasonNumber(number);
    if IndexOf(SeasonNumbers(show.seasons), n).None? && SeasonNameIndex(show.seasons, name).None? {
      var s := show.seasons + [Season(n, name, [])];
      assert SeasonNumbers(s) == SeasonNumbers(show.seasons) + [n];
      DistinctAppend(SeasonNumbers(show.seasons), n);
      forall i, j | 0 <= i < j < |s| && s[i].name.Some? ensures s[i].name != s[j].name {
        if j == |show.seasons| {
          assert SeasonNames(show.seasons)[i] == s[i].name;
        }
      }
    }
  }

  /** addEpisode never creates two episodes of the same name in a season. */
  lemma EpisodeAddedKeepsNamesDistinct(season: Season, name: string)
    requires Distinct(EpisodeNames(season.episodes))
    ensures Distinct(EpisodeNames(EpisodeAdded(season, name).0.episodes))
    ensures EpisodeAdded(season, name).0.episodes[EpisodeAdded(season, name).1].name == name
  {
    if IndexOf(EpisodeNames(season.episodes), name).None? {
      assert EpisodeNames(season.episodes + [Episode(name, [], None, None)]) == EpisodeNames(season.episodes) + [name];
      DistinctAppend(EpisodeNames(season.episodes), name);
    }
  }

  /** The season loop of `addSeason`, run with the search method of each lookup. */
  method AddSeason(show: TvShow, number: Option<int>, name: Option<string>) returns (updated: TvShow, index: nat)
    ensures (updated, index) == SeasonAdded(show, number, name)
    ensures index < |updated.seasons|
  {
    var n := EffectiveSeasonNumber(number);
    var byNumber := FindIndex(SeasonNumbers(show.seasons), n);
    if byNumber.Some? {
      return show, byNumber.value;
    }
    if name.Some? {
      var byName := FindIndex(SeasonNames(show.seasons), name);
      if byName.Some? {
        return show, byName.value;
      }
    }
    updated := show.(seasons := show.seasons + [Season(n, name, [])]);
    index := |show.seasons|;
  }

  /** `addEpisode`, run with the search method. */
  method AddEpisode(season: Season, name: string) returns (updated: Season, index: nat)
    ensures (updated, index) == EpisodeAdded(season, name)
    ensures index < |updated.episodes|
  {
    var found := FindIndex(EpisodeNames(season.episodes), name);
    if found.Some? {
      return season, found.value;
    }
    updated := season.(episodes := season.episodes + [Episode(name, [], None, None)]);
    index := |season.episodes|;
  }
}
