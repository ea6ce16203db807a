/**
 * The TMDB episode matching of `getShowInformation` (netflix2trakt.py:198-281): each
 * local episode takes the id of the first TMDB episode of its season with the same
 * title, ignoring case, and only when that leaves it without an id and its number is
 * known, the id of the first TMDB episode with that number. Whatever stays without an
 * id is reported as not found. The TMDB searches and season lookups are oracles.
 */
module EpisodeMatching {
  import opened Wrappers
  import opened Text
  import opened Search
  import opened Media

  /** One entry of a TMDB season's `episodes`: its "name", "id" and "episode_number", each possibly absent. */
  datatype TmdbEpisode = TmdbEpisode(name: Option<string>, id: Option<int>, episodeNumber: Option<int>)

  /** A row of not_found.csv: show, and for an episode its season number and title. */
  datatype NotFoundRow = NotFoundRow(show: string, season: Option<int>, episode: Option<string>)

  /** `tmdbEpisode.get("name", "").lower()` for each candidate. */
  function TmdbTitles(candidates: seq<TmdbEpisode>): (r: seq<string>)
    ensures |r| == |candidates| && forall i :: 0 <= i < |r| ==> r[i] == Lower(candidates[i].name.GetOr(""))
  {
    seq(|candidates|, i requires 0 <= i < |candidates| => Lower(candidates[i].name.GetOr("")))
  }

  /** `tmdbEpisode.get("episode_number")` for each candidate. */
  function TmdbNumbers(candidates: seq<TmdbEpisode>): (r: seq<Option<int>>)
    ensures |r| == |candidates| && forall i :: 0 <= i < |r| ==> r[i] == candidates[i].episodeNumber
  {
    seq(|candidates|, i requires 0 <= i < |candidates| => candidates[i].episodeNumber)
  }

  /** The first candidate whose title equals the episode's, ignoring case; none for an untitled episode. */
  function TitleMatch(episode: Episode, candidates: seq<TmdbEpisode>): Option<nat> {
    if episode.name == "" then None else IndexOf(TmdbTitles(candidates), Lower(episode.name))
  }

  /** The id after the title pass: the first title match's id, or the id the episode had. */
  function IdAfterTitlePass(episode: Episode, candidates: seq<TmdbEpisode>): Option<int> {
    match TitleMatch(episode, candidates)
    case Some(i) => candidates[i].id
    case None => episode.tmdbId
  }

  /** The episode's id after both passes (netflix2trakt.py:248-269). */
  function MatchedTmdbId(episode: Episode, candidates: seq<TmdbEpisode>): Option<int> {
    var afterTitle := IdAfterTitlePass(episode, candidates);
    if !HasTmdbId(afterTitle) && episode.number.Some? then
      match IndexOf(TmdbNumbers(candidates), episode.number)
      case Some(j) => candidates[j].id
      case None => afterTitle
    else afterTitle
  }

  /** A title match with a usable id decides, whatever the episode numbers say. */
  lemma TitleMatchWins(episode: Episode, candidates: seq<TmdbEpisode>, i: nat)
    requires episode.name != "" && i < |candidates|
    requires Lower(candidates[i].name.GetOr("")) == Lower(episode.name)
    requires forall k :: 0 <= k < i ==> Lower(candidates[k].name.GetOr("")) != Lower(episode.name)
    requires HasTmdbId(candidates[i].id)
    ensures MatchedTmdbId(episode, candidates) == candidates[i].id
  {
    assert TmdbTitles(candidates)[i] == Lower(episode.name);
    assert forall k :: 0 <= k < i ==> TmdbTitles(candidates)[k] != Lower(episode.name);
  }

  /**
   * With no title match, an episode without an id takes the id of the first candidate
   * with its number; without a number it keeps what it had.
   */
  lemma NumberFallback(episode: Episode, candidates: seq<TmdbEpisode>)
    requires TitleMatch(episode, candidates).None? && !HasTmdbId(episode.tmdbId)
    ensures episode.number.None? ==> MatchedTmdbId(episode, candidates) == episode.tmdbId
    ensures episode.number.Some? ==>
              match IndexOf(TmdbNumbers(candidates), episode.number)
              case Some(j) => MatchedTmdbId(episode, candidates) == candidates[j].id
                              && candidates[j].episodeNumber == episode.number
              case None => MatchedTmdbId(episode, candidates) == episode.tmdbId
  {
  }

  /**
   * A usable id after matching is the episode's own one, or that of a candidate that
   * matched by title or, when the title pass left none, by number.
   */
  lemma MatchProvenance(episode: Episode, candidates: seq<TmdbEpisode>)
    requires HasTmdbId(MatchedTmdbId(episode, candidates))
    ensures || MatchedTmdbId(episode, candidates) == episode.tmdbId
            || (exists k | 0 <= k < |candidates| ::
                  && candidates[k].id == MatchedTmdbId(episode, candidates)
                  && (|| (episode.name != "" && Lower(candidates[k].name.GetOr("")) == Lower(episode.name))
                      || (episode.number.Some? && candidates[k].episodeNumber == episode.number)))
  {
    match TitleMatch(episode, candidates)
    case Some(i) =>
      assert TmdbTitles(candidates)[i] == Lower(episode.name);
      if HasTmdbId(candidates[i].id) {
        assert candidates[i].id == MatchedTmdbId(episode, candidates);
      } else {
        var j := IndexOf(TmdbNumbers(candidates), episode.number).value;
        assert TmdbNumbers(candidates)[j] == episode.number;
      }
    case None =>
      if !HasTmdbId(episode.tmdbId) {
        var j := IndexOf(TmdbNumbers(candidates), episode.number).value;
        assert TmdbNumbers(candidates)[j] == episode.number;
      }
  }

  /** The not-found rows of one season's episodes after matching. */
  function UnmatchedRows(showName: string, seasonNumber: int, episodes: seq<Episode>): (rows: seq<NotFoundRow>)
    ensures forall r :: r in rows <==>
              exists j | 0 <= j < |episodes| :: !HasTmdbId(episodes[j].tmdbId)
                                                && r == NotFoundRow(showName, Some(seasonNumber), Some(episodes[j].name))
  {
    if episodes == [] then []
    else
      var last := episodes[|episodes| - 1];
      var front := episodes[..|episodes| - 1];
      var rows := UnmatchedRows(showName, seasonNumber, front)
                  + (if HasTmdbId(last.tmdbId) then [] else [NotFoundRow(showName, Some(seasonNumber), Some(last.name))]);
      assert forall j :: 0 <= j < |front| ==> front[j] == episodes[j];
      rows
  }

  /**
   * One season of getShowInformation: without a season listing nothing changes; with one,
   * every episode is matched and the unmatched ones are reported.
   */
  function SeasonMatched(showName: string, season: Season, listing: Option<seq<TmdbEpisode>>): (r: (Season, seq<NotFoundRow>))
    ensures r.0.number == season.number && r.0.name == season.name && |r.0.episodes| == |season.episodes|
    ensures listing.None? ==> r == (season, [])
    ensures listing.Some? ==>
              forall j :: 0 <= j < |season.episodes| ==>
                r.0.episodes[j] == season.episodes[j].(tmdbId := MatchedTmdbId(season.episodes[j], listing.value))
    ensures listing.Some? ==> r.1 == UnmatchedRows(showName, season.number, r.0.episodes)
  {
    match listing
    case None => (season, [])
    case Some(candidates) =>
      var eps := season.episodes;
      var matched := seq(|eps|, j requires 0 <= j < |eps| => eps[j].(tmdbId := MatchedTmdbId(eps[j], candidates)));
      (season.(episodes := matched), UnmatchedRows(showName, season.number, matched))
  }

  /** What the TMDB show search gave: an error, nothing, or a result with its "id". */
  datatype ShowLookup = LookupFailed | NotOnTmdb | FoundShow(id: Option<int>)

  /** The season loop for the first `n` seasons; `details` is `Season().details` for the show. */
  function SeasonsMatched(show: TvShow, details: int -> Option<seq<TmdbEpisode>>, n: nat): (r: (seq<Season>, seq<NotFoundRow>))
    requires n <= |show.seasons|
    ensures |r.0| == n
    ensures forall i :: 0 <= i < n ==> r.0[i] == SeasonMatched(show.name, show.seasons[i], details(show.seasons[i].number)).0
    ensures forall row :: row in r.1 <==>
              exists i | 0 <= i < n :: row in SeasonMatched(show.name, show.seasons[i], details(show.seasons[i].number)).1
  {
    if n == 0 then ([], [])
    else
      var (seasons, rows) := SeasonsMatched(show, details, n - 1);
      var (s, more) := SeasonMatched(show.name, show.seasons[n - 1], details(show.seasons[n - 1].number));
      (seasons + [s], rows + more)
  }

  /**
   * The rows of the season loop are exactly the unmatched episodes: one row per episode of
   * a season that has a listing and that matching leaves without a usable id.
   */
  lemma {:induction false} SeasonsMatchedReportsUnmatched(show: TvShow, details: int -> Option<seq<TmdbEpisode>>, n: nat)
    requires n <= |show.seasons|
    ensures forall row :: row in SeasonsMatched(show, details, n).1 <==>
              exists i, j | 0 <= i < n && 0 <= j < |show.seasons[i].episodes| ::
                && details(show.seasons[i].number).Some?
                && !HasTmdbId(MatchedTmdbId(show.seasons[i].episodes[j], details(show.seasons[i].number).value))
                && row == NotFoundRow(show.name, Some(show.seasons[i].number), Some(show.seasons[i].episodes[j].name))
  {
    forall row | row in SeasonsMatched(show, details, n).1
      ensures exists i, j | 0 <= i < n && 0 <= j < |show.seasons[i].episodes| ::
                && details(show.seasons[i].number).Some?
                && !HasTmdbId(MatchedTmdbId(show.seasons[i].episodes[j], details(show.seasons[i].number).value))
                && row == NotFoundRow(show.name, Some(show.seasons[i].number), Some(show.seasons[i].episodes[j].name))
    {
      var i :| 0 <= i < n && row in SeasonMatched(show.name, show.seasons[i], details(show.seasons[i].number)).1;
      var season := show.seasons[i];
      var matched := SeasonMatched(show.name, season, details(season.number)).0;
      var j :| 0 <= j < |matched.episodes| && !HasTmdbId(matched.episodes[j].tmdbId)
               && row == NotFoundRow(show.name, Some(season.number), Some(matched.episodes[j].name));
      assert matched.episodes[j] == season.episodes[j].(tmdbId := MatchedTmdbId(season.episodes[j], details(season.number).value));
    }
    forall i, j | 0 <= i < n && 0 <= j < |show.seasons[i].episodes|
                  && details(show.seasons[i].number).Some?
                  && !HasTmdbId(MatchedTmdbId(show.seasons[i].episodes[j], details(show.seasons[i].number).value))
      ensures NotFoundRow(show.name, Some(show.seasons[i].number), Some(show.seasons[i].episodes[j].name))
              in SeasonsMatched(show, details, n).1
    {
      var season := show.seasons[i];
      var matched := SeasonMatched(show.name, season, details(season.number)).0;
      assert matched.episodes[j] == season.episodes[j].(tmdbId := MatchedTmdbId(season.episodes[j], details(season.number).value));
      assert NotFoundRow(show.name, Some(season.number), Some(matched.episodes[j].name))
             in SeasonMatched(show.name, season, details(season.number)).1;
    }
  }

  /**
   * `getShowInformation` below the search: a blank name or a failed search stops silently,
   * a show TMDB does not know is reported, a found show without a usable id stops, and
   * otherwise every season is matched. Returns the show to queue, if any, and the rows.
   */
  function ShowInformation(show: TvShow, lookup: ShowLookup, details: int -> Option<seq<TmdbEpisode>>)
    : (r: (Option<TvShow>, seq<NotFoundRow>))
    ensures r.0.Some? <==> Strip(show.name) != [] && lookup.FoundShow? && HasTmdbId(lookup.id)
    ensures r.0.Some? ==> r.0.value.name == show.name && |r.0.value.seasons| == |show.seasons|
    ensures r.0.Some? ==>
              && r.0.value == show.(seasons := SeasonsMatched(show, details, |show.seasons|).0)
              && r.1 == SeasonsMatched(show, details, |show.seasons|).1
    ensures Strip(show.name) != [] && lookup.NotOnTmdb? ==> r.1 == [NotFoundRow(show.name, None, None)]
    ensures r.0.None? && !(Strip(show.name) != [] && lookup.NotOnTmdb?) ==> r.1 == []
  {
    if Strip(show.name) == [] then (None, [])
    else match lookup
      case LookupFailed => (None, [])
      case NotOnTmdb => (None, [NotFoundRow(show.name, None, None)])
      case FoundShow(id) =>
        if !HasTmdbId(id) then (None, [])
        else
          var (seasons, rows) := SeasonsMatched(show, details, |show.seasons|);
          (Some(show.(seasons := seasons)), rows)
  }
}
