/**
 * The entry classifier of `NetflixTvHistory.addEntry` (NetflixTvShow.py:60-153) and its
 * "A: B" heuristic `isLikelyTvShow` (NetflixTvShow.py:251-292).
 *
 * The five title regexes of the cascade are abstract matchers handed in by the caller;
 * what is modelled is their order (first match wins) and what each match leads to.
 * The indicator phrases of `isLikelyTvShow` are modelled concretely, case-insensitively.
 */
module Classifier {
  import opened Wrappers
  import opened Text

  /** Captures of `(.+): .+ (\d{1,2}): (.*)` and `(.+): .+ (\d{1,2}) – .+: (.*)`. */
  datatype NumberedMatch = NumberedMatch(show: string, season: nat, episode: string)

  /** Captures of `(.+): (.+): (.+)`. */
  datatype NamedMatch = NamedMatch(show: string, seasonName: string, episode: string)

  /** Captures of `(.+): \w+: (.+)` and `(.+): (.+)`. */
  datatype PairMatch = PairMatch(show: string, episode: string)

  /** The five `re.search` calls of addEntry, in cascade order. */
  datatype TitleMatchers = TitleMatchers(
    seasonNumbered: string -> Option<NumberedMatch>,
    partNumbered: string -> Option<NumberedMatch>,
    miniseries: string -> Option<PairMatch>,
    namedSeason: string -> Option<NamedMatch>,
    showEpisode: string -> Option<PairMatch>)

  /** The three answers of isLikelyTvShow: True, False and None. */
  datatype Likely = LikelyEpisode | LikelyMovie | Uncertain

  /** `word \d+`, case-insensitively: the word, one space, then at least one digit. */
  predicate WordThenNumber(s: string, word: string) {
    var l := Lower(s);
    exists i | 0 <= i <= |l| :: OccursAt(l, word + " ", i) && i + |word| + 1 < |l| && IsDecimal(l[i + |word| + 1])
  }

  /** `first.{gap,}last`, case-insensitively (`.` taken to match every character). */
  predicate Spans(s: string, first: string, last: string, gap: nat) {
    var l := Lower(s);
    exists i, j | 0 <= i <= |l| && 0 <= j <= |l| ::
      OccursAt(l, first, i) && OccursAt(l, last, j) && i + |first| + gap <= j
  }

  /** Case-insensitive search for a lower-case literal. */
  predicate HasPhrase(s: string, phrase: string) {
    Contains(Lower(s), phrase)
  }

  /** The episode patterns of NetflixTvShow.py:267-270, searched in the episode title. */
  predicate EpisodeIndicator(episodeTitle: string) {
    || WordThenNumber(episodeTitle, "episode")
    || WordThenNumber(episodeTitle, "part")
    || WordThenNumber(episodeTitle, "chapter")
    || WordThenNumber(episodeTitle, "act")
    || HasPhrase(episodeTitle, "season finale")
    || HasPhrase(episodeTitle, "pilot")
    || HasPhrase(episodeTitle, "finale")
    || HasPhrase(episodeTitle, "premiere")
  }

  /** The movie patterns of NetflixTvShow.py:278-282, searched in the full title. */
  predicate MovieIndicator(fullTitle: string) {
    || HasPhrase(fullTitle, "legend of")
    || HasPhrase(fullTitle, "rise of")
    || HasPhrase(fullTitle, "return of")
    || HasPhrase(fullTitle, "age of")
    || Spans(fullTitle, "the ", " movie", 1)
    || Spans(fullTitle, "director", "cut", 0)
    || HasPhrase(fullTitle, "extended edition")
    || HasPhrase(fullTitle, "special edition")
    || HasPhrase(fullTitle, "uncut")
    || HasPhrase(fullTitle, "remastered")
  }

  /** The title isLikelyTvShow rebuilds from its two parts. */
  function FullTitle(showName: string, episodeTitle: string): string {
    showName + ": " + episodeTitle
  }

  /**
   * isLikelyTvShow: a known show name wins; then an episode indicator in the episode title;
   * then a movie indicator in the full title; otherwise uncertain.
   */
  function IsLikelyTvShow(known: set<string>, showName: string, episodeTitle: string): (r: Likely)
    ensures r == LikelyEpisode <==> showName in known || EpisodeIndicator(episodeTitle)
    ensures r == LikelyMovie <==>
              showName !in known && !EpisodeIndicator(episodeTitle) && MovieIndicator(FullTitle(showName, episodeTitle))
    ensures r == Uncertain <==>
              showName !in known && !EpisodeIndicator(episodeTitle) && !MovieIndicator(FullTitle(showName, episodeTitle))
  {
    if showName in known then LikelyEpisode
    else if EpisodeIndicator(episodeTitle) then LikelyEpisode
    else if MovieIndicator(FullTitle(showName, episodeTitle)) then LikelyMovie
    else Uncertain
  }

  /**
   * Where addEntry sends a title: to addTvShowEntry with a season number or a season name,
   * to the ambiguity queue, or to addMovieEntry with the whole title.
   */
  datatype Route =
    | EpisodeRoute(show: string, season: Option<int>, episode: string, seasonName: Option<string>)
    | PendingRoute(show: string, episode: string)
    | MovieRoute

  /** The cascade of addEntry: the first matcher that matches decides. */
  function RouteOf(m: TitleMatchers, known: set<string>, title: string): (r: Route)
    ensures m.seasonNumbered(title).Some? ==>
              r == EpisodeRoute(m.seasonNumbered(title).value.show, Some(m.seasonNumbered(title).value.season),
                                m.seasonNumbered(title).value.episode, None)
    ensures m.seasonNumbered(title).None? && m.partNumbered(title).Some? ==>
              r == EpisodeRoute(m.partNumbered(title).value.show, Some(m.partNumbered(title).value.season),
                                m.partNumbered(title).value.episode, None)
    ensures m.seasonNumbered(title).None? && m.partNumbered(title).None? && m.miniseries(title).Some? ==>
              r == EpisodeRoute(m.miniseries(title).value.show, Some(1), m.miniseries(title).value.episode, None)
    ensures && m.seasonNumbered(title).None? && m.partNumbered(title).None? && m.miniseries(title).None?
            && m.namedSeason(title).Some? ==>
              r == EpisodeRoute(m.namedSeason(title).value.show, None, m.namedSeason(title).value.episode,
                                Some(m.namedSeason(title).value.seasonName))
    ensures && m.seasonNumbered(title).None? && m.partNumbered(title).None?
            && m.miniseries(title).None? && m.namedSeason(title).None? && m.showEpisode(title).Some?
            && IsLikelyTvShow(known, m.showEpisode(title).value.show, m.showEpisode(title).value.episode) == LikelyEpisode ==>
              r == EpisodeRoute(m.showEpisode(title).value.show, Some(1), m.showEpisode(title).value.episode, None)
    ensures r.PendingRoute? <==>
              && m.seasonNumbered(title).None? && m.partNumbered(title).None?
              && m.miniseries(title).None? && m.namedSeason(title).None? && m.showEpisode(title).Some?
              && IsLikelyTvShow(known, m.showEpisode(title).value.show, m.showEpisode(title).value.episode) == Uncertain
    ensures r.PendingRoute? ==> m.showEpisode(title) == Some(PairMatch(r.show, r.episode))
    ensures r.MovieRoute? <==>
              && m.seasonNumbered(title).None? && m.partNumbered(title).None?
              && m.miniseries(title).None? && m.namedSeason(title).None?
              && (m.showEpisode(title).Some? ==>
                    IsLikelyTvShow(known, m.showEpisode(title).value.show, m.showEpisode(title).value.episode) == LikelyMovie)
    ensures r.EpisodeRoute? ==> r.season.Some? || r.seasonName.Some?
  {
    match m.seasonNumbered(title)
    case Some(x) => EpisodeRoute(x.show, Some(x.season), x.episode, None)
    case None =>
      match m.partNumbered(title)
      case Some(x) => EpisodeRoute(x.show, Some(x.season), x.episode, None)
      case None =>
        match m.miniseries(title)
        case Some(x) => EpisodeRoute(x.show, Some(1), x.episode, None)
        case None =>
          match m.namedSeason(title)
          case Some(x) => EpisodeRoute(x.show, None, x.episode, Some(x.seasonName))
          case None =>
            match m.showEpisode(title)
            case None => MovieRoute
            case Some(x) =>
              match IsLikelyTvShow(known, x.show, x.episode)
              case LikelyEpisode => EpisodeRoute(x.show, Some(1), x.episode, None)
              case LikelyMovie => MovieRoute
              case Uncertain => PendingRoute(x.show, x.episode)
  }

  /** Only the "A: B" rule consults the known show names: a title routed elsewhere ignores them. */
  lemma {:induction false} RouteIgnoresKnownBeforeLastRule(m: TitleMatchers, k1: set<string>, k2: set<string>, title: string)
    requires m.seasonNumbered(title).Some? || m.partNumbered(title).Some? || m.miniseries(title).Some?
             || m.namedSeason(title).Some? || m.showEpisode(title).None?
    ensures RouteOf(m, k1, title) == RouteOf(m, k2, title)
  {
  }

  /** A record never stays uncertain once its show name is known. */
  lemma KnownShowIsEpisode(m: TitleMatchers, known: set<string>, title: string)
    requires m.showEpisode(title).Some? && m.showEpisode(title).value.show in known
    ensures RouteOf(m, known, title).EpisodeRoute?
  {
  }

  /** The word "Pilot", in any letter case, marks an episode (NetflixTvShow.py:269). */
  lemma PilotMarksEpisode(before: string, after: string)
    ensures EpisodeIndicator(before + "PiLoT" + after)
  {
    var s := before + "PiLoT" + after;
    var l := Lower(s);
    assert l[|before|..|before| + 5] == "pilot";
    assert OccursAt(l, "pilot", |before|);
    ContainsAt(l, "pilot");
  }

  /** "Part 2" marks an episode (NetflixTvShow.py:268). */
  lemma PartNumberMarksEpisode(before: string, after: string)
    ensures EpisodeIndicator(before + "Part 2" + after)
  {
    var s := before + "Part 2" + after;
    var l := Lower(s);
    var i := |before|;
    assert l[i..i + 5] == "part ";
    AsciiDigitIsDecimal(l[i + 5]);
    assert OccursAt(l, "part" + " ", i) && IsDecimal(l[i + 5]);
  }

  /** "Legend of" marks a movie, as in the source's King Arthur example (NetflixTvShow.py:121, 279). */
  lemma LegendOfMarksMovie(show: string, after: string)
    ensures MovieIndicator(FullTitle(show, "Legend of" + after))
  {
    var s := FullTitle(show, "Legend of" + after);
    var l := Lower(s);
    var i := |show| + 2;
    assert l[i..i + 9] == "legend of";
    assert OccursAt(l, "legend of", i);
    ContainsAt(l, "legend of");
  }
}
