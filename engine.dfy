/** The two-phase recommendation engine (`src/lib/recommendation-engine.ts`).

    Phase one maps the quiz answers to search criteria and fetches the
    candidates. Phase two scores every candidate, sorts by score, highest
    first, and then either picks one of the best ten at random (single mode)
    or returns the best `count` (batch mode). The two modes score differently
    and are kept apart. */
module Engine {
  import opened Collections
  import opened Sorting
  import opened Movies
  import opened Catalog

  /** The genre answer constrains the search only when it is non-empty and
      does not contain "any". */
  predicate GenreFilterOn(a: QuizAnswers) {
    |a.genres| > 0 && "any" !in a.genres
  }

  /** The search criteria for a set of answers, as both modes build them. */
  function CriteriaFor(a: QuizAnswers, excludeIds: seq<int>, limit: int): (c: SearchCriteria)
    ensures c.excludeIds == Some(excludeIds) && c.limit == Some(limit)
    ensures c.genres.Some? <==> GenreFilterOn(a)
    ensures c.genres.Some? ==> c.genres.value == a.genres
    ensures a.era == "old" ==> c.minYear == Some(1950) && c.maxYear == Some(2000)
    ensures a.era == "modern" ==> c.minYear == Some(2010) && c.maxYear.None?
    ensures a.era != "old" && a.era != "modern" ==> c.minYear.None? && c.maxYear.None?
    ensures a.origin == "polish" ==> c.isPolish == Some(true)
    ensures a.origin == "foreign" ==> c.isPolish == Some(false)
    ensures a.origin != "polish" && a.origin != "foreign" ==> c.isPolish.None?
    ensures c.keywords.None? && c.minRuntime.None? && c.maxRuntime.None?
  {
    NoCriteria.(
      excludeIds := Some(excludeIds),
      limit := Some(limit),
      genres := if GenreFilterOn(a) then Some(a.genres) else None,
      minYear := if a.era == "old" then Some(1950) else if a.era == "modern" then Some(2010) else None,
      maxYear := if a.era == "old" then Some(2000) else None,
      isPolish := if a.origin == "polish" then Some(true) else if a.origin == "foreign" then Some(false) else None,
      minRating :=
        if a.popularity == "niche" then Some(7.0)
        else if a.rating == "high" then Some(7.5)
        else if a.rating == "medium" then Some(6.0)
        else None,
      minPopularity := if a.popularity == "popular" then Some(50.0) else None,
      maxPopularity := if a.popularity == "niche" then Some(30.0) else None)
  }

  /** The popularity answer sets the popularity bounds, and a niche answer
      also fixes the rating bound, whatever the rating answer was. */
  lemma CriteriaBounds(a: QuizAnswers, excludeIds: seq<int>, limit: int)
    ensures var c := CriteriaFor(a, excludeIds, limit);
      && (a.popularity == "niche" ==> c.minRating == Some(7.0) && c.maxPopularity == Some(30.0) && c.minPopularity.None?)
      && (a.popularity == "popular" ==> c.minPopularity == Some(50.0) && c.maxPopularity.None?)
      && (a.popularity != "popular" && a.popularity != "niche" ==> c.minPopularity.None? && c.maxPopularity.None?)
      && (a.popularity != "niche" && a.rating == "high" ==> c.minRating == Some(7.5))
      && (a.popularity != "niche" && a.rating == "medium" ==> c.minRating == Some(6.0))
      && (a.popularity != "niche" && a.rating != "high" && a.rating != "medium" ==> c.minRating.None?)
  {
  }

  /** Phase one, field by field as the source assigns them; the niche branch
      overwrites whatever rating bound was set before it. */
  method BuildCriteria(a: QuizAnswers, excludeIds: seq<int>, limit: int) returns (c: SearchCriteria)
    ensures c == CriteriaFor(a, excludeIds, limit)
  {
    c := NoCriteria.(excludeIds := Some(excludeIds), limit := Some(limit));
    if |a.genres| > 0 && "any" !in a.genres {
      c := c.(genres := Some(a.genres));
    }
    if a.era == "old" {
      c := c.(maxYear := Some(2000));
      c := c.(minYear := Some(1950));
    } else if a.era == "modern" {
      c := c.(minYear := Some(2010));
    }
    if a.origin == "polish" {
      c := c.(isPolish := Some(true));
    } else if a.origin == "foreign" {
      c := c.(isPolish := Some(false));
    }
    if a.rating == "high" {
      c := c.(minRating := Some(7.5));
    } else if a.rating == "medium" {
      c := c.(minRating := Some(6.0));
    }
    if a.popularity == "popular" {
      c := c.(minPopularity := Some(50.0));
    } else if a.popularity == "niche" {
      c := c.(maxPopularity := Some(30.0));
      c := c.(minRating := Some(7.0));
    }
  }

  /** `movie.genres.filter(g => answers.genres.includes(g))` */
  function MatchedGenres(genres: seq<string>, chosen: seq<string>): (r: seq<string>)
    ensures |r| <= |genres|
    ensures forall g :: g in r <==> g in genres && g in chosen
  {
    if genres == [] then []
    else (if genres[0] in chosen then [genres[0]] else []) + MatchedGenres(genres[1..], chosen)
  }

  /** Five points per matched genre, when the genre answer is in force. */
  function GenreBonus(m: Movie, a: QuizAnswers): real {
    if GenreFilterOn(a) then 5.0 * |MatchedGenres(m.genres, a.genres)| as real else 0.0
  }

  // ---------------------------------------------------------------------
  // Single mode

  /** The single-mode score: the rating, the genre bonus, 2 for a popular
      answer and popularity above 100, 2 for a niche answer and popularity
      below 30, and 3 for a rating of at least 8. */
  function SingleScore(m: Movie, a: QuizAnswers): (s: real)
    ensures m.rating + GenreBonus(m, a) <= s <= m.rating + GenreBonus(m, a) + 5.0
  {
    m.rating + GenreBonus(m, a)
    + (if a.popularity == "popular" && m.popularity > 100.0 then 2.0 else 0.0)
    + (if a.popularity == "niche" && m.popularity < 30.0 then 2.0 else 0.0)
    + (if m.rating >= 8.0 then 3.0 else 0.0)
  }

  /** The single-mode reasons, in the order the bonuses are tested. */
  function SingleReasons(m: Movie, a: QuizAnswers): seq<Reason> {
    var matched := MatchedGenres(m.genres, a.genres);
    (if GenreFilterOn(a) && |matched| > 0 then [GenreLabel(matched)] else [])
    + (if a.popularity == "popular" && m.popularity > 100.0 then [PopularTitle] else [])
    + (if a.popularity == "niche" && m.popularity < 30.0 then [NicheGem] else [])
    + (if m.rating >= 8.0 then [HighRating(m.rating)] else [])
  }

  function SingleScored(m: Movie, a: QuizAnswers): Scored {
    Scored(m, SingleScore(m, a), SingleReasons(m, a))
  }

  /** The single-mode scoring callback, accumulating into `score` and `reasons`. */
  method ScoreSingle(m: Movie, a: QuizAnswers) returns (r: Scored)
    ensures r == SingleScored(m, a)
  {
    var score := 0.0;
    var reasons: seq<Reason> := [];
    score := score + m.rating;
    if |a.genres| > 0 && "any" !in a.genres {
      var genreMatches := |MatchedGenres(m.genres, a.genres)|;
      if genreMatches > 0 {
        score := score + genreMatches as real * 5.0;
        reasons := reasons + [GenreLabel(MatchedGenres(m.genres, a.genres))];
      }
    }
    if a.popularity == "popular" && m.popularity > 100.0 {
      score := score + 2.0;
      reasons := reasons + [PopularTitle];
    }
    if a.popularity == "niche" && m.popularity < 30.0 {
      score := score + 2.0;
      reasons := reasons + [NicheGem];
    }
    if m.rating >= 8.0 {
      score := score + 3.0;
      reasons := reasons + [HighRating(m.rating)];
    }
    r := Scored(m, score, reasons);
  }

  /** `movies.map(...)` with the single-mode callback. */
  method ScoreAllSingle(ms: seq<Movie>, a: QuizAnswers) returns (scored: seq<Scored>)
    ensures |scored| == |ms|
    ensures forall i :: 0 <= i < |ms| ==> scored[i] == SingleScored(ms[i], a)
  {
    scored := [];
    for i := 0 to |ms|
      invariant |scored| == i
      invariant forall j :: 0 <= j < i ==> scored[j] == SingleScored(ms[j], a)
    {
      var s := ScoreSingle(ms[i], a);
      scored := scored + [s];
    }
  }

  /** `(a, b) => b.score - a.score`: a higher score comes first. */
  predicate ScoreBefore(x: Scored, y: Scored) {
    x.score > y.score
  }

  lemma ScoreBeforeIsStrictWeakOrder()
    ensures StrictWeakOrder(ScoreBefore)
  {
  }

  /** The scored list after `scored.sort(...)`. */
  function Rank(scored: seq<Scored>): seq<Scored> {
    StableSort(scored, ScoreBefore)
  }

  /** The ranking holds the same entries, by score, highest first, and
      entries with equal scores keep their order. */
  lemma RankSpec(scored: seq<Scored>)
    ensures multiset(Rank(scored)) == multiset(scored)
    ensures forall i, j :: 0 <= i < j < |Rank(scored)| ==> Rank(scored)[i].score >= Rank(scored)[j].score
    ensures forall k :: Tied(Rank(scored), k, ScoreBefore) == Tied(scored, k, ScoreBefore)
  {
    ScoreBeforeIsStrictWeakOrder();
    StableSortSorted(scored, ScoreBefore);
    forall k ensures Tied(Rank(scored), k, ScoreBefore) == Tied(scored, k, ScoreBefore) {
      StableSortKeepsTies(scored, k, ScoreBefore);
    }
  }

  /** One of the first `min(10, n)` ranked entries, chosen by the random value. */
  function PickTop(ranked: seq<Scored>, rand: real): (r: Scored)
    requires |ranked| > 0 && 0.0 <= rand < 1.0
    ensures r in ranked[..Min(10, |ranked|)]
  {
    var top := ranked[..Min(10, |ranked|)];
    top[PickIndex(rand, |top|)]
  }

  /** The single-mode outcome for a catalog, answers, excluded ids and random value. */
  function SingleRecommendation(db: Db, a: QuizAnswers, excludeIds: seq<int>, rand: real): (r: Option<Scored>)
    requires 0.0 <= rand < 1.0
    ensures var cands := Search(db, CriteriaFor(a, excludeIds, 200));
      && (r.None? <==> |cands| == 0)
      && (r.Some? ==> r.value in Rank(SingleSeq(cands, a))[..Min(10, |cands|)])
  {
    var cands := Search(db, CriteriaFor(a, excludeIds, 200));
    if |cands| == 0 then None else Some(PickTop(Rank(SingleSeq(cands, a)), rand))
  }

  /** Every candidate scored in single mode, in candidate order. */
  function SingleSeq(ms: seq<Movie>, a: QuizAnswers): (r: seq<Scored>)
    ensures |r| == |ms| && forall i :: 0 <= i < |ms| ==> r[i] == SingleScored(ms[i], a)
  {
    seq(|ms|, i requires 0 <= i < |ms| => SingleScored(ms[i], a))
  }

  /** `getRecommendation`: filter, score, sort, then a random pick among the best ten. */
  method GetRecommendation(db: Db, a: QuizAnswers, excludeIds: seq<int>, rand: real) returns (r: Option<Scored>)
    requires 0.0 <= rand < 1.0
    ensures r == SingleRecommendation(db, a, excludeIds, rand)
  {
    var criteria := BuildCriteria(a, excludeIds, 200);
    var candidates := Search(db, criteria);
    if |candidates| == 0 {
      return None;
    }
    var scored := ScoreAllSingle(candidates, a);
    assert scored == SingleSeq(candidates, a);
    var ranked := Rank(scored);
    var topMovies := ranked[..Min(10, |ranked|)];
    var randomIndex := PickIndex(rand, |topMovies|);
    r := Some(topMovies[randomIndex]);
  }

  /** `getRandomRecommendation`: a random movie rated at least 6.5 among the
      first 100 the search returns. */
  function RandomCriteria(excludeIds: seq<int>): SearchCriteria {
    NoCriteria.(excludeIds := Some(excludeIds), limit := Some(100), minRating := Some(6.5))
  }

  function GetRandomRecommendation(db: Db, excludeIds: seq<int>, rand: real): (r: Option<Movie>)
    requires 0.0 <= rand < 1.0
    ensures r.None? <==> |Search(db, RandomCriteria(excludeIds))| == 0
    ensures r.Some? ==> r.value in Search(db, RandomCriteria(excludeIds)) && r.value.rating >= 6.5
  {
    var movies := Search(db, RandomCriteria(excludeIds));
    if |movies| == 0 then None
    else
      var i := PickIndex(rand, |movies|);
      SearchSound(db, RandomCriteria(excludeIds));
      Some(movies[i])
  }

  // ---------------------------------------------------------------------
  // Batch mode

  function EraBonus(m: Movie, a: QuizAnswers): real {
    if a.era == "modern" && m.year.Some? && m.year.value != 0 && m.year.value >= 2010 then 3.0
    else if a.era == "old" && m.year.Some? && m.year.value != 0 && m.year.value < 2000 then 3.0
    else 0.0
  }

  function RatingBonus(m: Movie, a: QuizAnswers): real {
    if a.rating == "high" && m.rating >= 7.5 then 5.0
    else if a.rating == "medium" && m.rating >= 6.0 then 3.0
    else 0.0
  }

  function PopularityBonus(m: Movie, a: QuizAnswers): real {
    if a.popularity == "popular" && m.popularity > 50.0 then 3.0
    else if a.popularity == "niche" && m.popularity < 30.0 then 3.0
    else 0.0
  }

  /** The batch-mode score: no rating base; the genre, era, rating and
      popularity bonuses, and 2 for a rating of at least 8. */
  function BatchScore(m: Movie, a: QuizAnswers): (s: real)
    ensures GenreBonus(m, a) <= s <= GenreBonus(m, a) + 13.0
  {
    GenreBonus(m, a) + EraBonus(m, a) + RatingBonus(m, a) + PopularityBonus(m, a)
    + (if m.rating >= 8.0 then 2.0 else 0.0)
  }

  /** The batch-mode reasons: the bare genre list, the high rating, and the
      popularity note. The medium-rating, era and top-rating bonuses add none. */
  function BatchReasons(m: Movie, a: QuizAnswers): seq<Reason> {
    var matched := MatchedGenres(m.genres, a.genres);
    (if GenreFilterOn(a) && |matched| > 0 then [GenreList(matched)] else [])
    + (if a.rating == "high" && m.rating >= 7.5 then [HighRating(m.rating)] else [])
    + (if a.popularity == "popular" && m.popularity > 50.0 then [Popular]
       else if a.popularity == "niche" && m.popularity < 30.0 then [HiddenGem]
       else [])
  }

  function BatchScored(m: Movie, a: QuizAnswers): Scored {
    Scored(m, BatchScore(m, a), BatchReasons(m, a))
  }

  /** The batch-mode scoring callback. */
  method ScoreBatch(m: Movie, a: QuizAnswers) returns (r: Scored)
    ensures r == BatchScored(m, a)
  {
    var score := 0.0;
    var reasons: seq<Reason> := [];
    if |a.genres| > 0 && "any" !in a.genres {
      var genreMatches := |MatchedGenres(m.genres, a.genres)|;
      if genreMatches > 0 {
        score := score + genreMatches as real * 5.0;
        reasons := reasons + [GenreList(MatchedGenres(m.genres, a.genres))];
      }
    }
    if a.era == "modern" && m.year.Some? && m.year.value != 0 && m.year.value >= 2010 {
      score := score + 3.0;
    } else if a.era == "old" && m.year.Some? && m.year.value != 0 && m.year.value < 2000 {
      score := score + 3.0;
    }
    if a.rating == "high" && m.rating >= 7.5 {
      score := score + 5.0;
      reasons := reasons + [HighRating(m.rating)];
    } else if a.rating == "medium" && m.rating >= 6.0 {
      score := score + 3.0;
    }
    if a.popularity == "popular" && m.popularity > 50.0 {
      score := score + 3.0;
      reasons := reasons + [Popular];
    } else if a.popularity == "niche" && m.popularity < 30.0 {
      score := score + 3.0;
      reasons := reasons + [HiddenGem];
    }
    if m.rating >= 8.0 {
      score := score + 2.0;
    }
    r := Scored(m, score, reasons);
  }

  /** Every candidate scored in batch mode, in candidate order. */
  function BatchSeq(ms: seq<Movie>, a: QuizAnswers): (r: seq<Scored>)
    ensures |r| == |ms| && forall i :: 0 <= i < |ms| ==> r[i] == BatchScored(ms[i], a)
  {
    seq(|ms|, i requires 0 <= i < |ms| => BatchScored(ms[i], a))
  }

  /** `candidates.map(...)` with the batch-mode callback. */
  method ScoreAllBatch(ms: seq<Movie>, a: QuizAnswers) returns (scored: seq<Scored>)
    ensures scored == BatchSeq(ms, a)
  {
    scored := [];
    for i := 0 to |ms|
      invariant |scored| == i
      invariant forall j :: 0 <= j < i ==> scored[j] == BatchScored(ms[j], a)
    {
      var s := ScoreBatch(ms[i], a);
      scored := scored + [s];
    }
  }

  /** The batch outcome: the best `count` of the ranked candidates (JavaScript
      `slice(0, count)`); the search asks for `count * 10` candidates. */
  function BatchRecommendations(db: Db, a: QuizAnswers, excludeIds: seq<int>, count: int): seq<Scored> {
    var cands := Search(db, CriteriaFor(a, excludeIds, count * 10));
    if |cands| == 0 then [] else SliceTo(Rank(BatchSeq(cands, a)), count)
  }

  /** `getMultipleRecommendations` */
  method GetMultipleRecommendations(db: Db, a: QuizAnswers, excludeIds: seq<int>, count: int)
    returns (r: seq<Scored>)
    ensures r == BatchRecommendations(db, a, excludeIds, count)
  {
    var criteria := BuildCriteria(a, excludeIds, count * 10);
    var candidates := Search(db, criteria);
    if |candidates| == 0 {
      return [];
    }
    var scored := ScoreAllBatch(candidates, a);
    var ranked := Rank(scored);
    r := SliceTo(ranked, count);
  }

  /** The batch result has `min(count, candidates)` entries, each a
      candidate scored in batch mode, by score, highest first, and equal
      scores keep candidate order. */
  lemma BatchSpec(db: Db, a: QuizAnswers, excludeIds: seq<int>, count: int)
    ensures var cands := Search(db, CriteriaFor(a, excludeIds, count * 10));
      var r := BatchRecommendations(db, a, excludeIds, count);
      && (count >= 0 ==> |r| == Min(count, |cands|))
      && (forall i :: 0 <= i < |r| ==> r[i].movie in cands && r[i] == BatchScored(r[i].movie, a))
      && (forall i, j :: 0 <= i < j < |r| ==> r[i].score >= r[j].score)
      && r == Rank(BatchSeq(cands, a))[..|r|]
  {
    var cands := Search(db, CriteriaFor(a, excludeIds, count * 10));
    TopBatch(cands, a, count);
  }

  /** Among candidates with distinct ids, the id picks out the movie. */
  lemma SameIdSameMovie(cands: seq<Movie>, x: Movie, y: Movie)
    requires Distinct(Ids(cands)) && x in cands && y in cands
    ensures x.id == y.id ==> x == y
  {
    var p :| 0 <= p < |cands| && cands[p] == x;
    var q :| 0 <= q < |cands| && cands[q] == y;
    assert Ids(cands)[p] == x.id && Ids(cands)[q] == y.id;
  }

  /** A batch never recommends the same movie twice: the candidates carry
      distinct ids, and ranking and slicing keep them distinct. */
  lemma BatchDistinct(db: Db, a: QuizAnswers, excludeIds: seq<int>, count: int)
    requires db.Valid()
    ensures var r := BatchRecommendations(db, a, excludeIds, count);
      forall i, j :: 0 <= i < j < |r| ==> r[i].movie.id != r[j].movie.id
  {
    var cands := Search(db, CriteriaFor(a, excludeIds, count * 10));
    SearchDistinct(db, CriteriaFor(a, excludeIds, count * 10));
    var ids := Ids(cands);
    var scored := BatchSeq(cands, a);
    forall i, j | 0 <= i < j < |scored| ensures scored[i] != scored[j] {
      assert ids[i] != ids[j];
    }
    StableSortDistinct(scored, ScoreBefore);
    BatchSpec(db, a, excludeIds, count);
    var r := BatchRecommendations(db, a, excludeIds, count);
    var ranked := Rank(scored);
    forall i, j | 0 <= i < j < |r| ensures r[i].movie.id != r[j].movie.id {
      assert r[i] == ranked[i] && r[j] == ranked[j];
      SameIdSameMovie(cands, r[i].movie, r[j].movie);
    }
  }

  /** The same facts about any candidate list. */
  lemma TopBatch(cands: seq<Movie>, a: QuizAnswers, count: int)
    ensures var r := if |cands| == 0 then [] else SliceTo(Rank(BatchSeq(cands, a)), count);
      && (count >= 0 ==> |r| == Min(count, |cands|))
      && (forall i :: 0 <= i < |r| ==> r[i].movie in cands && r[i] == BatchScored(r[i].movie, a))
      && (forall i, j :: 0 <= i < j < |r| ==> r[i].score >= r[j].score)
      && r == Rank(BatchSeq(cands, a))[..|r|]
  {
    var scored := BatchSeq(cands, a);
    RankSpec(scored);
    var r := if |cands| == 0 then [] else SliceTo(Rank(scored), count);
    forall i | 0 <= i < |r| ensures r[i].movie in cands && r[i] == BatchScored(r[i].movie, a) {
      assert r[i] in multiset(Rank(scored));
      assert r[i] in scored;
      var k :| 0 <= k < |scored| && scored[k] == r[i];
    }
  }

  /** Zero candidates give no recommendation in either mode, never an error. */
  lemma NoCandidates(db: Db, a: QuizAnswers, excludeIds: seq<int>, count: int, rand: real)
    requires 0.0 <= rand < 1.0
    requires |Search(db, CriteriaFor(a, excludeIds, 200))| == 0
    requires |Search(db, CriteriaFor(a, excludeIds, count * 10))| == 0
    ensures SingleRecommendation(db, a, excludeIds, rand).None?
    ensures BatchRecommendations(db, a, excludeIds, count) == []
  {
  }

  /** The single pick is a candidate scored in single mode, and no more than
      nine ranked entries score higher. */
  lemma SinglePickSpec(db: Db, a: QuizAnswers, excludeIds: seq<int>, rand: real)
    requires 0.0 <= rand < 1.0
    ensures var cands := Search(db, CriteriaFor(a, excludeIds, 200));
      var r := SingleRecommendation(db, a, excludeIds, rand);
      r.Some? ==>
        && r.value.movie in cands && r.value == SingleScored(r.value.movie, a)
        && exists i :: 0 <= i < 10 && i < |cands| && Rank(SingleSeq(cands, a))[i] == r.value
  {
    var cands := Search(db, CriteriaFor(a, excludeIds, 200));
    if |cands| > 0 {
      TopSingle(cands, a, rand);
    }
  }

  /** The same facts about any non-empty candidate list. */
  lemma TopSingle(cands: seq<Movie>, a: QuizAnswers, rand: real)
    requires 0.0 <= rand < 1.0 && |cands| > 0
    ensures var r := PickTop(Rank(SingleSeq(cands, a)), rand);
      && r.movie in cands && r == SingleScored(r.movie, a)
      && exists i :: 0 <= i < 10 && i < |cands| && Rank(SingleSeq(cands, a))[i] == r
  {
    var scored := SingleSeq(cands, a);
    RankSpec(scored);
    var r := PickTop(Rank(scored), rand);
    var top := Rank(scored)[..Min(10, |cands|)];
    var i :| 0 <= i < |top| && top[i] == r;
    assert Rank(scored)[i] == r;
    assert r in multiset(scored);
    var k :| 0 <= k < |scored| && scored[k] == r;
  }

  /** With the genre answer in force, every candidate has a matching genre,
      so the genre bonus is at least 5 in both modes. */
  lemma CandidatesMatchGenre(db: Db, a: QuizAnswers, excludeIds: seq<int>, limit: int, m: Movie)
    requires GenreFilterOn(a) && m in Search(db, CriteriaFor(a, excludeIds, limit))
    ensures |MatchedGenres(m.genres, a.genres)| >= 1
    ensures SingleScore(m, a) >= m.rating + 5.0 && BatchScore(m, a) >= 5.0
  {
    var c := CriteriaFor(a, excludeIds, limit);
    SearchSound(db, c);
    var i :| 0 <= i < |Search(db, c)| && Search(db, c)[i] == m;
    var row :| row in db.movies && MeetsCriteria(db, c, row) && m == Hydrate(db, row);
    var n :| n in a.genres && Link(row.id, n) in db.genres;
    assert n in m.genres;
    assert n in MatchedGenres(m.genres, a.genres);
  }

  /** Every candidate honours the scalar answers: an old or modern era
      bounds its year, a Polish or foreign origin fixes its flag, a high or
      medium rating bounds its rating, and a niche answer caps its popularity
      at 30 and asks for a rating of at least 7, whatever the rating answer. */
  lemma CandidatesMeetAnswers(db: Db, a: QuizAnswers, excludeIds: seq<int>, limit: int, m: Movie)
    requires m in Search(db, CriteriaFor(a, excludeIds, limit))
    ensures m.id !in excludeIds
    ensures a.era == "old" ==> m.year.Some? && 1950 <= m.year.value <= 2000
    ensures a.era == "modern" ==> m.year.Some? && m.year.value >= 2010
    ensures a.origin == "polish" ==> m.isPolish
    ensures a.origin == "foreign" ==> !m.isPolish
    ensures a.popularity == "niche" ==> m.popularity <= 30.0 && m.rating >= 7.0
    ensures a.popularity == "popular" ==> m.popularity >= 50.0
    ensures a.popularity != "niche" && a.rating == "high" ==> m.rating >= 7.5
    ensures a.popularity != "niche" && a.rating == "medium" ==> m.rating >= 6.0
  {
    var c := CriteriaFor(a, excludeIds, limit);
    CriteriaBounds(a, excludeIds, limit);
    SearchSound(db, c);
    var i :| 0 <= i < |Search(db, c)| && Search(db, c)[i] == m;
    var row :| row in db.movies && MeetsCriteria(db, c, row) && m == Hydrate(db, row);
  }

  /** With every answer unconstrained, neither mode adds a genre, era, rating
      or popularity bonus: only the top-rating bonus remains. */
  lemma UnconstrainedScores(m: Movie, a: QuizAnswers)
    requires a.genres == ["any"] && a.era == "any" && a.rating == "any" && a.popularity == "any"
    ensures SingleScore(m, a) == m.rating + (if m.rating >= 8.0 then 3.0 else 0.0)
    ensures BatchScore(m, a) == (if m.rating >= 8.0 then 2.0 else 0.0)
    ensures SingleReasons(m, a) == (if m.rating >= 8.0 then [HighRating(m.rating)] else [])
    ensures BatchReasons(m, a) == []
  {
  }

  /** A popular answer rewards popularity above 50 in batch mode but only
      popularity above 100 in single mode. */
  lemma PopularThresholdsDiffer(m: Movie, a: QuizAnswers)
    requires a.popularity == "popular" && 50.0 < m.popularity <= 100.0
    ensures SingleScore(m, a) == m.rating + GenreBonus(m, a) + (if m.rating >= 8.0 then 3.0 else 0.0)
    ensures PopularityBonus(m, a) == 3.0 && Popular in BatchReasons(m, a)
  {
  }

  /** Two entries with different scores are ranked higher score first,
      whichever order they arrive in. */
  lemma RankPair(p: Scored, q: Scored)
    requires p.score > q.score
    ensures Rank([p, q]) == [p, q] && Rank([q, p]) == [p, q]
  {
    assert [p, q][1..] == [q] && [q, p][1..] == [p];
    assert [q][1..] == [] && [p][1..] == [];
    assert StableSort([q], ScoreBefore) == [q];
    assert StableSort([p], ScoreBefore) == [p];
    assert Insert(q, [], ScoreBefore) == [q];
    assert Insert(q, [p], ScoreBefore) == [p] + Insert(q, [], ScoreBefore);
  }

  /** A drama rated 8.2 with popularity 20 against a comedy rated 6.0 with
      popularity 200, for a quiz asking only for dramas: single mode scores
      them 16.2 and 6.0, batch mode 7 and 0. */
  lemma DramaOverComedyScores(x: Movie, y: Movie, a: QuizAnswers)
    requires x.rating == 8.2 && x.popularity == 20.0 && x.genres == ["Dramat"]
    requires y.rating == 6.0 && y.popularity == 200.0 && y.genres == ["Komedia"]
    requires a == QuizAnswers(["Dramat"], "any", "any", "any", "any")
    ensures SingleScore(x, a) == 16.2 && SingleScore(y, a) == 6.0
    ensures BatchScore(x, a) == 7.0 && BatchScore(y, a) == 0.0
  {
    assert MatchedGenres(x.genres, a.genres) == ["Dramat"];
    assert MatchedGenres(y.genres, a.genres) == [];
  }

  /** In the same example batch mode ranks the drama first, whichever order
      the candidates arrive in. */
  lemma DramaOverComedy(x: Movie, y: Movie, a: QuizAnswers)
    requires x.rating == 8.2 && x.popularity == 20.0 && x.genres == ["Dramat"]
    requires y.rating == 6.0 && y.popularity == 200.0 && y.genres == ["Komedia"]
    requires a == QuizAnswers(["Dramat"], "any", "any", "any", "any")
    ensures Rank(BatchSeq([x, y], a)) == [BatchScored(x, a), BatchScored(y, a)]
    ensures Rank(BatchSeq([y, x], a)) == [BatchScored(x, a), BatchScored(y, a)]
  {
    DramaOverComedyScores(x, y, a);
    var sx, sy := BatchScored(x, a), BatchScored(y, a);
    assert BatchSeq([x, y], a) == [sx, sy];
    assert BatchSeq([y, x], a) == [sy, sx];
    RankPair(sx, sy);
  }
}
