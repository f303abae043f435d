/** The movie catalog and its search (`src/lib/db.ts`).

    The database becomes an in-memory value: the `movies` table in storage
    order, and the genre, country and keyword link tables already joined with
    their names. `searchMovies` has two halves. `BuildQuery` is the imperative
    SQL/parameter builder. `Search` is what that query selects: every movie
    that satisfies all active conditions, ordered by rating, then popularity,
    both descending, cut to the limit. */
module Catalog {
  import opened Collections
  import opened Sorting
  import opened JsNumbers
  import opened Movies

  /** A row of the `movies` table; `isPolish` is the stored 0/1 flag. */
  datatype Row = Row(
    id: int,
    title: string,
    titlePl: Option<string>,
    titleOriginal: string,
    description: string,
    poster: Option<string>,
    backdrop: Option<string>,
    year: Option<int>,
    rating: real,
    voteCount: int,
    popularity: real,
    runtime: Option<int>,
    isPolish: int)

  /** A `movie_genres`/`movie_countries`/`movie_keywords` row joined with the
      genre name, country code or keyword name it points to. */
  datatype Link = Link(movieId: int, name: string)

  datatype Db = Db(movies: seq<Row>, genres: seq<Link>, countries: seq<Link>, keywords: seq<Link>) {
    /** `id` is the primary key of `movies`. */
    ghost predicate Valid() {
      forall i, j :: 0 <= i < j < |movies| ==> movies[i].id != movies[j].id
    }
  }

  /** The names linked to a movie, in link-table order. */
  function NamesOf(links: seq<Link>, id: int): (r: seq<string>)
    ensures forall n :: n in r <==> Link(id, n) in links
  {
    if links == [] then []
    else (if links[0].movieId == id then [links[0].name] else []) + NamesOf(links[1..], id)
  }

  /** The import sets the flag to 1 exactly when "PL" is among the movie's countries. */
  ghost predicate PolishFlagsFollowCountries(db: Db) {
    forall i :: 0 <= i < |db.movies| ==>
      db.movies[i].isPolish == (if "PL" in NamesOf(db.countries, db.movies[i].id) then 1 else 0)
  }

  /** Row hydration: `is_polish === 1`, plus the movie's genres and countries. */
  function Hydrate(db: Db, row: Row): (m: Movie)
    ensures m.id == row.id && m.rating == row.rating && m.popularity == row.popularity
    ensures m.year == row.year && m.runtime == row.runtime
    ensures m.isPolish <==> row.isPolish == 1
    ensures forall g :: g in m.genres <==> Link(row.id, g) in db.genres
    ensures forall c :: c in m.countries <==> Link(row.id, c) in db.countries
  {
    Movie(row.id, row.title, row.titlePl, row.titleOriginal, row.description, row.poster,
          row.backdrop, row.year, row.rating, row.voteCount, row.popularity, row.runtime,
          row.isPolish == 1, NamesOf(db.genres, row.id), NamesOf(db.countries, row.id))
  }

  /** The first row with the given id. */
  function FindRow(rows: seq<Row>, id: int): (r: Option<Row>)
    ensures r.None? <==> forall i :: 0 <= i < |rows| ==> rows[i].id != id
    ensures r.Some? ==> r.value in rows && r.value.id == id
  {
    if rows == [] then None
    else if rows[0].id == id then Some(rows[0])
    else FindRow(rows[1..], id)
  }

  /** `getMovieById`: `null` for an unknown id, else the hydrated row. */
  function GetMovieById(db: Db, id: int): (r: Option<Movie>) {
    match FindRow(db.movies, id)
    case None => None
    case Some(row) => Some(Hydrate(db, row))
  }

  lemma GetMovieByIdSpec(db: Db, id: int)
    requires db.Valid()
    ensures GetMovieById(db, id).None? <==> forall i :: 0 <= i < |db.movies| ==> db.movies[i].id != id
    ensures forall i :: 0 <= i < |db.movies| && db.movies[i].id == id ==>
      GetMovieById(db, id) == Some(Hydrate(db, db.movies[i]))
  {
    forall i | 0 <= i < |db.movies| && db.movies[i].id == id
      ensures GetMovieById(db, id) == Some(Hydrate(db, db.movies[i]))
    {
      var row := FindRow(db.movies, id).value;
      var k :| 0 <= k < |db.movies| && db.movies[k] == row;
      assert k == i;
    }
  }

  /** Where the stored flags follow the countries, a hydrated movie is Polish
      exactly when "PL" is among its countries. */
  lemma HydratedPolishFlag(db: Db, i: int)
    requires PolishFlagsFollowCountries(db) && 0 <= i < |db.movies|
    ensures Hydrate(db, db.movies[i]).isPolish <==> "PL" in Hydrate(db, db.movies[i]).countries
  {
  }

  /** `SearchCriteria`: every field optional. */
  datatype SearchCriteria = SearchCriteria(
    genres: Option<seq<string>>,
    minYear: Option<int>,
    maxYear: Option<int>,
    minRating: Option<real>,
    isPolish: Option<bool>,
    minRuntime: Option<int>,
    maxRuntime: Option<int>,
    minPopularity: Option<real>,
    maxPopularity: Option<real>,
    excludeIds: Option<seq<int>>,
    limit: Option<int>,
    keywords: Option<seq<string>>)

  const NoCriteria := SearchCriteria(None, None, None, None, None, None, None, None, None, None, None, None)

  /** A JavaScript truthiness test on an optional number: absent and 0 are false. */
  predicate IntSet(x: Option<int>) {
    x.Some? && x.value != 0
  }

  predicate RealSet(x: Option<real>) {
    x.Some? && x.value != 0.0
  }

  predicate ListSet<T>(x: Option<seq<T>>) {
    x.Some? && |x.value| > 0
  }

  /** One SQL condition of the query. */
  datatype Condition =
    | GenreIn(names: seq<string>)
    | KeywordIn(names: seq<string>)
    | YearAtLeast(y: int)
    | YearAtMost(y: int)
    | RatingAtLeast(r: real)
    | PolishIs(b: bool)
    | RuntimeAtLeast(n: int)
    | RuntimeAtMost(n: int)
    | PopularityAtLeast(p: real)
    | PopularityAtMost(p: real)
    | IdNotIn(ids: seq<int>)

  /** A bound query parameter. */
  datatype Param = PText(s: string) | PInt(i: int) | PNum(x: real)

  // The condition each criterion contributes, if any.
  function GenreCondition(c: SearchCriteria): seq<Condition> {
    if ListSet(c.genres) then [GenreIn(c.genres.value)] else []
  }
  function KeywordCondition(c: SearchCriteria): seq<Condition> {
    if ListSet(c.keywords) then [KeywordIn(c.keywords.value)] else []
  }
  function MinYearCondition(c: SearchCriteria): seq<Condition> {
    if IntSet(c.minYear) then [YearAtLeast(c.minYear.value)] else []
  }
  function MaxYearCondition(c: SearchCriteria): seq<Condition> {
    if IntSet(c.maxYear) then [YearAtMost(c.maxYear.value)] else []
  }
  function MinRatingCondition(c: SearchCriteria): seq<Condition> {
    if RealSet(c.minRating) then [RatingAtLeast(c.minRating.value)] else []
  }
  function PolishCondition(c: SearchCriteria): seq<Condition> {
    if c.isPolish.Some? then [PolishIs(c.isPolish.value)] else []
  }
  function MinRuntimeCondition(c: SearchCriteria): seq<Condition> {
    if IntSet(c.minRuntime) then [RuntimeAtLeast(c.minRuntime.value)] else []
  }
  function MaxRuntimeCondition(c: SearchCriteria): seq<Condition> {
    if IntSet(c.maxRuntime) then [RuntimeAtMost(c.maxRuntime.value)] else []
  }
  function MinPopularityCondition(c: SearchCriteria): seq<Condition> {
    if RealSet(c.minPopularity) then [PopularityAtLeast(c.minPopularity.value)] else []
  }
  function MaxPopularityCondition(c: SearchCriteria): seq<Condition> {
    if RealSet(c.maxPopularity) then [PopularityAtMost(c.maxPopularity.value)] else []
  }
  function ExcludeCondition(c: SearchCriteria): seq<Condition> {
    if ListSet(c.excludeIds) then [IdNotIn(c.excludeIds.value)] else []
  }

  /** The conditions the builder adds for `c`, in the builder's order. */
  function ActiveConditions(c: SearchCriteria): seq<Condition> {
    GenreCondition(c) + KeywordCondition(c) + MinYearCondition(c) + MaxYearCondition(c)
    + MinRatingCondition(c) + PolishCondition(c) + MinRuntimeCondition(c) + MaxRuntimeCondition(c)
    + MinPopularityCondition(c) + MaxPopularityCondition(c) + ExcludeCondition(c)
  }

  /** Whether one condition holds for a row. A NULL year or runtime fails its bound,
      as a comparison with NULL does in SQL. */
  predicate Holds(db: Db, row: Row, cond: Condition) {
    match cond
    case GenreIn(names) => exists n :: n in names && Link(row.id, n) in db.genres
    case KeywordIn(names) => exists n :: n in names && Link(row.id, n) in db.keywords
    case YearAtLeast(y) => row.year.Some? && row.year.value >= y
    case YearAtMost(y) => row.year.Some? && row.year.value <= y
    case RatingAtLeast(r) => row.rating >= r
    case PolishIs(b) => row.isPolish == if b then 1 else 0
    case RuntimeAtLeast(n) => row.runtime.Some? && row.runtime.value >= n
    case RuntimeAtMost(n) => row.runtime.Some? && row.runtime.value <= n
    case PopularityAtLeast(p) => row.popularity >= p
    case PopularityAtMost(p) => row.popularity <= p
    case IdNotIn(ids) => row.id !in ids
  }

  predicate AllHold(db: Db, row: Row, conds: seq<Condition>) {
    forall i :: 0 <= i < |conds| ==> Holds(db, row, conds[i])
  }

  /** What the criteria ask of a movie, stated field by field. */
  predicate MeetsCriteria(db: Db, c: SearchCriteria, row: Row) {
    && (ListSet(c.genres) ==> exists n :: n in c.genres.value && Link(row.id, n) in db.genres)
    && (ListSet(c.keywords) ==> exists n :: n in c.keywords.value && Link(row.id, n) in db.keywords)
    && (IntSet(c.minYear) ==> row.year.Some? && row.year.value >= c.minYear.value)
    && (IntSet(c.maxYear) ==> row.year.Some? && row.year.value <= c.maxYear.value)
    && (RealSet(c.minRating) ==> row.rating >= c.minRating.value)
    && (c.isPolish.Some? ==> (row.isPolish == 1 <==> c.isPolish.value) && (row.isPolish == 0 <==> !c.isPolish.value))
    && (IntSet(c.minRuntime) ==> row.runtime.Some? && row.runtime.value >= c.minRuntime.value)
    && (IntSet(c.maxRuntime) ==> row.runtime.Some? && row.runtime.value <= c.maxRuntime.value)
    && (RealSet(c.minPopularity) ==> row.popularity >= c.minPopularity.value)
    && (RealSet(c.maxPopularity) ==> row.popularity <= c.maxPopularity.value)
    && (ListSet(c.excludeIds) ==> row.id !in c.excludeIds.value)
  }

  lemma AllHoldAppend(db: Db, row: Row, a: seq<Condition>, b: seq<Condition>)
    ensures AllHold(db, row, a + b) <==> AllHold(db, row, a) && AllHold(db, row, b)
  {
    if AllHold(db, row, a + b) {
      forall i | 0 <= i < |a| ensures Holds(db, row, a[i]) {
        assert (a + b)[i] == a[i];
      }
      forall i | 0 <= i < |b| ensures Holds(db, row, b[i]) {
        assert (a + b)[|a| + i] == b[i];
      }
    }
  }

  /** The AND of all built conditions is the AND of each criterion's. */
  lemma ActiveConditionsSplit(db: Db, c: SearchCriteria, row: Row)
    ensures AllHold(db, row, ActiveConditions(c)) <==>
      && AllHold(db, row, GenreCondition(c)) && AllHold(db, row, KeywordCondition(c))
      && AllHold(db, row, MinYearCondition(c)) && AllHold(db, row, MaxYearCondition(c))
      && AllHold(db, row, MinRatingCondition(c)) && AllHold(db, row, PolishCondition(c))
      && AllHold(db, row, MinRuntimeCondition(c)) && AllHold(db, row, MaxRuntimeCondition(c))
      && AllHold(db, row, MinPopularityCondition(c)) && AllHold(db, row, MaxPopularityCondition(c))
      && AllHold(db, row, ExcludeCondition(c))
  {
    var p1 := GenreCondition(c);
    var p2 := p1 + KeywordCondition(c);
    var p3 := p2 + MinYearCondition(c);
    var p4 := p3 + MaxYearCondition(c);
    var p5 := p4 + MinRatingCondition(c);
    var p6 := p5 + PolishCondition(c);
    var p7 := p6 + MinRuntimeCondition(c);
    var p8 := p7 + MaxRuntimeCondition(c);
    var p9 := p8 + MinPopularityCondition(c);
    var p10 := p9 + MaxPopularityCondition(c);
    AllHoldAppend(db, row, p1, KeywordCondition(c));
    AllHoldAppend(db, row, p2, MinYearCondition(c));
    AllHoldAppend(db, row, p3, MaxYearCondition(c));
    AllHoldAppend(db, row, p4, MinRatingCondition(c));
    AllHoldAppend(db, row, p5, PolishCondition(c));
    AllHoldAppend(db, row, p6, MinRuntimeCondition(c));
    AllHoldAppend(db, row, p7, MaxRuntimeCondition(c));
    AllHoldAppend(db, row, p8, MinPopularityCondition(c));
    AllHoldAppend(db, row, p9, MaxPopularityCondition(c));
    AllHoldAppend(db, row, p10, ExcludeCondition(c));
  }

  /** The AND of the built conditions is exactly what the criteria ask. */
  lemma ActiveConditionsMeaning(db: Db, c: SearchCriteria, row: Row)
    ensures AllHold(db, row, ActiveConditions(c)) <==> MeetsCriteria(db, c, row)
  {
    ActiveConditionsSplit(db, c, row);
    ListConditionsMeaning(db, c, row);
    BoundConditionsMeaning(db, c, row);
  }

  /** The genre, keyword and exclusion conditions, one criterion at a time. */
  lemma ListConditionsMeaning(db: Db, c: SearchCriteria, row: Row)
    ensures AllHold(db, row, GenreCondition(c)) <==> (ListSet(c.genres) ==> exists n :: n in c.genres.value && Link(row.id, n) in db.genres)
    ensures AllHold(db, row, KeywordCondition(c)) <==> (ListSet(c.keywords) ==> exists n :: n in c.keywords.value && Link(row.id, n) in db.keywords)
    ensures AllHold(db, row, ExcludeCondition(c)) <==> (ListSet(c.excludeIds) ==> row.id !in c.excludeIds.value)
  {
    AllHoldSingle(db, row, GenreCondition(c));
    AllHoldSingle(db, row, KeywordCondition(c));
    AllHoldSingle(db, row, ExcludeCondition(c));
  }

  /** The bound conditions and the origin, one criterion at a time. */
  lemma BoundConditionsMeaning(db: Db, c: SearchCriteria, row: Row)
    ensures AllHold(db, row, MinYearCondition(c)) <==> (IntSet(c.minYear) ==> row.year.Some? && row.year.value >= c.minYear.value)
    ensures AllHold(db, row, MaxYearCondition(c)) <==> (IntSet(c.maxYear) ==> row.year.Some? && row.year.value <= c.maxYear.value)
    ensures AllHold(db, row, MinRatingCondition(c)) <==> (RealSet(c.minRating) ==> row.rating >= c.minRating.value)
    ensures AllHold(db, row, PolishCondition(c)) <==>
      (c.isPolish.Some? ==> (row.isPolish == 1 <==> c.isPolish.value) && (row.isPolish == 0 <==> !c.isPolish.value))
    ensures AllHold(db, row, MinRuntimeCondition(c)) <==> (IntSet(c.minRuntime) ==> row.runtime.Some? && row.runtime.value >= c.minRuntime.value)
    ensures AllHold(db, row, MaxRuntimeCondition(c)) <==> (IntSet(c.maxRuntime) ==> row.runtime.Some? && row.runtime.value <= c.maxRuntime.value)
    ensures AllHold(db, row, MinPopularityCondition(c)) <==> (RealSet(c.minPopularity) ==> row.popularity >= c.minPopularity.value)
    ensures AllHold(db, row, MaxPopularityCondition(c)) <==> (RealSet(c.maxPopularity) ==> row.popularity <= c.maxPopularity.value)
  {
    AllHoldSingle(db, row, MinYearCondition(c));
    AllHoldSingle(db, row, MaxYearCondition(c));
    AllHoldSingle(db, row, MinRatingCondition(c));
    AllHoldSingle(db, row, PolishCondition(c));
    AllHoldSingle(db, row, MinRuntimeCondition(c));
    AllHoldSingle(db, row, MaxRuntimeCondition(c));
    AllHoldSingle(db, row, MinPopularityCondition(c));
    AllHoldSingle(db, row, MaxPopularityCondition(c));
  }

  lemma AllHoldSingle(db: Db, row: Row, conds: seq<Condition>)
    requires |conds| <= 1
    ensures AllHold(db, row, conds) <==> (|conds| == 1 ==> Holds(db, row, conds[0]))
  {
  }

  /** The table rows the WHERE clause keeps, in storage order. */
  function Selected(db: Db, c: SearchCriteria): seq<Row> {
    Filter(db.movies, (row: Row) => AllHold(db, row, ActiveConditions(c)))
  }

  /** `ORDER BY m.rating DESC, m.popularity DESC` */
  predicate RowBefore(a: Row, b: Row) {
    a.rating > b.rating || (a.rating == b.rating && a.popularity > b.popularity)
  }

  lemma RowBeforeIsStrictWeakOrder()
    ensures StrictWeakOrder(RowBefore)
  {
  }

  /** `LIMIT ${criteria.limit || 100}`; SQLite reads a negative limit as no limit. */
  function EffectiveLimit(c: SearchCriteria): Option<nat> {
    var l := if IntSet(c.limit) then c.limit.value else 100;
    if l < 0 then None else Some(l)
  }

  function TakeLimit<T>(s: seq<T>, limit: Option<nat>): (r: seq<T>)
    ensures limit.None? ==> r == s
    ensures limit.Some? ==> |r| == Min(limit.value, |s|) && r == s[..|r|]
  {
    if limit.None? || |s| <= limit.value then s else s[..limit.value]
  }

  /** The rows the query returns, ranked and limited. */
  function ResultRows(db: Db, c: SearchCriteria): seq<Row> {
    TakeLimit(StableSort(Selected(db, c), RowBefore), EffectiveLimit(c))
  }

  function HydrateAll(db: Db, rows: seq<Row>): (r: seq<Movie>)
    ensures |r| == |rows| && forall i :: 0 <= i < |rows| ==> r[i] == Hydrate(db, rows[i])
  {
    seq(|rows|, i requires 0 <= i < |rows| => Hydrate(db, rows[i]))
  }

  /** `searchMovies(criteria)` */
  function Search(db: Db, c: SearchCriteria): seq<Movie> {
    HydrateAll(db, ResultRows(db, c))
  }

  /** `m` is the hydration of a stored row that meets every criterion. */
  ghost predicate FromMatchingRow(db: Db, c: SearchCriteria, m: Movie) {
    exists row :: row in db.movies && MeetsCriteria(db, c, row) && m == Hydrate(db, row)
  }

  /** Every returned movie is a stored movie that meets every criterion; in
      particular none has an excluded id. */
  lemma SearchSound(db: Db, c: SearchCriteria)
    ensures forall i :: 0 <= i < |Search(db, c)| ==> FromMatchingRow(db, c, Search(db, c)[i])
    ensures ListSet(c.excludeIds) ==> forall i :: 0 <= i < |Search(db, c)| ==> Search(db, c)[i].id !in c.excludeIds.value
  {
    var rows := ResultRows(db, c);
    var movies := Search(db, c);
    forall i | 0 <= i < |movies|
      ensures FromMatchingRow(db, c, movies[i])
    {
      LimitedFrom(Selected(db, c), EffectiveLimit(c), i);
      ActiveConditionsMeaning(db, c, rows[i]);
      assert movies[i] == Hydrate(db, rows[i]);
    }
  }

  /** Every row the ranking and the limit keep comes from `sel`. */
  lemma LimitedFrom(sel: seq<Row>, limit: Option<nat>, i: nat)
    requires i < |TakeLimit(StableSort(sel, RowBefore), limit)|
    ensures TakeLimit(StableSort(sel, RowBefore), limit)[i] in sel
  {
    var ranked := StableSort(sel, RowBefore);
    assert TakeLimit(ranked, limit)[i] == ranked[i];
    assert ranked[i] in multiset(sel);
  }

  /** Results come by rating, highest first, and by popularity among equal ratings. */
  lemma SearchOrdered(db: Db, c: SearchCriteria)
    ensures forall i, j :: 0 <= i < j < |Search(db, c)| ==>
      Search(db, c)[i].rating > Search(db, c)[j].rating
      || (Search(db, c)[i].rating == Search(db, c)[j].rating && Search(db, c)[i].popularity >= Search(db, c)[j].popularity)
  {
    RowBeforeIsStrictWeakOrder();
    StableSortSorted(Selected(db, c), RowBefore);
    var ranked := StableSort(Selected(db, c), RowBefore);
    var rows := ResultRows(db, c);
    forall i, j | 0 <= i < j < |rows| ensures !RowBefore(rows[j], rows[i]) {
      assert rows[i] == ranked[i] && rows[j] == ranked[j];
    }
  }

  /** The result holds all matching movies up to the limit: its length is the
      limit or the number of matches, whichever is smaller. The limit is 100
      when it is absent or 0, and there is none when it is negative. */
  lemma SearchLength(db: Db, c: SearchCriteria)
    ensures EffectiveLimit(c).Some? ==> |Search(db, c)| == Min(EffectiveLimit(c).value, |Selected(db, c)|)
    ensures EffectiveLimit(c).None? ==> |Search(db, c)| == |Selected(db, c)|
    ensures !IntSet(c.limit) ==> EffectiveLimit(c) == Some(100)
  {
  }

  /** A matching movie is returned whenever the matches fit within the limit;
      one that is cut off ranks no higher than any returned movie. */
  lemma SearchComplete(db: Db, c: SearchCriteria, row: Row)
    requires row in db.movies && MeetsCriteria(db, c, row)
    ensures EffectiveLimit(c).None? || |Selected(db, c)| <= EffectiveLimit(c).value ==> row in ResultRows(db, c)
    ensures row !in ResultRows(db, c) ==> forall r :: r in ResultRows(db, c) ==> !RowBefore(row, r)
  {
    ActiveConditionsMeaning(db, c, row);
    FilterKeeps(db.movies, (r: Row) => AllHold(db, r, ActiveConditions(c)), row);
    LimitedRanking(Selected(db, c), row, EffectiveLimit(c));
  }

  /** A row of `sel` survives the ranking and the limit whenever `sel` fits
      within the limit, and a cut-off row ranks no higher than any survivor. */
  lemma LimitedRanking(sel: seq<Row>, row: Row, limit: Option<nat>)
    requires row in sel
    ensures var rows := TakeLimit(StableSort(sel, RowBefore), limit);
      && (limit.None? || |sel| <= limit.value ==> row in rows)
      && (row !in rows ==> forall r :: r in rows ==> !RowBefore(row, r))
  {
    var ranked := StableSort(sel, RowBefore);
    assert row in multiset(ranked);
    if limit.Some? && limit.value < |ranked| {
      RowBeforeIsStrictWeakOrder();
      StableSortSorted(sel, RowBefore);
      if row !in ranked[..limit.value] {
        SortedCutOff(ranked, RowBefore, limit.value, row);
      }
    }
  }

  /** DISTINCT: no movie comes twice, however many genres or keywords it matches. */
  lemma SearchDistinct(db: Db, c: SearchCriteria)
    requires db.Valid()
    ensures Distinct(Ids(Search(db, c)))
  {
    var sel := Selected(db, c);
    assert Distinct(db.movies);
    FilterDistinct(db.movies, (r: Row) => AllHold(db, r, ActiveConditions(c)));
    StableSortDistinct(sel, RowBefore);
    var ranked := StableSort(sel, RowBefore);
    var rows := ResultRows(db, c);
    var ids := Ids(Search(db, c));
    forall i, j | 0 <= i < j < |ids| ensures ids[i] != ids[j] {
      assert rows[i] == ranked[i] && rows[j] == ranked[j];
      assert rows[i] in multiset(sel) && rows[j] in multiset(sel);
      assert rows[i] in sel && rows[j] in sel;
      assert rows[i] in db.movies && rows[j] in db.movies;
      var p :| 0 <= p < |db.movies| && db.movies[p] == rows[i];
      var q :| 0 <= q < |db.movies| && db.movies[q] == rows[j];
      assert p != q;
    }
  }

  /** `getRandomMovie`: the search with limit 50, then a pick by the random value. */
  function GetRandomMovie(db: Db, c: SearchCriteria, rand: real): (r: Option<Movie>)
    requires 0.0 <= rand < 1.0
    ensures r.None? <==> |Search(db, c.(limit := Some(50)))| == 0
    ensures r.Some? ==> r.value in Search(db, c.(limit := Some(50)))
  {
    var movies := Search(db, c.(limit := Some(50)));
    if |movies| == 0 then None else Some(movies[PickIndex(rand, |movies|)])
  }

  // ---------------------------------------------------------------------
  // The SQL text and its parameters

  /** `n` question marks separated by commas. */
  function Placeholders(n: nat): string {
    if n == 0 then "" else if n == 1 then "?" else Placeholders(n - 1) + ",?"
  }

  function CountQ(s: string): nat {
    Occurrences(s, '?')
  }

  lemma NoQ(s: string)
    requires '?' !in s
    ensures CountQ(s) == 0
  {
    OccurrencesPositive(s, '?');
  }

  lemma {:induction false} PlaceholdersCount(n: nat)
    ensures CountQ(Placeholders(n)) == n
  {
    if n == 1 {
      assert Placeholders(1) == "?" == [] + "?";
    } else if n > 1 {
      PlaceholdersCount(n - 1);
      OccurrencesAppend(Placeholders(n - 1), ",?", '?');
      assert ",?" == [','] + "?";
      OccurrencesAppend([','], "?", '?');
    }
  }

  /** `column op ?` */
  function BoundSql(column: string, op: string): string {
    column + " " + op + " ?"
  }

  /** `column op (?,?,...)` with `n` placeholders. */
  function ListSql(column: string, op: string, n: nat): string {
    column + " " + op + " (" + Placeholders(n) + ")"
  }

  /** The text of a condition. */
  function ConditionSql(cond: Condition): string {
    match cond
    case GenreIn(names) => ListSql("g.name", "IN", |names|)
    case KeywordIn(names) => ListSql("k.name", "IN", |names|)
    case YearAtLeast(_) => BoundSql("m.year", ">=")
    case YearAtMost(_) => BoundSql("m.year", "<=")
    case RatingAtLeast(_) => BoundSql("m.rating", ">=")
    case PolishIs(_) => BoundSql("m.is_polish", "=")
    case RuntimeAtLeast(_) => BoundSql("m.runtime", ">=")
    case RuntimeAtMost(_) => BoundSql("m.runtime", "<=")
    case PopularityAtLeast(_) => BoundSql("m.popularity", ">=")
    case PopularityAtMost(_) => BoundSql("m.popularity", "<=")
    case IdNotIn(ids) => ListSql("m.id", "NOT IN", |ids|)
  }

  function TextParams(names: seq<string>): (r: seq<Param>)
    ensures |r| == |names|
  {
    if names == [] then [] else TextParams(names[..|names| - 1]) + [PText(names[|names| - 1])]
  }

  function IntParams(ids: seq<int>): (r: seq<Param>)
    ensures |r| == |ids|
  {
    if ids == [] then [] else IntParams(ids[..|ids| - 1]) + [PInt(ids[|ids| - 1])]
  }

  /** The parameters a condition binds, in order. */
  function ConditionParams(cond: Condition): seq<Param> {
    match cond
    case GenreIn(names) => TextParams(names)
    case KeywordIn(names) => TextParams(names)
    case YearAtLeast(y) => [PInt(y)]
    case YearAtMost(y) => [PInt(y)]
    case RatingAtLeast(r) => [PNum(r)]
    case PolishIs(b) => [PInt(if b then 1 else 0)]
    case RuntimeAtLeast(n) => [PInt(n)]
    case RuntimeAtMost(n) => [PInt(n)]
    case PopularityAtLeast(p) => [PNum(p)]
    case PopularityAtMost(p) => [PNum(p)]
    case IdNotIn(ids) => IntParams(ids)
  }

  lemma BoundSqlCount(column: string, op: string)
    requires '?' !in column && '?' !in op
    ensures CountQ(BoundSql(column, op)) == 1
  {
    NoQ(column);
    NoQ(op);
    NoQ(" ");
    OccurrencesAppend(column, " ", '?');
    OccurrencesAppend(column + " ", op, '?');
    OccurrencesAppend(column + " " + op, " ?", '?');
    assert " ?" == [' '] + "?";
    OccurrencesAppend([' '], "?", '?');
  }

  lemma ListSqlCount(column: string, op: string, n: nat)
    requires '?' !in column && '?' !in op
    ensures CountQ(ListSql(column, op, n)) == n
  {
    NoQ(column);
    NoQ(op);
    NoQ(" ");
    NoQ(" (");
    NoQ(")");
    PlaceholdersCount(n);
    OccurrencesAppend(column, " ", '?');
    OccurrencesAppend(column + " ", op, '?');
    OccurrencesAppend(column + " " + op, " (", '?');
    OccurrencesAppend(column + " " + op + " (", Placeholders(n), '?');
    OccurrencesAppend(column + " " + op + " (" + Placeholders(n), ")", '?');
  }

  /** Each condition's text holds one placeholder per parameter it binds. */
  lemma ConditionPlaceholders(cond: Condition)
    ensures CountQ(ConditionSql(cond)) == |ConditionParams(cond)|
  {
    match cond {
      case GenreIn(names) => ListSqlCount("g.name", "IN", |names|);
      case KeywordIn(names) => ListSqlCount("k.name", "IN", |names|);
      case IdNotIn(ids) => ListSqlCount("m.id", "NOT IN", |ids|);
      case YearAtLeast(_) => BoundSqlCount("m.year", ">=");
      case YearAtMost(_) => BoundSqlCount("m.year", "<=");
      case RatingAtLeast(_) => BoundSqlCount("m.rating", ">=");
      case PolishIs(_) => BoundSqlCount("m.is_polish", "=");
      case RuntimeAtLeast(_) => BoundSqlCount("m.runtime", ">=");
      case RuntimeAtMost(_) => BoundSqlCount("m.runtime", "<=");
      case PopularityAtLeast(_) => BoundSqlCount("m.popularity", ">=");
      case PopularityAtMost(_) => BoundSqlCount("m.popularity", "<=");
    }
  }

  /** The condition texts, in order. */
  function ConditionSqls(conds: seq<Condition>): (r: seq<string>)
    ensures |r| == |conds|
  {
    if conds == [] then [] else ConditionSqls(conds[..|conds| - 1]) + [ConditionSql(conds[|conds| - 1])]
  }

  /** All bound parameters, condition by condition. */
  function AllParams(conds: seq<Condition>): seq<Param> {
    if conds == [] then [] else AllParams(conds[..|conds| - 1]) + ConditionParams(conds[|conds| - 1])
  }

  /** The conditions joined by AND hold as many placeholders as there are parameters. */
  lemma {:induction false} JoinedPlaceholders(conds: seq<Condition>)
    ensures CountQ(Join(ConditionSqls(conds), " AND ")) == |AllParams(conds)|
  {
    if |conds| == 1 {
      ConditionPlaceholders(conds[0]);
      assert conds[..0] == [];
    } else if |conds| > 1 {
      var init := conds[..|conds| - 1];
      var last := conds[|conds| - 1];
      JoinedPlaceholders(init);
      ConditionPlaceholders(last);
      var strs := ConditionSqls(conds);
      assert strs[..|strs| - 1] == ConditionSqls(init);
      NoQ(" AND ");
      OccurrencesAppend(Join(ConditionSqls(init), " AND "), " AND ", '?');
      OccurrencesAppend(Join(ConditionSqls(init), " AND ") + " AND ", ConditionSql(last), '?');
    }
  }

  // The fixed clauses, written in pieces short enough to inspect one by one.
  const SelectClause := "SELECT DISTINCT m.*" + " FROM movies m"
  const GenreJoin := " JOIN movie_genres mg" + " ON m.id = mg.movie_id" + " JOIN genres g" + " ON mg.genre_id = g.id"
  const KeywordJoin := " JOIN movie_keywords mk" + " ON m.id = mk.movie_id" + " JOIN keywords k" + " ON mk.keyword_id = k.id"
  const WhereClause := " WHERE 1=1 "
  const OrderClause := " ORDER BY m.rating DESC," + " m.popularity DESC"

  lemma NoQ2(a: string, b: string)
    requires '?' !in a && '?' !in b
    ensures CountQ(a + b) == 0
  {
    NoQ(a);
    NoQ(b);
    OccurrencesAppend(a, b, '?');
  }

  lemma NoQ4(a: string, b: string, c: string, d: string)
    requires '?' !in a && '?' !in b && '?' !in c && '?' !in d
    ensures CountQ(a + b + c + d) == 0
  {
    NoQ2(a, b);
    NoQ(c);
    NoQ(d);
    OccurrencesAppend(a + b, c, '?');
    OccurrencesAppend(a + b + c, d, '?');
  }

  /** `s` when `b` holds, else nothing. */
  function OptText(b: bool, s: string): string {
    if b then s else ""
  }

  /** The query text before the conditions. */
  function Head(c: SearchCriteria): string {
    SelectClause + OptText(ListSet(c.genres), GenreJoin) + OptText(ListSet(c.keywords), KeywordJoin) + WhereClause
  }

  /** `LIMIT ${criteria.limit || 100}` */
  function LimitClause(c: SearchCriteria): string {
    " LIMIT " + DecimalString(if IntSet(c.limit) then c.limit.value else 100)
  }

  function ConditionsClause(conds: seq<Condition>): string {
    if conds == [] then "" else " AND " + Join(ConditionSqls(conds), " AND ")
  }

  lemma SelectNoQ() ensures CountQ(SelectClause) == 0 {
    NoQ2("SELECT DISTINCT m.*", " FROM movies m");
  }

  lemma GenreJoinNoQ() ensures CountQ(GenreJoin) == 0 {
    NoQ4(" JOIN movie_genres mg", " ON m.id = mg.movie_id", " JOIN genres g", " ON mg.genre_id = g.id");
  }

  lemma KeywordJoinNoQ() ensures CountQ(KeywordJoin) == 0 {
    NoQ4(" JOIN movie_keywords mk", " ON m.id = mk.movie_id", " JOIN keywords k", " ON mk.keyword_id = k.id");
  }

  lemma OrderNoQ() ensures CountQ(OrderClause) == 0 {
    NoQ2(" ORDER BY m.rating DESC,", " m.popularity DESC");
  }

  lemma WhereNoQ() ensures CountQ(WhereClause) == 0 {
    NoQ(WhereClause);
  }

  lemma DecimalNoPlaceholder(n: int)
    ensures CountQ(DecimalString(n)) == 0
  {
    var digits := NatString(if n < 0 then -n else n);
    NoQ(digits);
    NoQ("-");
    OccurrencesAppend("-", digits, '?');
  }

  lemma FixedPartsHaveNoPlaceholder(c: SearchCriteria)
    ensures CountQ(Head(c)) == 0 && CountQ(OrderClause) == 0 && CountQ(LimitClause(c)) == 0
  {
    HeadNoPlaceholder(c);
    OrderNoQ();
    var n := if IntSet(c.limit) then c.limit.value else 100;
    DecimalNoPlaceholder(n);
    NoQ(" LIMIT ");
    OccurrencesAppend(" LIMIT ", DecimalString(n), '?');
  }

  lemma HeadNoPlaceholder(c: SearchCriteria)
    ensures CountQ(Head(c)) == 0
  {
    SelectNoQ();
    GenreJoinNoQ();
    KeywordJoinNoQ();
    WhereNoQ();
    NoQ("");
    var g := OptText(ListSet(c.genres), GenreJoin);
    var k := OptText(ListSet(c.keywords), KeywordJoin);
    OccurrencesAppend(SelectClause, g, '?');
    OccurrencesAppend(SelectClause + g, k, '?');
    OccurrencesAppend(SelectClause + g + k, WhereClause, '?');
  }

  /** The whole query text holds one placeholder per bound parameter. */
  lemma QueryPlaceholders(c: SearchCriteria)
    ensures CountQ(Head(c) + ConditionsClause(ActiveConditions(c)) + OrderClause + LimitClause(c))
         == |AllParams(ActiveConditions(c))|
  {
    var active := ActiveConditions(c);
    FixedPartsHaveNoPlaceholder(c);
    JoinedPlaceholders(active);
    NoQ(" AND ");
    OccurrencesAppend(Head(c), ConditionsClause(active), '?');
    OccurrencesAppend(Head(c) + ConditionsClause(active), OrderClause, '?');
    OccurrencesAppend(Head(c) + ConditionsClause(active) + OrderClause, LimitClause(c), '?');
    if active != [] {
      OccurrencesAppend(" AND ", Join(ConditionSqls(active), " AND "), '?');
    }
  }

  /** Appends one condition's text and parameters, as `conditions.push` and
      `params.push` do. */
  method Push(conditions: seq<string>, params: seq<Param>, ghost active: seq<Condition>, cond: Condition)
    returns (conditions': seq<string>, params': seq<Param>, ghost active': seq<Condition>)
    requires conditions == ConditionSqls(active) && params == AllParams(active)
    ensures active' == active + [cond]
    ensures conditions' == ConditionSqls(active') && params' == AllParams(active')
  {
    active' := active + [cond];
    assert active'[..|active'| - 1] == active;
    conditions' := conditions + [ConditionSql(cond)];
    params' := params + ConditionParams(cond);
  }

  /** The `minYear`/`maxYear` conditions, each only when truthy. */
  method AddYearConditions(c: SearchCriteria, conditions: seq<string>, params: seq<Param>, ghost active: seq<Condition>)
    returns (conditions': seq<string>, params': seq<Param>, ghost active': seq<Condition>)
    requires conditions == ConditionSqls(active) && params == AllParams(active)
    ensures active' == active + MinYearCondition(c) + MaxYearCondition(c)
    ensures conditions' == ConditionSqls(active') && params' == AllParams(active')
  {
    conditions', params', active' := conditions, params, active;
    if c.minYear.Some? && c.minYear.value != 0 {
      conditions', params', active' := Push(conditions', params', active', YearAtLeast(c.minYear.value));
    }
    if c.maxYear.Some? && c.maxYear.value != 0 {
      conditions', params', active' := Push(conditions', params', active', YearAtMost(c.maxYear.value));
    }
  }

  /** The `minRating` condition when truthy, and `isPolish` whenever it is defined. */
  method AddRatingAndOrigin(c: SearchCriteria, conditions: seq<string>, params: seq<Param>, ghost active: seq<Condition>)
    returns (conditions': seq<string>, params': seq<Param>, ghost active': seq<Condition>)
    requires conditions == ConditionSqls(active) && params == AllParams(active)
    ensures active' == active + MinRatingCondition(c) + PolishCondition(c)
    ensures conditions' == ConditionSqls(active') && params' == AllParams(active')
  {
    conditions', params', active' := conditions, params, active;
    if c.minRating.Some? && c.minRating.value != 0.0 {
      conditions', params', active' := Push(conditions', params', active', RatingAtLeast(c.minRating.value));
    }
    if c.isPolish.Some? {
      conditions', params', active' := Push(conditions', params', active', PolishIs(c.isPolish.value));
    }
  }

  /** The `minRuntime`/`maxRuntime` conditions, each only when truthy. */
  method AddRuntimeConditions(c: SearchCriteria, conditions: seq<string>, params: seq<Param>, ghost active: seq<Condition>)
    returns (conditions': seq<string>, params': seq<Param>, ghost active': seq<Condition>)
    requires conditions == ConditionSqls(active) && params == AllParams(active)
    ensures active' == active + MinRuntimeCondition(c) + MaxRuntimeCondition(c)
    ensures conditions' == ConditionSqls(active') && params' == AllParams(active')
  {
    conditions', params', active' := conditions, params, active;
    if c.minRuntime.Some? && c.minRuntime.value != 0 {
      conditions', params', active' := Push(conditions', params', active', RuntimeAtLeast(c.minRuntime.value));
    }
    if c.maxRuntime.Some? && c.maxRuntime.value != 0 {
      conditions', params', active' := Push(conditions', params', active', RuntimeAtMost(c.maxRuntime.value));
    }
  }

  /** The `minPopularity`/`maxPopularity` conditions, each only when truthy. */
  method AddPopularityConditions(c: SearchCriteria, conditions: seq<string>, params: seq<Param>, ghost active: seq<Condition>)
    returns (conditions': seq<string>, params': seq<Param>, ghost active': seq<Condition>)
    requires conditions == ConditionSqls(active) && params == AllParams(active)
    ensures active' == active + MinPopularityCondition(c) + MaxPopularityCondition(c)
    ensures conditions' == ConditionSqls(active') && params' == AllParams(active')
  {
    conditions', params', active' := conditions, params, active;
    if c.minPopularity.Some? && c.minPopularity.value != 0.0 {
      conditions', params', active' := Push(conditions', params', active', PopularityAtLeast(c.minPopularity.value));
    }
    if c.maxPopularity.Some? && c.maxPopularity.value != 0.0 {
      conditions', params', active' := Push(conditions', params', active', PopularityAtMost(c.maxPopularity.value));
    }
  }

  /** The `NOT IN` condition when `excludeIds` is non-empty. */
  method AddExclusion(c: SearchCriteria, conditions: seq<string>, params: seq<Param>, ghost active: seq<Condition>)
    returns (conditions': seq<string>, params': seq<Param>, ghost active': seq<Condition>)
    requires conditions == ConditionSqls(active) && params == AllParams(active)
    ensures active' == active + ExcludeCondition(c)
    ensures conditions' == ConditionSqls(active') && params' == AllParams(active')
  {
    conditions', params', active' := conditions, params, active;
    if c.excludeIds.Some? && |c.excludeIds.value| > 0 {
      conditions', params', active' := Push(conditions', params', active', IdNotIn(c.excludeIds.value));
    }
  }

  /** The genre and keyword JOINs with their conditions, then `WHERE 1=1`. */
  method AddJoins(c: SearchCriteria) returns (sql: string, conditions: seq<string>, params: seq<Param>, ghost active: seq<Condition>)
    ensures sql == Head(c)
    ensures active == GenreCondition(c) + KeywordCondition(c)
    ensures conditions == ConditionSqls(active) && params == AllParams(active)
  {
    sql := SelectClause;
    conditions := [];
    params := [];
    active := [];
    if c.genres.Some? && |c.genres.value| > 0 {
      sql := sql + GenreJoin;
      conditions, params, active := Push(conditions, params, active, GenreIn(c.genres.value));
    }
    ghost var sql1 := sql;
    assert sql1 == SelectClause + OptText(ListSet(c.genres), GenreJoin);
    if c.keywords.Some? && |c.keywords.value| > 0 {
      sql := sql + KeywordJoin;
      conditions, params, active := Push(conditions, params, active, KeywordIn(c.keywords.value));
    }
    assert sql == sql1 + OptText(ListSet(c.keywords), KeywordJoin);
    sql := sql + WhereClause;
  }

  /** The SQL builder of `searchMovies`. The text has one placeholder per
      bound parameter, and the conditions, the parameters and the meaning
      `Search` all come from the same `ActiveConditions`. */
  method BuildQuery(c: SearchCriteria) returns (sql: string, params: seq<Param>)
    ensures params == AllParams(ActiveConditions(c))
    ensures sql == Head(c) + ConditionsClause(ActiveConditions(c)) + OrderClause + LimitClause(c)
    ensures CountQ(sql) == |params|
  {
    var conditions;
    ghost var active;
    sql, conditions, params, active := AddJoins(c);
    conditions, params, active := AddYearConditions(c, conditions, params, active);
    conditions, params, active := AddRatingAndOrigin(c, conditions, params, active);
    conditions, params, active := AddRuntimeConditions(c, conditions, params, active);
    conditions, params, active := AddPopularityConditions(c, conditions, params, active);
    conditions, params, active := AddExclusion(c, conditions, params, active);
    ghost var sql2 := sql;
    if |conditions| > 0 {
      sql := sql + (" AND " + Join(conditions, " AND "));
    }
    assert sql == sql2 + ConditionsClause(active);
    sql := sql + OrderClause;
    sql := sql + (" LIMIT " + DecimalString(if c.limit.Some? && c.limit.value != 0 then c.limit.value else 100));
    QueryPlaceholders(c);
  }
}
