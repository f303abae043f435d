/** `scripts/fetch-movies-fixed.js`: the crawler that keeps every movie of
    the session in one `Map`, rewrites `data/movies-raw.json` with all of
    them every 50 new movies and whenever a request fails or is rate
    limited, and moves to the next endpoint at TMDb's limit of 500 pages.

    The network is given as inputs, as in `FetchMovies`: `pages[k]` is how
    the attempts of the `k`-th list-page request end, and `detailsOf(id)`
    how the attempts of the details request for movie `id` end. */
module FetchMoviesFixed {
  import opened Collections
  import opened JsMaps
  import opened Ingest
  import opened FetchMovies

  const SaveInterval: nat := 50
  const MaxPage: nat := 500
  const FixedEndpoints: seq<string> := ["popular", "top_rated", "now_playing", "upcoming"]
  const MaxRetriesMessage := "Max retries exceeded"

  // ---------------------------------------------------------------------
  // fetchWithRetry

  /** The outcome of this script's `fetchWithRetry` from attempt `i` on: a
      429 answer and a timed-out request use up an attempt, any other error
      is retried except on the last attempt, and running out of attempts
      throws `Max retries exceeded`. */
  function FixedRetryFrom<T>(attempt: nat -> Attempt<T>, i: nat): Outcome<T>
    requires i <= Retries
    decreases Retries - i
  {
    if i == Retries then Threw(MaxRetriesMessage)
    else
      match attempt(i)
      case TooMany => FixedRetryFrom(attempt, i + 1)
      case TimedOut => FixedRetryFrom(attempt, i + 1)
      case Failed(e) => if i == Retries - 1 then Threw(e) else FixedRetryFrom(attempt, i + 1)
      case Success(v) => Body(v)
  }

  function FixedRetry<T>(attempt: nat -> Attempt<T>): Outcome<T> {
    FixedRetryFrom(attempt, 0)
  }

  /** Whether a 429 answer arrives, from attempt `i` on, before the retries
      end; each one saves the movies if there are unsaved ones. */
  predicate RateLimitedFrom<T>(attempt: nat -> Attempt<T>, i: nat)
    requires i <= Retries
    decreases Retries - i
  {
    && i < Retries
    && match attempt(i)
       case TooMany => true
       case TimedOut => RateLimitedFrom(attempt, i + 1)
       case Failed(_) => i < Retries - 1 && RateLimitedFrom(attempt, i + 1)
       case Success(_) => false
  }

  predicate RateLimited<T>(attempt: nat -> Attempt<T>) {
    RateLimitedFrom(attempt, 0)
  }

  lemma {:induction false} FixedRetryFromBody<T>(attempt: nat -> Attempt<T>, i: nat, v: T)
    requires i <= Retries
    ensures FixedRetryFrom(attempt, i) == Body(v) <==>
      exists k: nat :: i <= k < Retries && attempt(k) == Success(v) && NoSuccessIn(attempt, i, k)
    decreases Retries - i
  {
    if i < Retries {
      FixedRetryFromBody(attempt, i + 1, v);
      if attempt(i).Success? {
        assert NoSuccessIn(attempt, i, i);
      }
    }
  }

  lemma {:induction false} FixedRetryFromThrew<T>(attempt: nat -> Attempt<T>, i: nat)
    requires i <= Retries
    ensures FixedRetryFrom(attempt, i) != Undefined
    ensures FixedRetryFrom(attempt, i).Threw? <==> NoSuccessIn(attempt, i, Retries)
    ensures NoSuccessIn(attempt, i, Retries) && i < Retries && attempt(Retries - 1).Failed? ==>
      FixedRetryFrom(attempt, i) == Threw(attempt(Retries - 1).message)
    ensures NoSuccessIn(attempt, i, Retries) && (i == Retries || !attempt(Retries - 1).Failed?) ==>
      FixedRetryFrom(attempt, i) == Threw(MaxRetriesMessage)
    decreases Retries - i
  {
    if i < Retries {
      FixedRetryFromThrew(attempt, i + 1);
    }
  }

  /** The ways this `fetchWithRetry` ends, none of them `undefined`: the
      body of the first successful attempt; when none succeeds, the last
      attempt's error if it was an ordinary error, and `Max retries
      exceeded` otherwise. */
  lemma FixedRetrySpec<T>(attempt: nat -> Attempt<T>)
    ensures FixedRetry(attempt) != Undefined
    ensures forall v :: FixedRetry(attempt) == Body(v) <==>
      exists k: nat :: k < Retries && attempt(k) == Success(v) && NoSuccessIn(attempt, 0, k)
    ensures NoSuccessIn(attempt, 0, Retries) && attempt(Retries - 1).Failed? ==>
      FixedRetry(attempt) == Threw(attempt(Retries - 1).message)
    ensures NoSuccessIn(attempt, 0, Retries) && !attempt(Retries - 1).Failed? ==>
      FixedRetry(attempt) == Threw(MaxRetriesMessage)
  {
    forall v ensures FixedRetry(attempt) == Body(v) <==>
      exists k: nat :: k < Retries && attempt(k) == Success(v) && NoSuccessIn(attempt, 0, k)
    {
      FixedRetryFromBody(attempt, 0, v);
    }
    FixedRetryFromThrew(attempt, 0);
  }

  /** Attempts that all time out or are rate limited end in `Max retries
      exceeded`. */
  lemma NoAnswer<T>(attempt: nat -> Attempt<T>)
    requires forall i: nat :: i < Retries ==> attempt(i) == TooMany || attempt(i) == TimedOut
    ensures FixedRetry(attempt) == Threw(MaxRetriesMessage)
  {
    FixedRetryFromThrew(attempt, 0);
    assert attempt(Retries - 1) == TooMany || attempt(Retries - 1) == TimedOut;
  }

  /** Against the original crawler's `fetchWithRetry`: the same body when
      that one gets one, and an error where that one returns `undefined`. */
  lemma FixedAgainstOriginal<T>(attempt: nat -> Attempt<T>)
    ensures Retry(attempt).Body? ==> FixedRetry(attempt) == Retry(attempt)
    ensures Retry(attempt) == Undefined ==> FixedRetry(attempt) == Threw(MaxRetriesMessage)
  {
    RetrySpec(attempt);
    FixedRetrySpec(attempt);
    if Retry(attempt).Body? {
      var v := Retry(attempt).value;
      assert exists k: nat :: k < Retries && attempt(k) == Success(v) && NoSuccessIn(attempt, 0, k);
    }
  }

  /** A 429 answer is met exactly when one arrives with no success before it. */
  lemma {:induction false} RateLimitedFromSpec<T>(attempt: nat -> Attempt<T>, i: nat)
    requires i <= Retries
    ensures RateLimitedFrom(attempt, i) <==>
      exists j: nat :: i <= j < Retries && attempt(j) == TooMany && NoSuccessIn(attempt, i, j)
    decreases Retries - i
  {
    if i < Retries {
      RateLimitedFromSpec(attempt, i + 1);
      if attempt(i) == TooMany {
        assert NoSuccessIn(attempt, i, i);
      } else if attempt(i).Success? {
        forall j: nat | i <= j < Retries && attempt(j) == TooMany ensures !NoSuccessIn(attempt, i, j) {
          assert j != i;
        }
      } else {
        if exists j: nat :: i <= j < Retries && attempt(j) == TooMany && NoSuccessIn(attempt, i, j) {
          var j: nat :| i <= j < Retries && attempt(j) == TooMany && NoSuccessIn(attempt, i, j);
          assert i + 1 <= j && NoSuccessIn(attempt, i + 1, j);
        }
        if RateLimitedFrom(attempt, i + 1) {
          var j: nat :| i + 1 <= j < Retries && attempt(j) == TooMany && NoSuccessIn(attempt, i + 1, j);
          assert NoSuccessIn(attempt, i, j);
        }
      }
    }
  }

  // ---------------------------------------------------------------------
  // The page cursor

  /** `currentEndpoint`, `page` and `consecutiveErrors`. */
  datatype CrawlState = CrawlState(endpoint: nat, page: nat, errors: nat)

  /** The request of a cursor goes to `endpoints[endpoint % endpoints.length]`. */
  function FixedEndpointName(c: Cursor): string {
    FixedEndpoints[c.endpoint % |FixedEndpoints|]
  }

  /** Past page 500 the crawl moves to page 1 of the next endpoint. */
  function Normalized(s: CrawlState): (r: CrawlState)
    ensures r.errors == s.errors
    ensures s.page <= MaxPage ==> r == s
    ensures s.page > MaxPage ==> r.endpoint == s.endpoint + 1 && r.page == 1
  {
    if s.page > MaxPage then CrawlState(s.endpoint + 1, 1, s.errors) else s
  }

  /** Past page 500 of the last endpoint the crawl ends. */
  predicate Exhausted(s: CrawlState) {
    s.page > MaxPage && s.endpoint + 1 >= |FixedEndpoints|
  }

  /** The state after a page request's outcome: no or no `results` moves
      to the next endpoint and keeps the error count; a page of results
      moves to the next page and clears it; an error adds one. */
  function AfterPage(s: CrawlState, o: Outcome<PageData>): CrawlState {
    match o
    case Body(data) =>
      if data.None? || data.value == [] then CrawlState(s.endpoint + 1, 1, s.errors)
      else CrawlState(s.endpoint, s.page + 1, 0)
    case _ => CrawlState(s.endpoint, s.page, s.errors + 1)
  }

  /** The state after the first `k` page requests. */
  function StateAfter(pages: seq<nat -> Attempt<PageData>>, k: nat): CrawlState
    requires k <= |pages|
  {
    if k == 0 then CrawlState(0, 1, 0)
    else AfterPage(Normalized(StateAfter(pages, k - 1)), FixedRetry(pages[k - 1]))
  }

  /** The loop's variables are at state `s`, or, past page 500 of an
      endpoint that is not the last, already at page 1 of the next one. */
  predicate Tracks(c: CrawlState, s: CrawlState) {
    c == s || (s.page > MaxPage && !Exhausted(s) && c == Normalized(s))
  }

  /** Where the `k`-th page request goes. */
  function RequestAt(pages: seq<nat -> Attempt<PageData>>, k: nat): Cursor
    requires k <= |pages|
  {
    var s := Normalized(StateAfter(pages, k));
    Cursor(s.endpoint, s.page)
  }

  /** The page number never passes 501, so no request asks for a page
      beyond 500. */
  lemma {:induction false} StateAfterPages(pages: seq<nat -> Attempt<PageData>>, k: nat)
    requires k <= |pages|
    ensures 1 <= StateAfter(pages, k).page <= MaxPage + 1
    ensures 1 <= RequestAt(pages, k).page <= MaxPage
  {
    if k > 0 {
      StateAfterPages(pages, k - 1);
    }
  }

  /** The loop after the page requests `requests`: each went to the cursor
      the pages before it lead to, on a page from 1 to 500, and the loop's
      variables `c` track the state the pages lead to. */
  ghost predicate Requested(pages: seq<nat -> Attempt<PageData>>, requests: seq<Cursor>, c: CrawlState) {
    && |requests| <= |pages|
    && (forall k :: 0 <= k < |requests| ==> requests[k] == RequestAt(pages, k) && 1 <= requests[k].page <= MaxPage)
    && Tracks(c, StateAfter(pages, |requests|))
  }

  /** Past page 500 the variables are still the state itself, and move on
      to the next endpoint unless it was the last one. */
  lemma RequestedSkip(pages: seq<nat -> Attempt<PageData>>, requests: seq<Cursor>, c: CrawlState)
    requires Requested(pages, requests, c) && c.page > MaxPage
    ensures c == StateAfter(pages, |requests|)
    ensures c.endpoint + 1 < |FixedEndpoints| ==> Requested(pages, requests, Normalized(c))
  {
  }

  /** A page request goes to the tracked cursor, and its outcome moves the
      state on. */
  lemma RequestedStep(pages: seq<nat -> Attempt<PageData>>, requests: seq<Cursor>, c: CrawlState)
    requires Requested(pages, requests, c) && |requests| < |pages| && c.page <= MaxPage
    ensures Requested(pages, requests + [Cursor(c.endpoint, c.page)], AfterPage(c, FixedRetry(pages[|requests|])))
  {
    var k := |requests|;
    StateAfterPages(pages, k);
    var r := requests + [Cursor(c.endpoint, c.page)];
    assert Normalized(StateAfter(pages, k)) == c;
    forall j | 0 <= j < k + 1 ensures r[j] == RequestAt(pages, j) && 1 <= r[j].page <= MaxPage {
      if j < k {
        assert r[j] == requests[j];
      }
    }
    assert StateAfter(pages, k + 1) == AfterPage(c, FixedRetry(pages[k]));
  }

  /** `n` failed page requests in a row add `n` to the error count. */
  lemma {:induction false} FailedPagesCount(pages: seq<nat -> Attempt<PageData>>, k: nat, n: nat)
    requires k + n <= |pages|
    requires forall j :: k <= j < k + n ==> FixedRetry(pages[j]).Threw?
    ensures StateAfter(pages, k + n).errors == StateAfter(pages, k).errors + n
  {
    if n > 0 {
      FailedPagesCount(pages, k, n - 1);
      assert FixedRetry(pages[k + n - 1]).Threw?;
    }
  }

  /** Four endpoints in a row without results bring the crawl to page 1 of
      endpoint number 4, which is `popular` again: the empty-results switch
      has no end-of-endpoints check and the endpoint index wraps. */
  lemma EmptyEndpointsWrap(pages: seq<nat -> Attempt<PageData>>)
    requires |pages| >= 4
    requires forall j :: 0 <= j < 4 ==> FixedRetry(pages[j]) == Body(None)
    ensures RequestAt(pages, 4) == Cursor(4, 1)
    ensures FixedEndpointName(RequestAt(pages, 4)) == "popular"
    ensures StateAfter(pages, 4).errors == 0
  {
    assert FixedRetry(pages[0]) == Body(None) && FixedRetry(pages[1]) == Body(None);
    assert FixedRetry(pages[2]) == Body(None) && FixedRetry(pages[3]) == Body(None);
    assert StateAfter(pages, 1) == CrawlState(1, 1, 0);
    assert StateAfter(pages, 2) == CrawlState(2, 1, 0);
    assert StateAfter(pages, 3) == CrawlState(3, 1, 0);
    assert StateAfter(pages, 4) == CrawlState(4, 1, 0);
  }

  // ---------------------------------------------------------------------
  // Building a record

  /** `processedMovie` of this script: the poster is always set (the movie
      has a poster path), and missing genres give an empty list instead of
      an error. */
  function Built(m: Listed, d: Details): (r: Record)
    ensures r.id == m.id && r.title == m.title && |r.keywords| <= 10
    ensures r.poster == Some(ImageBase + m.posterPath)
    ensures r.backdrop.Some? <==> m.backdropPath != ""
    ensures d.genres.None? ==> r.genres == []
    ensures d.title != "" ==> r.titlePl == d.title
    ensures d.title == "" ==> r.titlePl == m.title
    ensures r.rating == RoundTenth(m.voteAverage) && r.popularity == MathRound(m.popularity) as real
  {
    Record(
      m.id, m.title, OrElse(d.title, m.title), d.originalTitle, OrElse(d.overview, m.overview),
      Some(ImageBase + m.posterPath), ImageUrl(m.backdropPath),
      if d.genres.Some? then GenreNames(d.genres.value) else [],
      if m.genreIds.Some? then m.genreIds.value else [],
      YearOf(m.releaseDate), RoundTenth(m.voteAverage), m.voteCount, MathRound(m.popularity) as real,
      Countries(d.countries), d.runtime, Keywords(d.keywords))
  }

  /** Where the original crawler keeps a movie, this one builds the same
      record. */
  lemma BuiltAgainstOriginal(m: Listed, d: Details)
    requires Eligible(m) && d.genres.Some?
    ensures Processed(m, d) == Some(Built(m, d))
  {
  }

  /** `r` was built from an eligible movie of `results` whose details came. */
  ghost predicate FromResults(results: seq<Listed>, detailsOf: int -> (nat -> Attempt<Details>), r: Record) {
    exists l :: l in results && Eligible(l) && FixedRetry(detailsOf(l.id)).Body? && r == Built(l, FixedRetry(detailsOf(l.id)).value)
  }

  /** `r` was built from the results of the list page `page`. */
  ghost predicate FromResponse(page: nat -> Attempt<PageData>, detailsOf: int -> (nat -> Attempt<Details>), r: Record) {
    FixedRetry(page).Body? && FixedRetry(page).value.Some? && FromResults(FixedRetry(page).value.value, detailsOf, r)
  }

  /** `r` was built from the results of one of the list pages. */
  ghost predicate FromPages(pages: seq<nat -> Attempt<PageData>>, detailsOf: int -> (nat -> Attempt<Details>), r: Record) {
    exists j :: 0 <= j < |pages| && FromResponse(pages[j], detailsOf, r)
  }

  // ---------------------------------------------------------------------
  // The map of movies

  /** Each movie is stored under its own id. */
  ghost predicate KeyedById(m: JsMap<int, Record>) {
    forall k :: k in m.entries ==> m.entries[k].id == k
  }

  /** `after` keeps `before`'s keys first and in order, with their records. */
  ghost predicate Extends(before: JsMap<int, Record>, after: JsMap<int, Record>) {
    && |before.keys| <= |after.keys|
    && after.keys[..|before.keys|] == before.keys
    && forall k :: k in before.entries ==> k in after.entries && after.entries[k] == before.entries[k]
  }

  lemma IndexedKeyed(m: JsMap<int, Record>, s: seq<Record>)
    requires IndexedBy(m, s)
    ensures KeyedById(m)
  {
    forall k | k in m.entries ensures m.entries[k].id == k {
      assert Lookup(m, k) == Some(m.entries[k]);
      LastWithSpec(s, k);
    }
  }

  /** A map keyed by id gives its values once per id, in key order. */
  lemma KeyedValues(m: JsMap<int, Record>)
    requires m.Valid() && KeyedById(m)
    ensures RecordIds(m.Values()) == m.keys && DistinctIds(m.Values())
  {
  }

  lemma ExtendsValues(before: JsMap<int, Record>, after: JsMap<int, Record>)
    requires before.Valid() && after.Valid() && Extends(before, after)
    ensures after.Values()[..|before.keys|] == before.Values()
  {
    forall i | 0 <= i < |before.keys| ensures after.Values()[i] == before.Values()[i] {
      assert after.keys[i] == before.keys[i];
    }
  }

  /** The records of `movies-raw.json` that `loadExistingMovies` sets. */
  function LoadedRecords(raw: RawFile): seq<Record> {
    if raw.Stored? then raw.records else []
  }

  /** `loadExistingMovies`: the records of `movies-raw.json` by id; a
      missing file or one that does not parse gives an empty map. */
  method LoadRawMovies(raw: RawFile) returns (m: JsMap<int, Record>)
    ensures IndexedBy(m, LoadedRecords(raw))
    ensures raw.NoFile? || raw.Corrupt? ==> m == Empty()
  {
    match raw
    case NoFile =>
      m := Empty();
    case Corrupt =>
      m := Empty();
    case Stored(movies) =>
      IndexEmpty();
      m := SetAll(Empty(), [], movies);
      assert [] + movies == movies;
  }

  // ---------------------------------------------------------------------
  // The crawler

  /** The script's module state, `allMoviesMap` and `lastSaveCount`, with
      the data directory it writes `movies-raw.json` to. */
  class Session {
    const dir: DataDir
    var allMoviesMap: JsMap<int, Record>
    var lastSaveCount: nat

    ghost predicate Valid()
      reads this, dir
    {
      && dir.Valid()
      && allMoviesMap.Valid()
      && KeyedById(allMoviesMap)
      && lastSaveCount <= allMoviesMap.Size()
    }

    /** `movies-raw.json` holds every movie of the map. */
    ghost predicate SavedNow()
      reads this, dir
      requires allMoviesMap.Valid()
    {
      lastSaveCount == allMoviesMap.Size() && dir.raw == Stored(allMoviesMap.Values())
    }

    /** Fewer movies are unsaved than have been added since the last
        multiple of 50 new movies. */
    ghost predicate FewUnsaved(newCount: nat)
      reads this
      requires lastSaveCount <= allMoviesMap.Size()
    {
      allMoviesMap.Size() - lastSaveCount <= newCount % SaveInterval
    }

    constructor (dir: DataDir)
      requires dir.Valid()
      ensures Valid() && this.dir == dir && allMoviesMap == Empty() && lastSaveCount == 0
    {
      this.dir := dir;
      allMoviesMap := Empty();
      lastSaveCount := 0;
    }

    /** `saveAllMovies`: write every movie of the map to `movies-raw.json`;
        with no movies, write nothing and return 0. */
    method SaveAllMovies() returns (count: nat)
      requires Valid()
      modifies this, dir
      ensures Valid() && allMoviesMap == old(allMoviesMap)
      ensures dir.batches == old(dir.batches) && dir.writes == old(dir.writes)
      ensures allMoviesMap.Size() == 0 ==> count == 0 && lastSaveCount == old(lastSaveCount) && dir.raw == old(dir.raw)
      ensures allMoviesMap.Size() > 0 ==> count == allMoviesMap.Size() && SavedNow()
    {
      var movies := allMoviesMap.Values();
      if |movies| == 0 {
        return 0;
      }
      dir.raw := Stored(movies);
      lastSaveCount := |movies|;
      count := |movies|;
    }

    /** `if (allMoviesMap.size > lastSaveCount) saveAllMovies(...)` */
    method SaveIfGrown()
      requires Valid()
      modifies this, dir
      ensures Valid() && allMoviesMap == old(allMoviesMap)
      ensures dir.batches == old(dir.batches) && dir.writes == old(dir.writes)
      ensures old(allMoviesMap.Size() > lastSaveCount) ==> SavedNow()
      ensures old(allMoviesMap.Size() <= lastSaveCount) ==> lastSaveCount == old(lastSaveCount) && dir.raw == old(dir.raw)
    {
      if allMoviesMap.Size() > lastSaveCount {
        var _ := SaveAllMovies();
      }
    }

    /** `fetchWithRetry(url)`; `attempt(i)` is how the `i`-th request ended.
        A 429 answer saves the movies first when some are unsaved. */
    method FetchWithRetry<T>(attempt: nat -> Attempt<T>) returns (r: Outcome<T>)
      requires Valid()
      modifies this, dir
      ensures Valid() && allMoviesMap == old(allMoviesMap)
      ensures dir.batches == old(dir.batches) && dir.writes == old(dir.writes)
      ensures r == FixedRetry(attempt)
      ensures RateLimited(attempt) && old(allMoviesMap.Size() > lastSaveCount) ==> SavedNow()
      ensures !(RateLimited(attempt) && old(allMoviesMap.Size() > lastSaveCount)) ==>
        lastSaveCount == old(lastSaveCount) && dir.raw == old(dir.raw)
    {
      ghost var hit := false;
      for i := 0 to Retries
        invariant Valid() && allMoviesMap == old(allMoviesMap)
        invariant dir.batches == old(dir.batches) && dir.writes == old(dir.writes)
        invariant FixedRetry(attempt) == FixedRetryFrom(attempt, i)
        invariant RateLimited(attempt) == (hit || RateLimitedFrom(attempt, i))
        invariant hit && old(allMoviesMap.Size() > lastSaveCount) ==> SavedNow()
        invariant !(hit && old(allMoviesMap.Size() > lastSaveCount)) ==>
          lastSaveCount == old(lastSaveCount) && dir.raw == old(dir.raw)
      {
        match attempt(i) {
          case TooMany =>
            SaveIfGrown();
            hit := true;
          case TimedOut =>
          case Failed(e) =>
            if i == Retries - 1 {
              return Threw(e);
            }
          case Success(v) =>
            return Body(v);
        }
      }
      return Threw(MaxRetriesMessage);
    }

    /** `allMoviesMap.set(movie.id, processedMovie)`, `newMoviesCount++`, and
        the save at every multiple of 50 new movies. */
    method AddMovie(rec: Record, newCount: nat) returns (count: nat)
      requires Valid() && !allMoviesMap.Has(rec.id) && FewUnsaved(newCount)
      modifies this, dir
      ensures Valid() && allMoviesMap == old(allMoviesMap).Set(rec.id, rec) && count == newCount + 1
      ensures dir.batches == old(dir.batches) && dir.writes == old(dir.writes)
      ensures FewUnsaved(count)
      ensures count % SaveInterval == 0 ==> SavedNow()
      ensures count % SaveInterval != 0 ==> lastSaveCount == old(lastSaveCount) && dir.raw == old(dir.raw)
    {
      allMoviesMap := allMoviesMap.Set(rec.id, rec);
      count := newCount + 1;
      if count % SaveInterval == 0 {
        var _ := SaveAllMovies();
      }
    }

    /** The map has grown from `start` by `count - newCount` movies, each
        built from `results`, without reaching past the target, and fewer
        than 50 movies are unsaved. */
    ghost predicate PageGrown(start: JsMap<int, Record>, newCount: nat, count: nat, target: int,
                              results: seq<Listed>, detailsOf: int -> (nat -> Attempt<Details>))
      reads this, dir
    {
      && Valid()
      && FewUnsaved(count)
      && Extends(start, allMoviesMap)
      && newCount <= count
      && allMoviesMap.Size() == start.Size() + (count - newCount)
      && allMoviesMap.Size() <= target
      && forall k :: k in allMoviesMap.entries && k !in start.entries ==> FromResults(results, detailsOf, allMoviesMap.entries[k])
    }

    /** One movie of a page: a known id is a duplicate, a movie without an
        overview or a poster has no data; otherwise its details are
        fetched and, when they come, its record is added. */
    method ConsiderMovie(movie: Listed, results: seq<Listed>, detailsOf: int -> (nat -> Attempt<Details>), target: int,
                         ghost start: JsMap<int, Record>, ghost newCount: nat, count: nat)
      returns (count': nat, duplicate: bool, noData: bool)
      requires movie in results && allMoviesMap.Size() < target
      requires PageGrown(start, newCount, count, target, results, detailsOf)
      modifies this, dir
      ensures PageGrown(start, newCount, count', target, results, detailsOf)
      ensures dir.batches == old(dir.batches) && dir.writes == old(dir.writes)
      ensures duplicate <==> old(allMoviesMap).Has(movie.id)
      ensures noData <==> !duplicate && !Eligible(movie)
      ensures duplicate || noData ==> allMoviesMap == old(allMoviesMap)
    {
      count', duplicate, noData := count, false, false;
      if allMoviesMap.Has(movie.id) {
        duplicate := true;
        return;
      }
      if !Eligible(movie) {
        noData := true;
        return;
      }
      var details := FetchWithRetry(detailsOf(movie.id));
      if details.Body? {
        var rec := Built(movie, details.value);
        assert FromResults(results, detailsOf, rec);
        count' := AddMovie(rec, count);
      }
    }

    /** The `for` loop over a page's results, until the map reaches the
        target. */
    method ProcessPage(results: seq<Listed>, detailsOf: int -> (nat -> Attempt<Details>), target: int, newCount: nat)
      returns (count: nat, duplicates: nat, noData: nat)
      requires Valid() && FewUnsaved(newCount) && allMoviesMap.Size() < target
      modifies this, dir
      ensures PageGrown(old(allMoviesMap), newCount, count, target, results, detailsOf)
      ensures dir.batches == old(dir.batches) && dir.writes == old(dir.writes)
      ensures duplicates + noData <= |results|
    {
      ghost var start := allMoviesMap;
      count, duplicates, noData := newCount, 0, 0;
      assert start.keys[..|start.keys|] == start.keys;
      for i := 0 to |results|
        invariant PageGrown(start, newCount, count, target, results, detailsOf)
        invariant allMoviesMap.Size() < target
        invariant dir.batches == old(dir.batches) && dir.writes == old(dir.writes)
        invariant duplicates + noData <= i
      {
        var duplicate, missing;
        count, duplicate, missing := ConsiderMovie(results[i], results, detailsOf, target, start, newCount, count);
        if duplicate {
          duplicates := duplicates + 1;
        } else if missing {
          noData := noData + 1;
        }
        if allMoviesMap.Size() >= target {
          break;
        }
      }
    }

    /** The map has grown from `start` by `newCount` movies, each built from
        a list page, without passing the target, and fewer than 50 of them
        are unsaved. */
    ghost predicate Grown(start: JsMap<int, Record>, newCount: nat, target: int,
                          pages: seq<nat -> Attempt<PageData>>, detailsOf: int -> (nat -> Attempt<Details>))
      reads this, dir
    {
      && Valid()
      && FewUnsaved(newCount)
      && Extends(start, allMoviesMap)
      && allMoviesMap.Size() == start.Size() + newCount
      && (start.Size() < target ==> allMoviesMap.Size() <= target)
      && forall k :: k in allMoviesMap.entries && k !in start.entries ==> FromPages(pages, detailsOf, allMoviesMap.entries[k])
    }

    /** One page request of the `while` loop's `try`: fetch the page; on
        a page of results process it, on an error save if some movies are
        unsaved. */
    method RequestPage(pages: seq<nat -> Attempt<PageData>>, k: nat, detailsOf: int -> (nat -> Attempt<Details>), target: int,
                       ghost start: JsMap<int, Record>, newCount: nat)
      returns (data: Outcome<PageData>, count: nat, duplicates: nat, noData: nat)
      requires k < |pages| && Grown(start, newCount, target, pages, detailsOf) && allMoviesMap.Size() < target
      modifies this, dir
      ensures data == FixedRetry(pages[k])
      ensures Grown(start, count, target, pages, detailsOf)
      ensures dir.batches == old(dir.batches) && dir.writes == old(dir.writes)
      ensures !data.Body? && old(allMoviesMap.Size() > lastSaveCount) ==> SavedNow()
    {
      ghost var before := allMoviesMap;
      data := FetchWithRetry(pages[k]);
      count, duplicates, noData := newCount, 0, 0;
      if data.Body? {
        if data.value.Some? && data.value.value != [] {
          count, duplicates, noData := ProcessPage(data.value.value, detailsOf, target, newCount);
          assert PageGrown(before, newCount, count, target, data.value.value, detailsOf);
          forall key | key in allMoviesMap.entries && key !in start.entries
            ensures FromPages(pages, detailsOf, allMoviesMap.entries[key])
          {
            if key !in before.entries {
              assert FromResponse(pages[k], detailsOf, allMoviesMap.entries[key]);
            }
          }
        }
      } else {
        SaveIfGrown();
      }
    }

    /** The `while` loop of `fetchMovies`, from the loaded map on: it runs
        while the map is below the target and fewer than five page requests
        in a row have failed, and stops past page 500 of the last endpoint.
        `requests` are the cursors of the page requests made. */
    method Crawl(target: int, pages: seq<nat -> Attempt<PageData>>, detailsOf: int -> (nat -> Attempt<Details>))
      returns (requests: seq<Cursor>, newMoviesCount: nat, skippedDuplicates: nat, skippedNoData: nat)
      requires Valid() && lastSaveCount == allMoviesMap.Size()
      modifies this, dir
      ensures Grown(old(allMoviesMap), newMoviesCount, target, pages, detailsOf)
      ensures dir.batches == old(dir.batches) && dir.writes == old(dir.writes)
      ensures |requests| <= |pages|
      ensures forall k :: 0 <= k < |requests| ==> requests[k] == RequestAt(pages, k) && 1 <= requests[k].page <= MaxPage
      ensures |requests| < |pages| ==>
        || allMoviesMap.Size() >= target
        || StateAfter(pages, |requests|).errors >= MaxConsecutiveErrors
        || Exhausted(StateAfter(pages, |requests|))
    {
      var currentEndpoint: nat, page: nat, consecutiveErrors: nat := 0, 1, 0;
      requests, newMoviesCount, skippedDuplicates, skippedNoData := [], 0, 0, 0;
      ghost var start := allMoviesMap;
      while allMoviesMap.Size() < target && consecutiveErrors < MaxConsecutiveErrors && |requests| < |pages|
        invariant Grown(start, newMoviesCount, target, pages, detailsOf)
        invariant dir.batches == old(dir.batches) && dir.writes == old(dir.writes)
        invariant Requested(pages, requests, CrawlState(currentEndpoint, page, consecutiveErrors))
        decreases |pages| - |requests|, page
      {
        if page > MaxPage {
          RequestedSkip(pages, requests, CrawlState(currentEndpoint, page, consecutiveErrors));
          currentEndpoint := currentEndpoint + 1;
          page := 1;
          if currentEndpoint >= |FixedEndpoints| {
            break;
          }
          continue;
        }
        var k := |requests|;
        RequestedStep(pages, requests, CrawlState(currentEndpoint, page, consecutiveErrors));
        var data, added, duplicates, noData := RequestPage(pages, k, detailsOf, target, start, newMoviesCount);
        requests := requests + [Cursor(currentEndpoint, page)];
        newMoviesCount, skippedDuplicates, skippedNoData := added, skippedDuplicates + duplicates, skippedNoData + noData;
        if data.Body? {
          if data.value.None? || data.value.value == [] {
            currentEndpoint := currentEndpoint + 1;
            page := 1;
            continue;
          }
          page := page + 1;
          consecutiveErrors := 0;
        } else {
          consecutiveErrors := consecutiveErrors + 1;
        }
      }
    }

    /** `fetchMovies(targetCount)`: load `movies-raw.json`; return at once
        when it already holds enough movies; otherwise crawl and save
        everything at the end. */
    method FetchMovies(target: int, pages: seq<nat -> Attempt<PageData>>, detailsOf: int -> (nat -> Attempt<Details>))
      returns (allMovies: seq<Record>, requests: seq<Cursor>)
      requires Valid()
      modifies this, dir
      ensures Valid() && dir.batches == old(dir.batches) && dir.writes == old(dir.writes)
      ensures allMovies == allMoviesMap.Values()
      ensures LoadedFirst(LoadedRecords(old(dir.raw)), allMovies, pages, detailsOf)
      ensures var have := |FirstOccurrences(RecordIds(LoadedRecords(old(dir.raw))))|;
        && (have >= target ==> requests == [] && |allMovies| == have && dir.raw == old(dir.raw))
        && (have < target ==> |allMovies| <= target)
        && (have < target && |allMovies| > 0 ==> SavedNow())
      ensures |requests| <= |pages|
      ensures forall k :: 0 <= k < |requests| ==> requests[k] == RequestAt(pages, k) && 1 <= requests[k].page <= MaxPage
      ensures |requests| < |pages| ==>
        || |allMovies| >= target
        || StateAfter(pages, |requests|).errors >= MaxConsecutiveErrors
        || Exhausted(StateAfter(pages, |requests|))
    {
      ghost var loaded := LoadedRecords(dir.raw);
      var existing := LoadRawMovies(dir.raw);
      IndexedKeyed(existing, loaded);
      allMoviesMap := existing;
      lastSaveCount := allMoviesMap.Size();
      if allMoviesMap.Size() >= target {
        allMovies := allMoviesMap.Values();
        assert existing.keys[..|existing.keys|] == existing.keys;
        GrownValues(existing, existing, loaded, pages, detailsOf);
        requests := [];
        return;
      }
      var newMoviesCount, skippedDuplicates, skippedNoData;
      requests, newMoviesCount, skippedDuplicates, skippedNoData := Crawl(target, pages, detailsOf);
      var _ := SaveAllMovies();
      allMovies := allMoviesMap.Values();
      GrownValues(existing, allMoviesMap, loaded, pages, detailsOf);
    }
  }

  /** The movies of a run: each id once; first the ids of `movies-raw.json`
      in its order, each with its last record there; then movies built from
      the list pages. */
  ghost predicate LoadedFirst(loaded: seq<Record>, movies: seq<Record>,
                              pages: seq<nat -> Attempt<PageData>>, detailsOf: int -> (nat -> Attempt<Details>)) {
    var have := FirstOccurrences(RecordIds(loaded));
    && DistinctIds(movies)
    && |have| <= |movies|
    && RecordIds(movies)[..|have|] == have
    && (forall i :: 0 <= i < |have| ==> LastWith(loaded, movies[i].id) == Some(movies[i]))
    && (forall i :: |have| <= i < |movies| ==> FromPages(pages, detailsOf, movies[i]))
  }

  /** The values of a map grown from the loaded one. */
  lemma GrownValues(existing: JsMap<int, Record>, m: JsMap<int, Record>, loaded: seq<Record>,
                    pages: seq<nat -> Attempt<PageData>>, detailsOf: int -> (nat -> Attempt<Details>))
    requires IndexedBy(existing, loaded) && m.Valid() && KeyedById(m) && Extends(existing, m)
    requires forall k :: k in m.entries && k !in existing.entries ==> FromPages(pages, detailsOf, m.entries[k])
    ensures LoadedFirst(loaded, m.Values(), pages, detailsOf)
  {
    KeyedValues(m);
    LoadedPart(existing, m, loaded);
    NewPart(existing, m, pages, detailsOf);
  }

  lemma LoadedPart(existing: JsMap<int, Record>, m: JsMap<int, Record>, loaded: seq<Record>)
    requires IndexedBy(existing, loaded) && m.Valid() && Extends(existing, m)
    ensures var have := FirstOccurrences(RecordIds(loaded));
      && |have| <= |m.Values()|
      && RecordIds(m.Values())[..|have|] == have
      && forall i :: 0 <= i < |have| ==> LastWith(loaded, m.Values()[i].id) == Some(m.Values()[i])
  {
    var movies := m.Values();
    var n := |existing.keys|;
    IndexedValues(existing, loaded);
    ExtendsValues(existing, m);
    forall i | 0 <= i < n ensures movies[i] == existing.Values()[i] {
      assert movies[i] == movies[..n][i];
    }
    assert RecordIds(movies)[..n] == RecordIds(existing.Values());
  }

  lemma NewPart(existing: JsMap<int, Record>, m: JsMap<int, Record>,
                pages: seq<nat -> Attempt<PageData>>, detailsOf: int -> (nat -> Attempt<Details>))
    requires existing.Valid() && m.Valid() && Extends(existing, m)
    requires forall k :: k in m.entries && k !in existing.entries ==> FromPages(pages, detailsOf, m.entries[k])
    ensures forall i :: |existing.keys| <= i < |m.Values()| ==> FromPages(pages, detailsOf, m.Values()[i])
  {
    var n := |existing.keys|;
    forall i | n <= i < |m.keys| ensures FromPages(pages, detailsOf, m.Values()[i]) {
      var key := m.keys[i];
      forall j | 0 <= j < n ensures m.keys[j] != key {
        assert m.keys[j] == m.keys[..n][j];
      }
      assert key !in existing.keys;
    }
  }
}
