/** `scripts/fetch-movies.js`: the incremental TMDb fetcher. It loads the
    batch files, walks the list endpoints page by page, fetches the details
    of every unseen movie with an overview and a poster, writes the new
    movies to numbered batch files of 1000, and regenerates the consolidated
    file. Page responses and detail responses are inputs. */
module FetchMovies {
  import opened Collections
  import opened Sorting
  import opened JsMaps
  import opened JsNumbers
  import opened Ingest

  const BatchSize: nat := 1000
  const Retries: nat := 3
  const Endpoints: seq<string> := ["popular", "top_rated", "now_playing"]
  const MaxConsecutiveErrors: nat := 5

  /** The message of the error an aborted request throws. */
  const AbortMessage := "This operation was aborted"

  // ---------------------------------------------------------------------
  // Batch file names

  /** `movies_${String(start).padStart(6, '0')}-${String(end).padStart(6, '0')}.json` */
  function BatchFileName(n: int): string
    requires n >= 1
  {
    "movies_" + PadStart(NatString((n - 1) * BatchSize + 1), 6, '0') + "-" + PadStart(NatString(n * BatchSize), 6, '0') + ".json"
  }

  predicate AllDigits(s: string) {
    forall i :: 0 <= i < |s| ==> IsDigit(s[i])
  }

  /** Leading zeros do not change a number. */
  lemma {:induction false} PadZerosValue(s: string, width: nat)
    requires AllDigits(s)
    ensures AllDigits(PadStart(s, width, '0'))
    ensures DigitsValue(PadStart(s, width, '0'), 10) == DigitsValue(s, 10)
    decreases width - |s|
  {
    if |s| < width {
      ZeroFrontValue(s);
      PadZerosValue(['0'] + s, width);
    }
  }

  lemma {:induction false} ZeroFrontValue(s: string)
    requires AllDigits(s)
    ensures AllDigits(['0'] + s) && DigitsValue(['0'] + s, 10) == DigitsValue(s, 10)
  {
    if s != [] {
      var front := s[..|s| - 1];
      ZeroFrontValue(front);
      var z := ['0'] + s;
      assert z[..|z| - 1] == ['0'] + front;
      assert z[|z| - 1] == s[|s| - 1];
    }
  }

  /** `name` is `movies_<a>-<b>.json` with `a` and `b` the numbers `start`
      and `end` in at least six digits. */
  predicate RangeName(name: string, a: string, b: string, start: int, end: int) {
    && name == "movies_" + a + "-" + b + ".json"
    && |a| >= 6 && |b| >= 6 && AllDigits(a) && AllDigits(b)
    && DigitsValue(a, 10) == start && DigitsValue(b, 10) == end
  }

  /** Batch `n` is named after the range of movie numbers it holds: the
      start `(n - 1) * 1000 + 1` and the end `n * 1000`. */
  lemma BatchFileNameMeaning(n: int) returns (a: string, b: string)
    requires n >= 1
    ensures RangeName(BatchFileName(n), a, b, (n - 1) * BatchSize + 1, n * BatchSize)
  {
    a := PadStart(NatString((n - 1) * BatchSize + 1), 6, '0');
    b := PadStart(NatString(n * BatchSize), 6, '0');
    PadZerosValue(NatString((n - 1) * BatchSize + 1), 6);
    PadZerosValue(NatString(n * BatchSize), 6);
    NatStringValue((n - 1) * BatchSize + 1);
    NatStringValue(n * BatchSize);
  }

  /** A batch file is a `movies_*.json` file, so it is loaded back. */
  lemma BatchFileNameIsBatch(n: int)
    requires n >= 1
    ensures IsBatchName(BatchFileName(n))
  {
    var mid := PadStart(NatString((n - 1) * BatchSize + 1), 6, '0') + "-" + PadStart(NatString(n * BatchSize), 6, '0');
    var name := BatchFileName(n);
    assert name == "movies_" + mid + ".json";
    PrefixOf("movies_", mid + ".json");
    assert name == "movies_" + (mid + ".json");
    SuffixOf("movies_" + mid, ".json");
  }

  lemma PrefixOf(p: string, s: string)
    ensures p <= p + s
  {
    assert (p + s)[..|p|] == p;
  }

  lemma SuffixOf(s: string, x: string)
    ensures EndsWith(s + x, x)
  {
    assert (s + x)[|s + x| - |x|..] == x;
  }

  /** A common prefix does not change the order. */
  lemma {:induction false} StrBeforeCommonPrefix(p: string, a: string, b: string)
    ensures StrBefore(p + a, p + b) == StrBefore(a, b)
  {
    if p != [] {
      assert (p + a)[1..] == p[1..] + a && (p + b)[1..] == p[1..] + b;
      StrBeforeCommonPrefix(p[1..], a, b);
    } else {
      assert p + a == a && p + b == b;
    }
  }

  // ---------------------------------------------------------------------
  // saveBatch

  /** `saveBatch(movies, batchNumber)`: merge the movies into the file of
      that batch. */
  method SaveBatch(dir: DataDir, movies: seq<Record>, batchNumber: int)
    requires dir.Valid() && batchNumber >= 1
    modifies dir
    ensures dir.Valid() && dir.raw == old(dir.raw)
    ensures var name := BatchFileName(batchNumber);
      dir.batches == old(dir.batches).Set(name, Merge(if old(dir.batches).Has(name) then old(dir.batches).entries[name] else [], movies))
    ensures dir.writes == old(dir.writes) + [BatchWrite(BatchFileName(batchNumber), movies)]
  {
    var filename := BatchFileName(batchNumber);
    dir.MergeInto(filename, movies);
  }

  // ---------------------------------------------------------------------
  // fetchWithRetry

  /** The outcome of `fetchWithRetry` from attempt `i` on: a 429 answer uses
      up an attempt, an error is retried except on the last attempt, and
      running out of attempts returns `undefined`. */
  function RetryFrom<T>(attempt: nat -> Attempt<T>, i: nat): Outcome<T>
    requires i <= Retries
    decreases Retries - i
  {
    if i == Retries then Undefined
    else
      match attempt(i)
      case TooMany => RetryFrom(attempt, i + 1)
      case Success(v) => Body(v)
      case Failed(e) => if i == Retries - 1 then Threw(e) else RetryFrom(attempt, i + 1)
      case TimedOut => if i == Retries - 1 then Threw(AbortMessage) else RetryFrom(attempt, i + 1)
  }

  function Retry<T>(attempt: nat -> Attempt<T>): Outcome<T> {
    RetryFrom(attempt, 0)
  }

  /** `fetchWithRetry(url)`; `attempt(i)` is how the `i`-th request ended. */
  method FetchWithRetry<T>(attempt: nat -> Attempt<T>) returns (r: Outcome<T>)
    ensures r == Retry(attempt)
  {
    for i := 0 to Retries
      invariant Retry(attempt) == RetryFrom(attempt, i)
    {
      match attempt(i) {
        case TooMany =>
        case Success(v) =>
          return Body(v);
        case Failed(e) =>
          if i == Retries - 1 {
            return Threw(e);
          }
        case TimedOut =>
          if i == Retries - 1 {
            return Threw(AbortMessage);
          }
      }
    }
    return Undefined;
  }

  lemma {:induction false} RetryFromBody<T>(attempt: nat -> Attempt<T>, i: nat, v: T)
    requires i <= Retries
    ensures RetryFrom(attempt, i) == Body(v) <==>
      exists k: nat :: i <= k < Retries && attempt(k) == Success(v) && NoSuccessIn(attempt, i, k)
    decreases Retries - i
  {
    if i < Retries {
      RetryFromBody(attempt, i + 1, v);
      if attempt(i).Success? {
        assert NoSuccessIn(attempt, i, i);
      }
    }
  }

  lemma {:induction false} RetryFromThrew<T>(attempt: nat -> Attempt<T>, i: nat)
    requires i <= Retries
    ensures RetryFrom(attempt, i).Threw? <==>
      i < Retries && NoSuccessIn(attempt, i, Retries) && (attempt(Retries - 1).Failed? || attempt(Retries - 1).TimedOut?)
    ensures RetryFrom(attempt, i) == Undefined <==>
      NoSuccessIn(attempt, i, Retries) && (i == Retries || attempt(Retries - 1) == TooMany)
    decreases Retries - i
  {
    if i < Retries {
      RetryFromThrew(attempt, i + 1);
    }
  }

  /** The three ways `fetchWithRetry` ends: the body of the first successful
      attempt; an error, when the last attempt failed and none succeeded;
      `undefined`, when the last attempt got a 429 and none succeeded. */
  lemma RetrySpec<T>(attempt: nat -> Attempt<T>)
    ensures forall v :: Retry(attempt) == Body(v) <==>
      exists k: nat :: k < Retries && attempt(k) == Success(v) && NoSuccessIn(attempt, 0, k)
    ensures Retry(attempt).Threw? <==>
      NoSuccessIn(attempt, 0, Retries) && (attempt(Retries - 1).Failed? || attempt(Retries - 1).TimedOut?)
    ensures Retry(attempt) == Undefined <==>
      NoSuccessIn(attempt, 0, Retries) && attempt(Retries - 1) == TooMany
  {
    forall v ensures Retry(attempt) == Body(v) <==>
      exists k: nat :: k < Retries && attempt(k) == Success(v) && NoSuccessIn(attempt, 0, k)
    {
      RetryFromBody(attempt, 0, v);
    }
    RetryFromThrew(attempt, 0);
  }

  /** Three 429 answers in a row: `undefined`, with no error. */
  lemma AllRateLimited<T>(attempt: nat -> Attempt<T>)
    requires forall i :: 0 <= i < Retries ==> attempt(i) == TooMany
    ensures Retry(attempt) == Undefined
  {
    RetrySpec(attempt);
  }

  // ---------------------------------------------------------------------
  // The page cursor

  /** Which page of which endpoint is requested; the endpoint is
      `endpoints[endpoint % endpoints.length]`. */
  datatype Cursor = Cursor(endpoint: nat, page: nat)

  function EndpointName(c: Cursor): string {
    Endpoints[c.endpoint % |Endpoints|]
  }

  /** After a successful page: `page++`, and on page 10 the next endpoint
      from page 1. */
  function NextCursor(c: Cursor): (r: Cursor)
    ensures 1 <= c.page <= 9 ==> 1 <= r.page <= 9
    ensures 1 <= c.page < 9 ==> r == Cursor(c.endpoint, c.page + 1)
    ensures c.page == 9 ==> r == Cursor(c.endpoint + 1, 1)
  {
    if (c.page + 1) % 10 == 0 then Cursor(c.endpoint + 1, 1) else Cursor(c.endpoint, c.page + 1)
  }

  /** A page counts as fetched when its body has a `results` array; anything
      else (an error, `undefined`, a missing `results`) throws inside the
      loop's `try`. */
  predicate PageOk(attempt: nat -> Attempt<PageData>) {
    Retry(attempt).Body? && Retry(attempt).value.Some?
  }

  /** The cursor of the request after the first `k` page requests. */
  function CursorAfter(pages: seq<nat -> Attempt<PageData>>, k: nat): Cursor
    requires k <= |pages|
  {
    if k == 0 then Cursor(0, 1)
    else
      var c := CursorAfter(pages, k - 1);
      if PageOk(pages[k - 1]) then NextCursor(c) else c
  }

  lemma {:induction false} CursorAfterPages(pages: seq<nat -> Attempt<PageData>>, k: nat)
    requires k <= |pages|
    ensures 1 <= CursorAfter(pages, k).page <= 9
  {
    if k > 0 {
      CursorAfterPages(pages, k - 1);
    }
  }

  /** The number of failed pages just before the `k`-th request:
      `consecutiveErrors`. */
  function TrailingFailures(pages: seq<nat -> Attempt<PageData>>, k: nat): nat
    requires k <= |pages|
  {
    if k == 0 || PageOk(pages[k - 1]) then 0 else 1 + TrailingFailures(pages, k - 1)
  }

  /** Each request is the cursor the pages before it lead to, a page from 1
      to 9, with fewer than five failures in a row before it. */
  ghost predicate RequestedInTurn(pages: seq<nat -> Attempt<PageData>>, requests: seq<Cursor>) {
    && |requests| <= |pages|
    && (forall k :: 0 <= k < |requests| ==> requests[k] == CursorAfter(pages, k) && 1 <= requests[k].page <= 9)
    && (forall k :: 0 <= k < |requests| ==> TrailingFailures(pages, k) < MaxConsecutiveErrors)
  }

  /** The loop after `k` page requests: `requests` were sent to the cursors
      the pages so far lead to, each with fewer than five failures before
      it, and `cursor` and `errors` are where the pages leave them. */
  ghost predicate Crawled(pages: seq<nat -> Attempt<PageData>>, k: nat, requests: seq<Cursor>, cursor: Cursor, errors: nat) {
    && k <= |pages| && |requests| == k
    && cursor == CursorAfter(pages, k)
    && errors == TrailingFailures(pages, k)
    && (forall j :: 0 <= j < k ==> requests[j] == CursorAfter(pages, j) && 1 <= requests[j].page <= 9)
    && (forall j :: 0 <= j < k ==> TrailingFailures(pages, j) < MaxConsecutiveErrors)
  }

  lemma CrawledRequested(pages: seq<nat -> Attempt<PageData>>, k: nat, requests: seq<Cursor>, cursor: Cursor, errors: nat)
    requires Crawled(pages, k, requests, cursor, errors)
    ensures RequestedInTurn(pages, requests)
  {
  }

  /** One more page request: a fetched page moves the cursor on and clears
      the failures, a failed one keeps the cursor and adds a failure. */
  lemma CrawledStep(pages: seq<nat -> Attempt<PageData>>, k: nat, requests: seq<Cursor>, cursor: Cursor, errors: nat)
    requires Crawled(pages, k, requests, cursor, errors) && k < |pages| && errors < MaxConsecutiveErrors
    ensures 1 <= cursor.page <= 9
    ensures Crawled(pages, k + 1, requests + [cursor],
                    if PageOk(pages[k]) then NextCursor(cursor) else cursor,
                    if PageOk(pages[k]) then 0 else errors + 1)
  {
    CursorAfterPages(pages, k);
    var r := requests + [cursor];
    forall j | 0 <= j < k + 1 ensures r[j] == CursorAfter(pages, j) && 1 <= r[j].page <= 9 {
      if j < k {
        assert r[j] == requests[j];
      }
    }
  }

  // ---------------------------------------------------------------------
  // Building a record

  /** `!movie.overview || !movie.poster_path` skips a movie. */
  predicate Eligible(m: Listed) {
    m.overview != "" && m.posterPath != ""
  }

  /** `processedMovie`; `None` when `details.genres` is missing, where the
      `map` throws and the movie is skipped. */
  function Processed(m: Listed, d: Details): (r: Option<Record>)
    ensures r.None? <==> d.genres.None?
    ensures r.Some? ==> r.value.id == m.id && |r.value.keywords| <= 10
    ensures r.Some? ==> (r.value.poster.Some? <==> m.posterPath != "") && (r.value.backdrop.Some? <==> m.backdropPath != "")
    ensures r.Some? ==> r.value.titlePl in {d.title, m.title} && (d.title != "" ==> r.value.titlePl == d.title)
    ensures r.Some? ==> r.value.genres == GenreNames(d.genres.value) && r.value.year == YearOf(m.releaseDate)
    ensures r.Some? ==> r.value.rating == RoundTenth(m.voteAverage) && r.value.popularity == MathRound(m.popularity) as real
  {
    match d.genres
    case None => None
    case Some(gs) =>
      Some(Record(
        m.id, m.title, OrElse(d.title, m.title), d.originalTitle, OrElse(d.overview, m.overview),
        ImageUrl(m.posterPath), ImageUrl(m.backdropPath), GenreNames(gs),
        if m.genreIds.Some? then m.genreIds.value else [],
        YearOf(m.releaseDate), RoundTenth(m.voteAverage), m.voteCount, MathRound(m.popularity) as real,
        Countries(d.countries), d.runtime, Keywords(d.keywords)))
  }

  /** The records handed to `saveBatch`, write after write. */
  function Written(ws: seq<BatchWrite>): seq<Record> {
    if ws == [] then [] else Written(ws[..|ws| - 1]) + ws[|ws| - 1].movies
  }

  lemma WrittenSnoc(ws: seq<BatchWrite>, w: BatchWrite)
    ensures Written(ws + [w]) == Written(ws) + w.movies
  {
    assert (ws + [w])[..|ws|] == ws;
  }

  /** The writes are the batches `first`, `first + 1`, ... in turn, each of
      exactly 1000 movies. */
  ghost predicate FullBatches(ws: seq<BatchWrite>, first: int)
    decreases |ws|
  {
    && first >= 1
    && (ws != [] ==>
      && FullBatches(ws[..|ws| - 1], first)
      && ws[|ws| - 1].name == BatchFileName(first + |ws| - 1)
      && |ws[|ws| - 1].movies| == BatchSize)
  }

  /** The writes of a run: numbered in turn, none empty, all full but the last. */
  ghost predicate LastShort(ws: seq<BatchWrite>, first: int) {
    && first >= 1
    && (ws != [] ==>
      && FullBatches(ws[..|ws| - 1], first)
      && ws[|ws| - 1].name == BatchFileName(first + |ws| - 1)
      && 0 < |ws[|ws| - 1].movies| <= BatchSize)
  }

  lemma {:induction false} FullBatchesMeaning(ws: seq<BatchWrite>, first: int)
    requires FullBatches(ws, first)
    ensures forall k :: 0 <= k < |ws| ==> ws[k].name == BatchFileName(first + k) && |ws[k].movies| == BatchSize
  {
    if ws != [] {
      var front := ws[..|ws| - 1];
      FullBatchesMeaning(front, first);
      forall k | 0 <= k < |ws| ensures ws[k].name == BatchFileName(first + k) && |ws[k].movies| == BatchSize {
        if k < |front| {
          assert ws[k] == front[k];
        } else {
          assert first + k == first + |ws| - 1;
        }
      }
    }
  }

  /** What `LastShort` says, write by write. */
  lemma LastShortMeaning(ws: seq<BatchWrite>, first: int)
    requires LastShort(ws, first)
    ensures forall k :: 0 <= k < |ws| ==> ws[k].name == BatchFileName(first + k) && 0 < |ws[k].movies| <= BatchSize
    ensures forall k :: 0 <= k < |ws| - 1 ==> |ws[k].movies| == BatchSize
  {
    if ws != [] {
      var front := ws[..|ws| - 1];
      FullBatchesMeaning(front, first);
      forall k | 0 <= k < |ws| ensures ws[k].name == BatchFileName(first + k) && 0 < |ws[k].movies| <= BatchSize {
        if k < |front| {
          assert ws[k] == front[k];
        } else {
          assert first + k == first + |ws| - 1;
        }
      }
      forall k | 0 <= k < |front| ensures |ws[k].movies| == BatchSize {
        assert ws[k] == front[k];
      }
    }
  }

  lemma SliceSnoc<T>(a: seq<T>, n: nat, x: T)
    requires n <= |a|
    ensures (a + [x])[n..] == a[n..] + [x]
  {
  }

  lemma FullBatchesLastShort(ws: seq<BatchWrite>, first: int)
    requires FullBatches(ws, first)
    ensures LastShort(ws, first)
  {
  }

  lemma LastShortSnoc(ws: seq<BatchWrite>, first: int, w: BatchWrite)
    requires FullBatches(ws, first) && w.name == BatchFileName(first + |ws|) && 0 < |w.movies| <= BatchSize
    ensures LastShort(ws + [w], first)
  {
    var r := ws + [w];
    assert r[..|ws|] == ws;
    assert r[|r| - 1] == w;
    assert first + |r| - 1 == first + |ws|;
  }

  lemma FullBatchesSnoc(ws: seq<BatchWrite>, first: int, w: BatchWrite)
    requires FullBatches(ws, first) && w.name == BatchFileName(first + |ws|) && |w.movies| == BatchSize
    ensures FullBatches(ws + [w], first)
  {
    var r := ws + [w];
    assert r[..|ws|] == ws;
    assert r[|r| - 1] == w;
    assert first + |r| - 1 == first + |ws|;
  }

  lemma DistinctIdsSnoc(s: seq<Record>, x: Record)
    requires DistinctIds(s) && forall i :: 0 <= i < |s| ==> s[i].id != x.id
    ensures DistinctIds(s + [x])
  {
    var r := s + [x];
    forall i, j | 0 <= i < j < |r| ensures r[i].id != r[j].id {
      assert r[i] == s[i];
      if j < |s| {
        assert r[j] == s[j];
      }
    }
  }

  /** `r` is the record built from some eligible movie of `results` whose
      details were fetched. */
  ghost predicate FromPage(results: seq<Listed>, detailsOf: int -> Option<Details>, r: Record) {
    exists l :: l in results && Eligible(l) && detailsOf(l.id).Some? && Processed(l, detailsOf(l.id).value) == Some(r)
  }

  /** `r` was built from a movie listed on one of the successful page
      requests among the first `n`. */
  ghost predicate FromRequested(pages: seq<nat -> Attempt<PageData>>, detailsOf: int -> Option<Details>, n: nat, r: Record) {
    exists j :: 0 <= j < n && j < |pages| && PageOk(pages[j]) && FromPage(Retry(pages[j]).value.value, detailsOf, r)
  }

  lemma FromRequestedGrow(pages: seq<nat -> Attempt<PageData>>, detailsOf: int -> Option<Details>, n: nat, r: Record)
    requires FromRequested(pages, detailsOf, n, r)
    ensures FromRequested(pages, detailsOf, n + 1, r)
  {
    var j :| 0 <= j < n && j < |pages| && PageOk(pages[j]) && FromPage(Retry(pages[j]).value.value, detailsOf, r);
    assert 0 <= j < n + 1;
  }

  lemma FromRequestedAt(pages: seq<nat -> Attempt<PageData>>, detailsOf: int -> Option<Details>, n: nat, r: Record)
    requires n < |pages| && PageOk(pages[n]) && FromPage(Retry(pages[n]).value.value, detailsOf, r)
    ensures FromRequested(pages, detailsOf, n + 1, r)
  {
  }

  /** The state of one run of `fetchMovies`: the new movies, the ids seen so
      far, the batch being filled and its number. */
  class BatchFetcher {
    const dir: DataDir
    const target: int
    const alreadyHave: nat
    const firstBatch: int
    ghost const existingIds: set<int>
    ghost const writesBefore: nat
    var movies: seq<Record>
    var movieIds: set<int>
    var currentBatch: seq<Record>
    var batchNumber: int
    var skippedDuplicates: nat

    /** The batches written so far this run. */
    ghost function RunWrites(): seq<BatchWrite>
      reads this, dir
      requires writesBefore <= |dir.writes|
    {
      dir.writes[writesBefore..]
    }

    /** Every flushed batch is full and numbered in turn, and the written
        batches and the current one hold the new movies in order. */
    ghost predicate Filling()
      reads this, dir
    {
      && dir.Valid()
      && writesBefore <= |dir.writes|
      && FullBatches(RunWrites(), firstBatch)
      && batchNumber == firstBatch + |RunWrites()|
      && Written(RunWrites()) + currentBatch == movies
      && |currentBatch| <= BatchSize
    }

    /** New ids are distinct, seen, and not among the loaded ones. */
    ghost predicate IdsOk()
      reads this
    {
      && existingIds <= movieIds
      && DistinctIds(movies)
      && forall i :: 0 <= i < |movies| ==> movies[i].id in movieIds && movies[i].id !in existingIds
    }

    /** Between two movies the current batch is never full. */
    ghost predicate Valid()
      reads this, dir
    {
      Filling() && IdsOk() && |currentBatch| < BatchSize
    }

    constructor (dir: DataDir, target: int, existing: JsMap<int, Record>)
      requires dir.Valid()
      ensures Valid() && this.dir == dir && this.target == target
      ensures alreadyHave == existing.Size() && firstBatch == existing.Size() / BatchSize + 1
      ensures existingIds == movieIds == (set k | k in existing.entries)
      ensures movies == [] && currentBatch == [] && batchNumber == firstBatch && skippedDuplicates == 0
      ensures writesBefore == |dir.writes|
    {
      this.dir := dir;
      this.target := target;
      alreadyHave := existing.Size();
      firstBatch := existing.Size() / BatchSize + 1;
      existingIds := set k | k in existing.entries;
      writesBefore := |dir.writes|;
      movies := [];
      movieIds := set k | k in existing.entries;
      currentBatch := [];
      batchNumber := existing.Size() / BatchSize + 1;
      skippedDuplicates := 0;
    }

    /** Add a built record; a full batch is saved and a new one begun. */
    method Push(rec: Record)
      requires Valid() && rec.id in movieIds && rec.id !in existingIds
      requires forall i :: 0 <= i < |movies| ==> movies[i].id != rec.id
      modifies this, dir
      ensures Valid() && movies == old(movies) + [rec]
      ensures movieIds == old(movieIds) && skippedDuplicates == old(skippedDuplicates)
    {
      DistinctIdsSnoc(movies, rec);
      ghost var w := RunWrites();
      movies := movies + [rec];
      currentBatch := currentBatch + [rec];
      assert Written(w) + currentBatch == movies;
      if |currentBatch| >= BatchSize {
        Flush();
      }
    }

    /** `saveBatch(currentBatch, batchNumber); currentBatch = []; batchNumber++` */
    method Flush()
      requires Filling() && |currentBatch| == BatchSize
      modifies this, dir
      ensures Filling() && currentBatch == [] && batchNumber == old(batchNumber) + 1
      ensures movies == old(movies) && movieIds == old(movieIds) && skippedDuplicates == old(skippedDuplicates)
    {
      ghost var before := RunWrites();
      ghost var w := BatchWrite(BatchFileName(batchNumber), currentBatch);
      WrittenSnoc(before, w);
      assert batchNumber == firstBatch + |before|;
      FullBatchesSnoc(before, firstBatch, w);
      SliceSnoc(dir.writes, writesBefore, w);
      SaveBatch(dir, currentBatch, batchNumber);
      currentBatch := [];
      batchNumber := batchNumber + 1;
    }

    /** `if (currentBatch.length > 0) saveBatch(currentBatch, batchNumber)`
        after the loop: every batch of the run is written, all of them
        full but the last. */
    method FlushRemainder()
      requires Valid()
      modifies dir
      ensures dir.Valid() && writesBefore <= |dir.writes| && dir.raw == old(dir.raw)
      ensures Written(RunWrites()) == movies && LastShort(RunWrites(), firstBatch)
    {
      if |currentBatch| > 0 {
        ghost var before := RunWrites();
        ghost var w := BatchWrite(BatchFileName(batchNumber), currentBatch);
        WrittenSnoc(before, w);
        assert batchNumber == firstBatch + |before|;
        LastShortSnoc(before, firstBatch, w);
        SliceSnoc(dir.writes, writesBefore, w);
        SaveBatch(dir, currentBatch, batchNumber);
      } else {
        FullBatchesLastShort(RunWrites(), firstBatch);
      }
    }

    /** One movie of a page: a seen id is counted and skipped; a movie
        without an overview or poster is skipped; otherwise its id is marked
        seen before its details are fetched, so a failed detail fetch
        (`None`) skips it for good. */
    method Consider(movie: Listed, details: Option<Details>)
      requires Valid()
      modifies this, dir
      ensures Valid()
      ensures movie.id in old(movieIds) ==>
        movies == old(movies) && movieIds == old(movieIds) && skippedDuplicates == old(skippedDuplicates) + 1
      ensures movie.id !in old(movieIds) && !Eligible(movie) ==>
        movies == old(movies) && movieIds == old(movieIds) && skippedDuplicates == old(skippedDuplicates)
      ensures movie.id !in old(movieIds) && Eligible(movie) ==>
        && movieIds == old(movieIds) + {movie.id} && skippedDuplicates == old(skippedDuplicates)
        && movies == old(movies) + (if details.Some? && Processed(movie, details.value).Some? then [Processed(movie, details.value).value] else [])
    {
      if movie.id in movieIds {
        skippedDuplicates := skippedDuplicates + 1;
        return;
      }
      if !Eligible(movie) {
        return;
      }
      movieIds := movieIds + {movie.id};
      if details.None? {
        return;
      }
      var processedMovie := Processed(movie, details.value);
      if processedMovie.None? {
        return;
      }
      Push(processedMovie.value);
    }

    /** The `for` over a page's results, stopping once the target is met. */
    method ProcessPage(results: seq<Listed>, detailsOf: int -> Option<Details>)
      requires Valid() && alreadyHave + |movies| <= target
      modifies this, dir
      ensures Valid() && alreadyHave + |movies| <= target
      ensures old(movieIds) <= movieIds && |old(movies)| <= |movies| && movies[..|old(movies)|] == old(movies)
      ensures forall i :: |old(movies)| <= i < |movies| ==> FromPage(results, detailsOf, movies[i])
    {
      for i := 0 to |results|
        invariant Valid() && alreadyHave + |movies| <= target
        invariant old(movieIds) <= movieIds && |old(movies)| <= |movies| && movies[..|old(movies)|] == old(movies)
        invariant forall j :: |old(movies)| <= j < |movies| ==> FromPage(results, detailsOf, movies[j])
      {
        if alreadyHave + |movies| >= target {
          break;
        }
        var movie := results[i];
        ghost var before := movies;
        Consider(movie, detailsOf(movie.id));
        assert forall j :: |old(movies)| <= j < |before| ==> movies[j] == before[j];
        if |movies| > |before| {
          assert FromPage(results, detailsOf, movies[|before|]) by {
            assert movie in results;
          }
        }
      }
    }
  }

  /** The number of movies loaded from the listing. */
  function HaveCount(listing: seq<BatchFile>): nat {
    |FirstOccurrences(RecordIds(Concat(BatchOrder(listing))))|
  }

  /** One page request of the loop's `try`: fetch the page and, when it has
      `results`, process them. */
  method RequestPage(fetcher: BatchFetcher, page: nat -> Attempt<PageData>, detailsOf: int -> Option<Details>)
    returns (ok: bool)
    requires fetcher.Valid() && fetcher.alreadyHave + |fetcher.movies| <= fetcher.target
    modifies fetcher, fetcher.dir
    ensures ok == PageOk(page)
    ensures fetcher.Valid() && fetcher.alreadyHave + |fetcher.movies| <= fetcher.target
    ensures |old(fetcher.movies)| <= |fetcher.movies| && fetcher.movies[..|old(fetcher.movies)|] == old(fetcher.movies)
    ensures AddedFromPage(page, detailsOf, old(fetcher.movies), fetcher.movies)
  {
    var data := FetchWithRetry(page);
    ok := data.Body? && data.value.Some?;
    if ok {
      fetcher.ProcessPage(data.value.value, detailsOf);
    }
  }

  /** Every movie of `after` past `before` came from the results of `page`,
      which was a good page. */
  ghost predicate AddedFromPage(page: nat -> Attempt<PageData>, detailsOf: int -> Option<Details>,
                                before: seq<Record>, after: seq<Record>) {
    forall i :: |before| <= i < |after| ==> PageOk(page) && FromPage(Retry(page).value.value, detailsOf, after[i])
  }

  /** `movies` extends `start`, and every movie added since came from one of
      the first `n` page requests. */
  ghost predicate GrownFrom(pages: seq<nat -> Attempt<PageData>>, detailsOf: int -> Option<Details>, n: nat,
                            start: seq<Record>, movies: seq<Record>) {
    && |start| <= |movies| && movies[..|start|] == start
    && forall i :: |start| <= i < |movies| ==> FromRequested(pages, detailsOf, n, movies[i])
  }

  /** The `k`-th request keeps the movies from before and adds movies of its
      own page. */
  lemma KeepsOrigins(pages: seq<nat -> Attempt<PageData>>, detailsOf: int -> Option<Details>, k: nat,
                     start: seq<Record>, before: seq<Record>, after: seq<Record>)
    requires k < |pages| && GrownFrom(pages, detailsOf, k, start, before)
    requires |before| <= |after| && after[..|before|] == before
    requires AddedFromPage(pages[k], detailsOf, before, after)
    ensures GrownFrom(pages, detailsOf, k + 1, start, after)
  {
    assert after[..|start|] == before[..|start|];
    forall i | |start| <= i < |after| ensures FromRequested(pages, detailsOf, k + 1, after[i]) {
      if i < |before| {
        assert after[i] == before[i];
        FromRequestedGrow(pages, detailsOf, k, after[i]);
      } else {
        FromRequestedAt(pages, detailsOf, k, after[i]);
      }
    }
  }

  /** One turn of the `while` loop: request the page under the cursor, then
      move the cursor on after a good page, or count one more error. */
  method CrawlStep(fetcher: BatchFetcher, pages: seq<nat -> Attempt<PageData>>, detailsOf: int -> Option<Details>,
                   ghost start: seq<Record>, k: nat, requests: seq<Cursor>, cursor: Cursor, errors: nat)
    returns (nextRequests: seq<Cursor>, next: Cursor, nextErrors: nat)
    requires fetcher.Valid() && fetcher.alreadyHave + |fetcher.movies| <= fetcher.target
    requires k < |pages| && errors < MaxConsecutiveErrors
    requires GrownFrom(pages, detailsOf, k, start, fetcher.movies)
    requires Crawled(pages, k, requests, cursor, errors)
    modifies fetcher, fetcher.dir
    ensures fetcher.Valid() && fetcher.alreadyHave + |fetcher.movies| <= fetcher.target
    ensures GrownFrom(pages, detailsOf, k + 1, start, fetcher.movies)
    ensures Crawled(pages, k + 1, nextRequests, next, nextErrors)
  {
    CrawledStep(pages, k, requests, cursor, errors);
    nextRequests := requests + [cursor];
    ghost var before := fetcher.movies;
    var ok := RequestPage(fetcher, pages[k], detailsOf);
    ghost var after := fetcher.movies;
    KeepsOrigins(pages, detailsOf, k, start, before, after);
    if ok {
      var endpoint := cursor.endpoint;
      var page := cursor.page + 1;
      if page % 10 == 0 {
        endpoint := endpoint + 1;
        page := 1;
      }
      next := Cursor(endpoint, page);
      assert next == NextCursor(cursor);
      nextErrors := 0;
    } else {
      next := cursor;
      nextErrors := errors + 1;
    }
  }

  /** The `while` loop of `fetchMovies`: request pages until the target is
      met, five pages in a row have failed, or the inputs run out. */
  method Crawl(fetcher: BatchFetcher, pages: seq<nat -> Attempt<PageData>>, detailsOf: int -> Option<Details>)
    returns (requests: seq<Cursor>)
    requires fetcher.Valid() && fetcher.alreadyHave + |fetcher.movies| <= fetcher.target
    modifies fetcher, fetcher.dir
    ensures fetcher.Valid() && fetcher.alreadyHave + |fetcher.movies| <= fetcher.target
    ensures GrownFrom(pages, detailsOf, |requests|, old(fetcher.movies), fetcher.movies)
    ensures RequestedInTurn(pages, requests)
    ensures |requests| < |pages| ==>
      fetcher.alreadyHave + |fetcher.movies| >= fetcher.target || TrailingFailures(pages, |requests|) >= MaxConsecutiveErrors
  {
    ghost var start := fetcher.movies;
    var cursor := Cursor(0, 1);
    var consecutiveErrors: nat := 0;
    var k: nat := 0;
    requests := [];
    while fetcher.alreadyHave + |fetcher.movies| < fetcher.target && consecutiveErrors < MaxConsecutiveErrors && k < |pages|
      invariant fetcher.Valid() && fetcher.alreadyHave + |fetcher.movies| <= fetcher.target
      invariant GrownFrom(pages, detailsOf, k, start, fetcher.movies)
      invariant Crawled(pages, k, requests, cursor, consecutiveErrors)
      decreases |pages| - k
    {
      requests, cursor, consecutiveErrors := CrawlStep(fetcher, pages, detailsOf, start, k, requests, cursor, consecutiveErrors);
      k := k + 1;
    }
    CrawledRequested(pages, k, requests, cursor, consecutiveErrors);
  }

  /** `fetchMovies(targetCount)`. `pages[k]` is how the attempts of the `k`-th
      page request end, and `detailsOf(id)` the outcome of the detail fetch
      of `id` with its retries and timeouts (`None` when it throws). Returns
      the consolidated movies, the new movies and the requested cursors. */
  method FetchMovies(dir: DataDir, target: int, pages: seq<nat -> Attempt<PageData>>, detailsOf: int -> Option<Details>)
    returns (allMovies: seq<Record>, fetched: seq<Record>, requests: seq<Cursor>)
    requires dir.Valid()
    modifies dir
    ensures dir.Valid() && dir.raw == Stored(allMovies)
    ensures HaveCount(old(dir.Listing())) >= target ==> fetched == [] && requests == [] && dir.writes == old(dir.writes)
    ensures HaveCount(old(dir.Listing())) < target ==> HaveCount(old(dir.Listing())) + |fetched| <= target
    ensures DistinctIds(fetched)
    ensures forall i :: 0 <= i < |fetched| ==> fetched[i].id !in RecordIds(Concat(BatchOrder(old(dir.Listing()))))
    ensures forall i :: 0 <= i < |fetched| ==> FromRequested(pages, detailsOf, |requests|, fetched[i])
    // the requests: pages 1..9 of each endpoint in turn, a failed page retried
    ensures RequestedInTurn(pages, requests)
    ensures HaveCount(old(dir.Listing())) < target && |requests| < |pages| ==>
      HaveCount(old(dir.Listing())) + |fetched| >= target || TrailingFailures(pages, |requests|) >= MaxConsecutiveErrors
    // the batch writes: numbered from floor(have / 1000) + 1, all full but the last, holding the new movies
    ensures |old(dir.writes)| <= |dir.writes|
    ensures Written(dir.writes[|old(dir.writes)|..]) == fetched
    ensures LastShort(dir.writes[|old(dir.writes)|..], HaveCount(old(dir.Listing())) / BatchSize + 1)
    // the result: the consolidated batch files
    ensures var s := Concat(BatchOrder(dir.Listing()));
      && RecordIds(allMovies) == FirstOccurrences(RecordIds(s))
      && DistinctIds(allMovies)
      && forall i :: 0 <= i < |allMovies| ==> LastWith(s, allMovies[i].id) == Some(allMovies[i])
  {
    ghost var loaded := Concat(BatchOrder(dir.Listing()));
    ghost var first := HaveCount(dir.Listing()) / BatchSize + 1;
    var existingMovies := LoadExistingMovies(dir.Listing());
    assert existingMovies.Size() == HaveCount(old(dir.Listing()));
    if existingMovies.Size() >= target {
      allMovies := dir.GenerateConsolidatedFile();
      return allMovies, [], [];
    }
    var fetcher := new BatchFetcher(dir, target, existingMovies);
    forall k ensures k in fetcher.existingIds <==> k in RecordIds(loaded) {
      FirstOccurrencesMembers(RecordIds(loaded), k);
    }
    requests := Crawl(fetcher, pages, detailsOf);
    fetcher.FlushRemainder();
    assert fetcher.firstBatch == first;
    assert fetcher.RunWrites() == dir.writes[|old(dir.writes)|..];
    fetched := fetcher.movies;
    allMovies := dir.GenerateConsolidatedFile();
  }
}
