/** What the three TMDb ingestion scripts (`scripts/fetch-movies.js`,
    `scripts/fetch-movies-fixed.js`, `scripts/fetch-movie-by-id.js`) share:
    the stored movie record, the TMDb responses it is built from, the retry
    outcomes of a request, the `data/` directory, and the loading of the
    batch files into an id-keyed `Map`. */
module Ingest {
  import opened Collections
  import opened Sorting
  import opened JsMaps
  import opened JsNumbers

  const ImageBase := "https://image.tmdb.org/t/p/w500"

  /** A movie as the scripts store it in the JSON files. */
  datatype Record = Record(
    id: int,
    title: string,
    titlePl: string,
    titleOriginal: string,
    description: string,
    poster: Option<string>,
    backdrop: Option<string>,
    genres: seq<string>,
    genreIds: seq<int>,
    year: Option<int>,
    rating: real,
    voteCount: int,
    popularity: real,
    countries: seq<string>,
    runtime: Option<int>,
    keywords: seq<string>)

  /** A movie of a TMDb list page. A missing or `null` string field is the
      empty string, which is falsy in JavaScript as well. */
  datatype Listed = Listed(
    id: int,
    title: string,
    overview: string,
    posterPath: string,
    backdropPath: string,
    genreIds: Option<seq<int>>,
    releaseDate: string,
    voteAverage: real,
    voteCount: int,
    popularity: real)

  datatype Genre = Genre(id: int, name: string)

  /** A TMDb movie-details response (with `keywords` appended). */
  datatype Details = Details(
    id: int,
    title: string,
    originalTitle: string,
    overview: string,
    posterPath: string,
    backdropPath: string,
    genres: Option<seq<Genre>>,
    releaseDate: string,
    voteAverage: real,
    voteCount: int,
    popularity: real,
    countries: Option<seq<string>>,
    runtime: Option<int>,
    keywords: Option<seq<string>>)

  /** The body of a list page: its `results` field may be missing. */
  type PageData = Option<seq<Listed>>

  // ---------------------------------------------------------------------
  // Building a record

  /** `path ? IMAGE_BASE + path : null` */
  function ImageUrl(path: string): (r: Option<string>)
    ensures r.None? <==> path == ""
    ensures r.Some? ==> ImageBase <= r.value && r.value[|ImageBase|..] == path
  {
    if path != "" then Some(ImageBase + path) else None
  }

  /** `s.split('-')[0]`: everything before the first dash. */
  function BeforeDash(s: string): (r: string)
    ensures r <= s && '-' !in r
    ensures |r| < |s| ==> s[|r|] == '-'
  {
    if s == [] || s[0] == '-' then [] else [s[0]] + BeforeDash(s[1..])
  }

  /** `release_date ? parseInt(release_date.split('-')[0]) : null`; a `NaN`
      year is written out as `null`, like a missing one. */
  function YearOf(releaseDate: string): Option<int> {
    if releaseDate == "" then None else ParseInt(BeforeDash(releaseDate))
  }

  /** A date `YYYY-MM-DD` gives its year. */
  lemma YearOfDate(year: nat, rest: string)
    ensures YearOf(NatString(year) + "-" + rest) == Some(year)
  {
    var digits := NatString(year);
    var date := digits + "-" + rest;
    assert '-' !in digits by {
      forall i | 0 <= i < |digits| ensures digits[i] != '-' {
        assert IsDigit(digits[i]);
      }
    }
    assert date == digits + ("-" + rest);
    BeforeDashUpTo(digits, "-" + rest);
    assert BeforeDash(date) == digits;
    ParseDecimalString(year);
  }

  /** The dash-free front of a string is kept whole. */
  lemma {:induction false} BeforeDashUpTo(front: string, rest: string)
    requires '-' !in front && (rest == [] || rest[0] == '-')
    ensures BeforeDash(front + rest) == front
  {
    if front == [] {
      assert front + rest == rest;
    } else {
      assert (front + rest)[1..] == front[1..] + rest;
      BeforeDashUpTo(front[1..], rest);
      assert front == [front[0]] + front[1..];
    }
  }

  function GenreNames(gs: seq<Genre>): (r: seq<string>)
    ensures |r| == |gs| && forall i :: 0 <= i < |gs| ==> r[i] == gs[i].name
  {
    seq(|gs|, i requires 0 <= i < |gs| => gs[i].name)
  }

  function GenreIds(gs: seq<Genre>): (r: seq<int>)
    ensures |r| == |gs| && forall i :: 0 <= i < |gs| ==> r[i] == gs[i].id
  {
    seq(|gs|, i requires 0 <= i < |gs| => gs[i].id)
  }

  /** `details.keywords?.keywords?.slice(0, 10).map(k => k.name) || []` */
  function Keywords(ks: Option<seq<string>>): (r: seq<string>)
    ensures |r| <= 10
    ensures ks.Some? ==> |r| == Min(10, |ks.value|) && r == ks.value[..|r|]
    ensures ks.None? ==> r == []
  {
    if ks.Some? then SliceTo(ks.value, 10) else []
  }

  /** `details.production_countries?.map(c => c.iso_3166_1) || []` */
  function Countries(cs: Option<seq<string>>): seq<string> {
    if cs.Some? then cs.value else []
  }

  /** `a || b` on strings. */
  function OrElse(a: string, b: string): (r: string)
    ensures r == a || r == b
    ensures a != "" ==> r == a
  {
    if a != "" then a else b
  }

  /** `Math.round(x)`: the nearest integer, a half rounded up. */
  function MathRound(x: real): (r: int)
    ensures r as real - 0.5 <= x < r as real + 0.5
  {
    (x + 0.5).Floor
  }

  /** `Math.round(x * 10) / 10`: the nearest multiple of a tenth, a half
      rounded up. */
  function RoundTenth(x: real): (r: real)
    ensures r - 0.05 <= x < r + 0.05
    ensures (r * 10.0).Floor as real == r * 10.0
  {
    MathRound(x * 10.0) as real / 10.0
  }

  /** The stored popularity differs from the reported one: 100.4 is stored
      as 100, which no longer exceeds 100. */
  lemma PopularityRounded()
    ensures MathRound(100.4) == 100 && MathRound(100.5) == 101
    ensures RoundTenth(7.25) == 7.3 && RoundTenth(7.24) == 7.2
  {
  }

  // ---------------------------------------------------------------------
  // Records by id

  function RecordIds(s: seq<Record>): (r: seq<int>)
    ensures |r| == |s| && forall i :: 0 <= i < |s| ==> r[i] == s[i].id
  {
    seq(|s|, i requires 0 <= i < |s| => s[i].id)
  }

  predicate DistinctIds(s: seq<Record>) {
    forall i, j :: 0 <= i < j < |s| ==> s[i].id != s[j].id
  }

  /** `m.get(k)`, with `undefined` as `None`. */
  function Lookup(m: JsMap<int, Record>, k: int): Option<Record> {
    if m.Has(k) then Some(m.entries[k]) else None
  }

  /** The last record of `s` with id `k`. */
  function LastWith(s: seq<Record>, k: int): Option<Record> {
    if s == [] then None
    else if s[|s| - 1].id == k then Some(s[|s| - 1])
    else LastWith(s[..|s| - 1], k)
  }

  /** `LastWith` finds a record exactly for the ids of `s`, and what it finds
      is a record of `s` with that id that no later record shares. */
  lemma {:induction false} LastWithSpec(s: seq<Record>, k: int)
    ensures LastWith(s, k).None? <==> k !in RecordIds(s)
    ensures LastWith(s, k).Some? ==> exists i :: 0 <= i < |s| && s[i] == LastWith(s, k).value && s[i].id == k && (forall j :: i < j < |s| ==> s[j].id != k)
  {
    if s != [] {
      var front := s[..|s| - 1];
      LastWithSpec(front, k);
      assert RecordIds(s) == RecordIds(front) + [s[|s| - 1].id];
      if s[|s| - 1].id != k && LastWith(front, k).Some? {
        var i :| 0 <= i < |front| && front[i] == LastWith(front, k).value && front[i].id == k && (forall j :: i < j < |front| ==> front[j].id != k);
        assert s[i] == front[i];
        forall j | i < j < |s| ensures s[j].id != k {
          if j < |front| {
            assert s[j] == front[j];
          }
        }
      }
    }
  }

  /** `m` is the `Map` filled by `s.forEach(r => m.set(r.id, r))`: its keys in
      order of first appearance, and each id mapped to its last record. */
  ghost predicate IndexedBy(m: JsMap<int, Record>, s: seq<Record>) {
    && m.Valid()
    && m.keys == FirstOccurrences(RecordIds(s))
    && forall k :: Lookup(m, k) == LastWith(s, k)
  }

  lemma IndexEmpty()
    ensures IndexedBy(Empty(), [])
  {
  }

  /** Setting one more record keeps the map in step with the records. */
  lemma IndexStep(m: JsMap<int, Record>, s: seq<Record>, x: Record)
    requires IndexedBy(m, s)
    ensures IndexedBy(m.Set(x.id, x), s + [x])
  {
    IndexKeysStep(m, s, x);
    IndexLookupStep(m, s, x);
  }

  lemma IndexKeysStep(m: JsMap<int, Record>, s: seq<Record>, x: Record)
    requires m.Valid() && m.keys == FirstOccurrences(RecordIds(s))
    ensures m.Set(x.id, x).keys == FirstOccurrences(RecordIds(s + [x]))
  {
    assert RecordIds(s + [x]) == RecordIds(s) + [x.id];
    FirstOccurrencesSnoc(RecordIds(s), x.id);
    FirstOccurrencesMembers(RecordIds(s), x.id);
    assert x.id in m.keys <==> x.id in m.entries;
  }

  lemma IndexLookupStep(m: JsMap<int, Record>, s: seq<Record>, x: Record)
    requires m.Valid() && forall k :: Lookup(m, k) == LastWith(s, k)
    ensures forall k :: Lookup(m.Set(x.id, x), k) == LastWith(s + [x], k)
  {
    assert (s + [x])[..|s|] == s;
  }

  /** `records.forEach(r => m.set(r.id, r))`; `done` are the records already set. */
  method SetAll(m: JsMap<int, Record>, ghost done: seq<Record>, records: seq<Record>) returns (r: JsMap<int, Record>)
    requires IndexedBy(m, done)
    ensures IndexedBy(r, done + records)
  {
    r := m;
    assert done + records[..0] == done;
    for j := 0 to |records|
      invariant IndexedBy(r, done + records[..j])
    {
      IndexStep(r, done + records[..j], records[j]);
      r := r.Set(records[j].id, records[j]);
      assert done + records[..j + 1] == (done + records[..j]) + [records[j]];
    }
    assert records[..|records|] == records;
  }

  /** `Array.from(m.values())` of an indexed map: each id once, in order of
      first appearance, with its last record. */
  lemma IndexedValues(m: JsMap<int, Record>, s: seq<Record>)
    requires IndexedBy(m, s)
    ensures RecordIds(m.Values()) == FirstOccurrences(RecordIds(s))
    ensures forall i :: 0 <= i < |m.Values()| ==> LastWith(s, m.Values()[i].id) == Some(m.Values()[i])
    ensures DistinctIds(m.Values())
  {
    var v := m.Values();
    forall i | 0 <= i < |v| ensures v[i].id == m.keys[i] && LastWith(s, v[i].id) == Some(v[i]) {
      var k := m.keys[i];
      assert Lookup(m, k) == Some(v[i]);
      LastWithSpec(s, k);
    }
    assert RecordIds(v) == m.keys;
  }

  // ---------------------------------------------------------------------
  // Merging into a batch file

  /** `m => !ids.has(m.id)` */
  function NewId(ids: seq<int>): Record -> bool {
    (m: Record) => m.id !in ids
  }

  /** The incoming records whose id is not in `ids`, in order. */
  function WithNewIds(incoming: seq<Record>, ids: seq<int>): (r: seq<Record>)
    ensures |r| <= |incoming|
  {
    Filter(incoming, NewId(ids))
  }

  lemma WithNewIdsMembers(incoming: seq<Record>, ids: seq<int>)
    ensures forall x :: x in WithNewIds(incoming, ids) <==> x in incoming && x.id !in ids
  {
    forall x | x in incoming && x.id !in ids ensures x in WithNewIds(incoming, ids) {
      FilterKeeps(incoming, NewId(ids), x);
    }
  }

  lemma {:induction false} WithNewIdsDistinct(incoming: seq<Record>, ids: seq<int>)
    requires DistinctIds(incoming)
    ensures DistinctIds(WithNewIds(incoming, ids))
  {
    if incoming != [] {
      var rest := incoming[1..];
      assert DistinctIds(rest) by {
        forall i, j | 0 <= i < j < |rest| ensures rest[i].id != rest[j].id {
          assert rest[i] == incoming[i + 1] && rest[j] == incoming[j + 1];
        }
      }
      WithNewIdsDistinct(rest, ids);
      WithNewIdsMembers(rest, ids);
      var tail := WithNewIds(rest, ids);
      if incoming[0].id !in ids {
        var r := [incoming[0]] + tail;
        forall i, j | 0 <= i < j < |r| ensures r[i].id != r[j].id {
          if i == 0 {
            assert r[j] in rest;
            var k :| 0 <= k < |rest| && rest[k] == r[j];
            assert incoming[k + 1] == r[j];
          } else {
            assert r[i] == tail[i - 1] && r[j] == tail[j - 1];
          }
        }
      }
    }
  }

  /** The merge of `saveBatch`: `[...existing, ...incoming.filter(m => !existingIds.has(m.id))]`. */
  function Merge(existing: seq<Record>, incoming: seq<Record>): seq<Record> {
    existing + WithNewIds(incoming, RecordIds(existing))
  }

  /** The merge keeps the file's records first and in order, then adds
      exactly the incoming records with an id the file lacks, in order; so
      every incoming id ends up in the file, and distinct ids stay distinct. */
  lemma MergeSpec(existing: seq<Record>, incoming: seq<Record>)
    ensures var r := Merge(existing, incoming);
      && r[..|existing|] == existing
      && r[|existing|..] == WithNewIds(incoming, RecordIds(existing))
      && (forall x :: x in r[|existing|..] <==> x in incoming && x.id !in RecordIds(existing))
      && (forall x :: x in incoming ==> x.id in RecordIds(r))
      && (DistinctIds(existing) && DistinctIds(incoming) ==> DistinctIds(r))
  {
    var ids := RecordIds(existing);
    var added := WithNewIds(incoming, ids);
    var r := existing + added;
    assert r[..|existing|] == existing && r[|existing|..] == added;
    WithNewIdsMembers(incoming, ids);
    forall x | x in incoming ensures x.id in RecordIds(r) {
      if x.id in ids {
        var i :| 0 <= i < |ids| && ids[i] == x.id;
        assert RecordIds(r)[i] == x.id;
      } else {
        assert x in added;
        var i :| 0 <= i < |added| && added[i] == x;
        assert RecordIds(r)[|existing| + i] == x.id;
      }
    }
    if DistinctIds(existing) && DistinctIds(incoming) {
      WithNewIdsDistinct(incoming, ids);
      forall i, j | 0 <= i < j < |r| ensures r[i].id != r[j].id {
        if j >= |existing| {
          assert r[j] == added[j - |existing|];
          assert r[j] in added;
          if i < |existing| {
            assert ids[i] == r[i].id;
          } else {
            assert r[i] == added[i - |existing|];
          }
        } else {
          assert r[i] == existing[i] && r[j] == existing[j];
        }
      }
    }
  }

  // ---------------------------------------------------------------------
  // The batch directory

  /** A file of `data/batches/` and the records it holds. */
  datatype BatchFile = BatchFile(name: string, records: seq<Record>)

  predicate EndsWith(s: string, suffix: string) {
    |suffix| <= |s| && s[|s| - |suffix|..] == suffix
  }

  /** `f.startsWith('movies_') && f.endsWith('.json')` */
  predicate IsBatchName(name: string) {
    "movies_" <= name && EndsWith(name, ".json")
  }

  predicate IsBatchFile(f: BatchFile) {
    IsBatchName(f.name)
  }

  /** `.sort()` on file names: JavaScript's default string order. */
  function ByName(): (BatchFile, BatchFile) -> bool {
    (a: BatchFile, b: BatchFile) => StrBefore(a.name, b.name)
  }

  lemma ByNameIsStrictWeakOrder()
    ensures StrictWeakOrder(ByName())
  {
    StrBeforeIsStrictWeakOrder();
  }

  /** The batch files in the order they are read: the `movies_*.json` files of
      the listing, sorted by name. */
  function BatchOrder(listing: seq<BatchFile>): seq<BatchFile> {
    StableSort(Filter(listing, IsBatchFile), ByName())
  }

  /** Exactly the batch files of the listing are read, in name order. */
  lemma BatchOrderSpec(listing: seq<BatchFile>)
    ensures var order := BatchOrder(listing);
      && (forall f :: f in order <==> f in listing && IsBatchName(f.name))
      && (forall i, j :: 0 <= i < j < |order| ==> !StrBefore(order[j].name, order[i].name))
  {
    var batches := Filter(listing, IsBatchFile);
    var order := BatchOrder(listing);
    ByNameIsStrictWeakOrder();
    StableSortSorted(batches, ByName());
    forall f ensures f in order <==> f in listing && IsBatchName(f.name) {
      assert f in order <==> f in multiset(order);
      assert f in batches <==> f in multiset(batches);
      if f in listing && IsBatchName(f.name) {
        FilterKeeps(listing, IsBatchFile, f);
      }
    }
  }

  /** The records of the files, file after file. */
  function Concat(files: seq<BatchFile>): seq<Record> {
    if files == [] then [] else Concat(files[..|files| - 1]) + files[|files| - 1].records
  }

  /** `loadExistingMovies` of `scripts/fetch-movies.js` and
      `scripts/fetch-movie-by-id.js`: every record of the batch files, read in
      name order, set into a `Map` by id, so a later file overrides an earlier
      one. A missing directory is an empty listing. */
  method LoadExistingMovies(listing: seq<BatchFile>) returns (m: JsMap<int, Record>)
    ensures IndexedBy(m, Concat(BatchOrder(listing)))
  {
    var batchFiles := BatchOrder(listing);
    m := Empty();
    for i := 0 to |batchFiles|
      invariant IndexedBy(m, Concat(batchFiles[..i]))
    {
      assert batchFiles[..i + 1][..i] == batchFiles[..i];
      m := SetAll(m, Concat(batchFiles[..i]), batchFiles[i].records);
    }
    assert batchFiles[..|batchFiles|] == batchFiles;
  }

  /** The contents of `data/movies-raw.json`. */
  datatype RawFile = NoFile | Corrupt | Stored(records: seq<Record>)

  /** One call of `saveBatch`: the file name and the records handed to it. */
  datatype BatchWrite = BatchWrite(name: string, movies: seq<Record>)

  /** The `data/` directory: the batch files in creation order, the
      consolidated file, and (for the proofs) every batch write so far. */
  class DataDir {
    var batches: JsMap<string, seq<Record>>
    var raw: RawFile
    ghost var writes: seq<BatchWrite>

    ghost predicate Valid()
      reads this
    {
      batches.Valid()
    }

    constructor (batches: JsMap<string, seq<Record>>, raw: RawFile)
      requires batches.Valid()
      ensures Valid() && this.batches == batches && this.raw == raw && writes == []
    {
      this.batches := batches;
      this.raw := raw;
      writes := [];
    }

    /** `fs.readdirSync(BATCHES_DIR)` with each file's parsed contents. */
    function Listing(): (r: seq<BatchFile>)
      reads this
      requires Valid()
      ensures |r| == |batches.keys|
      ensures forall i :: 0 <= i < |r| ==> r[i] == BatchFile(batches.keys[i], batches.entries[batches.keys[i]])
    {
      var b := batches;
      seq(|b.keys|, i requires 0 <= i < |b.keys| => BatchFile(b.keys[i], b.entries[b.keys[i]]))
    }

    /** Merge `movies` into the batch file `name` (an absent file counts as empty). */
    method MergeInto(name: string, movies: seq<Record>)
      requires Valid()
      modifies this
      ensures Valid() && raw == old(raw)
      ensures batches == old(batches).Set(name, Merge(if old(batches).Has(name) then old(batches).entries[name] else [], movies))
      ensures writes == old(writes) + [BatchWrite(name, movies)]
    {
      var existingMovies := if batches.Has(name) then batches.entries[name] else [];
      batches := batches.Set(name, Merge(existingMovies, movies));
      writes := writes + [BatchWrite(name, movies)];
    }

    /** `generateConsolidatedFile`: load the batch files and write their
        `Map`'s values to `movies-raw.json`. */
    method GenerateConsolidatedFile() returns (allMovies: seq<Record>)
      requires Valid()
      modifies this
      ensures Valid() && batches == old(batches) && writes == old(writes)
      ensures raw == Stored(allMovies)
      ensures var s := Concat(BatchOrder(old(Listing())));
        && RecordIds(allMovies) == FirstOccurrences(RecordIds(s))
        && DistinctIds(allMovies)
        && forall i :: 0 <= i < |allMovies| ==> LastWith(s, allMovies[i].id) == Some(allMovies[i])
    {
      var existingMovies := LoadExistingMovies(Listing());
      IndexedValues(existingMovies, Concat(BatchOrder(Listing())));
      allMovies := existingMovies.Values();
      raw := Stored(allMovies);
    }
  }

  // ---------------------------------------------------------------------
  // Requests

  /** How one attempt of a request ended. `TimedOut` is an aborted request
      (`AbortError`), `Failed` any other thrown error, including the
      `HTTP <status>` one for a non-2xx answer. */
  datatype Attempt<T> = TooMany | TimedOut | Failed(message: string) | Success(body: T)

  /** What a retrying request gives back: the body, `undefined`, or an error. */
  datatype Outcome<T> = Body(value: T) | Undefined | Threw(error: string)

  /** No attempt from `lo` up to `hi` (excluded) was a success. */
  ghost predicate NoSuccessIn<T>(attempt: nat -> Attempt<T>, lo: nat, hi: nat) {
    forall j: nat :: lo <= j < hi ==> !attempt(j).Success?
  }
}
