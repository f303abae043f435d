/** `scripts/fetch-movie-by-id.js`: fetch the movies whose ids are given on
    the command line and are not in the batch files yet, append them to
    `movies_manual.json`, and regenerate the consolidated file. The batch
    files are loaded and merged as in `scripts/fetch-movies.js`, and the
    requests are retried by the same `fetchWithRetry`. */
module FetchMovieById {
  import opened Collections
  import opened Sorting
  import opened JsMaps
  import opened JsNumbers
  import opened Ingest
  import opened FetchMovies

  const ManualFile := "movies_manual.json"

  // ---------------------------------------------------------------------
  // The command line

  /** The ids among the arguments: `parseInt` of each, `NaN` dropped. */
  function ParseIds(args: seq<string>): (ids: seq<int>)
    ensures |ids| <= |args|
  {
    FilterMap(args, ParseInt)
  }

  /** An id is kept exactly when some argument parses to it. */
  lemma ParseIdsMembers(args: seq<string>, v: int)
    ensures v in ParseIds(args) <==> exists i :: 0 <= i < |args| && ParseInt(args[i]) == Some(v)
  {
    FilterMapMembers(args, ParseInt, v);
  }

  /** Arguments are read one by one: more arguments, more ids after them. */
  lemma ParseIdsAppend(a: seq<string>, b: seq<string>)
    ensures ParseIds(a + b) == ParseIds(a) + ParseIds(b)
  {
    FilterMapAppend(a, b, ParseInt);
  }

  /** An argument that is not a number adds nothing. */
  lemma NotANumber(args: seq<string>, junk: string)
    requires ParseInt(junk).None?
    ensures ParseIds(args + [junk]) == ParseIds(args)
  {
    assert (args + [junk])[..|args|] == args;
  }

  /** Writing ids out with `String` and parsing them back gives the same
      ids, in order. */
  lemma ParseIdsArgs(ids: seq<int>)
    ensures ParseIds(MapSeq(ids, DecimalString)) == ids
  {
    forall x ensures ParseInt(DecimalString(x)) == Some(x) {
      ParseDecimalString(x);
    }
    FilterMapInverse(ids, DecimalString, ParseInt);
  }

  // ---------------------------------------------------------------------
  // Which ids to fetch

  /** `movieIds.filter(id => !existingMovies.has(id))` */
  function ToFetch(ids: seq<int>, existing: JsMap<int, Record>): seq<int> {
    Filter(ids, id => !existing.Has(id))
  }

  /** `movieIds.filter(id => existingMovies.has(id))` */
  function AlreadyHave(ids: seq<int>, existing: JsMap<int, Record>): seq<int> {
    Filter(ids, id => existing.Has(id))
  }

  /** Against the loaded map, `has(id)` asks whether a batch file holds a
      record with that id. */
  lemma LoadedIds(existing: JsMap<int, Record>, records: seq<Record>, ids: seq<int>)
    requires IndexedBy(existing, records)
    ensures ToFetch(ids, existing) == Filter(ids, id => id !in RecordIds(records))
    ensures AlreadyHave(ids, existing) == Filter(ids, id => id in RecordIds(records))
  {
    forall id ensures existing.Has(id) <==> id in RecordIds(records) {
      FirstOccurrencesMembers(RecordIds(records), id);
    }
    FilterSame(ids, id => !existing.Has(id), id => id !in RecordIds(records));
    FilterSame(ids, id => existing.Has(id), id => id in RecordIds(records));
  }

  /** The two lists split the ids: together they hold every id once per
      occurrence, and an id goes to exactly one of them. */
  lemma {:induction false} SplitIds(ids: seq<int>, existing: JsMap<int, Record>)
    ensures |ToFetch(ids, existing)| + |AlreadyHave(ids, existing)| == |ids|
    ensures forall x :: x in ToFetch(ids, existing) <==> x in ids && !existing.Has(x)
    ensures forall x :: x in AlreadyHave(ids, existing) <==> x in ids && existing.Has(x)
  {
    if ids != [] {
      SplitIds(ids[1..], existing);
      FilterCons(ids[0], ids[1..], id => !existing.Has(id));
      FilterCons(ids[0], ids[1..], id => existing.Has(id));
      assert ids == [ids[0]] + ids[1..];
    }
    forall x | x in ids && !existing.Has(x) ensures x in ToFetch(ids, existing) {
      FilterKeeps(ids, id => !existing.Has(id), x);
    }
    forall x | x in ids && existing.Has(x) ensures x in AlreadyHave(ids, existing) {
      FilterKeeps(ids, id => existing.Has(id), x);
    }
  }

  // ---------------------------------------------------------------------
  // fetchMovieById

  /** The record built from a detail response; `None` when `genres` is
      missing, where the `map` throws and the error is caught. */
  function FromDetails(d: Details): (r: Option<Record>)
    ensures r.None? <==> d.genres.None?
    ensures r.Some? ==> r.value.id == d.id && r.value.title == d.title && r.value.titlePl == d.title
    ensures r.Some? ==> r.value.genres == GenreNames(d.genres.value) && r.value.genreIds == GenreIds(d.genres.value)
    ensures r.Some? ==> (r.value.poster.Some? <==> d.posterPath != "") && (r.value.backdrop.Some? <==> d.backdropPath != "")
    ensures r.Some? ==> r.value.year == YearOf(d.releaseDate) && |r.value.keywords| <= 10
    ensures r.Some? ==> r.value.rating == RoundTenth(d.voteAverage) && r.value.popularity == MathRound(d.popularity) as real
  {
    match d.genres
    case None => None
    case Some(gs) =>
      Some(Record(
        d.id, d.title, d.title, d.originalTitle, d.overview,
        ImageUrl(d.posterPath), ImageUrl(d.backdropPath), GenreNames(gs), GenreIds(gs),
        YearOf(d.releaseDate), RoundTenth(d.voteAverage), d.voteCount, MathRound(d.popularity) as real,
        Countries(d.countries), d.runtime, Keywords(d.keywords)))
  }

  /** What `fetchMovieById` returns for the outcomes of its attempts. */
  function MovieById(attempt: nat -> Attempt<Details>): (r: Option<Record>)
    ensures r.Some? <==> Retry(attempt).Body? && Retry(attempt).value.genres.Some?
    ensures r.Some? ==> r == FromDetails(Retry(attempt).value)
  {
    match Retry(attempt)
    case Body(d) => FromDetails(d)
    case Undefined => None
    case Threw(_) => None
  }

  /** `fetchMovieById(movieId)`: any error, including the `undefined` of
      three 429 answers, gives `null`. */
  method FetchMovieById(attempt: nat -> Attempt<Details>) returns (movie: Option<Record>)
    ensures movie == MovieById(attempt)
  {
    var details := FetchWithRetry(attempt);
    match details {
      case Body(d) =>
        movie := FromDetails(d);
      case Undefined =>
        movie := None;
      case Threw(_) =>
        movie := None;
    }
  }

  /** No successful attempt, no movie. */
  lemma NoSuccessNoMovie(attempt: nat -> Attempt<Details>)
    requires NoSuccessIn(attempt, 0, Retries)
    ensures MovieById(attempt).None?
  {
    RetrySpec(attempt);
    assert !attempt(Retries - 1).Success?;
  }

  /** The movies the loop over `toFetch` collects, in order. */
  function Fetched(ids: seq<int>, detailsOf: int -> (nat -> Attempt<Details>)): (r: seq<Record>)
    ensures |r| <= |ids|
  {
    if ids == [] then []
    else
      var m := MovieById(detailsOf(ids[|ids| - 1]));
      Fetched(ids[..|ids| - 1], detailsOf) + if m.Some? then [m.value] else []
  }

  /** Every collected movie is the one built for some requested id. */
  lemma {:induction false} FetchedFrom(ids: seq<int>, detailsOf: int -> (nat -> Attempt<Details>))
    ensures forall r :: r in Fetched(ids, detailsOf) ==> exists i :: 0 <= i < |ids| && MovieById(detailsOf(ids[i])) == Some(r)
  {
    if ids != [] {
      var front := ids[..|ids| - 1];
      FetchedFrom(front, detailsOf);
      forall r | r in Fetched(ids, detailsOf) ensures exists i :: 0 <= i < |ids| && MovieById(detailsOf(ids[i])) == Some(r) {
        if r in Fetched(front, detailsOf) {
          var i :| 0 <= i < |front| && MovieById(detailsOf(front[i])) == Some(r);
          assert ids[i] == front[i];
        } else {
          assert MovieById(detailsOf(ids[|ids| - 1])) == Some(r);
        }
      }
    }
  }

  /** The `for` over `toFetch`. */
  method FetchAll(toFetch: seq<int>, detailsOf: int -> (nat -> Attempt<Details>)) returns (fetchedMovies: seq<Record>)
    ensures fetchedMovies == Fetched(toFetch, detailsOf)
  {
    fetchedMovies := [];
    for i := 0 to |toFetch|
      invariant fetchedMovies == Fetched(toFetch[..i], detailsOf)
    {
      var movie := FetchMovieById(detailsOf(toFetch[i]));
      if movie.Some? {
        fetchedMovies := fetchedMovies + [movie.value];
      }
      assert toFetch[..i + 1][..i] == toFetch[..i];
    }
    assert toFetch[..|toFetch|] == toFetch;
  }

  // ---------------------------------------------------------------------
  // saveToBatch

  /** `saveToBatch(movies)`: the movies whose id the manual file lacks are
      appended to it. */
  method SaveToBatch(dir: DataDir, movies: seq<Record>)
    requires dir.Valid()
    modifies dir
    ensures dir.Valid() && dir.raw == old(dir.raw)
    ensures dir.batches == old(dir.batches).Set(ManualFile, Merge(if old(dir.batches).Has(ManualFile) then old(dir.batches).entries[ManualFile] else [], movies))
    ensures dir.writes == old(dir.writes) + [BatchWrite(ManualFile, movies)]
  {
    dir.MergeInto(ManualFile, movies);
  }

  /** The set of ids is taken from the file once, before the loop: a movie
      given twice in one call is appended twice. */
  lemma RepeatedMovieAppendedTwice(manual: seq<Record>, m: Record)
    requires m.id !in RecordIds(manual)
    ensures Merge(manual, [m, m]) == manual + [m, m]
  {
    var ids := RecordIds(manual);
    assert [m, m][1..] == [m] && [m][1..] == [];
    assert WithNewIds([m], ids) == [m] + WithNewIds([], ids) == [m];
    assert WithNewIds([m, m], ids) == [m] + WithNewIds([m], ids);
  }

  /** The manual file is a batch file, read after every numbered batch: its
      records win over theirs when the batch files are loaded. */
  lemma ManualFileReadLast(n: int)
    requires n >= 1
    ensures IsBatchName(ManualFile)
    ensures StrBefore(BatchFileName(n), ManualFile)
  {
    PrefixOf("movies_", "manual.json");
    SuffixOf("movies_manual", ".json");
    assert "movies_manual" + ".json" == ManualFile;
    var a := PadStart(NatString((n - 1) * BatchSize + 1), 6, '0');
    var rest := a + "-" + PadStart(NatString(n * BatchSize), 6, '0') + ".json";
    assert BatchFileName(n) == "movies_" + rest;
    assert ManualFile == "movies_" + "manual.json";
    StrBeforeCommonPrefix("movies_", rest, "manual.json");
    PadZerosValue(NatString((n - 1) * BatchSize + 1), 6);
    assert rest[0] == a[0] && IsDigit(a[0]);
  }

  // ---------------------------------------------------------------------
  // main

  datatype RunResult =
    | MissingApiKey
    | Usage
    | AllPresent(alreadyHave: seq<int>)
    | NothingFetched(toFetch: seq<int>)
    | Saved(toFetch: seq<int>, fetched: seq<Record>)

  /** `main()`: `args` are the command-line arguments after the script's
      name, and `detailsOf(id)` the outcomes of the attempts of the detail
      request for `id`. */
  method Run(dir: DataDir, hasApiKey: bool, args: seq<string>, detailsOf: int -> (nat -> Attempt<Details>))
    returns (result: RunResult)
    requires dir.Valid()
    modifies dir
    ensures dir.Valid()
    ensures !hasApiKey <==> result == MissingApiKey
    ensures hasApiKey && ParseIds(args) == [] <==> result == Usage
    ensures var existing := Concat(BatchOrder(old(dir.Listing())));
      var toFetch := Filter(ParseIds(args), id => id !in RecordIds(existing));
      && (result.AllPresent? <==> hasApiKey && ParseIds(args) != [] && toFetch == [])
      && (result.AllPresent? ==> result.alreadyHave == Filter(ParseIds(args), id => id in RecordIds(existing)))
      && (result.NothingFetched? ==> result.toFetch == toFetch && Fetched(toFetch, detailsOf) == [])
      && (result.Saved? ==> result.toFetch == toFetch && result.fetched == Fetched(toFetch, detailsOf) != [])
    ensures !result.Saved? ==> dir.batches == old(dir.batches) && dir.raw == old(dir.raw) && dir.writes == old(dir.writes)
    ensures result.Saved? ==>
      && old(dir.batches).Set(ManualFile, Merge(if old(dir.batches).Has(ManualFile) then old(dir.batches).entries[ManualFile] else [], result.fetched)) == dir.batches
      && dir.writes == old(dir.writes) + [BatchWrite(ManualFile, result.fetched)]
      && dir.raw.Stored?
      && var s := Concat(BatchOrder(dir.Listing()));
        && RecordIds(dir.raw.records) == FirstOccurrences(RecordIds(s))
        && DistinctIds(dir.raw.records)
        && forall i :: 0 <= i < |dir.raw.records| ==> LastWith(s, dir.raw.records[i].id) == Some(dir.raw.records[i])
  {
    if !hasApiKey {
      return MissingApiKey;
    }
    var movieIds := ParseIds(args);
    if movieIds == [] {
      return Usage;
    }
    ghost var existingRecords := Concat(BatchOrder(dir.Listing()));
    var existingMovies := LoadExistingMovies(dir.Listing());
    LoadedIds(existingMovies, existingRecords, movieIds);
    var toFetch := ToFetch(movieIds, existingMovies);
    var alreadyHave := AlreadyHave(movieIds, existingMovies);
    if toFetch == [] {
      return AllPresent(alreadyHave);
    }
    var fetchedMovies := FetchAll(toFetch, detailsOf);
    if |fetchedMovies| > 0 {
      SaveToBatch(dir, fetchedMovies);
      var allMovies := dir.GenerateConsolidatedFile();
      return Saved(toFetch, fetchedMovies);
    }
    return NothingFetched(toFetch);
  }
}
