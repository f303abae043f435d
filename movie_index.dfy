/** The A–Z page (`src/app/filmy/page.tsx`): the fetched movies sorted by
    display title, a case-insensitive search, and the result grouped by the
    upper-cased first character of the display title.

    Polish collation (`localeCompare(_, 'pl')`) is a parameter `rank`: one
    string comes before another when its rank is smaller. Case mapping
    (`toLowerCase`, `toUpperCase`) is a parameter as well. */
module MovieIndex {
  import opened Collections
  import opened Sorting
  import opened Movies
  import opened JsMaps
  import Premieres

  /** `title_pl || title` */
  function DisplayTitle(m: Movie): string {
    if m.titlePl.Some? && m.titlePl.value != "" then m.titlePl.value else m.title
  }

  /** `title_original || title` */
  function OriginalTitle(m: Movie): string {
    if m.titleOriginal != "" then m.titleOriginal else m.title
  }

  /** The comparator on movies: by the collation of their display titles. */
  function ByTitle(rank: string -> real): (Movie, Movie) -> bool {
    (a: Movie, b: Movie) => rank(DisplayTitle(a)) < rank(DisplayTitle(b))
  }

  /** The comparator on letters: by their collation. */
  function ByCollation(rank: string -> real): (string, string) -> bool {
    (a: string, b: string) => rank(a) < rank(b)
  }

  lemma ByTitleIsStrictWeakOrder(rank: string -> real)
    ensures StrictWeakOrder(ByTitle(rank))
  {
  }

  lemma ByCollationIsStrictWeakOrder(rank: string -> real)
    ensures StrictWeakOrder(ByCollation(rank))
  {
  }

  /** The fetched movies after the sort by display title. */
  function SortedMovies(movies: Option<seq<Movie>>, rank: string -> real): seq<Movie> {
    StableSort(Premieres.Fetched(movies), ByTitle(rank))
  }

  /** The sorted list holds the fetched movies, display titles in collation
      order, and movies whose titles collate equal keep fetched order. */
  lemma SortedMoviesSpec(movies: Option<seq<Movie>>, rank: string -> real)
    ensures var r := SortedMovies(movies, rank);
      && multiset(r) == multiset(Premieres.Fetched(movies))
      && (forall i, j :: 0 <= i < j < |r| ==> rank(DisplayTitle(r[i])) <= rank(DisplayTitle(r[j])))
      && (forall k :: Tied(r, k, ByTitle(rank)) == Tied(Premieres.Fetched(movies), k, ByTitle(rank)))
  {
    var fetched := Premieres.Fetched(movies);
    ByTitleIsStrictWeakOrder(rank);
    StableSortSorted(fetched, ByTitle(rank));
    forall k ensures Tied(StableSort(fetched, ByTitle(rank)), k, ByTitle(rank)) == Tied(fetched, k, ByTitle(rank)) {
      StableSortKeepsTies(fetched, k, ByTitle(rank));
    }
  }

  /** `hay.includes(needle)` */
  predicate Contains(hay: string, needle: string) {
    needle <= hay || (hay != [] && Contains(hay[1..], needle))
  }

  /** The search test of one movie. */
  predicate MatchesSearch(m: Movie, search: string, lower: string -> string) {
    || Contains(lower(DisplayTitle(m)), lower(search))
    || Contains(lower(OriginalTitle(m)), lower(search))
  }

  function SearchTest(search: string, lower: string -> string): Movie -> bool {
    (m: Movie) => MatchesSearch(m, search, lower)
  }

  /** `filteredMovies`: every movie for an empty search, otherwise the
      matching ones. */
  function Filtered(movies: seq<Movie>, search: string, lower: string -> string): seq<Movie> {
    if search != "" then Filter(movies, SearchTest(search, lower)) else movies
  }

  /** An empty search shows every movie; otherwise exactly the matching
      movies are kept, and filtering distributes over concatenation, so the
      kept movies stay in order. */
  lemma FilteredSpec(movies: seq<Movie>, search: string, lower: string -> string)
    ensures search == "" ==> Filtered(movies, search, lower) == movies
    ensures search != "" ==> forall m :: m in Filtered(movies, search, lower) <==> m in movies && MatchesSearch(m, search, lower)
  {
    if search != "" {
      forall m | m in movies && MatchesSearch(m, search, lower)
        ensures m in Filtered(movies, search, lower)
      {
        FilterKeeps(movies, SearchTest(search, lower), m);
      }
    }
  }

  lemma FilteredAppend(a: seq<Movie>, b: seq<Movie>, search: string, lower: string -> string)
    ensures Filtered(a + b, search, lower) == Filtered(a, search, lower) + Filtered(b, search, lower)
  {
    if search != "" {
      FilterAppend(a, b, SearchTest(search, lower));
    }
  }

  // ---------------------------------------------------------------------
  // Grouping

  /** Every display title has a first character. */
  predicate AllTitled(ms: seq<Movie>) {
    forall i :: 0 <= i < |ms| ==> DisplayTitle(ms[i]) != ""
  }

  /** `(title_pl || title)[0].toUpperCase()` */
  function Letter(m: Movie, upper: string -> string): string
    requires DisplayTitle(m) != ""
  {
    upper([DisplayTitle(m)[0]])
  }

  /** The letter of every movie, in order. */
  function LettersOf(ms: seq<Movie>, upper: string -> string): (r: seq<string>)
    requires AllTitled(ms)
    ensures |r| == |ms| && forall i :: 0 <= i < |ms| ==> r[i] == Letter(ms[i], upper)
  {
    seq(|ms|, i requires 0 <= i < |ms| => Letter(ms[i], upper))
  }

  /** The movies filed under `key`, in order. */
  function Bucket(ms: seq<Movie>, key: string, upper: string -> string): seq<Movie>
    requires AllTitled(ms)
  {
    if ms == [] then []
    else
      var last := ms[|ms| - 1];
      Bucket(ms[..|ms| - 1], key, upper) + (if Letter(last, upper) == key then [last] else [])
  }

  /** A movie is in a bucket exactly when it is among the movies and has
      that bucket's letter, so it is in exactly one. */
  lemma {:induction false} BucketMembers(ms: seq<Movie>, key: string, upper: string -> string, m: Movie)
    requires AllTitled(ms)
    ensures m in Bucket(ms, key, upper) <==> m in ms && Letter(m, upper) == key
  {
    if ms != [] {
      BucketMembers(ms[..|ms| - 1], key, upper, m);
      assert ms == ms[..|ms| - 1] + [ms[|ms| - 1]];
    }
  }

  /** The sum of the sizes of the buckets named by `keys`. */
  function BucketSizes(ms: seq<Movie>, keys: seq<string>, upper: string -> string): nat
    requires AllTitled(ms)
  {
    if keys == [] then 0
    else BucketSizes(ms, keys[..|keys| - 1], upper) + |Bucket(ms, keys[|keys| - 1], upper)|
  }

  /** One more movie adds one to the bucket sizes once per key naming its letter. */
  lemma {:induction false} BucketSizesSnoc(ms: seq<Movie>, m: Movie, keys: seq<string>, upper: string -> string)
    requires AllTitled(ms) && DisplayTitle(m) != "" && AllTitled(ms + [m])
    ensures BucketSizes(ms + [m], keys, upper) == BucketSizes(ms, keys, upper) + Occurrences(keys, Letter(m, upper))
  {
    assert (ms + [m])[..|ms|] == ms;
    assert forall i :: 0 <= i < |ms| ==> ms[i] == (ms + [m])[i];
    if keys != [] {
      var front := keys[..|keys| - 1];
      BucketSizesSnoc(ms, m, front, upper);
      assert keys == front + [keys[|keys| - 1]];
      OccurrencesAppend(front, [keys[|keys| - 1]], Letter(m, upper));
    }
  }

  lemma {:induction false} DistinctOccurrences(keys: seq<string>, x: string)
    requires Distinct(keys) && x in keys
    ensures Occurrences(keys, x) == 1
  {
    if keys[0] == x {
      assert x !in keys[1..];
      OccurrencesPositive(keys[1..], x);
    } else {
      DistinctOccurrences(keys[1..], x);
    }
  }

  /** With distinct keys naming every letter, the bucket sizes add up to
      the number of movies. */
  lemma {:induction false} BucketsPartition(ms: seq<Movie>, keys: seq<string>, upper: string -> string)
    requires AllTitled(ms) && Distinct(keys)
    requires forall i :: 0 <= i < |ms| ==> Letter(ms[i], upper) in keys
    ensures BucketSizes(ms, keys, upper) == |ms|
  {
    if ms == [] {
      BucketSizesEmpty(keys, upper);
    } else {
      var front := ms[..|ms| - 1];
      var m := ms[|ms| - 1];
      assert ms == front + [m];
      assert forall i :: 0 <= i < |front| ==> front[i] == ms[i];
      BucketsPartition(front, keys, upper);
      BucketSizesSnoc(front, m, keys, upper);
      DistinctOccurrences(keys, Letter(m, upper));
    }
  }

  lemma {:induction false} BucketSizesEmpty(keys: seq<string>, upper: string -> string)
    ensures BucketSizes([], keys, upper) == 0
  {
    if keys != [] {
      BucketSizesEmpty(keys[..|keys| - 1], upper);
    }
  }

  /** One more movie joins the end of its own bucket and no other. */
  lemma BucketSnoc(ms: seq<Movie>, m: Movie, key: string, upper: string -> string)
    requires AllTitled(ms) && DisplayTitle(m) != ""
    ensures AllTitled(ms + [m])
    ensures Bucket(ms + [m], key, upper) == Bucket(ms, key, upper) + (if Letter(m, upper) == key then [m] else [])
  {
    var all := ms + [m];
    assert forall i :: 0 <= i < |ms| ==> all[i] == ms[i];
    assert all[|ms|] == m;
    assert all[..|ms|] == ms;
  }

  /** The entry for a movie's letter after filing it. */
  function Filed(grouped: JsMap<string, seq<Movie>>, movie: Movie, upper: string -> string): seq<Movie>
    requires DisplayTitle(movie) != ""
  {
    var l := Letter(movie, upper);
    (if grouped.Has(l) then grouped.entries[l] else []) + [movie]
  }

  /** What the grouping loop keeps: the keys in order of first letter, and
      each entry the bucket of its letter. */
  ghost predicate GroupedAs(grouped: JsMap<string, seq<Movie>>, done: seq<Movie>, upper: string -> string)
    requires AllTitled(done)
  {
    && grouped.Valid()
    && grouped.keys == FirstOccurrences(LettersOf(done, upper))
    && (forall k :: k in grouped.entries ==> grouped.entries[k] == Bucket(done, k, upper))
    && (forall k :: k !in grouped.entries ==> Bucket(done, k, upper) == [])
  }

  /** Filing one more movie extends the key order. */
  lemma GroupKeysStep(grouped: JsMap<string, seq<Movie>>, done: seq<Movie>, movie: Movie, upper: string -> string)
    requires AllTitled(done) && DisplayTitle(movie) != ""
    requires grouped.Valid() && grouped.keys == FirstOccurrences(LettersOf(done, upper))
    ensures AllTitled(done + [movie])
    ensures grouped.Set(Letter(movie, upper), Filed(grouped, movie, upper)).keys
      == FirstOccurrences(LettersOf(done + [movie], upper))
  {
    var all := done + [movie];
    BucketSnoc(done, movie, "", upper);
    assert forall i :: 0 <= i < |done| ==> all[i] == done[i];
    assert all[|done|] == movie;
    var l := Letter(movie, upper);
    assert LettersOf(all, upper) == LettersOf(done, upper) + [l];
    FirstOccurrencesSnoc(LettersOf(done, upper), l);
    FirstOccurrencesMembers(LettersOf(done, upper), l);
  }

  /** Filing one more movie keeps every present entry equal to its bucket. */
  lemma GroupEntriesPresent(grouped: JsMap<string, seq<Movie>>, done: seq<Movie>, movie: Movie, upper: string -> string)
    requires AllTitled(done) && DisplayTitle(movie) != "" && GroupedAs(grouped, done, upper)
    ensures AllTitled(done + [movie])
    ensures var next := grouped.Set(Letter(movie, upper), Filed(grouped, movie, upper));
      forall k :: k in next.entries ==> next.entries[k] == Bucket(done + [movie], k, upper)
  {
    var l := Letter(movie, upper);
    var next := grouped.Set(l, Filed(grouped, movie, upper));
    BucketSnoc(done, movie, l, upper);
    forall k | k in next.entries ensures next.entries[k] == Bucket(done + [movie], k, upper) {
      BucketSnoc(done, movie, k, upper);
      if k == l {
        assert next.entries[k] == (if grouped.Has(l) then grouped.entries[l] else []) + [movie];
        assert (if grouped.Has(l) then grouped.entries[l] else []) == Bucket(done, l, upper);
      } else {
        assert next.entries[k] == grouped.entries[k] == Bucket(done, k, upper);
      }
    }
  }

  /** Filing one more movie leaves the bucket of every absent key empty. */
  lemma GroupEntriesAbsent(grouped: JsMap<string, seq<Movie>>, done: seq<Movie>, movie: Movie, upper: string -> string)
    requires AllTitled(done) && DisplayTitle(movie) != "" && GroupedAs(grouped, done, upper)
    ensures AllTitled(done + [movie])
    ensures var next := grouped.Set(Letter(movie, upper), Filed(grouped, movie, upper));
      forall k :: k !in next.entries ==> Bucket(done + [movie], k, upper) == []
  {
    var l := Letter(movie, upper);
    var next := grouped.Set(l, Filed(grouped, movie, upper));
    BucketSnoc(done, movie, l, upper);
    forall k | k !in next.entries ensures Bucket(done + [movie], k, upper) == [] {
      BucketSnoc(done, movie, k, upper);
      assert k != l && k !in grouped.entries;
    }
  }

  /** Filing one more movie keeps the map grouped. */
  lemma GroupStep(grouped: JsMap<string, seq<Movie>>, done: seq<Movie>, movie: Movie, upper: string -> string)
    requires AllTitled(done) && DisplayTitle(movie) != "" && GroupedAs(grouped, done, upper)
    ensures AllTitled(done + [movie])
    ensures GroupedAs(grouped.Set(Letter(movie, upper), Filed(grouped, movie, upper)), done + [movie], upper)
  {
    GroupKeysStep(grouped, done, movie, upper);
    GroupEntriesPresent(grouped, done, movie, upper);
    GroupEntriesAbsent(grouped, done, movie, upper);
  }

  /** `groupedMovies`, filled by the `forEach`. A movie with an empty display
      title has no first character, and the page fails on it: `None`. */
  method GroupByLetter(filtered: seq<Movie>, upper: string -> string)
    returns (groups: Option<JsMap<string, seq<Movie>>>)
    ensures groups.None? <==> !AllTitled(filtered)
    ensures groups.Some? ==>
      && groups.value.Valid()
      && groups.value.keys == FirstOccurrences(LettersOf(filtered, upper))
      && forall k :: k in groups.value.entries ==> groups.value.entries[k] == Bucket(filtered, k, upper)
  {
    var grouped: JsMap<string, seq<Movie>> := Empty();
    for i := 0 to |filtered|
      invariant AllTitled(filtered[..i])
      invariant GroupedAs(grouped, filtered[..i], upper)
    {
      var movie := filtered[i];
      if DisplayTitle(movie) == "" {
        assert !AllTitled(filtered);
        return None;
      }
      GroupStep(grouped, filtered[..i], movie, upper);
      var firstLetter := Letter(movie, upper);
      var bucket := if grouped.Has(firstLetter) then grouped.entries[firstLetter] else [];
      assert bucket + [movie] == Filed(grouped, movie, upper);
      grouped := grouped.Set(firstLetter, bucket + [movie]);
      assert filtered[..i + 1] == filtered[..i] + [movie];
    }
    assert filtered[..|filtered|] == filtered;
    groups := Some(grouped);
  }

  /** `letters`: `Object.keys(groupedMovies)` in collation order. The keys
      reach the sort in `Object.keys` order, not in insertion order. */
  function Letters(groups: JsMap<string, seq<Movie>>, rank: string -> real): seq<string> {
    StableSort(ObjectKeys(groups.keys), ByCollation(rank))
  }

  /** Each bucket key is listed exactly once, in collation order, and keys
      the collation ties keep their `Object.keys` order. */
  lemma LettersSpec(groups: JsMap<string, seq<Movie>>, rank: string -> real)
    requires groups.Valid()
    ensures var r := Letters(groups, rank);
      && Distinct(r)
      && (forall k :: k in r <==> k in groups.entries)
      && (forall i, j :: 0 <= i < j < |r| ==> rank(r[i]) <= rank(r[j]))
      && (forall k :: Tied(r, k, ByCollation(rank)) == Tied(ObjectKeys(groups.keys), k, ByCollation(rank)))
  {
    var keys := ObjectKeys(groups.keys);
    var r := Letters(groups, rank);
    assert Distinct(groups.keys);
    ObjectKeysSpec(groups.keys);
    StableSortDistinct(keys, ByCollation(rank));
    ByCollationIsStrictWeakOrder(rank);
    StableSortSorted(keys, ByCollation(rank));
    forall k ensures k in r <==> k in groups.entries {
      assert k in r <==> k in multiset(r);
      assert k in groups.keys <==> k in multiset(groups.keys);
    }
    forall k ensures Tied(r, k, ByCollation(rank)) == Tied(keys, k, ByCollation(rank)) {
      StableSortKeepsTies(keys, k, ByCollation(rank));
    }
  }
}
