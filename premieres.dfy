/** The premieres page (`src/app/premiery/page.tsx`): the fetched movies from
    2020 on, newest first, at most fifty. */
module Premieres {
  import opened Collections
  import opened Sorting
  import opened Movies

  /** `data.movies || []` */
  function Fetched(movies: Option<seq<Movie>>): seq<Movie> {
    if movies.Some? then movies.value else []
  }

  /** `m.year && m.year >= 2020` */
  predicate Recent(m: Movie) {
    m.year.Some? && m.year.value != 0 && m.year.value >= 2020
  }

  /** `m.year || 0` */
  function YearOrZero(m: Movie): int {
    if m.year.Some? then m.year.value else 0
  }

  /** `(a, b) => (b.year || 0) - (a.year || 0)`: a later year comes first. */
  predicate NewerFirst(a: Movie, b: Movie) {
    YearOrZero(a) > YearOrZero(b)
  }

  lemma NewerFirstIsStrictWeakOrder()
    ensures StrictWeakOrder(NewerFirst)
  {
  }

  const PremieresShown := 50

  /** The filter, sort and slice chain. */
  function Premieres(movies: Option<seq<Movie>>): seq<Movie> {
    SliceTo(StableSort(Filter(Fetched(movies), Recent), NewerFirst), PremieresShown)
  }

  /** The list is the first fifty recent movies after sorting, and every
      one of them has a year of at least 2020. No data gives no movies. */
  lemma PremieresContents(movies: Option<seq<Movie>>)
    ensures var eligible := Filter(Fetched(movies), Recent);
      var r := Premieres(movies);
      && |r| == Min(PremieresShown, |eligible|)
      && r == StableSort(eligible, NewerFirst)[..|r|]
      && (forall i :: 0 <= i < |r| ==> r[i].year.Some? && r[i].year.value >= 2020)
      && (movies.None? ==> r == [])
  {
    var eligible := Filter(Fetched(movies), Recent);
    var sorted := StableSort(eligible, NewerFirst);
    var r := Premieres(movies);
    forall i | 0 <= i < |r| ensures Recent(r[i]) {
      assert r[i] == sorted[i];
      assert sorted[i] in multiset(eligible);
    }
  }

  /** Years never increase along the sorted list, and movies of the same year
      keep their fetched order. */
  lemma PremieresOrder(movies: Option<seq<Movie>>)
    ensures var eligible := Filter(Fetched(movies), Recent);
      var sorted := StableSort(eligible, NewerFirst);
      && (forall i, j :: 0 <= i < j < |sorted| ==> YearOrZero(sorted[i]) >= YearOrZero(sorted[j]))
      && (forall k :: Tied(sorted, k, NewerFirst) == Tied(eligible, k, NewerFirst))
  {
    var eligible := Filter(Fetched(movies), Recent);
    NewerFirstIsStrictWeakOrder();
    StableSortSorted(eligible, NewerFirst);
    forall k ensures Tied(StableSort(eligible, NewerFirst), k, NewerFirst) == Tied(eligible, k, NewerFirst) {
      StableSortKeepsTies(eligible, k, NewerFirst);
    }
  }
}
