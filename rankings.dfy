/** The rankings page (`src/app/rankingi/page.tsx`): the fetched movies by
    rating, best first, at most a hundred. */
module Rankings {
  import opened Collections
  import opened Sorting
  import opened Movies
  import Premieres

  /** `(a, b) => b.rating - a.rating`: a higher rating comes first. */
  predicate HigherRated(a: Movie, b: Movie) {
    a.rating > b.rating
  }

  lemma HigherRatedIsStrictWeakOrder()
    ensures StrictWeakOrder(HigherRated)
  {
  }

  const RankingShown := 100

  /** The sort and slice chain. */
  function Ranking(movies: Option<seq<Movie>>): seq<Movie> {
    SliceTo(StableSort(Premieres.Fetched(movies), HigherRated), RankingShown)
  }

  /** The list has `min(100, n)` of the fetched movies, and no data gives no
      movies. */
  lemma RankingContents(movies: Option<seq<Movie>>)
    ensures var fetched := Premieres.Fetched(movies);
      var r := Ranking(movies);
      && |r| == Min(RankingShown, |fetched|)
      && r == StableSort(fetched, HigherRated)[..|r|]
      && multiset(r) <= multiset(fetched)
      && (movies.None? ==> r == [])
  {
    var sorted := StableSort(Premieres.Fetched(movies), HigherRated);
    var r := Ranking(movies);
    assert sorted == r + sorted[|r|..];
    assert multiset(sorted) == multiset(r) + multiset(sorted[|r|..]);
  }

  /** Ratings never increase along the sorted list, so no movie left out is
      rated higher than a listed one, and equal ratings keep fetched order. */
  lemma RankingOrder(movies: Option<seq<Movie>>)
    ensures var fetched := Premieres.Fetched(movies);
      var sorted := StableSort(fetched, HigherRated);
      && (forall i, j :: 0 <= i < j < |sorted| ==> sorted[i].rating >= sorted[j].rating)
      && (forall k :: Tied(sorted, k, HigherRated) == Tied(fetched, k, HigherRated))
  {
    var fetched := Premieres.Fetched(movies);
    HigherRatedIsStrictWeakOrder();
    StableSortSorted(fetched, HigherRated);
    forall k ensures Tied(StableSort(fetched, HigherRated), k, HigherRated) == Tied(fetched, k, HigherRated) {
      StableSortKeepsTies(fetched, k, HigherRated);
    }
  }

  /** A fetched movie that did not make the list is rated no higher than any
      listed movie. */
  lemma RankingCutOff(movies: Option<seq<Movie>>, m: Movie)
    requires m in Premieres.Fetched(movies) && m !in Ranking(movies)
    ensures forall x :: x in Ranking(movies) ==> m.rating <= x.rating
  {
    var fetched := Premieres.Fetched(movies);
    var sorted := StableSort(fetched, HigherRated);
    var r := Ranking(movies);
    assert r == sorted[..|r|];
    assert m in multiset(sorted);
    HigherRatedIsStrictWeakOrder();
    StableSortSorted(fetched, HigherRated);
    SortedCutOff(sorted, HigherRated, |r|, m);
  }
}
