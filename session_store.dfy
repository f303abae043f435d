/** The user's session (`src/store/session-store.ts`): the quiz answers, the
    rejected ids, the watch-later list, the current recommendation and a
    recommendation counter. Only the watch-later list is persisted. */
module Session {
  import opened Collections
  import opened Movies

  /** No two entries share an id. */
  predicate UniqueIds(ms: seq<Movie>) {
    forall i, j :: 0 <= i < j < |ms| ==> ms[i].id != ms[j].id
  }

  /** The watch-later list after adding `m`: unchanged when an entry with the
      same id is present, `m` appended otherwise. */
  function WithMovie(ms: seq<Movie>, m: Movie): (r: seq<Movie>)
    ensures HasId(r, m.id)
    ensures HasId(ms, m.id) ==> r == ms
    ensures !HasId(ms, m.id) ==> r == ms + [m]
  {
    if HasId(ms, m.id) then ms
    else
      assert (ms + [m])[|ms|] == m;
      ms + [m]
  }

  /** Adding twice is adding once. */
  lemma WithMovieIdempotent(ms: seq<Movie>, m: Movie)
    ensures WithMovie(WithMovie(ms, m), m) == WithMovie(ms, m)
  {
  }

  /** Adding keeps the ids unique. */
  lemma WithMovieUnique(ms: seq<Movie>, m: Movie)
    requires UniqueIds(ms)
    ensures UniqueIds(WithMovie(ms, m))
  {
    if !HasId(ms, m.id) {
      var r := ms + [m];
      forall i, j | 0 <= i < j < |r| ensures r[i].id != r[j].id {
        if j == |ms| {
          assert r[i] == ms[i];
        }
      }
    }
  }

  /** `m => m.id !== id` */
  function OtherId(id: int): Movie -> bool {
    (m: Movie) => m.id != id
  }

  /** `ms.filter(m => m.id !== id)` */
  function WithoutId(ms: seq<Movie>, id: int): (r: seq<Movie>)
    ensures |r| <= |ms|
  {
    Filter(ms, OtherId(id))
  }

  /** Removal drops exactly the entries with that id. */
  lemma WithoutIdMembers(ms: seq<Movie>, id: int)
    ensures !HasId(WithoutId(ms, id), id)
    ensures forall x :: x in WithoutId(ms, id) <==> x in ms && x.id != id
  {
    forall x | x in ms && x.id != id ensures x in WithoutId(ms, id) {
      FilterKeeps(ms, OtherId(id), x);
    }
    var r := WithoutId(ms, id);
    forall i | 0 <= i < |r| ensures r[i].id != id {
      assert r[i] in r;
    }
  }

  /** Removal keeps the rest in order: it distributes over concatenation. */
  lemma WithoutIdAppend(a: seq<Movie>, b: seq<Movie>, id: int)
    ensures WithoutId(a + b, id) == WithoutId(a, id) + WithoutId(b, id)
  {
    FilterAppend(a, b, OtherId(id));
  }

  /** Removing an id that is absent changes nothing. */
  lemma WithoutAbsentId(ms: seq<Movie>, id: int)
    requires !HasId(ms, id)
    ensures WithoutId(ms, id) == ms
  {
    forall x | x in ms ensures OtherId(id)(x) {
      var k :| 0 <= k < |ms| && ms[k] == x;
    }
    FilterAll(ms, OtherId(id));
  }

  /** An entry whose id no later entry has keeps the ids unique. */
  lemma ConsUnique(m: Movie, ms: seq<Movie>)
    requires UniqueIds(ms) && forall x :: x in ms ==> x.id != m.id
    ensures UniqueIds([m] + ms)
  {
    var r := [m] + ms;
    forall i, j | 0 <= i < j < |r| ensures r[i].id != r[j].id {
      assert r[j] == ms[j - 1];
      if i > 0 {
        assert r[i] == ms[i - 1];
      }
    }
  }

  /** Removal keeps the ids unique. */
  lemma {:induction false} WithoutIdUnique(ms: seq<Movie>, id: int)
    requires UniqueIds(ms)
    ensures UniqueIds(WithoutId(ms, id))
  {
    if ms != [] {
      var rest := ms[1..];
      assert UniqueIds(rest) by {
        forall i, j | 0 <= i < j < |rest| ensures rest[i].id != rest[j].id {
          assert rest[i] == ms[i + 1] && rest[j] == ms[j + 1];
        }
      }
      WithoutIdUnique(rest, id);
      var tail := WithoutId(rest, id);
      if ms[0].id != id {
        WithoutIdMembers(rest, id);
        forall x | x in tail ensures x.id != ms[0].id {
          var k :| 0 <= k < |rest| && rest[k] == x;
          assert ms[k + 1] == x;
        }
        ConsUnique(ms[0], tail);
        assert WithoutId(ms, id) == [ms[0]] + tail;
      } else {
        assert WithoutId(ms, id) == [] + tail;
      }
    }
  }

  /** What `partialize` writes to storage. */
  datatype Persisted = Persisted(watchLater: seq<Movie>)

  class SessionStore {
    var quizAnswers: Option<QuizAnswers>
    var rejectedMovies: seq<int>
    var watchLater: seq<Movie>
    var currentRecommendation: Option<Movie>
    var recommendationCount: int

    /** The store's invariant: the watch-later list never holds an id twice. */
    ghost predicate Valid()
      reads this
    {
      UniqueIds(watchLater)
    }

    constructor ()
      ensures Valid()
      ensures quizAnswers.None? && rejectedMovies == [] && watchLater == []
      ensures currentRecommendation.None? && recommendationCount == 0
    {
      quizAnswers := None;
      rejectedMovies := [];
      watchLater := [];
      currentRecommendation := None;
      recommendationCount := 0;
    }

    /** A store rehydrated from storage: the persisted list, the rest initial. */
    constructor Restore(p: Persisted)
      requires UniqueIds(p.watchLater)
      ensures Valid()
      ensures quizAnswers.None? && rejectedMovies == [] && watchLater == p.watchLater
      ensures currentRecommendation.None? && recommendationCount == 0
    {
      quizAnswers := None;
      rejectedMovies := [];
      watchLater := p.watchLater;
      currentRecommendation := None;
      recommendationCount := 0;
    }

    /** `partialize`: only the watch-later list is persisted. */
    function Partialize(): (p: Persisted)
      reads this
      ensures p.watchLater == watchLater
    {
      Persisted(watchLater)
    }

    method SetQuizAnswers(answers: QuizAnswers)
      requires Valid()
      modifies this
      ensures Valid()
      ensures quizAnswers == Some(answers)
      ensures rejectedMovies == old(rejectedMovies) && watchLater == old(watchLater)
      ensures currentRecommendation == old(currentRecommendation)
      ensures recommendationCount == old(recommendationCount)
    {
      quizAnswers := Some(answers);
    }

    /** The id is appended, duplicates allowed, and the counter goes up by one. */
    method RejectMovie(movieId: int)
      requires Valid()
      modifies this
      ensures Valid()
      ensures rejectedMovies == old(rejectedMovies) + [movieId]
      ensures recommendationCount == old(recommendationCount) + 1
      ensures quizAnswers == old(quizAnswers) && watchLater == old(watchLater)
      ensures currentRecommendation == old(currentRecommendation)
    {
      rejectedMovies := rejectedMovies + [movieId];
      recommendationCount := recommendationCount + 1;
    }

    method AddToWatchLater(movie: Movie)
      requires Valid()
      modifies this
      ensures Valid()
      ensures watchLater == WithMovie(old(watchLater), movie)
      ensures quizAnswers == old(quizAnswers) && rejectedMovies == old(rejectedMovies)
      ensures currentRecommendation == old(currentRecommendation)
      ensures recommendationCount == old(recommendationCount)
    {
      WithMovieUnique(watchLater, movie);
      if HasId(watchLater, movie.id) {
        return;
      }
      watchLater := watchLater + [movie];
    }

    method RemoveFromWatchLater(movieId: int)
      requires Valid()
      modifies this
      ensures Valid()
      ensures watchLater == WithoutId(old(watchLater), movieId)
      ensures quizAnswers == old(quizAnswers) && rejectedMovies == old(rejectedMovies)
      ensures currentRecommendation == old(currentRecommendation)
      ensures recommendationCount == old(recommendationCount)
    {
      WithoutIdUnique(watchLater, movieId);
      watchLater := WithoutId(watchLater, movieId);
    }

    method SetCurrentRecommendation(movie: Option<Movie>)
      requires Valid()
      modifies this
      ensures Valid()
      ensures currentRecommendation == movie
      ensures quizAnswers == old(quizAnswers) && rejectedMovies == old(rejectedMovies)
      ensures watchLater == old(watchLater) && recommendationCount == old(recommendationCount)
    {
      currentRecommendation := movie;
    }

    method IncrementRecommendationCount()
      requires Valid()
      modifies this
      ensures Valid()
      ensures recommendationCount == old(recommendationCount) + 1
      ensures quizAnswers == old(quizAnswers) && rejectedMovies == old(rejectedMovies)
      ensures watchLater == old(watchLater) && currentRecommendation == old(currentRecommendation)
    {
      recommendationCount := recommendationCount + 1;
    }

    /** Everything returns to its initial value except the watch-later list. */
    method ResetSession()
      requires Valid()
      modifies this
      ensures Valid()
      ensures quizAnswers.None? && rejectedMovies == [] && currentRecommendation.None?
      ensures recommendationCount == 0
      ensures watchLater == old(watchLater)
    {
      quizAnswers := None;
      rejectedMovies := [];
      currentRecommendation := None;
      recommendationCount := 0;
    }
  }
}
