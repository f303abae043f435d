/** The main page (`src/app/page.tsx`): a welcome screen, the quiz, then a
    cursor over a batch of recommended movies that the user accepts into
    the watch-later list or rejects. */
module HomePage {
  import opened Collections
  import opened Movies
  import opened Session

  datatype AppState = Welcome | QuizScreen | RecommendationScreen

  /** The body posted to the recommendation endpoint. */
  datatype Request = Request(answers: Option<QuizAnswers>, excludeIds: seq<int>, count: int)

  /** How the request ended:
      - `Ok`: a successful response, whose `movies` and `reasons` fields may be missing;
      - `NotOk`: an error response, whose `error` field may be missing or empty;
      - `Thrown`: the request itself failed, with an `Error`'s message, or
        with something that is not an `Error` (`None`). */
  datatype FetchOutcome =
    | Ok(movies: Option<seq<Movie>>, reasons: Option<seq<string>>)
    | NotOk(error: Option<string>)
    | Thrown(message: Option<string>)

  const DefaultApiError := "Nie udało się znaleźć filmów"
  const DefaultError := "Wystąpił błąd"

  /** The message shown for a failed request. */
  function ErrorMessage(outcome: FetchOutcome): (m: string)
    requires !outcome.Ok?
    ensures outcome.NotOk? && outcome.error.Some? && outcome.error.value != "" ==> m == outcome.error.value
    ensures outcome.NotOk? && (outcome.error.None? || outcome.error.value == "") ==> m == DefaultApiError
    ensures outcome.Thrown? && outcome.message.Some? ==> m == outcome.message.value
    ensures outcome == Thrown(None) ==> m == DefaultError
  {
    match outcome
    case NotOk(e) => if e.Some? && e.value != "" then e.value else DefaultApiError
    case Thrown(msg) => if msg.Some? then msg.value else DefaultError
  }

  class Home {
    var appState: AppState
    var recommendedMovies: seq<Movie>
    var currentMovieIndex: nat
    var reasons: seq<string>
    var isLoading: bool
    var error: Option<string>
    const store: SessionStore

    ghost predicate Valid()
      reads this, store
    {
      store.Valid()
    }

    constructor (store: SessionStore)
      requires store.Valid()
      ensures Valid() && this.store == store
      ensures appState == Welcome && recommendedMovies == [] && currentMovieIndex == 0
      ensures reasons == [] && !isLoading && error.None?
    {
      this.store := store;
      appState := Welcome;
      recommendedMovies := [];
      currentMovieIndex := 0;
      reasons := [];
      isLoading := false;
      error := None;
    }

    /** `recommendedMovies[currentMovieIndex] || null` */
    function CurrentMovie(): (m: Option<Movie>)
      reads this
      ensures m.Some? <==> currentMovieIndex < |recommendedMovies|
      ensures m.Some? ==> m.value == recommendedMovies[currentMovieIndex]
    {
      if currentMovieIndex < |recommendedMovies| then Some(recommendedMovies[currentMovieIndex]) else None
    }

    /** `currentMovieIndex < recommendedMovies.length - 1` */
    predicate HasMoreMovies()
      reads this
    {
      currentMovieIndex < |recommendedMovies| - 1
    }

    /** `fetch10Movies`: ask for ten movies, excluding the rejected ones, and
        store the outcome. Returns the request it sends. */
    method Fetch10Movies(answersToUse: Option<QuizAnswers>, outcome: FetchOutcome) returns (request: Request)
      requires Valid()
      modifies this
      ensures Valid()
      ensures request.answers == (if answersToUse.Some? then answersToUse else store.quizAnswers)
      ensures request.excludeIds == store.rejectedMovies && request.count == 10
      ensures !isLoading
      ensures outcome.Ok? ==>
        && recommendedMovies == (if outcome.movies.Some? then outcome.movies.value else [])
        && reasons == (if outcome.reasons.Some? then outcome.reasons.value else [])
        && currentMovieIndex == 0 && appState == RecommendationScreen && error.None?
      ensures !outcome.Ok? ==>
        && error == Some(ErrorMessage(outcome))
        && recommendedMovies == old(recommendedMovies) && reasons == old(reasons)
        && currentMovieIndex == old(currentMovieIndex) && appState == old(appState)
    {
      var finalAnswers := if answersToUse.Some? then answersToUse else store.quizAnswers;
      isLoading := true;
      error := None;
      request := Request(finalAnswers, store.rejectedMovies, 10);
      match outcome {
        case Ok(movies, rs) =>
          recommendedMovies := if movies.Some? then movies.value else [];
          currentMovieIndex := 0;
          reasons := if rs.Some? then rs.value else [];
          appState := RecommendationScreen;
        case NotOk(_) =>
          error := Some(ErrorMessage(outcome));
        case Thrown(_) =>
          error := Some(ErrorMessage(outcome));
      }
      isLoading := false;
    }

    /** `handleQuizComplete`: store the answers, show the recommendation
        screen and fetch with these answers. */
    method HandleQuizComplete(answers: QuizAnswers, outcome: FetchOutcome) returns (request: Request)
      requires Valid()
      modifies this, store
      ensures Valid()
      ensures store.quizAnswers == Some(answers) && request == Request(Some(answers), store.rejectedMovies, 10)
      ensures store.rejectedMovies == old(store.rejectedMovies) && store.watchLater == old(store.watchLater)
      ensures appState == RecommendationScreen && !isLoading
      ensures store.recommendationCount == old(store.recommendationCount)
      ensures store.currentRecommendation == old(store.currentRecommendation)
      ensures outcome.Ok? ==>
        && recommendedMovies == (if outcome.movies.Some? then outcome.movies.value else [])
        && reasons == (if outcome.reasons.Some? then outcome.reasons.value else [])
        && currentMovieIndex == 0 && error.None?
      ensures !outcome.Ok? ==>
        && error == Some(ErrorMessage(outcome)) && recommendedMovies == old(recommendedMovies)
        && reasons == old(reasons) && currentMovieIndex == old(currentMovieIndex)
    {
      store.SetQuizAnswers(answers);
      appState := RecommendationScreen;
      request := Fetch10Movies(Some(answers), outcome);
    }

    /** `handleReject`: record the current movie as rejected, then move to
        the next one, or, after the last one, start over. */
    method HandleReject()
      requires Valid()
      modifies this, store
      ensures Valid()
      ensures old(CurrentMovie()).None? ==>
        && appState == old(appState) && recommendedMovies == old(recommendedMovies)
        && currentMovieIndex == old(currentMovieIndex)
        && store.rejectedMovies == old(store.rejectedMovies)
        && store.recommendationCount == old(store.recommendationCount)
        && store.quizAnswers == old(store.quizAnswers)
      ensures old(CurrentMovie()).Some? && old(HasMoreMovies()) ==>
        && currentMovieIndex == old(currentMovieIndex) + 1 && appState == old(appState)
        && recommendedMovies == old(recommendedMovies)
        && store.rejectedMovies == old(store.rejectedMovies) + [old(CurrentMovie()).value.id]
        && store.recommendationCount == old(store.recommendationCount) + 1
        && store.quizAnswers == old(store.quizAnswers)
      ensures old(CurrentMovie()).Some? && !old(HasMoreMovies()) ==>
        && appState == Welcome && recommendedMovies == [] && currentMovieIndex == old(currentMovieIndex)
        && store.rejectedMovies == [] && store.recommendationCount == 0 && store.quizAnswers.None?
      ensures old(CurrentMovie()).None? || old(HasMoreMovies()) ==>
        store.currentRecommendation == old(store.currentRecommendation)
      ensures old(CurrentMovie()).Some? && !old(HasMoreMovies()) ==> store.currentRecommendation.None?
      ensures store.watchLater == old(store.watchLater)
      ensures reasons == old(reasons) && error == old(error) && isLoading == old(isLoading)
    {
      var current := CurrentMovie();
      var hasMore := HasMoreMovies();
      if current.None? {
        return;
      }
      store.RejectMovie(current.value.id);
      if hasMore {
        currentMovieIndex := currentMovieIndex + 1;
      } else {
        appState := Welcome;
        store.ResetSession();
        recommendedMovies := [];
      }
    }

    /** `handleAccept`: add the current movie to watch-later, then move to
        the next one, or, after the last one, start over (keeping the list). */
    method HandleAccept()
      requires Valid()
      modifies this, store
      ensures Valid()
      ensures old(CurrentMovie()).None? ==>
        && appState == old(appState) && recommendedMovies == old(recommendedMovies)
        && currentMovieIndex == old(currentMovieIndex) && store.watchLater == old(store.watchLater)
        && store.rejectedMovies == old(store.rejectedMovies)
        && store.recommendationCount == old(store.recommendationCount)
        && store.quizAnswers == old(store.quizAnswers)
      ensures old(CurrentMovie()).Some? ==>
        store.watchLater == WithMovie(old(store.watchLater), old(CurrentMovie()).value)
      ensures old(CurrentMovie()).Some? && old(HasMoreMovies()) ==>
        && currentMovieIndex == old(currentMovieIndex) + 1 && appState == old(appState)
        && recommendedMovies == old(recommendedMovies)
        && store.rejectedMovies == old(store.rejectedMovies)
        && store.recommendationCount == old(store.recommendationCount)
        && store.quizAnswers == old(store.quizAnswers)
      ensures old(CurrentMovie()).Some? && !old(HasMoreMovies()) ==>
        && appState == Welcome && recommendedMovies == [] && currentMovieIndex == old(currentMovieIndex)
        && store.rejectedMovies == [] && store.recommendationCount == 0 && store.quizAnswers.None?
      ensures old(CurrentMovie()).None? || old(HasMoreMovies()) ==>
        store.currentRecommendation == old(store.currentRecommendation)
      ensures old(CurrentMovie()).Some? && !old(HasMoreMovies()) ==> store.currentRecommendation.None?
      ensures reasons == old(reasons) && error == old(error) && isLoading == old(isLoading)
    {
      var current := CurrentMovie();
      var hasMore := HasMoreMovies();
      if current.None? {
        return;
      }
      store.AddToWatchLater(current.value);
      if hasMore {
        currentMovieIndex := currentMovieIndex + 1;
      } else {
        appState := Welcome;
        store.ResetSession();
        recommendedMovies := [];
      }
    }

    /** `handleStartOver` */
    method HandleStartOver()
      requires Valid()
      modifies this, store
      ensures Valid()
      ensures appState == Welcome && recommendedMovies == [] && currentMovieIndex == 0
      ensures store.rejectedMovies == [] && store.recommendationCount == 0 && store.quizAnswers.None?
      ensures store.currentRecommendation.None? && store.watchLater == old(store.watchLater)
      ensures reasons == old(reasons) && error == old(error) && isLoading == old(isLoading)
    {
      appState := Welcome;
      store.ResetSession();
      recommendedMovies := [];
      currentMovieIndex := 0;
    }
  }
}
