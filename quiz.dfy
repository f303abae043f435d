/** The five-question preference quiz (`src/components/Quiz/Quiz.tsx`): the
    current step, the answers given so far, and the completed answers handed
    to the caller. */
module Quiz {
  import opened Collections
  import opened Movies
  import opened QuizQuestion

  datatype QuestionId = GenresQ | EraQ | RatingQ | PopularityQ | OriginQ

  datatype Question = Question(id: QuestionId, kind: QuestionType)

  /** `QUIZ_QUESTIONS`, without the texts, labels and icons. */
  const Questions: seq<Question> := [
    Question(GenresQ, MultipleChoice),
    Question(EraQ, Buttons),
    Question(RatingQ, Buttons),
    Question(PopularityQ, Buttons),
    Question(OriginQ, Buttons)
  ]

  const LastStep: nat := |Questions| - 1

  /** The `Partial<QuizAnswers>` being filled in: an absent field is `Undefined`. */
  datatype Draft = Draft(
    genres: AnswerValue,
    era: AnswerValue,
    rating: AnswerValue,
    popularity: AnswerValue,
    origin: AnswerValue)

  const InitialDraft := Draft(List([]), Undefined, Undefined, Undefined, Undefined)

  function Field(d: Draft, id: QuestionId): AnswerValue {
    match id
    case GenresQ => d.genres
    case EraQ => d.era
    case RatingQ => d.rating
    case PopularityQ => d.popularity
    case OriginQ => d.origin
  }

  /** `{ ...answers, [id]: value }` */
  function WithField(d: Draft, id: QuestionId, v: AnswerValue): (r: Draft)
    ensures Field(r, id) == v
    ensures forall other :: other != id ==> Field(r, other) == Field(d, other)
  {
    match id
    case GenresQ => d.(genres := v)
    case EraQ => d.(era := v)
    case RatingQ => d.(rating := v)
    case PopularityQ => d.(popularity := v)
    case OriginQ => d.(origin := v)
  }

  /** `value || 'any'` for a scalar answer. An array stands for a truthy value
      of the wrong shape, which the quiz never stores in a scalar field. */
  function OrAny(v: AnswerValue): (r: string)
    ensures r != ""
    ensures v.Str? && v.s != "" ==> r == v.s
    ensures !v.Str? || v.s == "" ==> r == AnyOption
  {
    if v.Str? && v.s != "" then v.s else AnyOption
  }

  /** The completed answers: every field is filled in, an empty or
      non-array genre value becomes `["any"]`, and a falsy scalar `"any"`. */
  function Complete(d: Draft): (a: QuizAnswers)
    ensures |a.genres| >= 1
    ensures a.era != "" && a.rating != "" && a.popularity != "" && a.origin != ""
    ensures d.genres.List? && |d.genres.items| > 0 ==> a.genres == d.genres.items
    ensures !(d.genres.List? && |d.genres.items| > 0) ==> a.genres == [AnyOption]
  {
    var genresValue := if d.genres.List? then d.genres.items else [];
    QuizAnswers(
      if |genresValue| == 0 then [AnyOption] else genresValue,
      OrAny(d.era), OrAny(d.rating), OrAny(d.popularity), OrAny(d.origin))
  }

  /** Completing a draft whose every answer was given keeps every answer. */
  lemma CompleteKeepsAnswers(d: Draft)
    requires d.genres.List? && |d.genres.items| > 0
    requires d.era.Str? && d.era.s != "" && d.rating.Str? && d.rating.s != ""
    requires d.popularity.Str? && d.popularity.s != "" && d.origin.Str? && d.origin.s != ""
    ensures Complete(d) == QuizAnswers(d.genres.items, d.era.s, d.rating.s, d.popularity.s, d.origin.s)
  {
  }

  /** `canProceed`: the current answer is present and, for a list, non-empty. */
  predicate Answered(v: AnswerValue) {
    match v
    case Undefined => false
    case Str(s) => s != ""
    case List(items) => |items| > 0
  }

  /** A click on an option always leaves the question answered, except a
      click that deselects the last selected option. */
  lemma ClickAnswers(kind: QuestionType, value: AnswerValue, option: string)
    requires option != "" && (kind != MultipleChoice || option == AnyOption || !IsSelected(value, option))
    ensures Answered(OptionClick(kind, value, option))
  {
  }

  /** A `setTimeout(..., 300)` callback scheduled by an answer click, with
      what its closure captured at the click: the step it moves to (the step
      of the click plus one), or the completed answers it hands over. */
  datatype Timer = Advance(step: nat) | Finish(result: QuizAnswers)

  class QuizFlow {
    var currentStep: nat
    var answers: Draft
    /** The scheduled callbacks that have not fired yet, oldest first. */
    var pending: seq<Timer>

    /** The step always names one of the five questions, scalar answers are
        never lists, and every scheduled step names a question too. */
    ghost predicate Valid()
      reads this
    {
      && currentStep <= LastStep
      && !answers.era.List? && !answers.rating.List? && !answers.popularity.List? && !answers.origin.List?
      && forall i :: 0 <= i < |pending| && pending[i].Advance? ==> pending[i].step <= LastStep
    }

    constructor ()
      ensures Valid() && currentStep == 0 && answers == InitialDraft && pending == []
    {
      currentStep := 0;
      answers := InitialDraft;
      pending := [];
    }

    function CurrentQuestion(): Question
      reads this
      requires Valid()
    {
      Questions[currentStep]
    }

    /** `isLastQuestion` */
    predicate IsLastQuestion()
      reads this
    {
      currentStep == |Questions| - 1
    }

    predicate CanProceed()
      reads this
      requires Valid()
    {
      Answered(Field(answers, CurrentQuestion().id))
    }

    /** `handleAnswer`: store the value under the current question. A button
        or single-choice answer then schedules the move: a callback that will
        complete the quiz with these answers if this is the last question,
        and otherwise set the step to this step plus one. Nothing moves until
        the callback fires. A multiple-choice answer waits for "next". The
        value is what the question component emits: a list exactly for a
        multiple-choice question. */
    method HandleAnswer(value: AnswerValue)
      requires Valid()
      requires value != Undefined && (value.List? <==> CurrentQuestion().kind == MultipleChoice)
      modifies this
      ensures Valid()
      ensures answers == WithField(old(answers), Questions[old(currentStep)].id, value)
      ensures currentStep == old(currentStep)
      ensures pending == old(pending) +
        if Questions[old(currentStep)].kind == MultipleChoice then []
        else if old(currentStep) == LastStep then [Finish(Complete(answers))]
        else [Advance(old(currentStep) + 1)]
    {
      var question := Questions[currentStep];
      var newAnswers := WithField(answers, question.id, value);
      answers := newAnswers;
      if question.kind == Buttons || question.kind == SingleChoice {
        if currentStep == |Questions| - 1 {
          pending := pending + [Finish(Complete(newAnswers))];
        } else {
          pending := pending + [Advance(currentStep + 1)];
        }
      }
    }

    /** The 300 ms elapse for the oldest scheduled callback (callbacks with
        the same delay fire in the order they were scheduled): it sets the
        step it captured, whatever the step is now, or hands over the
        answers it captured. */
    method FireTimer() returns (completed: Option<QuizAnswers>)
      requires Valid() && |pending| > 0
      modifies this
      ensures Valid() && answers == old(answers) && pending == old(pending)[1..]
      ensures old(pending)[0].Advance? ==> currentStep == old(pending)[0].step && completed.None?
      ensures old(pending)[0].Finish? ==> currentStep == old(currentStep) && completed == Some(old(pending)[0].result)
    {
      var timer := pending[0];
      pending := pending[1..];
      completed := None;
      match timer
      case Advance(step) =>
        currentStep := step;
      case Finish(result) =>
        completed := Some(result);
    }

    /** `handleNext`: move on, or complete the quiz on the last question. */
    method HandleNext() returns (completed: Option<QuizAnswers>)
      requires Valid()
      modifies this
      ensures Valid() && answers == old(answers) && pending == old(pending)
      ensures old(currentStep) < LastStep ==> currentStep == old(currentStep) + 1 && completed.None?
      ensures old(currentStep) == LastStep ==> currentStep == old(currentStep) && completed == Some(Complete(answers))
    {
      completed := None;
      if currentStep == |Questions| - 1 {
        completed := Some(Complete(answers));
      } else {
        currentStep := currentStep + 1;
      }
    }

    /** `handleBack`: step back, never below the first question. */
    method HandleBack()
      requires Valid()
      modifies this
      ensures Valid() && answers == old(answers) && pending == old(pending)
      ensures currentStep == if old(currentStep) > 0 then old(currentStep) - 1 else 0
    {
      if currentStep > 0 {
        currentStep := currentStep - 1;
      }
    }
  }

  /** The quiz has five questions, so the last one is at step 4. */
  lemma LastStepIsFour()
    ensures LastStep == 4 && Questions[LastStep].id == OriginQ
  {
  }

  /** The only path a user has past the first question: a genre is chosen,
      which enables "next", the one question where it is shown. */
  method PassGenres(quiz: QuizFlow)
    requires quiz.Valid() && quiz.currentStep == 0 && quiz.pending == []
    modifies quiz
    ensures quiz.Valid() && quiz.currentStep == 1 && quiz.pending == []
  {
    quiz.HandleAnswer(List(["Dramat"]));
    assert quiz.CurrentQuestion().kind == MultipleChoice && quiz.CanProceed();
    var c := quiz.HandleNext();
  }

  /** Two clicks on a button question within 300 ms schedule two callbacks
      that both set the step the first click saw plus one: the quiz moves on
      by one question, not two. */
  method QuickDoubleClick(first: string, second: string) returns (step: nat)
    ensures step == 2
  {
    var quiz := new QuizFlow();
    PassGenres(quiz);
    quiz.HandleAnswer(Str(first));
    quiz.HandleAnswer(Str(second));
    var c := quiz.FireTimer();
    c := quiz.FireTimer();
    step := quiz.currentStep;
  }

  /** "Back" within 300 ms of a button answer is undone: the callback still
      sets the step the click saw plus one. */
  method BackOverridden(era: string, choice: string) returns (step: nat)
    ensures step == 3
  {
    var quiz := new QuizFlow();
    PassGenres(quiz);
    quiz.HandleAnswer(Str(era));
    var c := quiz.FireTimer();
    assert quiz.currentStep == 2;
    quiz.HandleAnswer(Str(choice));
    quiz.HandleBack();
    assert quiz.currentStep == 1;
    c := quiz.FireTimer();
    step := quiz.currentStep;
  }

  /** Two clicks on the last question within 300 ms complete the quiz twice,
      each time with the answers of its own click. */
  method DoubleCompletion(era: string, rating: string, popularity: string, first: string, second: string)
    returns (one: Option<QuizAnswers>, two: Option<QuizAnswers>)
    ensures one.Some? && two.Some?
    ensures one.value.origin == OrAny(Str(first)) && two.value.origin == OrAny(Str(second))
  {
    var quiz := new QuizFlow();
    PassGenres(quiz);
    quiz.HandleAnswer(Str(era));
    var c := quiz.FireTimer();
    quiz.HandleAnswer(Str(rating));
    c := quiz.FireTimer();
    quiz.HandleAnswer(Str(popularity));
    c := quiz.FireTimer();
    assert quiz.currentStep == LastStep;
    quiz.HandleAnswer(Str(first));
    quiz.HandleAnswer(Str(second));
    one := quiz.FireTimer();
    two := quiz.FireTimer();
  }
}
