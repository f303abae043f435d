/** One quiz question's option handling (`src/components/Quiz/QuizQuestion.tsx`):
    which options show as selected, and the value a click emits. */
module QuizQuestion {
  import opened Collections

  /** A question's current value: absent, a single option, or a list of options. */
  datatype AnswerValue = Undefined | Str(s: string) | List(items: seq<string>)

  datatype QuestionType = SingleChoice | MultipleChoice | Buttons

  /** The option that clears every other one in a multiple-choice question. */
  const AnyOption := "any"

  /** `v => v !== x` */
  function Other(x: string): string -> bool {
    v => v != x
  }

  /** `s.filter(v => v !== x)` */
  function Without(s: seq<string>, x: string): (r: seq<string>)
    ensures |r| <= |s|
  {
    Filter(s, Other(x))
  }

  /** Filtering drops exactly the copies of `x`. */
  lemma WithoutMembers(s: seq<string>, x: string)
    ensures forall v :: v in Without(s, x) <==> v in s && v != x
  {
    forall v | v in s && v != x ensures v in Without(s, x) {
      FilterKeeps(s, Other(x), v);
    }
  }

  /** Filtering out a value that is absent changes nothing. */
  lemma WithoutAbsent(s: seq<string>, x: string)
    requires x !in s
    ensures Without(s, x) == s
  {
    FilterAll(s, Other(x));
  }

  /** Filtering distributes over concatenation, so the kept values stay in order. */
  lemma WithoutAppend(a: seq<string>, b: seq<string>, x: string)
    ensures Without(a + b, x) == Without(a, x) + Without(b, x)
  {
    FilterAppend(a, b, Other(x));
  }

  /** `selectedValues`: an array as it is, a non-empty string as a one-element
      list, and anything else as the empty list. */
  function SelectedValues(value: AnswerValue): (r: seq<string>)
    ensures value.List? ==> r == value.items
    ensures !value.List? ==> |r| <= 1 && (|r| == 1 <==> value.Str? && value.s != "")
  {
    match value
    case List(items) => items
    case Str(s) => if s != "" then [s] else []
    case Undefined => []
  }

  /** `isSelected` */
  predicate IsSelected(value: AnswerValue, option: string) {
    option in SelectedValues(value)
  }

  /** An option shows as selected exactly when it is in the list, or is the
      single non-empty value. */
  lemma IsSelectedMeaning(value: AnswerValue, option: string)
    ensures IsSelected(value, option) <==>
      (value.List? && option in value.items) || (value.Str? && value.s == option && option != "")
  {
  }

  /** `handleOptionClick`: the value emitted for a click on `option`. In a
      multiple-choice question a non-list current value counts as empty. */
  function OptionClick(kind: QuestionType, value: AnswerValue, option: string): (r: AnswerValue)
    ensures kind != MultipleChoice ==> r == Str(option)
    ensures kind == MultipleChoice ==> r.List?
    ensures kind == MultipleChoice && option == AnyOption ==> r == List([AnyOption])
    ensures kind == MultipleChoice && option != AnyOption ==> AnyOption !in r.items
  {
    if kind == MultipleChoice then
      var current := if value.List? then value.items else [];
      if option == AnyOption then List([AnyOption])
      else
        var withoutAny := Without(current, AnyOption);
        WithoutMembers(current, AnyOption);
        if option in current then
          var newValues := Without(withoutAny, option);
          WithoutMembers(withoutAny, option);
          List(if |newValues| > 0 then newValues else [])
        else
          List(withoutAny + [option])
    else
      Str(option)
  }

  /** A click on a selected option removes every copy of it (and any "any"),
      keeping the others in order; a click on an unselected one appends it. */
  lemma OptionClickToggles(value: AnswerValue, option: string)
    requires option != AnyOption
    ensures var current := if value.List? then value.items else [];
      var r := OptionClick(MultipleChoice, value, option);
      && (option in current ==> r.items == Without(Without(current, AnyOption), option) && option !in r.items)
      && (option !in current ==> r.items == Without(current, AnyOption) + [option])
  {
    var current := if value.List? then value.items else [];
    WithoutMembers(Without(current, AnyOption), option);
  }

  /** Clicking the same option twice on a selection without it and without
      "any" gives the selection back. */
  lemma {:induction false} OptionClickTwice(items: seq<string>, option: string)
    requires option != AnyOption && option !in items && AnyOption !in items
    ensures OptionClick(MultipleChoice, OptionClick(MultipleChoice, List(items), option), option) == List(items)
  {
    WithoutAbsent(items, AnyOption);
    var once := items + [option];
    assert OptionClick(MultipleChoice, List(items), option) == List(once);
    assert option in once;
    WithoutMembers(items, AnyOption);
    assert AnyOption !in once;
    WithoutAbsent(once, AnyOption);
    WithoutAppend(items, [option], option);
    WithoutAbsent(items, option);
    assert Without([option], option) == [];
    assert Without(once, option) == items;
  }
}
