/** The three-question personality quiz (`src/app/quiz-osobowosciowy/page.tsx`):
    each answer names a genre type; after the third answer the types are
    tallied and the most frequent one picks the movie personality. */
module PersonalityQuiz {
  import opened Collections
  import opened JsMaps
  import opened JsNumbers

  /** The `type` of each entry of `MOVIE_PERSONALITIES`, in order. */
  const PersonalityTypes: seq<string> := ["Akcja", "Dramat", "Komedia", "Sci-Fi", "Horror"]

  const QuestionCount: nat := 3

  /** The tally of `answers`: each answer's number of occurrences. */
  function Counts(answers: seq<string>): (m: map<string, int>)
    ensures forall t :: t in m <==> t in answers
  {
    map t | t in answers :: Occurrences(answers, t)
  }

  /** One more answer adds one to its count. */
  lemma CountsSnoc(s: seq<string>, a: string)
    ensures Counts(s + [a]) == Counts(s)[a := Occurrences(s, a) + 1]
  {
    forall t | t in s + [a] ensures Occurrences(s + [a], t) == Occurrences(s, t) + (if t == a then 1 else 0) {
      OccurrencesAppend(s, [a], t);
      assert [a][1..] == [];
    }
  }

  /** `counts` is the tally of `s`, its keys in order of first answer. */
  ghost predicate Tallied(counts: JsMap<string, int>, s: seq<string>) {
    counts.Valid() && counts.keys == FirstOccurrences(s) && counts.entries == Counts(s)
  }

  /** Counting one more answer extends the tally and its key order. */
  lemma TallyStep(counts: JsMap<string, int>, s: seq<string>, a: string)
    requires Tallied(counts, s)
    ensures Tallied(counts.Set(a, (if counts.Has(a) then counts.entries[a] else 0) + 1), s + [a])
  {
    OccurrencesPositive(s, a);
    CountsSnoc(s, a);
    FirstOccurrencesSnoc(s, a);
    if a in s {
      assert counts.Has(a) && counts.entries[a] == Occurrences(s, a);
    } else {
      assert !counts.Has(a) && Occurrences(s, a) == 0;
    }
  }

  /** One pass of the `forEach`: `counts[type] = (counts[type] || 0) + 1`. */
  method CountAnswer(counts: JsMap<string, int>, answers: seq<string>, i: nat) returns (next: JsMap<string, int>)
    requires i < |answers| && Tallied(counts, answers[..i])
    ensures Tallied(next, answers[..i + 1])
  {
    var a := answers[i];
    assert answers[..i + 1] == answers[..i] + [a];
    TallyStep(counts, answers[..i], a);
    var previous := if counts.Has(a) then counts.entries[a] else 0;
    next := counts.Set(a, previous + 1);
  }

  /** The `forEach` that fills `counts`. */
  method Tally(answers: seq<string>) returns (counts: JsMap<string, int>)
    ensures counts.Valid()
    ensures counts.keys == FirstOccurrences(answers)
    ensures counts.entries == Counts(answers)
  {
    counts := Empty();
    assert Tallied(counts, answers[..0]);
    for i := 0 to |answers|
      invariant Tallied(counts, answers[..i])
    {
      counts := CountAnswer(counts, answers, i);
    }
    assert answers[..|answers|] == answers;
  }

  /** `keys.reduce((a, b) => counts[a] > counts[b] ? a : b)`: the
      accumulator survives only a strictly smaller count. */
  function Winner(keys: seq<string>, counts: map<string, int>): (w: string)
    requires |keys| > 0 && forall i :: 0 <= i < |keys| ==> keys[i] in counts
    ensures w in keys
  {
    if |keys| == 1 then keys[0]
    else
      var a := Winner(keys[..|keys| - 1], counts);
      var b := keys[|keys| - 1];
      if counts[a] > counts[b] then a else b
  }

  /** The winner has the largest count, and every key after it has a
      smaller one: among tied keys the last one wins. */
  lemma {:induction false} WinnerSpec(keys: seq<string>, counts: map<string, int>)
    requires |keys| > 0 && forall i :: 0 <= i < |keys| ==> keys[i] in counts
    ensures forall i :: 0 <= i < |keys| ==> counts[keys[i]] <= counts[Winner(keys, counts)]
    ensures exists i :: 0 <= i < |keys| && keys[i] == Winner(keys, counts) && (forall j :: i < j < |keys| ==> counts[keys[j]] < counts[keys[i]])
  {
    if |keys| > 1 {
      var front := keys[..|keys| - 1];
      WinnerSpec(front, counts);
      var a := Winner(front, counts);
      var b := keys[|keys| - 1];
      var i :| 0 <= i < |front| && front[i] == a && forall j :: i < j < |front| ==> counts[front[j]] < counts[front[i]];
      if counts[a] > counts[b] {
        assert keys[i] == a == Winner(keys, counts);
        forall j | i < j < |keys| ensures counts[keys[j]] < counts[keys[i]] {
          if j < |front| {
            assert keys[j] == front[j];
          }
        }
      } else {
        var last := |keys| - 1;
        assert keys[last] == Winner(keys, counts);
        forall k | 0 <= k < |keys| ensures counts[keys[k]] <= counts[b] {
          if k < |front| {
            assert keys[k] == front[k];
          }
        }
      }
    } else {
      assert keys[0] == Winner(keys, counts);
    }
  }

  /** `MOVIE_PERSONALITIES.find(p => p.type === winner) || MOVIE_PERSONALITIES[0]`,
      as an index. */
  function FindPersonality(winner: string): (p: nat)
    ensures p < |PersonalityTypes|
    ensures winner in PersonalityTypes ==> PersonalityTypes[p] == winner
    ensures winner !in PersonalityTypes ==> p == 0
  {
    if winner == "Akcja" then 0
    else if winner == "Dramat" then 1
    else if winner == "Komedia" then 2
    else if winner == "Sci-Fi" then 3
    else if winner == "Horror" then 4
    else 0
  }

  /** Every tallied key has a count. */
  lemma KeysCounted(answers: seq<string>)
    requires |answers| > 0
    ensures |FirstOccurrences(answers)| > 0
    ensures forall i :: 0 <= i < |FirstOccurrences(answers)| ==> FirstOccurrences(answers)[i] in Counts(answers)
  {
    FirstOccurrencesMembers(answers, answers[0]);
    forall i | 0 <= i < |FirstOccurrences(answers)| ensures FirstOccurrences(answers)[i] in answers {
      FirstOccurrencesMembers(answers, FirstOccurrences(answers)[i]);
    }
  }

  /** No personality type is an array-index key. */
  lemma TypesNotIndexKeys(t: string)
    requires t in PersonalityTypes
    ensures !IsIndexKey(t)
  {
    assert !IsDigit(t[0]);
  }

  /** The page's answers are option types, so `Object.keys(counts)` lists
      the tallied types in the order they were first answered, which is the
      order `Winner` reduces over. */
  lemma TallyKeysInOrder(answers: seq<string>)
    requires forall i :: 0 <= i < |answers| ==> answers[i] in PersonalityTypes
    ensures ObjectKeys(FirstOccurrences(answers)) == FirstOccurrences(answers)
  {
    var keys := FirstOccurrences(answers);
    forall i | 0 <= i < |keys| ensures !IsIndexKey(keys[i]) {
      FirstOccurrencesMembers(answers, keys[i]);
      TypesNotIndexKeys(keys[i]);
    }
    ObjectKeysNoIndex(keys);
  }

  /** The personality the answers lead to. */
  function Personality(answers: seq<string>): nat
    requires |answers| > 0
  {
    KeysCounted(answers);
    FindPersonality(Winner(FirstOccurrences(answers), Counts(answers)))
  }

  lemma FirstOccurrencesOfThree(a: string, b: string, c: string)
    requires a != b && b != c && a != c
    ensures FirstOccurrences([a, b, c]) == [a, b, c]
  {
    assert [a] == [] + [a];
    FirstOccurrencesSnoc([], a);
    assert FirstOccurrences([a]) == [a];
    assert [a, b] == [a] + [b] && b !in [a];
    FirstOccurrencesSnoc([a], b);
    assert FirstOccurrences([a, b]) == [a, b];
    assert [a, b, c] == [a, b] + [c] && c !in [a, b];
    FirstOccurrencesSnoc([a, b], c);
  }

  lemma CountsOfThree(a: string, b: string, c: string)
    requires a != b && b != c && a != c
    ensures Counts([a, b, c])[a] == 1 && Counts([a, b, c])[b] == 1 && Counts([a, b, c])[c] == 1
  {
    var s := [a, b, c];
    assert s[1..] == [b, c] && [b, c][1..] == [c] && [c][1..] == [];
    assert Occurrences([c], a) == 0 && Occurrences([c], b) == 0 && Occurrences([c], c) == 1;
    assert Occurrences([b, c], a) == 0 && Occurrences([b, c], b) == 1 && Occurrences([b, c], c) == 1;
    assert Occurrences(s, a) == 1 && Occurrences(s, b) == 1 && Occurrences(s, c) == 1;
    assert a in s && b in s && c in s;
    assert Counts(s)[a] == Occurrences(s, a) && Counts(s)[b] == Occurrences(s, b) && Counts(s)[c] == Occurrences(s, c);
  }

  /** Three different answers give the third one's personality. */
  lemma ThreeDistinctAnswers(a: string, b: string, c: string)
    requires a != b && b != c && a != c
    ensures Personality([a, b, c]) == FindPersonality(c)
  {
    var s := [a, b, c];
    FirstOccurrencesOfThree(a, b, c);
    CountsOfThree(a, b, c);
    var counts := Counts(s);
    assert s[..2] == [a, b] && [a, b][..1] == [a];
    assert Winner([a, b], counts) == b;
    KeysCounted(s);
    assert Winner(s, counts) == c;
  }

  class PersonalityQuizPage {
    var step: nat
    var answers: seq<string>
    /** The index of the chosen personality, once computed. */
    var result: Option<nat>

    constructor ()
      ensures step == 0 && answers == [] && result.None?
    {
      step := 0;
      answers := [];
      result := None;
    }

    /** `handleAnswer`: record the answer; advance while questions remain,
        and compute the personality on the last one. */
    method HandleAnswer(kind: string)
      modifies this
      ensures answers == old(answers) + [kind]
      ensures old(step) < QuestionCount - 1 ==> step == old(step) + 1 && result == old(result)
      ensures old(step) >= QuestionCount - 1 ==> step == old(step) && result == Some(Personality(answers))
    {
      var newAnswers := answers + [kind];
      answers := newAnswers;
      if step < QuestionCount - 1 {
        step := step + 1;
      } else {
        var counts := Tally(newAnswers);
        assert counts.keys[0] in counts.entries;
        var winner := Winner(counts.keys, counts.entries);
        result := Some(FindPersonality(winner));
      }
    }

    /** `resetQuiz` */
    method ResetQuiz()
      modifies this
      ensures step == 0 && answers == [] && result.None?
    {
      step := 0;
      answers := [];
      result := None;
    }
  }

  /** Three answers from a fresh page always produce a personality. */
  method ThreeAnswers(x: string, y: string, z: string) returns (p: nat)
    ensures p == Personality([x, y, z])
  {
    var page := new PersonalityQuizPage();
    page.HandleAnswer(x);
    page.HandleAnswer(y);
    page.HandleAnswer(z);
    assert page.answers == [x, y, z];
    p := page.result.value;
  }
}
