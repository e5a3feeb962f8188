/** The quiz generator: three multiple-choice questions built from one location
    record (which craft, then a statistic or the destination, then how to support
    artisans). Random choices come in as `QuizRolls`, and the fallback draws of the
    statistic distractors as a nondeterministic choice, so every property below
    holds for every outcome of `Math.random`. */
module Quiz {
  import opened Basics
  import opened Locations
  import opened Random
  import opened StatText

  datatype Choice = Choice(text: string, isCorrect: bool)

  datatype Kind = CraftQuestion | StatQuestion | DestinationQuestion | SupportQuestion

  /** `topic` is what the question text interpolates: the location name for the
      craft question, the formatted stats label for the statistic question. */
  datatype Question = Question(kind: Kind, topic: string, options: seq<Choice>)

  /** The random outcomes one call of `generateQuizQuestions` consumes. */
  datatype QuizRolls = QuizRolls(
    craftPool: seq<nat>, craftOrder: seq<nat>,
    statEntry: nat, namePool: seq<nat>, secondOrder: seq<nat>,
    supportOrder: seq<nat>)

  const Fallback: seq<string> := ["40+", "75+", "120+", "250+", "500+"]

  const SupportAnswer: string := "Buy directly from their workshops and studios"
  const SupportWrong: seq<string> := [
    "Bargain hard to get the lowest possible price",
    "Ask them to copy mass-produced designs you found online",
    "Take photos without interaction and leave immediately"]

  // ---------------------------------------------------------------- options

  function CorrectCount(opts: seq<Choice>): nat {
    if opts == [] then 0 else (if opts[0].isCorrect then 1 else 0) + CorrectCount(opts[1..])
  }

  lemma {:induction false} CorrectCountAppend(a: seq<Choice>, b: seq<Choice>)
    ensures CorrectCount(a + b) == CorrectCount(a) + CorrectCount(b)
    decreases |a|
  {
    if a != [] {
      assert (a + b)[0] == a[0] && (a + b)[1..] == a[1..] + b;
      CorrectCountAppend(a[1..], b);
    } else {
      assert a + b == b;
    }
  }

  /** Reordering the options keeps the number flagged correct. */
  lemma {:induction false} CorrectCountPermutation(a: seq<Choice>, b: seq<Choice>)
    requires multiset(a) == multiset(b)
    ensures CorrectCount(a) == CorrectCount(b)
    decreases |a|
  {
    if a == [] {
      assert |b| == |multiset(b)| == 0;
    } else {
      var k := FirstOfPermutation(b, a);
      var rest := b[..k] + b[k + 1..];
      CorrectCountPermutation(a[1..], rest);
      assert b == b[..k] + ([b[k]] + b[k + 1..]);
      CorrectCountAppend(b[..k], [b[k]] + b[k + 1..]);
      CorrectCountAppend([b[k]], b[k + 1..]);
      CorrectCountAppend(b[..k], b[k + 1..]);
    }
  }

  /** Every label as a wrong answer. */
  function Distractors(labels: seq<string>): (r: seq<Choice>)
    ensures |r| == |labels| && CorrectCount(r) == 0
    ensures forall i :: 0 <= i < |r| ==> r[i] == Choice(labels[i], false)
  {
    if labels == [] then [] else [Choice(labels[0], false)] + Distractors(labels[1..])
  }

  /** The answer key of a question: exactly one option is flagged correct, and an
      option is flagged correct exactly when its label is the right answer. */
  predicate Keyed(opts: seq<Choice>, answer: string) {
    CorrectCount(opts) == 1 && forall o :: o in opts ==> (o.isCorrect <==> o.text == answer)
  }

  /** The options are the right answer and each wrong label once, in some order. */
  predicate OptionsFrom(opts: seq<Choice>, answer: string, wrong: seq<string>) {
    multiset(opts) == multiset([Choice(answer, true)] + Distractors(wrong))
  }

  /** `shuffleArray([{label: answer, isCorrect: true}, ...wrong as incorrect])`. */
  function ShuffledOptions(answer: string, wrong: seq<string>, rolls: seq<nat>): (r: seq<Choice>)
    requires answer !in wrong
    ensures |r| == 1 + |wrong|
    ensures OptionsFrom(r, answer, wrong)
    ensures Keyed(r, answer)
    ensures forall o :: o in r && !o.isCorrect ==> o.text in wrong
  {
    var r := Shuffle([Choice(answer, true)] + Distractors(wrong), rolls);
    OptionsFromKeyed(r, answer, wrong);
    r
  }

  /** Any order of the right answer and the wrong labels has one option per
      label and is keyed to the answer. */
  lemma OptionsFromKeyed(r: seq<Choice>, answer: string, wrong: seq<string>)
    requires answer !in wrong && OptionsFrom(r, answer, wrong)
    ensures |r| == 1 + |wrong|
    ensures Keyed(r, answer)
    ensures forall o :: o in r && !o.isCorrect ==> o.text in wrong
  {
    var opts := [Choice(answer, true)] + Distractors(wrong);
    assert |r| == |multiset(r)| == |multiset(opts)| == |opts|;
    CorrectCountAppend([Choice(answer, true)], Distractors(wrong));
    CorrectCountPermutation(opts, r);
    assert forall o :: o in r ==> o in opts by {
      forall o | o in r ensures o in opts {
        assert o in multiset(r);
      }
    }
  }

  // ---------------------------------------------------------------- statistic distractors

  /** One step of the `variations.forEach`: a candidate other than the value
      goes into the set while it holds fewer than three. */
  function Admit(picked: seq<string>, candidate: string, value: string): seq<string> {
    if candidate != value && |picked| < 3 then SetAdd(picked, candidate) else picked
  }

  /** The picks come in the order in which the candidates first offer them. */
  predicate InOfferOrder(candidates: seq<string>, picks: seq<string>)
    requires forall x :: x in picks ==> x in candidates
  {
    forall i, j :: 0 <= i < j < |picks| ==> FirstIndex(candidates, picks[i]) < FirstIndex(candidates, picks[j])
  }

  /** A candidate other than the value is passed over only when three picks,
      all offered before it, are already taken. */
  predicate SkippedOnlyWhenFull(candidates: seq<string>, value: string, picks: seq<string>)
    requires forall x :: x in picks ==> x in candidates
  {
    forall k :: 0 <= k < |candidates| && candidates[k] != value && candidates[k] !in picks ==>
      |picks| == 3 && forall i :: 0 <= i < |picks| ==> FirstIndex(candidates, picks[i]) < k
  }

  /** The set after the `forEach` over `candidates`, in insertion order: the first
      three distinct candidates other than the value. */
  function NumericPicks(candidates: seq<string>, value: string): (r: seq<string>)
    ensures |r| <= 3 && Distinct(r) && value !in r
    ensures forall x :: x in r ==> x in candidates
    ensures InOfferOrder(candidates, r)
    ensures SkippedOnlyWhenFull(candidates, value, r)
    ensures |r| < 3 ==> forall c :: c in candidates && c != value ==> c in r
    decreases |candidates|
  {
    if candidates == [] then []
    else
      var init := candidates[..|candidates| - 1];
      var last := candidates[|candidates| - 1];
      var p := NumericPicks(init, value);
      assert candidates == init + [last];
      AdmitKeepsOrder(init, last, value, p);
      Admit(p, last, value)
  }

  /** One more candidate keeps the picks in offer order and keeps every
      passed-over candidate behind three earlier picks. */
  lemma AdmitKeepsOrder(init: seq<string>, last: string, value: string, p: seq<string>)
    requires |p| <= 3 && Distinct(p) && value !in p && forall x :: x in p ==> x in init
    requires InOfferOrder(init, p) && SkippedOnlyWhenFull(init, value, p)
    ensures forall x :: x in Admit(p, last, value) ==> x in init + [last]
    ensures InOfferOrder(init + [last], Admit(p, last, value))
    ensures SkippedOnlyWhenFull(init + [last], value, Admit(p, last, value))
  {
    var c := init + [last];
    var r := Admit(p, last, value);
    forall x | x in init
      ensures FirstIndex(c, x) == FirstIndex(init, x)
    {
      FirstIndexPrefix(init, [last], x);
    }
    if r == p {
      forall k | 0 <= k < |c| && c[k] != value && c[k] !in r
        ensures |r| == 3 && forall i :: 0 <= i < |r| ==> FirstIndex(c, r[i]) < k
      {
        if k < |init| {
          assert c[k] == init[k];
        }
      }
    } else {
      assert r == p + [last] && |p| < 3 && last != value;
      assert last !in init by {
        forall k | 0 <= k < |init| && init[k] == last
          ensures false
        {
        }
      }
      assert FirstIndex(c, last) == |init|;
      forall k | 0 <= k < |c| && c[k] != value
        ensures c[k] in r
      {
        if k < |init| {
          assert c[k] == init[k];
        }
      }
    }
  }

  /** While the set holds fewer than three, some fallback value is neither the
      stats value nor already in the set: the fallback pool has five distinct
      values, at most one of them is the stats value, at most two are taken. */
  lemma FallbackHasRoom(value: string, picked: seq<string>)
    requires |picked| < 3
    ensures exists c :: c in Fallback && c != value && c !in picked
  {
    var blocked := [value] + picked;
    OneFallbackFree(blocked);
    var i :| 0 <= i < |Fallback| && Fallback[i] !in blocked;
    assert Fallback[i] in Fallback;
  }

  /** Five distinct values do not fit among three. */
  lemma OneFallbackFree(blocked: seq<string>)
    requires |blocked| <= 3
    ensures exists i :: 0 <= i < |Fallback| && Fallback[i] !in blocked
  {
    var a := if |blocked| > 0 then blocked[0] else Fallback[0];
    var b := if |blocked| > 1 then blocked[1] else a;
    var c := if |blocked| > 2 then blocked[2] else a;
    assert forall x :: x in blocked ==> x == a || x == b || x == c;
    var taken := {a, b, c};
    var i :=
      if Fallback[0] !in taken then 0
      else if Fallback[1] !in taken then 1
      else if Fallback[2] !in taken then 2
      else if Fallback[3] !in taken then 3
      else 4;
    assert Fallback[i] !in taken;
  }

  /** Wrong answers for a statistic: three distinct ones, none equal to the
      stats value; first the scaled numbers in order, then fallback values. */
  predicate StatAlternatives(value: string, alts: seq<string>) {
    && |alts| == 3 && Distinct(alts) && value !in alts
    && var pre := NumericPicks(Candidates(value), value);
      alts[..|pre|] == pre && forall i :: |pre| <= i < 3 ==> alts[i] in Fallback
  }

  /** `generateStatAlternatives`. The `while` loop's draws that add nothing to
      the set (the stats value itself, or a value already in it) are not
      modelled; every draw that adds one is. */
  method GenerateStatAlternatives(value: string) returns (alts: seq<string>)
    ensures |alts| == 3 && Distinct(alts) && value !in alts
    ensures StatAlternatives(value, alts)
  {
    var pre := NumericAlternatives(Candidates(value), value);
    alts := FillFromFallback(value, pre);
  }

  /** The `variations.forEach` loop. */
  method NumericAlternatives(candidates: seq<string>, value: string) returns (alts: seq<string>)
    ensures alts == NumericPicks(candidates, value)
  {
    alts := [];
    for i := 0 to |candidates|
      invariant alts == NumericPicks(candidates[..i], value)
    {
      assert candidates[..i + 1][..i] == candidates[..i];
      if candidates[i] != value && |alts| < 3 {
        alts := SetAdd(alts, candidates[i]);
      }
    }
    assert candidates[..|candidates|] == candidates;
  }

  /** The `while` loop topping the set up from the fallback pool. */
  method FillFromFallback(value: string, pre: seq<string>) returns (alts: seq<string>)
    requires |pre| <= 3 && Distinct(pre) && value !in pre
    ensures |alts| == 3 && Distinct(alts) && value !in alts
    ensures alts[..|pre|] == pre && forall i :: |pre| <= i < 3 ==> alts[i] in Fallback
  {
    alts := pre;
    while |alts| < 3
      invariant |pre| <= |alts| <= 3 && alts[..|pre|] == pre
      invariant Distinct(alts) && value !in alts
      invariant forall i :: |pre| <= i < |alts| ==> alts[i] in Fallback
      decreases 3 - |alts|
    {
      FallbackHasRoom(value, alts);
      var candidate :| candidate in Fallback && candidate != value && candidate !in alts;
      alts := SetAdd(alts, candidate);
    }
  }

  // ---------------------------------------------------------------- questions

  /** `createStatQuestion`: asks for the value of one stats entry, chosen by
      `entry`; nothing when the location has no stats. */
  method CreateStatQuestion(loc: Location, entry: nat, order: seq<nat>) returns (q: Option<Question>)
    ensures q.None? <==> loc.stats == []
    ensures q.Some? ==>
      var s := RandomElement(loc.stats, entry);
      && q.value.kind == StatQuestion
      && q.value.topic == FormatStatLabel(s.key)
      && |q.value.options| == 4
      && Keyed(q.value.options, s.value)
      && exists alts :: StatAlternatives(s.value, alts) && OptionsFrom(q.value.options, s.value, alts)
  {
    if loc.stats == [] {
      return None;
    }
    var s := RandomElement(loc.stats, entry);
    var alternatives := GenerateStatAlternatives(s.value);
    var options := ShuffledOptions(s.value, alternatives, order);
    q := Some(Question(StatQuestion, FormatStatLabel(s.key), options));
    assert StatAlternatives(s.value, alternatives) && OptionsFrom(q.value.options, s.value, alternatives);
  }

  /** The craft question: the location's craft among up to three other crafts. */
  function CraftQuestionFor(name: string, craft: string, allCrafts: seq<string>,
                            pool: seq<nat>, order: seq<nat>): (q: Question)
    ensures q.kind == CraftQuestion && q.topic == name && Keyed(q.options, craft)
    ensures |q.options| == 1 + Min(3, |Without(allCrafts, [craft])|)
    ensures forall o :: o in q.options && !o.isCorrect ==> o.text in allCrafts && o.text != craft
    ensures OptionsFrom(q.options, craft, PickRandomItems(allCrafts, 3, [craft], pool))
  {
    var crafts := PickRandomItems(allCrafts, 3, [craft], pool);
    Question(CraftQuestion, name, ShuffledOptions(craft, crafts, order))
  }

  /** The destination question, asked when the location has no stats. */
  function DestinationQuestionFor(name: string, locationNames: seq<string>,
                                  pool: seq<nat>, order: seq<nat>): (q: Question)
    ensures q.kind == DestinationQuestion && Keyed(q.options, name)
    ensures |q.options| == 1 + Min(3, |Without(locationNames, [name])|)
    ensures forall o :: o in q.options && !o.isCorrect ==> o.text in locationNames && o.text != name
    ensures OptionsFrom(q.options, name, PickRandomItems(locationNames, 3, [name], pool))
  {
    var names := PickRandomItems(locationNames, 3, [name], pool);
    Question(DestinationQuestion, "", ShuffledOptions(name, names, order))
  }

  /** The fixed question on supporting artisans. */
  function SupportQuestionFor(order: seq<nat>): (q: Question)
    ensures q.kind == SupportQuestion && |q.options| == 4 && Keyed(q.options, SupportAnswer)
    ensures OptionsFrom(q.options, SupportAnswer, SupportWrong)
  {
    Question(SupportQuestion, "", ShuffledOptions(SupportAnswer, SupportWrong, order))
  }

  /** The middle question of `generateQuizQuestions`: a statistic question when
      the location has stats, otherwise the destination question. */
  method SecondQuestion(key: string, loc: Location, locationNames: seq<string>, rolls: QuizRolls)
    returns (q: Question)
    ensures loc.stats != [] ==>
      var s := RandomElement(loc.stats, rolls.statEntry);
      && q.kind == StatQuestion && q.topic == FormatStatLabel(s.key) && |q.options| == 4
      && Keyed(q.options, s.value)
      && exists alts :: StatAlternatives(s.value, alts) && OptionsFrom(q.options, s.value, alts)
    ensures loc.stats == [] ==>
      q == DestinationQuestionFor(LocationName(key, loc), locationNames, rolls.namePool, rolls.secondOrder)
  {
    if loc.stats != [] {
      var statQuestion := CreateStatQuestion(loc, rolls.statEntry, rolls.secondOrder);
      q := statQuestion.value;
    } else {
      q := DestinationQuestionFor(LocationName(key, loc), locationNames, rolls.namePool, rolls.secondOrder);
    }
  }

  /** `generateQuizQuestions`: always three questions, in the order craft, statistic
      or destination, support; each has exactly one right answer. */
  method GenerateQuizQuestions(key: string, loc: Location, allCrafts: seq<string>,
                               locationNames: seq<string>, rolls: QuizRolls)
    returns (qs: seq<Question>)
    ensures |qs| == 3
    ensures qs[0] == CraftQuestionFor(LocationName(key, loc), loc.craft, allCrafts, rolls.craftPool, rolls.craftOrder)
    ensures loc.stats != [] ==>
      var s := RandomElement(loc.stats, rolls.statEntry);
      && qs[1].kind == StatQuestion && qs[1].topic == FormatStatLabel(s.key) && |qs[1].options| == 4
      && Keyed(qs[1].options, s.value)
      && exists alts :: StatAlternatives(s.value, alts) && OptionsFrom(qs[1].options, s.value, alts)
    ensures loc.stats == [] ==>
      qs[1] == DestinationQuestionFor(LocationName(key, loc), locationNames, rolls.namePool, rolls.secondOrder)
    ensures qs[2] == SupportQuestionFor(rolls.supportOrder)
  {
    var craftQuestion := CraftQuestionFor(LocationName(key, loc), loc.craft, allCrafts, rolls.craftPool, rolls.craftOrder);
    var second := SecondQuestion(key, loc, locationNames, rolls);
    qs := [craftQuestion, second, SupportQuestionFor(rolls.supportOrder)];
  }
}
