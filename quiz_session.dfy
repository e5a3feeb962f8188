/** One run of the quiz (`startQuiz` and the handlers it installs): the question
    shown, the running score, answering (once per question, after which every
    option is disabled), moving on, and the closing message. */
module QuizPlay {
  import opened Quiz

  datatype Phase =
    | NoQuestions   // the "coming soon" message: nothing was generated
    | Asking        // the current question's options are enabled
    | Answered      // an option was clicked; all options disabled, "next" shown
    | Finished      // the results are shown

  datatype Tier = Perfect | Great | KeepExploring

  /** `Math.ceil(total * 0.7)` for a non-negative total, in integers. */
  function SeventyPercent(total: nat): (c: nat)
    ensures 10 * c >= 7 * total && 10 * (c - 1) < 7 * total
  {
    (7 * total + 9) / 10
  }

  /** The message chosen by `showResults`. */
  function ResultTier(score: nat, total: nat): (t: Tier)
    ensures t == Perfect <==> score == total
    ensures t == Great <==> score != total && 10 * score >= 7 * total
    ensures t == KeepExploring <==> score != total && 10 * score < 7 * total
  {
    if score == total then Perfect
    else if score >= SeventyPercent(total) then Great
    else KeepExploring
  }

  /** With the three questions the generator always produces, a score short of
      perfect is also short of 70%: the middle message is never shown. */
  lemma ThreeQuestionsSkipGreat(score: nat)
    requires score <= 3
    ensures ResultTier(score, 3) != Great
  {
  }

  function CountTrue(s: seq<bool>): (n: nat)
    ensures n <= |s|
  {
    if s == [] then 0 else (if s[0] then 1 else 0) + CountTrue(s[1..])
  }

  lemma {:induction false} CountTrueAppend(s: seq<bool>, b: bool)
    ensures CountTrue(s + [b]) == CountTrue(s) + (if b then 1 else 0)
    decreases |s|
  {
    if s == [] {
      assert s + [b] == [b];
    } else {
      assert (s + [b])[0] == s[0] && (s + [b])[1..] == s[1..] + [b];
      CountTrueAppend(s[1..], b);
    }
  }

  class QuizSession {
    const questions: seq<Question>
    var currentIndex: nat
    var score: nat
    var phase: Phase
    /** The option clicked on the current question, once it is answered. */
    var picked: nat
    /** Whether each answered question was answered correctly, in order. */
    ghost var outcomes: seq<bool>

    /** The number of questions answered so far. */
    function AnsweredCount(): nat
      reads this
    {
      currentIndex + (if phase == Answered then 1 else 0)
    }

    ghost predicate Valid()
      reads this
    {
      && (phase == NoQuestions <==> questions == [])
      && (phase == Asking || phase == Answered ==> currentIndex < |questions|)
      && (phase == Finished ==> currentIndex == |questions|)
      && (phase == NoQuestions ==> currentIndex == 0)
      && (phase == Answered ==> picked < |questions[currentIndex].options|)
      && |outcomes| == AnsweredCount()
      && score == CountTrue(outcomes)
    }

    /** `startQuiz` with the generated questions. */
    constructor (qs: seq<Question>)
      ensures Valid()
      ensures questions == qs && score == 0 && currentIndex == 0
      ensures phase == (if qs == [] then NoQuestions else Asking)
    {
      questions := qs;
      currentIndex, score, picked := 0, 0, 0;
      phase := if qs == [] then NoQuestions else Asking;
      outcomes := [];
    }

    /** A click on option `i` of the current question. Only an enabled option of
        an unanswered question reacts; it adds one to the score exactly when it
        is the correct option, and then every option is disabled. */
    method Answer(i: nat)
      requires Valid()
      modifies this
      ensures Valid()
      ensures currentIndex == old(currentIndex)
      ensures old(phase) == Asking && i < |questions[currentIndex].options| ==>
        && phase == Answered && picked == i
        && score == old(score) + (if questions[currentIndex].options[i].isCorrect then 1 else 0)
      ensures !(old(phase) == Asking && i < |questions[currentIndex].options|) ==>
        phase == old(phase) && score == old(score) && picked == old(picked)
      ensures score <= AnsweredCount() <= |questions|
    {
      if phase == Asking && i < |questions[currentIndex].options| {
        var wasCorrect := questions[currentIndex].options[i].isCorrect;
        if wasCorrect {
          score := score + 1;
        }
        CountTrueAppend(outcomes, wasCorrect);
        outcomes := outcomes + [wasCorrect];
        picked := i;
        phase := Answered;
      }
    }

    /** The "Next Question" / "See Results" button, present only once the
        current question is answered. */
    method Next()
      requires Valid()
      modifies this
      ensures Valid()
      ensures score == old(score)
      ensures old(phase) == Answered ==>
        currentIndex == old(currentIndex) + 1
        && phase == (if currentIndex < |questions| then Asking else Finished)
      ensures old(phase) != Answered ==> phase == old(phase) && currentIndex == old(currentIndex)
      ensures score <= AnsweredCount() <= |questions|
    {
      if phase == Answered {
        currentIndex := currentIndex + 1;
        phase := if currentIndex < |questions| then Asking else Finished;
      }
    }

    /** The closing message, once every question has been answered. */
    function Result(): (t: Tier)
      reads this
      requires Valid() && phase == Finished
      ensures t == ResultTier(score, |questions|)
      ensures t == Perfect <==> score == |questions|
    {
      ResultTier(score, |questions|)
    }
  }
}
