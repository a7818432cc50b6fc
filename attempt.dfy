/**
 * An attempt in progress: the questions, the answer slots, and the counts
 * derived from them. The comparisons follow JavaScript's strict equality on
 * possibly missing elements: reading past the end of an array gives
 * `undefined`, an empty slot is `null`, and neither equals an answer text.
 */
module Attempt {
  import opened Wrappers
  import opened Records

  /** The JavaScript values an indexed read of answers or correct answers can produce. */
  datatype JsValue = Undefined | Null | Text(s: string)

  /** `answers[i]`. */
  function SlotAt(answers: seq<Slot>, i: int): (v: JsValue)
    ensures v.Undefined? <==> !(0 <= i < |answers|)
    ensures 0 <= i < |answers| ==> (v.Null? <==> answers[i].None?)
    ensures 0 <= i < |answers| && answers[i].Some? ==> v == Text(answers[i].value)
  {
    if 0 <= i < |answers| then
      (if answers[i].Some? then Text(answers[i].value) else Null)
    else Undefined
  }

  /** `questions[i]?.correctAnswer`. */
  function CorrectAt(questions: seq<Question>, i: int): (v: JsValue)
    ensures v.Undefined? <==> !(0 <= i < |questions|)
    ensures 0 <= i < |questions| ==> v == Text(questions[i].correctAnswer)
  {
    if 0 <= i < |questions| then Text(questions[i].correctAnswer) else Undefined
  }

  /** `answers[i] === questions[i]?.correctAnswer`. */
  predicate MatchesAt(questions: seq<Question>, answers: seq<Slot>, i: int) {
    SlotAt(answers, i) == CorrectAt(questions, i)
  }

  /** Within the answers array a match is exactly a chosen answer equal to that question's correct answer. */
  lemma MatchInRange(questions: seq<Question>, answers: seq<Slot>, i: int)
    requires 0 <= i < |answers|
    ensures MatchesAt(questions, answers, i) <==>
      i < |questions| && answers[i] == Some(questions[i].correctAnswer)
  {
  }

  /** `answers.filter(a => a !== null).length`. */
  function AnsweredCount(answers: seq<Slot>): (n: nat)
    ensures n <= |answers|
    ensures n == |answers| <==> forall i :: 0 <= i < |answers| ==> answers[i].Some?
    ensures n == 0 <==> forall i :: 0 <= i < |answers| ==> answers[i].None?
  {
    if answers == [] then 0
    else AnsweredCount(answers[..|answers| - 1]) + (if answers[|answers| - 1].Some? then 1 else 0)
  }

  /** `answers.filter((a, idx) => a === questions[idx]?.correctAnswer).length`. */
  function CorrectSoFar(questions: seq<Question>, answers: seq<Slot>): (n: nat)
    ensures n <= AnsweredCount(answers)
  {
    if answers == [] then 0
    else
      CorrectSoFar(questions, answers[..|answers| - 1]) +
      (if MatchesAt(questions, answers, |answers| - 1) then 1 else 0)
  }

  /** A fresh attempt: `new Array(n).fill(null)`. */
  function Unanswered(n: nat): (s: seq<Slot>)
    ensures |s| == n && forall i :: 0 <= i < n ==> s[i].None?
  {
    seq(n, _ => None)
  }

  /** A fresh attempt has nothing answered and nothing correct. */
  lemma {:induction false} UnansweredCounts(questions: seq<Question>, n: nat)
    ensures AnsweredCount(Unanswered(n)) == 0
    ensures CorrectSoFar(questions, Unanswered(n)) == 0
  {
    assert CorrectSoFar(questions, Unanswered(n)) <= AnsweredCount(Unanswered(n));
  }

  /**
   * Filling the empty slot `i` with `a` adds one answered slot, and adds one
   * correct answer exactly when `a` is that question's correct answer.
   */
  lemma {:induction false} FillSlot(questions: seq<Question>, answers: seq<Slot>, i: int, a: string)
    requires 0 <= i < |answers| && answers[i].None?
    ensures AnsweredCount(answers[i := Some(a)]) == AnsweredCount(answers) + 1
    ensures CorrectSoFar(questions, answers[i := Some(a)]) ==
      CorrectSoFar(questions, answers) +
      (if i < |questions| && a == questions[i].correctAnswer then 1 else 0)
  {
    var filled := answers[i := Some(a)];
    var n := |answers| - 1;
    if i == n {
      assert filled[..n] == answers[..n];
    } else {
      assert filled[..n] == answers[..n][i := Some(a)];
      FillSlot(questions, answers[..n], i, a);
      assert MatchesAt(questions, filled, n) == MatchesAt(questions, answers, n);
    }
  }

  /**
   * What the quiz keeps consistent between answers: one slot per question,
   * the current index inside the questions, and the score equal to the
   * number of correct answers given.
   */
  predicate Consistent(questions: seq<Question>, currentIndex: int, answers: seq<Slot>, score: int) {
    |answers| == |questions| &&
    0 <= currentIndex &&
    (questions != [] ==> currentIndex < |questions|) &&
    (questions == [] ==> currentIndex == 0) &&
    score == CorrectSoFar(questions, answers)
  }

  /**
   * `isQuizComplete`: at or past the last question and the last slot not
   * `null`. With no questions the last slot is `answers[-1]`, which is
   * `undefined` and so counts as filled.
   */
  predicate IsComplete(questions: seq<Question>, currentIndex: int, answers: seq<Slot>) {
    currentIndex >= |questions| - 1 && !SlotAt(answers, |questions| - 1).Null?
  }

  /** For a consistent, non-empty attempt, completion is exactly "the last question is answered". */
  lemma CompleteMeansLastAnswered(questions: seq<Question>, currentIndex: int, answers: seq<Slot>, score: int)
    requires Consistent(questions, currentIndex, answers, score) && questions != []
    ensures IsComplete(questions, currentIndex, answers) <==>
      currentIndex == |questions| - 1 && answers[|questions| - 1].Some?
  {
  }

  /** `getResults()`. */
  datatype Results = Results(totalQuestions: int, totalAnswered: int, correctAnswers: int, wrongAnswers: int)

  function ResultsOf(questions: seq<Question>, answers: seq<Slot>, score: int): (r: Results)
    ensures r.totalAnswered == AnsweredCount(answers)
    ensures r.correctAnswers + r.wrongAnswers == r.totalAnswered
    ensures r.totalQuestions == |questions| && r.correctAnswers == score
  {
    var answered := AnsweredCount(answers);
    Results(|questions|, answered, score, answered - score)
  }

  /** In a consistent attempt the counts are ordered: correct ≤ answered ≤ total, and wrong answers are never negative. */
  lemma ResultsBounded(questions: seq<Question>, currentIndex: int, answers: seq<Slot>, score: int)
    requires Consistent(questions, currentIndex, answers, score)
    ensures var r := ResultsOf(questions, answers, score);
      0 <= r.correctAnswers <= r.totalAnswered <= r.totalQuestions && r.wrongAnswers >= 0
  {
  }
}
