/**
 * The progress bar: the answered count, the rounded percentage of the
 * current position, and one dot per question.
 */
module ProgressBar {
  import opened Wrappers
  import opened Records
  import opened Percent
  import opened Attempt

  /** How a question's dot is drawn. */
  datatype DotState = CurrentDot | CorrectDot | IncorrectDot | UnansweredDot

  /**
   * The dot of question `index`: the current question takes precedence;
   * otherwise a slot that is not `null` is correct or incorrect by strict
   * equality with the correct answer; otherwise unanswered.
   */
  function DotAt(questions: seq<Question>, currentIndex: int, answers: seq<Slot>, index: int): (d: DotState)
    ensures d == CurrentDot <==> index == currentIndex
    ensures d == UnansweredDot <==> index != currentIndex && SlotAt(answers, index).Null?
    ensures d == CorrectDot <==> index != currentIndex && MatchesAt(questions, answers, index)
  {
    if index == currentIndex then CurrentDot
    else if !SlotAt(answers, index).Null? then
      (if MatchesAt(questions, answers, index) then CorrectDot else IncorrectDot)
    else UnansweredDot
  }

  /** The dots of all questions, or none for an empty list (the bar is not drawn). */
  function Dots(questions: seq<Question>, currentIndex: int, answers: seq<Slot>): (ds: seq<DotState>)
    ensures |ds| == |questions|
    ensures forall i :: 0 <= i < |ds| ==> ds[i] == DotAt(questions, currentIndex, answers, i)
  {
    seq(|questions|, i requires 0 <= i < |questions| => DotAt(questions, currentIndex, answers, i))
  }

  /**
   * In a consistent attempt a dot other than the current one is correct
   * exactly when its question was answered with the correct answer, and
   * incorrect exactly when it was answered with anything else.
   */
  lemma DotsOfConsistentAttempt(questions: seq<Question>, currentIndex: int, answers: seq<Slot>, score: int, i: int)
    requires Consistent(questions, currentIndex, answers, score)
    requires 0 <= i < |questions| && i != currentIndex
    ensures Dots(questions, currentIndex, answers)[i] == CorrectDot <==>
      answers[i] == Some(questions[i].correctAnswer)
    ensures Dots(questions, currentIndex, answers)[i] == IncorrectDot <==>
      answers[i].Some? && answers[i].value != questions[i].correctAnswer
  {
    MatchInRange(questions, answers, i);
  }

  /** `Math.round(currentIndex / questions.length * 100)`, the percentage label. */
  function ProgressLabel(currentIndex: int, total: int): (r: int)
    requires total > 0
    ensures currentIndex == 0 ==> r == 0
    ensures 0 <= currentIndex <= total ==> 0 <= r <= 100
  {
    Percentage(currentIndex, total)
  }

  /**
   * While the attempt runs the label stays below 100 for fewer than 200
   * questions; from 200 questions on, rounding shows 100 at the last one.
   */
  lemma ProgressLabelBelowFull(questions: seq<Question>, currentIndex: int, answers: seq<Slot>, score: int)
    requires Consistent(questions, currentIndex, answers, score) && questions != []
    ensures |questions| < 200 ==> ProgressLabel(currentIndex, |questions|) < 100
    ensures |questions| >= 200 && currentIndex == |questions| - 1 ==> ProgressLabel(currentIndex, |questions|) == 100
  {
    PercentageAtLeast(currentIndex, |questions|, 100);
  }
}
