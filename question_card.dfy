/**
 * The question card: the answer letters, the difficulty badge, and the
 * latch that lets one click through until its delayed submission has run.
 */
module QuestionCard {
  import opened Wrappers
  import opened Text
  import opened QuizSession

  /** `String.fromCharCode(65 + index)`. */
  function AnswerLetter(index: nat): (c: char)
    requires 65 + index < 0xD800
    ensures c as int == 65 + index
    ensures index < 26 ==> 'A' <= c <= 'Z'
  {
    (65 + index) as char
  }

  /** Different answers get different letters, the first four being A to D. */
  lemma AnswerLettersDistinct(i: nat, j: nat)
    requires 65 + i < 0xD800 && 65 + j < 0xD800
    ensures AnswerLetter(i) == AnswerLetter(j) ==> i == j
    ensures AnswerLetter(0) == 'A' && AnswerLetter(3) == 'D'
  {
  }

  /** The three badge styles. */
  datatype Badge = EasyBadge | MediumBadge | HardBadge

  /** `getDifficultyBadge`: by the lower-cased difficulty; a missing or unknown one gets the medium style. */
  function DifficultyBadge(difficulty: Option<string>): (b: Badge)
    ensures difficulty.None? ==> b == MediumBadge
    ensures difficulty.Some? ==>
      (b == EasyBadge <==> ToLower(difficulty.value) == "easy") &&
      (b == HardBadge <==> ToLower(difficulty.value) == "hard")
  {
    if difficulty.None? then MediumBadge
    else
      var key := ToLower(difficulty.value);
      if key == "easy" then EasyBadge
      else if key == "hard" then HardBadge
      else MediumBadge
  }

  /** The badge ignores letter case, so the API's "Hard" and "hard" look the same. */
  lemma BadgeIgnoresCase(d: string)
    ensures DifficultyBadge(Some(d)) == DifficultyBadge(Some(ToLower(d)))
    ensures DifficultyBadge(Some("Hard")) == HardBadge
  {
    ToLowerIdempotent(d);
    assert ToLower("Hard") == "hard";
  }

  /** The card's own state; `pending` is the answer whose delayed submission is scheduled. */
  class Card {
    var selectedAnswer: Option<nat>
    var isSubmitting: bool
    var pending: Option<string>

    ghost predicate Valid()
      reads this
    {
      isSubmitting <==> pending.Some?
    }

    constructor ()
      ensures Valid() && selectedAnswer == None && !isSubmitting && pending == None
    {
      selectedAnswer := None;
      isSubmitting := false;
      pending := None;
    }

    /** `handleAnswerClick`: ignored while a submission is pending; otherwise selects and schedules it. */
    method Click(answer: string, index: nat) returns (accepted: bool)
      requires Valid()
      modifies this
      ensures Valid()
      ensures accepted <==> !old(isSubmitting)
      ensures !accepted ==> unchanged(this)
      ensures accepted ==> selectedAnswer == Some(index) && isSubmitting && pending == Some(answer)
    {
      if isSubmitting {
        return false;
      }
      selectedAnswer := Some(index);
      isSubmitting := true;
      pending := Some(answer);
      accepted := true;
    }

    /**
     * The end of the delay: the scheduled answer is submitted once, then the
     * selection and the latch are cleared.
     */
    method DelayElapsed(quiz: QuizProvider)
      requires Valid() && pending.Some? && quiz.Valid()
      modifies this, quiz, quiz.store
      ensures Valid() && quiz.Valid()
      ensures selectedAnswer == None && !isSubmitting && pending == None
      ensures var i := old(quiz.currentIndex);
        var accepted := i < |old(quiz.questions)| && old(quiz.answers)[i].None?;
        quiz.questions == old(quiz.questions) &&
        (!accepted ==> unchanged(quiz, quiz.store)) &&
        (accepted ==>
          quiz.answers == old(quiz.answers)[i := old(pending)] &&
          quiz.score == old(quiz.score) + (if old(pending).value == quiz.questions[i].correctAnswer then 1 else 0))
    {
      quiz.SubmitAnswer(pending.value);
      selectedAnswer := None;
      isSubmitting := false;
      pending := None;
    }
  }
}
