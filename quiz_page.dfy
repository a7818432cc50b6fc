/**
 * The quiz page: the running streak of correct answers, the start of a new
 * attempt once restoring has been tried, and the move to the results once
 * the last question is answered.
 */
module QuizPage {
  import opened Wrappers
  import opened Records
  import opened Attempt
  import opened QuestionSource
  import opened QuizSession

  /**
   * The number of consecutive matches ending just before index `k`
   * (answers `k-1`, `k-2`, … back to the first one that does not match).
   */
  function StreakFrom(questions: seq<Question>, answers: seq<Slot>, k: int): (n: nat)
    ensures k <= 0 ==> n == 0
    ensures k > 0 ==> n <= k
    ensures forall j :: k - n <= j < k ==> MatchesAt(questions, answers, j)
    ensures n < k ==> !MatchesAt(questions, answers, k - 1 - n)
    decreases k
  {
    if k <= 0 then 0
    else if MatchesAt(questions, answers, k - 1) then 1 + StreakFrom(questions, answers, k - 1)
    else 0
  }

  /** The streak effect: walks back from the question before the current one and stops at the first miss. */
  method Streak(questions: seq<Question>, answers: seq<Slot>, currentIndex: int) returns (streak: nat)
    ensures streak == StreakFrom(questions, answers, currentIndex)
  {
    streak := 0;
    var i := currentIndex - 1;
    while i >= 0
      invariant streak == currentIndex - 1 - i
      invariant StreakFrom(questions, answers, currentIndex) == streak + StreakFrom(questions, answers, i + 1)
      decreases i + 1
    {
      if MatchesAt(questions, answers, i) {
        streak := streak + 1;
      } else {
        break;
      }
      i := i - 1;
    }
  }

  /** The correct answers among a prefix never exceed those among the whole answers array. */
  lemma {:induction false} CorrectPrefixBounded(questions: seq<Question>, answers: seq<Slot>, k: int)
    requires 0 <= k <= |answers|
    ensures CorrectSoFar(questions, answers[..k]) <= CorrectSoFar(questions, answers)
    decreases |answers|
  {
    if k < |answers| {
      var n := |answers| - 1;
      assert answers[..n][..k] == answers[..k];
      CorrectPrefixBounded(questions, answers[..n], k);
    } else {
      assert answers[..k] == answers;
    }
  }

  /** A streak ending at `k` is made of correct answers counted among the first `k` slots. */
  lemma {:induction false} StreakWithinPrefix(questions: seq<Question>, answers: seq<Slot>, k: int)
    requires 0 <= k <= |answers|
    ensures StreakFrom(questions, answers, k) <= CorrectSoFar(questions, answers[..k])
    decreases k
  {
    if k > 0 && MatchesAt(questions, answers, k - 1) {
      StreakWithinPrefix(questions, answers, k - 1);
      assert answers[..k][..k - 1] == answers[..k - 1];
      assert MatchesAt(questions, answers[..k], k - 1);
    }
  }

  /** In a consistent attempt the streak never exceeds the score. */
  lemma StreakWithinScore(questions: seq<Question>, currentIndex: int, answers: seq<Slot>, score: int)
    requires Consistent(questions, currentIndex, answers, score)
    ensures StreakFrom(questions, answers, currentIndex) <= score
  {
    if currentIndex <= |answers| {
      StreakWithinPrefix(questions, answers, currentIndex);
      CorrectPrefixBounded(questions, answers, currentIndex);
    }
  }

  /** The streak banner shows from three correct answers in a row. */
  predicate ShowsEncouragement(streak: nat) {
    streak >= 3
  }

  /** Answering the question before the current one wrongly ends the streak. */
  lemma MissResetsStreak(questions: seq<Question>, answers: seq<Slot>, currentIndex: int)
    requires 0 < currentIndex <= |answers|
    requires !MatchesAt(questions, answers, currentIndex - 1)
    ensures StreakFrom(questions, answers, currentIndex) == 0
    ensures !ShowsEncouragement(StreakFrom(questions, answers, currentIndex))
  {
  }

  /** The results redirect fires for a non-empty attempt that is complete. */
  predicate ShouldShowResults(questions: seq<Question>, currentIndex: int, answers: seq<Slot>) {
    |questions| > 0 && IsComplete(questions, currentIndex, answers)
  }

  /** For a consistent attempt the redirect fires exactly when the last question has been answered. */
  lemma ShowResultsWhenLastAnswered(questions: seq<Question>, currentIndex: int, answers: seq<Slot>, score: int)
    requires Consistent(questions, currentIndex, answers, score)
    ensures ShouldShowResults(questions, currentIndex, answers) <==>
      questions != [] && currentIndex == |questions| - 1 && answers[|questions| - 1].Some?
  {
    if questions != [] {
      CompleteMeansLastAnswered(questions, currentIndex, answers, score);
    }
  }

  /** The auto-start effect's condition: restoring was tried, no quiz runs and there are no questions. */
  predicate ShouldAutoStart(hasAttemptedRestore: bool, quizStarted: bool, questions: seq<Question>) {
    hasAttemptedRestore && !quizStarted && |questions| == 0
  }

  /**
   * The auto-start effect: when its condition holds it starts a quiz without
   * forcing; a start that was not already in progress ends either with the
   * quiz started or with an error to show.
   */
  method AutoStart(quiz: QuizProvider, fetch: string -> QuestionsResponse, decode: string -> string, now: int)
    requires quiz.Valid() && quiz.store != quiz.sessionStore
    modifies quiz, quiz.store, quiz.client
    ensures quiz.Valid()
    ensures !old(ShouldAutoStart(quiz.hasAttemptedRestore, quiz.quizStarted, quiz.questions)) ==>
      unchanged(quiz, quiz.store, quiz.client)
    ensures old(ShouldAutoStart(quiz.hasAttemptedRestore, quiz.quizStarted, quiz.questions)) && !old(quiz.isStarting) ==>
      !quiz.isLoading && (quiz.quizStarted || quiz.error.Some?)
  {
    if ShouldAutoStart(quiz.hasAttemptedRestore, quiz.quizStarted, quiz.questions) {
      quiz.StartQuiz(false, fetch, decode, now);
    }
  }
}
