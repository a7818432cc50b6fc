/**
 * The countdown shown during a quiz: the once-a-second tick, the redirect
 * when time is up, the `MM:SS` display and the colour state.
 */
module Timer {
  import opened Text
  import opened Navigation
  import opened QuizSession
  import opened Records

  /** The tick's updater: one second less, and straight to zero from one second or less. */
  function NextTime(prev: int): (next: int)
    ensures next >= 0
    ensures prev > 0 ==> next == prev - 1
    ensures prev <= 0 ==> next == 0
  {
    if prev <= 1 then 0 else prev - 1
  }

  /** The time after `n` ticks. */
  function Countdown(t: int, n: nat): int {
    if n == 0 then t else NextTime(Countdown(t, n - 1))
  }

  /** After `n` ticks a non-negative time has gone down by `n`, stopping at zero; `t` ticks reach zero. */
  lemma {:induction false} CountdownReachesZero(t: int, n: nat)
    requires t >= 0
    ensures Countdown(t, n) == if t - n > 0 then t - n else 0
  {
    if n > 0 {
      CountdownReachesZero(t, n - 1);
    }
  }

  /** What the timer does for the current value: redirect to the results, or schedule the next tick. */
  datatype TimerAction = RedirectToResults | ScheduleTick

  function ActionFor(timeRemaining: int): (a: TimerAction)
    ensures a == RedirectToResults <==> timeRemaining <= 0
  {
    if timeRemaining <= 0 then RedirectToResults else ScheduleTick
  }

  /** A started countdown redirects after exactly as many ticks as it has seconds, and not before. */
  lemma RedirectAfterAllTicks(t: int, n: nat)
    requires t >= 0
    ensures ActionFor(Countdown(t, n)) == RedirectToResults <==> n >= t
  {
    CountdownReachesZero(t, n);
  }

  /** One tick of the interval applied to the quiz's time, through the provider's setter. */
  method Tick(quiz: QuizProvider)
    requires quiz.Valid()
    modifies quiz, quiz.store
    ensures quiz.Valid()
    ensures quiz.timeRemaining == NextTime(old(quiz.timeRemaining))
    ensures quiz.questions == old(quiz.questions) && quiz.answers == old(quiz.answers) &&
      quiz.currentIndex == old(quiz.currentIndex) && quiz.score == old(quiz.score)
  {
    quiz.SetTimeRemaining(NextTime(quiz.timeRemaining));
  }

  /** `formatTime`: minutes and seconds, both padded to two digits. */
  function FormatClock(seconds: nat): string {
    PadStart2(Decimal(seconds / 60)) + ":" + PadStart2(Decimal(seconds % 60))
  }

  /** The display reads back as the time it shows, with two-digit seconds below 60. */
  lemma FormatClockReadsBack(seconds: nat)
    ensures var mm := PadStart2(Decimal(seconds / 60));
      var ss := PadStart2(Decimal(seconds % 60));
      FormatClock(seconds) == mm + ":" + ss &&
      AllDigits(mm) && AllDigits(ss) && |mm| >= 2 && |ss| == 2 &&
      DecimalValue(mm) * 60 + DecimalValue(ss) == seconds && DecimalValue(ss) < 60
  {
    var minutes, rest := seconds / 60, seconds % 60;
    assert minutes * 60 + rest == seconds;
    PaddedValue(Decimal(minutes));
    PaddedValue(Decimal(rest));
    DecimalRoundTrip(minutes);
    DecimalRoundTrip(rest);
  }

  /** The full time shows as five minutes. */
  lemma FullTimeShown()
    ensures FormatClock(TotalTime) == "05:00"
  {
    assert TotalTime / 60 == 5 && TotalTime % 60 == 0;
    assert Decimal(5) == "5";
    assert Decimal(0) == "0";
    assert PadStart2("5") == "05";
    assert PadStart2("0") == "00";
  }

  /** `getTimerState`: red and pulsing in the last minute, amber in the second, teal before. */
  datatype TimerState = Critical | Warning | Calm {
    predicate Pulses() {
      this == Critical
    }
  }

  function StateFor(timeRemaining: int): (s: TimerState)
    ensures s == Critical <==> timeRemaining <= 60
    ensures s == Warning <==> 60 < timeRemaining <= 120
    ensures s.Pulses() <==> timeRemaining <= 60
  {
    if timeRemaining <= 60 then Critical else if timeRemaining <= 120 then Warning else Calm
  }
}
