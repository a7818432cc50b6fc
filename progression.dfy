/**
 * The progress-record transitions behind the authentication context: gaining
 * XP, recording a finished quiz, unlocking an achievement once, and sweeping
 * the achievement rule table. The stateful provider applies these to the
 * stored users database.
 */
module Progression {
  import opened Records
  import opened Levels

  /** The report `addXP` returns. */
  datatype XPReport = XPReport(
    xpGained: int,
    newTotalXP: int,
    leveledUp: bool,
    oldLevel: int,
    newLevel: int)

  /** The profile after `amount` XP: the total grows by `amount`, the stored level is recomputed. */
  function GainXP(p: Profile, amount: int): (q: Profile)
  {
    p.(xp := p.xp + amount, level := Level(p.xp + amount))
  }

  /** The level-up report for `amount` XP added to `p`. */
  function GainReport(p: Profile, amount: int): (r: XPReport)
  {
    var oldLevel := Level(p.xp);
    var newLevel := Level(p.xp + amount);
    XPReport(amount, p.xp + amount, newLevel > oldLevel, oldLevel, newLevel)
  }

  /**
   * Gaining XP adds exactly `amount`, stores the level of the new total, and
   * reports a level-up exactly when the new level exceeds the old one; a
   * non-negative gain never lowers the level, and only a positive one raises it.
   */
  lemma GainXPIsExact(p: Profile, amount: int)
    ensures GainXP(p, amount).xp == p.xp + amount
    ensures GainXP(p, amount).level == Level(GainXP(p, amount).xp)
    ensures GainXP(p, amount) == p.(xp := p.xp + amount, level := GainXP(p, amount).level)
    ensures GainReport(p, amount).newTotalXP == GainXP(p, amount).xp
    ensures GainReport(p, amount).newLevel == GainXP(p, amount).level
    ensures GainReport(p, amount).leveledUp <==> GainReport(p, amount).newLevel > Level(p.xp)
    ensures amount >= 0 ==> GainReport(p, amount).newLevel >= GainReport(p, amount).oldLevel
    ensures GainReport(p, amount).leveledUp ==> amount > 0
  {
    if amount >= 0 {
      LevelMonotonic(p.xp, p.xp + amount);
    } else {
      LevelMonotonic(p.xp + amount, p.xp);
    }
  }

  /**
   * The abandon penalty the setup page means to apply: `amount` XP taken
   * away, never below zero, with the stored level recomputed.
   */
  function DeductXP(p: Profile, amount: nat): (q: Profile)
  {
    var xp := if p.xp >= amount then p.xp - amount else 0;
    p.(xp := xp, level := Level(xp))
  }

  /**
   * The penalty takes exactly `amount` unless that would go below zero, in
   * which case XP becomes zero; the level never rises and nothing else changes.
   */
  lemma DeductXPFloors(p: Profile, amount: nat)
    requires p.xp >= 0
    ensures var q := DeductXP(p, amount);
      0 <= q.xp <= p.xp && (q.xp == 0 || q.xp == p.xp - amount) && p.xp - q.xp <= amount &&
      q.level == Level(q.xp) && q.level <= Level(p.xp) &&
      q == p.(xp := q.xp, level := q.level)
    ensures p.xp == 95 && amount == 10 ==> DeductXP(p, amount).xp == 85
    ensures p.xp == 5 && amount == 10 ==> DeductXP(p, amount).xp == 0
  {
    LevelMonotonic(DeductXP(p, amount).xp, p.xp);
  }

  /** What `updateStats` is told about a finished quiz. */
  datatype QuizOutcome = QuizOutcome(
    correctAnswers: int,
    totalQuestions: int,
    category: string,
    difficulty: string,
    xpEarned: int)

  /** At most this many history entries are kept. */
  const HistoryLimit: nat := 20

  /**
   * `updateStats` on a profile: one more quiz, the outcome's counts added to
   * the running totals, and a history entry put first, keeping the newest 20.
   */
  function RecordQuiz(p: Profile, o: QuizOutcome, now: int): (q: Profile)
    ensures q.totalQuizzes == p.totalQuizzes + 1
    ensures q.totalCorrect == p.totalCorrect + o.correctAnswers
    ensures q.totalQuestions == p.totalQuestions + o.totalQuestions
    ensures |q.quizHistory| == if |p.quizHistory| < HistoryLimit then |p.quizHistory| + 1 else HistoryLimit
    ensures q.quizHistory[0] == HistoryEntry(now, o.category, o.difficulty, o.correctAnswers, o.totalQuestions, o.xpEarned)
    ensures forall i :: 1 <= i < |q.quizHistory| ==> q.quizHistory[i] == p.quizHistory[i - 1]
    ensures q.xp == p.xp && q.level == p.level && q.achievements == p.achievements
    ensures q.username == p.username && q.password == p.password
  {
    var entry := HistoryEntry(now, o.category, o.difficulty, o.correctAnswers, o.totalQuestions, o.xpEarned);
    var history := [entry] + p.quizHistory;
    p.(totalQuizzes := p.totalQuizzes + 1,
       totalCorrect := p.totalCorrect + o.correctAnswers,
       totalQuestions := p.totalQuestions + o.totalQuestions,
       quizHistory := if |history| > HistoryLimit then history[..HistoryLimit] else history)
  }

  /** Whether an achievement with identifier `id` is already unlocked. */
  predicate HasAchievement(p: Profile, id: string) {
    exists i :: 0 <= i < |p.achievements| && p.achievements[i].id == id
  }

  /**
   * `unlockAchievement` on a profile: unchanged when `id` is already present,
   * otherwise exactly one entry with that id appended.
   */
  function Unlock(p: Profile, id: string, title: string, now: int): (q: Profile)
    ensures HasAchievement(q, id)
    ensures HasAchievement(p, id) ==> q == p
    ensures !HasAchievement(p, id) ==>
      q == p.(achievements := p.achievements + [Achievement(id, title, now)])
  {
    if HasAchievement(p, id) then p
    else
      var q := p.(achievements := p.achievements + [Achievement(id, title, now)]);
      assert q.achievements[|p.achievements|].id == id;
      q
  }

  /** Unlocking twice is unlocking once: the second call changes nothing. */
  lemma UnlockIdempotent(p: Profile, id: string, title: string, now: int, later: int)
    ensures Unlock(Unlock(p, id, title, now), id, title, later) == Unlock(p, id, title, now)
  {
  }

  /** Unlocking keeps every achievement already present, and adds at most one. */
  lemma UnlockKeeps(p: Profile, id: string, title: string, now: int, other: string)
    ensures HasAchievement(p, other) ==> HasAchievement(Unlock(p, id, title, now), other)
    ensures HasAchievement(Unlock(p, id, title, now), other) ==> HasAchievement(p, other) || other == id
  {
    var q := Unlock(p, id, title, now);
    if HasAchievement(p, other) && !HasAchievement(p, id) {
      var i :| 0 <= i < |p.achievements| && p.achievements[i].id == other;
      assert q.achievements[i].id == other;
    }
  }

  /**
   * `(c / t) * 100 >= 80` on the lifetime totals, with JavaScript's division:
   * for `t == 0` the quotient is Infinity when `c > 0` and NaN when `c == 0`.
   */
  predicate HighAccuracy(c: int, t: int) {
    if t > 0 then 5 * c >= 4 * t
    else if t == 0 then c > 0
    else 5 * c <= 4 * t
  }

  /** The achievement rules, in the order `checkAchievements` evaluates them. */
  datatype AchievementRule =
    | FirstQuiz | PerfectScore | QuizEnthusiast | QuizMaster
    | KnowledgeSeeker | Genius | RisingStar | QuizLegend | HighScorer
  {
    function Id(): string {
      match this
      case FirstQuiz => "first_quiz"
      case PerfectScore => "perfect_score"
      case QuizEnthusiast => "quiz_enthusiast"
      case QuizMaster => "quiz_master"
      case KnowledgeSeeker => "knowledge_seeker"
      case Genius => "genius"
      case RisingStar => "level_5"
      case QuizLegend => "level_10"
      case HighScorer => "high_scorer"
    }

    function Title(): string {
      match this
      case FirstQuiz => "First Steps"
      case PerfectScore => "Perfectionist"
      case QuizEnthusiast => "Quiz Enthusiast"
      case QuizMaster => "Quiz Master"
      case KnowledgeSeeker => "Knowledge Seeker"
      case Genius => "Genius"
      case RisingStar => "Rising Star"
      case QuizLegend => "Quiz Legend"
      case HighScorer => "High Scorer"
    }

    /** The rule's condition on the profile read at the start of the check and this quiz's counts. */
    predicate Holds(p: Profile, correct: int, total: int) {
      match this
      case FirstQuiz => p.totalQuizzes == 1
      case PerfectScore => correct == total
      case QuizEnthusiast => p.totalQuizzes >= 10
      case QuizMaster => p.totalQuizzes >= 50
      case KnowledgeSeeker => p.totalCorrect >= 100
      case Genius => p.totalCorrect >= 500
      case RisingStar => p.level >= 5
      case QuizLegend => p.level >= 10
      case HighScorer => p.totalQuizzes >= 5 && HighAccuracy(p.totalCorrect, p.totalQuestions)
    }
  }

  const AchievementRules: seq<AchievementRule> :=
    [FirstQuiz, PerfectScore, QuizEnthusiast, QuizMaster, KnowledgeSeeker,
     Genius, RisingStar, QuizLegend, HighScorer]

  /** No two rules share an identifier. */
  lemma RuleIdsDistinct(i: int, j: int)
    requires 0 <= i < j < |AchievementRules|
    ensures AchievementRules[i].Id() != AchievementRules[j].Id()
  {
  }

  /** The profile after a sweep over some rules, and the rules it newly unlocked, in order. */
  datatype SweepResult = SweepResult(profile: Profile, earned: seq<AchievementRule>)

  /**
   * `checkAchievements` over `rules`: conditions are read from `base`, and each
   * rule whose condition holds and whose id is not yet unlocked is unlocked
   * and reported.
   */
  function Sweep(base: Profile, rules: seq<AchievementRule>, correct: int, total: int, now: int): (r: SweepResult)
    decreases |rules|
  {
    if rules == [] then SweepResult(base, [])
    else
      var prev := Sweep(base, rules[..|rules| - 1], correct, total, now);
      var rule := rules[|rules| - 1];
      if rule.Holds(base, correct, total) && !HasAchievement(prev.profile, rule.Id()) then
        SweepResult(Unlock(prev.profile, rule.Id(), rule.Title(), now), prev.earned + [rule])
      else prev
  }

  /** Profiles that agree on everything the rule conditions read. */
  predicate SameCounters(p: Profile, q: Profile) {
    p.totalQuizzes == q.totalQuizzes && p.totalCorrect == q.totalCorrect &&
    p.totalQuestions == q.totalQuestions && p.level == q.level
  }

  /**
   * A sweep only appends achievements: every other field is kept, every
   * achievement held before is still held, and an id is held afterwards
   * exactly when it was held before, or its rule holds and is in `rules`.
   */
  lemma {:induction false} SweepEffect(base: Profile, start: Profile, rules: seq<AchievementRule>, correct: int, total: int, now: int, id: string)
    requires start == base
    ensures var q := Sweep(base, rules, correct, total, now).profile;
      q == base.(achievements := q.achievements) &&
      (HasAchievement(q, id) <==>
        HasAchievement(base, id) || exists r :: r in rules && r.Holds(base, correct, total) && r.Id() == id)
    decreases |rules|
  {
    if rules != [] {
      var init := rules[..|rules| - 1];
      var rule := rules[|rules| - 1];
      SweepEffect(base, start, init, correct, total, now, id);
      var prev := Sweep(base, init, correct, total, now);
      UnlockKeeps(prev.profile, rule.Id(), rule.Title(), now, id);
      assert forall r :: r in rules <==> r in init || r == rule;
    }
  }

  /**
   * Every rule a sweep reports was not unlocked before and is unlocked after,
   * its condition holds, and no rule is reported twice.
   */
  lemma {:induction false} SweepReportsOnlyNew(base: Profile, rules: seq<AchievementRule>, correct: int, total: int, now: int)
    ensures var r := Sweep(base, rules, correct, total, now);
      forall i :: 0 <= i < |r.earned| ==>
        r.earned[i] in rules &&
        r.earned[i].Holds(base, correct, total) &&
        !HasAchievement(base, r.earned[i].Id()) &&
        HasAchievement(r.profile, r.earned[i].Id())
    ensures var r := Sweep(base, rules, correct, total, now);
      forall i, j :: 0 <= i < j < |r.earned| ==> r.earned[i].Id() != r.earned[j].Id()
    decreases |rules|
  {
    if rules != [] {
      var init := rules[..|rules| - 1];
      var rule := rules[|rules| - 1];
      SweepReportsOnlyNew(base, init, correct, total, now);
      var prev := Sweep(base, init, correct, total, now);
      assert forall r :: r in init ==> r in rules;
      if rule.Holds(base, correct, total) && !HasAchievement(prev.profile, rule.Id()) {
        var r := Sweep(base, rules, correct, total, now);
        assert r.earned == prev.earned + [rule];
        SweepEffect(base, base, init, correct, total, now, rule.Id());
        forall i | 0 <= i < |prev.earned|
          ensures HasAchievement(r.profile, prev.earned[i].Id())
          ensures prev.earned[i].Id() != rule.Id()
        {
          UnlockKeeps(prev.profile, rule.Id(), rule.Title(), now, prev.earned[i].Id());
        }
      }
    }
  }

  /**
   * A sweep's reported achievements are exactly those whose rule holds and
   * that were not unlocked before, in table order.
   */
  lemma {:induction false} SweepEarnedIff(base: Profile, rules: seq<AchievementRule>, correct: int, total: int, now: int, rule: AchievementRule)
    requires forall i, j :: 0 <= i < j < |rules| ==> rules[i].Id() != rules[j].Id()
    ensures rule in Sweep(base, rules, correct, total, now).earned <==>
      rule in rules && rule.Holds(base, correct, total) && !HasAchievement(base, rule.Id())
    decreases |rules|
  {
    if rules != [] {
      var init := rules[..|rules| - 1];
      var last := rules[|rules| - 1];
      var prev := Sweep(base, init, correct, total, now);
      SweepEarnedIff(base, init, correct, total, now, rule);
      assert rule in rules <==> rule in init || rule == last;
      if rule == last {
        SweepReportsOnlyNew(base, init, correct, total, now);
        SweepEffect(base, base, init, correct, total, now, last.Id());
        assert forall r :: r in init ==> r.Id() != last.Id();
      }
    }
  }

  /**
   * Running the check again on the profile it produced, with the same quiz
   * counts, unlocks and reports nothing.
   */
  lemma {:induction false} SweepAgainEarnsNothing(base: Profile, rules: seq<AchievementRule>, correct: int, total: int, now: int, later: int)
    ensures var once := Sweep(base, rules, correct, total, now);
      Sweep(once.profile, rules, correct, total, later) == SweepResult(once.profile, [])
  {
    var once := Sweep(base, rules, correct, total, now);
    SweepStable(base, once.profile, rules, rules, correct, total, now, later);
  }

  /** Helper for `SweepAgainEarnsNothing`, by induction on a prefix `part` of `rules`. */
  lemma {:induction false} SweepStable(base: Profile, q: Profile, rules: seq<AchievementRule>, part: seq<AchievementRule>,
                                       correct: int, total: int, now: int, later: int)
    requires q == Sweep(base, rules, correct, total, now).profile
    requires forall r :: r in part ==> r in rules
    ensures Sweep(q, part, correct, total, later) == SweepResult(q, [])
    decreases |part|
  {
    if part != [] {
      var init := part[..|part| - 1];
      var rule := part[|part| - 1];
      assert forall r :: r in init ==> r in part;
      SweepStable(base, q, rules, init, correct, total, now, later);
      SweepEffect(base, base, rules, correct, total, now, rule.Id());
    }
  }
}
