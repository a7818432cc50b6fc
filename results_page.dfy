/**
 * The results page: the score percentage, the XP a finished quiz earns, the
 * rank and per-quiz badges shown, and the one-time processing that credits
 * a signed-in member's profile (XP, statistics, achievements).
 */
module ResultsPage {
  import opened Wrappers
  import opened Records
  import opened Percent
  import opened Levels
  import opened Progression
  import opened Storage
  import opened Attempt
  import opened Auth
  import opened QuizSession

  /** Ten XP per correct answer, plus 20 at a rounded score of 80% or more, or 10 at 60% or more. */
  function XPEarned(correct: int, total: int): (xp: int)
    requires total > 0
  {
    var percentage := Percentage(correct, total);
    10 * correct + (if percentage >= 80 then 20 else if percentage >= 60 then 10 else 0)
  }

  /** The XP is ten per correct answer plus a bonus of 0, 10 or 20. */
  lemma XPEarnedBounds(correct: int, total: int)
    requires total > 0
    ensures var bonus := XPEarned(correct, total) - 10 * correct;
      bonus == 0 || bonus == 10 || bonus == 20
  {
  }

  /** Seven of ten earn 70 plus the 10 bonus, ten of ten 100 plus 20, three of ten no bonus. */
  lemma XPEarnedExamples()
    ensures XPEarned(7, 10) == 80 && XPEarned(10, 10) == 120 && XPEarned(3, 10) == 30
  {
    assert Percentage(7, 10) == 70;
    assert Percentage(10, 10) == 100;
    assert Percentage(3, 10) == 30;
  }

  /**
   * The bonus bands in terms of the counts themselves: the rounded
   * percentage reaches 80 exactly when `200 * correct >= 159 * total`, and 60
   * exactly when `200 * correct >= 119 * total`.
   */
  lemma XPEarnedBands(correct: int, total: int)
    requires total > 0
    ensures XPEarned(correct, total) == 10 * correct + 20 <==> 200 * correct >= 159 * total
    ensures XPEarned(correct, total) == 10 * correct + 10 <==> 119 * total <= 200 * correct < 159 * total
    ensures XPEarned(correct, total) == 10 * correct <==> 200 * correct < 119 * total
  {
    PercentageAtLeast(correct, total, 80);
    PercentageAtLeast(correct, total, 60);
  }

  /** More correct answers out of the same total never earn less XP. */
  lemma XPEarnedMonotonic(c1: int, c2: int, total: int)
    requires total > 0 && c1 <= c2
    ensures XPEarned(c1, total) <= XPEarned(c2, total)
  {
    XPEarnedBands(c1, total);
    XPEarnedBands(c2, total);
  }

  /** The rank titles, best first. */
  datatype Rank = QuizChampion | QuizExpert | RisingStarRank | QuickLearner | GettingStarted {
    function Title(): string {
      match this
      case QuizChampion => "Quiz Champion"
      case QuizExpert => "Quiz Expert"
      case RisingStarRank => "Rising Star"
      case QuickLearner => "Quick Learner"
      case GettingStarted => "Getting Started"
    }

    /** Position from the bottom: Getting Started is 0, Quiz Champion 4. */
    function Standing(): int {
      match this
      case QuizChampion => 4
      case QuizExpert => 3
      case RisingStarRank => 2
      case QuickLearner => 1
      case GettingStarted => 0
    }
  }

  /** The lowest percentage that reaches each rank. */
  function RankFloor(r: Rank): int {
    match r
    case QuizChampion => 90
    case QuizExpert => 80
    case RisingStarRank => 70
    case QuickLearner => 50
    case GettingStarted => 0
  }

  /** `getRank`: the first band, from the top, whose floor the percentage reaches. */
  function RankFor(percentage: int): (r: Rank)
    ensures r != GettingStarted ==> percentage >= RankFloor(r)
    ensures forall s: Rank :: s.Standing() > r.Standing() && s != GettingStarted ==> percentage < RankFloor(s)
  {
    if percentage >= 90 then QuizChampion
    else if percentage >= 80 then QuizExpert
    else if percentage >= 70 then RisingStarRank
    else if percentage >= 50 then QuickLearner
    else GettingStarted
  }

  /** A higher percentage never gives a lower rank. */
  lemma RankMonotonic(p: int, q: int)
    requires p <= q
    ensures RankFor(p).Standing() <= RankFor(q).Standing()
  {
  }

  /** The per-quiz badges. */
  datatype Badge = PerfectScoreBadge | SharpShooter | OnFire | Completionist

  /** The badges for this quiz, in display order. */
  function Badges(percentage: int, correct: int, answered: int, total: int): (bs: seq<Badge>)
    ensures PerfectScoreBadge in bs <==> percentage == 100
    ensures SharpShooter in bs <==> percentage >= 80
    ensures OnFire in bs <==> correct >= 5
    ensures Completionist in bs <==> answered == total
    ensures forall i, j :: 0 <= i < j < |bs| ==> bs[i] != bs[j]
  {
    (if percentage == 100 then [PerfectScoreBadge] else []) +
    (if percentage >= 80 then [SharpShooter] else []) +
    (if correct >= 5 then [OnFire] else []) +
    (if answered == total then [Completionist] else [])
  }

  /** A perfect score always comes with the Sharp Shooter badge, and a quiz where every answer was correct earns both. */
  lemma PerfectImpliesSharp(correct: int, total: int, answered: int)
    requires total > 0 && correct == total
    ensures var bs := Badges(Percentage(correct, total), correct, answered, total);
      PerfectScoreBadge in bs && SharpShooter in bs
  {
  }

  /** The category and difficulty labels written into the history, falling back when empty. */
  function CategoryLabel(prefs: Preferences): string {
    if prefs.categoryName == "" then "Any Category" else prefs.categoryName
  }

  function DifficultyLabel(prefs: Preferences): string {
    if prefs.difficultyName == "" then "Any Difficulty" else prefs.difficultyName
  }

  /** What processing a finished quiz does to a member's profile, and what it reports. */
  datatype Finalization = Finalization(profile: Profile, report: XPReport, earned: seq<AchievementRule>)

  /**
   * XP first, then the statistics, then the achievement check on the
   * updated profile.
   */
  function Finalize(p: Profile, correct: int, total: int, prefs: Preferences, now: int): (f: Finalization)
    requires total > 0
  {
    var xp := XPEarned(correct, total);
    var gained := GainXP(p, xp);
    var recorded := RecordQuiz(gained, QuizOutcome(correct, total, CategoryLabel(prefs), DifficultyLabel(prefs), xp), now);
    var swept := Sweep(recorded, AchievementRules, correct, total, now);
    Finalization(swept.profile, GainReport(p, xp), swept.earned)
  }

  /**
   * After processing, the profile holds exactly the earned XP, the level of
   * its new total, one more quiz with its counts, the new history entry
   * first, and every achievement it had; "First Steps" is reported exactly
   * for a first quiz not yet rewarded, and "Perfectionist" exactly for an
   * all-correct quiz not yet rewarded.
   */
  lemma {:induction false} FinalizeEffects(p: Profile, correct: int, total: int, prefs: Preferences, now: int)
    requires total > 0
    ensures var f := Finalize(p, correct, total, prefs, now);
      f.profile.xp == p.xp + XPEarned(correct, total) &&
      f.profile.level == Level(f.profile.xp) &&
      f.profile.totalQuizzes == p.totalQuizzes + 1 &&
      f.profile.totalCorrect == p.totalCorrect + correct &&
      f.profile.totalQuestions == p.totalQuestions + total &&
      |f.profile.quizHistory| > 0 && f.profile.quizHistory[0] ==
        HistoryEntry(now, CategoryLabel(prefs), DifficultyLabel(prefs), correct, total, XPEarned(correct, total)) &&
      f.report.newTotalXP == f.profile.xp
    ensures var f := Finalize(p, correct, total, prefs, now);
      forall id :: HasAchievement(p, id) ==> HasAchievement(f.profile, id)
    ensures var f := Finalize(p, correct, total, prefs, now);
      (FirstQuiz in f.earned <==> p.totalQuizzes == 0 && !HasAchievement(p, "first_quiz")) &&
      (PerfectScore in f.earned <==> correct == total && !HasAchievement(p, "perfect_score"))
  {
    var xp := XPEarned(correct, total);
    var gained := GainXP(p, xp);
    var recorded := RecordQuiz(gained, QuizOutcome(correct, total, CategoryLabel(prefs), DifficultyLabel(prefs), xp), now);
    var swept := Sweep(recorded, AchievementRules, correct, total, now);
    GainXPIsExact(p, xp);
    assert forall id :: HasAchievement(recorded, id) == HasAchievement(p, id);
    forall id | HasAchievement(p, id)
      ensures HasAchievement(swept.profile, id)
    {
      SweepEffect(recorded, recorded, AchievementRules, correct, total, now, id);
    }
    SweepEffect(recorded, recorded, AchievementRules, correct, total, now, "first_quiz");
    forall i, j | 0 <= i < j < |AchievementRules|
      ensures AchievementRules[i].Id() != AchievementRules[j].Id()
    {
      RuleIdsDistinct(i, j);
    }
    SweepEarnedIff(recorded, AchievementRules, correct, total, now, FirstQuiz);
    SweepEarnedIff(recorded, AchievementRules, correct, total, now, PerfectScore);
  }

  /** The results page's processing latch and what it shows. */
  class ResultsView {
    var hasProcessed: bool
    var xpResult: Option<XPReport>
    var newAchievements: seq<AchievementRule>
    var showLevelUp: bool

    constructor ()
      ensures !hasProcessed && xpResult == None && newAchievements == [] && !showLevelUp
    {
      hasProcessed := false;
      xpResult := None;
      newAchievements := [];
      showLevelUp := false;
    }

    /** The effect that clears the saved attempt once results are shown. */
    method ClearSavedAttempt(quiz: QuizProvider)
      requires quiz.Valid()
      modifies quiz.store
      ensures quiz.Valid()
      ensures quiz.store.entries ==
        if |quiz.questions| > 0 then ClearedQuizData(old(quiz.store.entries)) else old(quiz.store.entries)
      ensures |quiz.questions| > 0 ==> !quiz.HasActiveQuiz()
    {
      if |quiz.questions| > 0 {
        quiz.store.ClearQuizData();
        ClearedLoadsNothing(old(quiz.store.entries));
      }
    }

    /**
     * The processing effect: runs once, only with questions, and only credits
     * a signed-in member; the profile ends up as `Finalize` describes.
     */
    method ProcessResults(auth: AuthProvider, quiz: QuizProvider, now: int)
      requires auth.Valid() && quiz.Valid() && auth.store == quiz.store
      modifies this, auth, auth.store
      ensures auth.Valid() && quiz.Valid()
      ensures old(hasProcessed) || |quiz.questions| == 0 ==> unchanged(this, auth, auth.store)
      ensures !old(hasProcessed) && |quiz.questions| > 0 ==> hasProcessed
      ensures !old(hasProcessed) && |quiz.questions| > 0 && old(auth.ActiveProfile()).Some? ==>
        var f := Finalize(old(auth.ActiveProfile()).value, quiz.score, |quiz.questions|, quiz.quizPreferences, now);
        auth.ActiveProfile() == Some(f.profile) &&
        auth.store.entries == SavedProfile(old(auth.store.entries), old(auth.user).value.Username(), f.profile) &&
        xpResult == Some(f.report) && newAchievements == f.earned &&
        showLevelUp == (old(showLevelUp) || f.report.leveledUp)
      ensures !old(hasProcessed) && |quiz.questions| > 0 && old(auth.ActiveProfile()).None? ==>
        auth.store.entries == old(auth.store.entries) && auth.ActiveProfile().None?
    {
      if hasProcessed || |quiz.questions| == 0 {
        return;
      }
      hasProcessed := true;
      if !auth.isGuest && auth.user.Some? {
        var results := quiz.GetResults();
        var info, earned := Credit(auth, results.correctAnswers, results.totalQuestions, quiz.quizPreferences, now);
        xpResult := info;
        if info.Some? && info.value.leveledUp {
          showLevelUp := true;
        }
        newAchievements := earned;
        if old(auth.ActiveProfile()).Some? {
          ProfileSaveKeepsAttempt(old(auth.store.entries), old(auth.user).value.Username(),
            Finalize(old(auth.ActiveProfile()).value, quiz.score, |quiz.questions|, quiz.quizPreferences, now).profile);
        }
      }
    }
  }

  /**
   * `addXP`, `updateStats` and `checkAchievements` in the order the results
   * page calls them, for a quiz with `correct` right out of `total`.
   */
  method Credit(auth: AuthProvider, correct: int, total: int, prefs: Preferences, now: int)
    returns (report: Option<XPReport>, earned: seq<AchievementRule>)
    requires auth.Valid() && total > 0
    modifies auth, auth.store
    ensures auth.Valid()
    ensures old(auth.ActiveProfile()).None? ==>
      report.None? && earned == [] && auth.store.entries == old(auth.store.entries) && auth.ActiveProfile().None?
    ensures old(auth.ActiveProfile()).Some? ==>
      var f := Finalize(old(auth.ActiveProfile()).value, correct, total, prefs, now);
      auth.ActiveProfile() == Some(f.profile) &&
      auth.store.entries == SavedProfile(old(auth.store.entries), old(auth.user).value.Username(), f.profile) &&
      report == Some(f.report) && earned == f.earned
  {
    var xp := XPEarned(correct, total);
    ghost var m0 := auth.store.entries;
    ghost var p := auth.ActiveProfile();
    ghost var name := if auth.user.Some? then auth.user.value.Username() else "";
    report := auth.AddXP(xp);
    auth.UpdateStats(QuizOutcome(correct, total, CategoryLabel(prefs), DifficultyLabel(prefs), xp), now);
    earned := auth.CheckAchievements(correct, total, now);
    if p.Some? {
      var gained := GainXP(p.value, xp);
      var recorded := RecordQuiz(gained, QuizOutcome(correct, total, CategoryLabel(prefs), DifficultyLabel(prefs), xp), now);
      var swept := Sweep(recorded, AchievementRules, correct, total, now);
      ResaveOverwrites(m0, name, gained, recorded);
      ResaveOverwrites(m0, name, recorded, swept.profile);
    }
  }
}
