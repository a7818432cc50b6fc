/**
 * The profile page's figures: level, progress and XP to the next level
 * (fixed values for a guest), lifetime accuracy, the level title, and the
 * recent-history list.
 */
module ProfilePage {
  import opened Records
  import opened Percent
  import opened Levels
  import opened Progression
  import opened Auth

  /** `Math.round(totalCorrect / totalQuestions * 100)`, or 0 with no questions answered. */
  function Accuracy(totalCorrect: int, totalQuestions: int): (a: int)
    ensures totalQuestions <= 0 ==> a == 0
    ensures 0 <= totalCorrect <= totalQuestions ==> 0 <= a <= 100
    ensures 0 < totalCorrect == totalQuestions ==> a == 100
    ensures totalCorrect == 0 ==> a == 0
  {
    if totalQuestions > 0 then Percentage(totalCorrect, totalQuestions) else 0
  }

  /**
   * The high-accuracy achievement's 80% implies a displayed accuracy of at
   * least 80, but not the other way round: 159 of 200 shows as 80 while
   * falling short of the achievement's exact 80%.
   */
  lemma AccuracyVersusAchievement(totalCorrect: int, totalQuestions: int)
    requires totalQuestions > 0
    ensures HighAccuracy(totalCorrect, totalQuestions) ==> Accuracy(totalCorrect, totalQuestions) >= 80
    ensures Accuracy(159, 200) == 80 && !HighAccuracy(159, 200)
  {
    PercentageAtLeast(totalCorrect, totalQuestions, 80);
    PercentageAtLeast(159, 200, 80);
    PercentageAtLeast(159, 200, 81);
  }

  /** What the level card and the statistics show. */
  datatype Figures = Figures(level: int, progress: int, xpForNext: int, accuracy: int)

  /**
   * The figures for the signed-in user: a guest always sees level 1,
   * no progress, 100 XP to go and 0% accuracy; a member sees the values
   * computed from the profile.
   */
  function FiguresFor(u: User): (f: Figures)
    ensures u.GuestUser? ==> f == Figures(1, 0, 100, 0)
    ensures u.Member? ==>
      f.level == Level(u.profile.xp) && f.progress == LevelProgress(u.profile.xp) &&
      f.xpForNext == XPForNextLevel(u.profile.xp) &&
      f.accuracy == Accuracy(u.profile.totalCorrect, u.profile.totalQuestions)
    ensures 1 <= f.level <= MaxLevel && f.xpForNext >= 0
    ensures f.xpForNext == 0 <==> f.level == MaxLevel
    ensures u.Member? && u.profile.xp >= 0 ==> 0 <= f.progress <= 100
  {
    match u
    case GuestUser(_) => Figures(1, 0, 100, 0)
    case Member(p) =>
      Figures(Level(p.xp), LevelProgress(p.xp), XPForNextLevel(p.xp), Accuracy(p.totalCorrect, p.totalQuestions))
  }

  /** The titles of levels 1 to 10. */
  const LevelTitles: seq<string> :=
    ["Novice", "Apprentice", "Scholar", "Expert", "Master",
     "Grandmaster", "Champion", "Legend", "Mythic", "Quiz God"]

  /** `getLevelTitle`: the table entry of a level from 1 to 10, "Novice" for anything else. */
  function LevelTitle(level: int): (t: string)
  {
    if 1 <= level <= |LevelTitles| then LevelTitles[level - 1] else "Novice"
  }

  /**
   * Every level a member can have has its own title: distinct levels from 1
   * to 10 never share one, level 1 and any value outside the table are
   * "Novice", and level 10 is "Quiz God".
   */
  lemma LevelTitlesDistinct(a: int, b: int, xp: int, other: int)
    requires 1 <= a <= MaxLevel && 1 <= b <= MaxLevel
    ensures LevelTitle(a) == LevelTitle(b) ==> a == b
    ensures LevelTitle(Level(xp)) == LevelTitles[Level(xp) - 1]
    ensures !(1 <= other <= MaxLevel) ==> LevelTitle(other) == "Novice" == LevelTitle(1)
    ensures LevelTitle(MaxLevel) == "Quiz God"
  {
    assert |LevelTitles| == MaxLevel;
    assert forall i, j :: 0 <= i < j < |LevelTitles| ==> LevelTitles[i] != LevelTitles[j];
  }

  /** The history list: at most the first five entries. */
  function RecentHistory(history: seq<HistoryEntry>): (r: seq<HistoryEntry>)
    ensures |r| <= 5 && |r| <= |history|
    ensures |history| <= 5 ==> r == history
    ensures forall i :: 0 <= i < |r| ==> r[i] == history[i]
  {
    if |history| <= 5 then history else history[..5]
  }

  /** After a quiz is recorded, the list opens with that quiz and continues with the previous first four. */
  lemma RecentHistoryAfterQuiz(p: Profile, o: QuizOutcome, now: int)
    ensures var r := RecentHistory(RecordQuiz(p, o, now).quizHistory);
      |r| > 0 && r[0] == HistoryEntry(now, o.category, o.difficulty, o.correctAnswers, o.totalQuestions, o.xpEarned) &&
      |r| == (if |p.quizHistory| < 4 then |p.quizHistory| + 1 else 5) &&
      r[1..] == RecentHistory(p.quizHistory)[..|r| - 1]
  {
    var h := RecordQuiz(p, o, now).quizHistory;
    var r := RecentHistory(h);
    assert HistoryLimit == 20;
  }
}
