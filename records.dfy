/**
 * The records the quiz application stores and passes around: questions,
 * answer slots, quiz preferences, user profiles, sessions, and the values
 * kept in the browser's key-value storage.
 */
module Records {
  import opened Wrappers

  /** Length of one quiz attempt in seconds (`TOTAL_TIME`). */
  const TotalTime: int := 300

  /** A question as presented: decoded text, its candidate answers in display order, the correct one. */
  datatype Question = Question(
    question: string,
    correctAnswer: string,
    answers: seq<string>,
    category: string,
    difficulty: string)

  /** One answer slot: `None` is `null` (unanswered), `Some(a)` the answer text chosen. */
  type Slot = Option<string>

  /** The category and difficulty chosen for an attempt, with their display names. */
  datatype Preferences = Preferences(
    category: string,
    difficulty: string,
    categoryName: string,
    difficultyName: string)

  const DefaultPreferences: Preferences :=
    Preferences("any", "any", "Any Category", "Any Difficulty")

  /** An unlocked achievement; it is written once and never changed. */
  datatype Achievement = Achievement(id: string, title: string, unlockedAt: int)

  /** One entry of a user's quiz history. */
  datatype HistoryEntry = HistoryEntry(
    date: int,
    category: string,
    difficulty: string,
    score: int,
    total: int,
    xpEarned: int)

  /** A registered user's progress record as kept in the users database. */
  datatype Profile = Profile(
    username: string,
    password: string,
    xp: int,
    level: int,
    totalQuizzes: int,
    totalCorrect: int,
    totalQuestions: int,
    achievements: seq<Achievement>,
    quizHistory: seq<HistoryEntry>,
    createdAt: int,
    lastLoginAt: int)

  /** The signed-in identity kept under the session key. */
  datatype Session = Session(username: string, isGuest: bool)

  /** A value kept in storage, by the kind of data the application writes under each key. */
  datatype Value =
    | QuestionsValue(questions: seq<Question>)
    | IntValue(n: int)
    | SlotsValue(slots: seq<Slot>)
    | PreferencesValue(prefs: Preferences)
    | UsersValue(users: map<string, Profile>)
    | SessionValue(session: Session)
    | TextValue(text: string)

  /** JavaScript truthiness of an optional timestamp: `null` and `0` are falsy. */
  predicate IsTruthyTime(t: Option<int>) {
    t.Some? && t.value != 0
  }
}
