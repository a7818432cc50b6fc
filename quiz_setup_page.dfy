/**
 * The quiz setup page: choosing a category and difficulty, the
 * availability probe and its warnings, starting (or being asked to abandon
 * the saved attempt first), and the abandon-and-start flow with its XP
 * penalty.
 */
module QuizSetupPage {
  import opened Wrappers
  import opened Records
  import opened Levels
  import opened Progression
  import opened Storage
  import opened Auth
  import opened QuestionSource
  import opened QuizSession
  import opened Navigation

  /** `ABANDON_PENALTY_XP` of the abandon prompt. */
  const AbandonPenaltyXP: nat := 10

  const CategoriesFailedNotice: string := "Failed to load categories. Please try again."

  /**
   * The display name of the first entry whose id is `id`; a missing entry
   * or an empty name gives `fallback` (`find(...)?.name || fallback`).
   */
  function NameById(entries: seq<(string, string)>, id: string, fallback: string): (name: string)
    ensures (forall i :: 0 <= i < |entries| ==> entries[i].0 != id) ==> name == fallback
    ensures forall i :: 0 <= i < |entries| && entries[i].0 == id && (forall j :: 0 <= j < i ==> entries[j].0 != id) ==>
      name == (if entries[i].1 != "" then entries[i].1 else fallback)
    ensures name == fallback || exists i :: 0 <= i < |entries| && entries[i].0 == id && entries[i].1 == name
  {
    if entries == [] then fallback
    else if entries[0].0 == id then (if entries[0].1 != "" then entries[0].1 else fallback)
    else
      var rest := NameById(entries[1..], id, fallback);
      assert forall i :: 1 <= i < |entries| ==> entries[1..][i - 1] == entries[i];
      rest
  }

  function CategoryEntries(categories: seq<Category>): (e: seq<(string, string)>)
    ensures |e| == |categories| && forall i :: 0 <= i < |e| ==> e[i] == (categories[i].id, categories[i].name)
  {
    seq(|categories|, i requires 0 <= i < |categories| => (categories[i].id, categories[i].name))
  }

  function DifficultyEntries(): (e: seq<(string, string)>)
    ensures |e| == |DifficultyLevels| && forall i :: 0 <= i < |e| ==> e[i] == (DifficultyLevels[i].id, DifficultyLevels[i].name)
  {
    seq(|DifficultyLevels|, i requires 0 <= i < |DifficultyLevels| => (DifficultyLevels[i].id, DifficultyLevels[i].name))
  }

  /** The preferences `handleStartQuiz` stores for the current selection. */
  function ChosenPreferences(categories: seq<Category>, category: string, difficulty: string): (p: Preferences)
    ensures p.category == category && p.difficulty == difficulty
  {
    Preferences(category, difficulty,
                NameById(CategoryEntries(categories), category, "Any Category"),
                NameById(DifficultyEntries(), difficulty, "Any Difficulty"))
  }

  /** Known difficulties get their table names; any other id, and an unknown category, get the "Any" names. */
  lemma ChosenNames(categories: seq<Category>, category: string, difficulty: string)
    ensures var p := ChosenPreferences(categories, category, difficulty);
      (difficulty == "easy" ==> p.difficultyName == "Easy") &&
      (difficulty == "medium" ==> p.difficultyName == "Medium") &&
      (difficulty == "hard" ==> p.difficultyName == "Hard") &&
      (difficulty !in {"any", "easy", "medium", "hard"} ==> p.difficultyName == "Any Difficulty") &&
      ((forall i :: 0 <= i < |categories| ==> categories[i].id != category) ==> p.categoryName == "Any Category")
  {
    var e := DifficultyEntries();
    assert e[0].0 == "any" && e[1].0 == "easy" && e[2].0 == "medium" && e[3].0 == "hard";
    assert e[1].1 == "Easy" && e[2].1 == "Medium" && e[3].1 == "Hard";
    var c := CategoryEntries(categories);
    assert forall i :: 0 <= i < |c| ==> c[i].0 == categories[i].id;
  }

  /** With the loaded list, "any" names "Any Category" since that entry comes first. */
  lemma AnyCategoryName(cats: seq<Category>, difficulty: string)
    ensures ChosenPreferences([AnyCategory] + cats, "any", difficulty).categoryName == "Any Category"
  {
    var c := CategoryEntries([AnyCategory] + cats);
    assert c[0] == ("any", "Any Category");
  }

  /** The availability probe runs unless both selectors are "any". */
  predicate ProbeNeeded(category: string, difficulty: string) {
    !(category == "any" && difficulty == "any")
  }

  /** The start button is disabled exactly for a count of zero. */
  predicate StartDisabled(count: Option<int>) {
    count == Some(0)
  }

  /** The limited-questions warning: a known count strictly between 0 and 10. */
  predicate ShowsLimitedWarning(count: Option<int>) {
    count.Some? && 0 < count.value < 10
  }

  /** The no-questions warning: a count of exactly zero. */
  predicate ShowsNoneWarning(count: Option<int>) {
    count == Some(0)
  }

  /**
   * At most one warning shows; the no-questions warning goes with the
   * disabled button; an unknown count (no probe) shows none and leaves
   * start enabled, and "any" category always probes as plentiful.
   */
  lemma AvailabilityNotices(count: Option<int>, difficulty: string, fetch: string -> CountResponse)
    ensures !(ShowsLimitedWarning(count) && ShowsNoneWarning(count))
    ensures ShowsNoneWarning(count) <==> StartDisabled(count)
    ensures count.None? ==> !StartDisabled(count) && !ShowsLimitedWarning(count) && !ShowsNoneWarning(count)
    ensures var any := Some(QuestionCount("any", difficulty, fetch));
      !StartDisabled(any) && !ShowsLimitedWarning(any)
  {
  }

  /** What the abandon prompt continues with once confirmed. */
  datatype PendingAction = StartAction | QuickStartAction

  /** The setup page's own state. */
  class SetupView {
    var categories: seq<Category>
    var selectedCategory: string
    var selectedDifficulty: string
    var questionCount: Option<int>
    var isLoadingCategories: bool
    var isCheckingAvailability: bool
    var error: Option<string>
    var showAbandonModal: bool
    var pendingAction: Option<PendingAction>

    constructor ()
      ensures categories == [] && selectedCategory == "any" && selectedDifficulty == "any"
      ensures questionCount == None && isLoadingCategories && !isCheckingAvailability
      ensures error == None && !showAbandonModal && pendingAction == None
    {
      categories := [];
      selectedCategory := "any";
      selectedDifficulty := "any";
      questionCount := None;
      isLoadingCategories := true;
      isCheckingAvailability := false;
      error := None;
      showAbandonModal := false;
      pendingAction := None;
    }

    /**
     * The mount effect: the categories are shown exactly when the client
     * now holds them in its cache; otherwise the page shows its error.
     */
    method LoadCategories(client: QuestionClient, fetch: string -> CategoriesResponse)
      modifies this, client
      ensures !isLoadingCategories
      ensures client.lastResults == old(client.lastResults)
      ensures client.cachedCategories.Some? ==> categories == client.cachedCategories.value && error == old(error)
      ensures client.cachedCategories.None? ==> categories == old(categories) && error == Some(CategoriesFailedNotice)
      ensures client.cachedCategories.Some? && old(client.cachedCategories).None? ==>
        |categories| > 0 && categories[0] == AnyCategory
      ensures selectedCategory == old(selectedCategory) && selectedDifficulty == old(selectedDifficulty)
      ensures questionCount == old(questionCount) && showAbandonModal == old(showAbandonModal)
      ensures pendingAction == old(pendingAction)
    {
      var r := client.FetchCategories(fetch);
      if r.Success? {
        categories := r.value;
      } else {
        error := Some(CategoriesFailedNotice);
      }
      isLoadingCategories := false;
    }

    /**
     * The availability effect: no probe (and no count) for "any"/"any";
     * otherwise the count `getQuestionCount` gives for the selection.
     */
    method CheckAvailability(fetch: string -> CountResponse)
      modifies this
      ensures questionCount ==
        if ProbeNeeded(selectedCategory, selectedDifficulty) then Some(QuestionCount(selectedCategory, selectedDifficulty, fetch))
        else None
      ensures isCheckingAvailability == (old(isCheckingAvailability) && !ProbeNeeded(selectedCategory, selectedDifficulty))
      ensures categories == old(categories) && selectedCategory == old(selectedCategory)
      ensures selectedDifficulty == old(selectedDifficulty) && error == old(error)
      ensures showAbandonModal == old(showAbandonModal) && pendingAction == old(pendingAction)
    {
      if !ProbeNeeded(selectedCategory, selectedDifficulty) {
        questionCount := None;
        return;
      }
      isCheckingAvailability := true;
      var count := QuestionCount(selectedCategory, selectedDifficulty, fetch);
      questionCount := Some(count);
      isCheckingAvailability := false;
    }

    /** Stores the chosen preferences, then asks about the saved attempt or goes to the quiz. */
    method StoreAndProceed(quiz: QuizProvider, prefs: Preferences, action: PendingAction) returns (nav: Option<Route>)
      requires quiz.Valid() && quiz.store != quiz.sessionStore
      modifies this, quiz.sessionStore
      ensures quiz.Valid()
      ensures quiz.sessionStore.entries == old(quiz.sessionStore.entries)[QuizPreferencesKey := PreferencesValue(prefs)]
      ensures SessionPreferences(quiz.sessionStore.entries) == prefs
      ensures nav.None? <==> quiz.HasActiveQuiz()
      ensures nav.None? ==> showAbandonModal && pendingAction == Some(action)
      ensures nav.Some? ==>
        nav == Some(QuizRoute) && showAbandonModal == old(showAbandonModal) && pendingAction == old(pendingAction)
      ensures categories == old(categories) && selectedCategory == old(selectedCategory)
      ensures selectedDifficulty == old(selectedDifficulty) && questionCount == old(questionCount)
    {
      quiz.sessionStore.SaveToStorage(QuizPreferencesKey, PreferencesValue(prefs));
      if quiz.HasActiveQuiz() {
        pendingAction := Some(action);
        showAbandonModal := true;
        nav := None;
      } else {
        nav := Some(QuizRoute);
      }
    }

    /**
     * `handleStartQuiz`: stores the selection with its display names, then
     * opens the abandon prompt when an attempt is saved, else goes to the quiz.
     */
    method HandleStartQuiz(quiz: QuizProvider) returns (nav: Option<Route>)
      requires quiz.Valid() && quiz.store != quiz.sessionStore
      modifies this, quiz.sessionStore
      ensures quiz.Valid()
      ensures SessionPreferences(quiz.sessionStore.entries) ==
        ChosenPreferences(categories, selectedCategory, selectedDifficulty)
      ensures nav.None? <==> quiz.HasActiveQuiz()
      ensures nav.None? ==> showAbandonModal && pendingAction == Some(StartAction)
      ensures nav.Some? ==> nav == Some(QuizRoute)
      ensures selectedCategory == old(selectedCategory) && selectedDifficulty == old(selectedDifficulty)
    {
      var prefs := ChosenPreferences(categories, selectedCategory, selectedDifficulty);
      nav := StoreAndProceed(quiz, prefs, StartAction);
    }

    /**
     * `handleQuickStart`: both selectors go back to "any" (so the probe
     * clears the count) and the "any" preferences are stored before the same
     * check for a saved attempt.
     */
    method HandleQuickStart(quiz: QuizProvider) returns (nav: Option<Route>)
      requires quiz.Valid() && quiz.store != quiz.sessionStore
      modifies this, quiz.sessionStore
      ensures quiz.Valid()
      ensures selectedCategory == "any" && selectedDifficulty == "any" && questionCount == None
      ensures SessionPreferences(quiz.sessionStore.entries) == DefaultPreferences
      ensures nav.None? <==> quiz.HasActiveQuiz()
      ensures nav.None? ==> showAbandonModal && pendingAction == Some(QuickStartAction)
      ensures nav.Some? ==> nav == Some(QuizRoute)
    {
      selectedCategory := "any";
      selectedDifficulty := "any";
      questionCount := None;
      nav := StoreAndProceed(quiz, DefaultPreferences, QuickStartAction);
    }

    /**
     * `handleAbandonAndStart` as written: for anyone not a guest it calls a
     * `subtractXP` the auth context does not provide, so the handler throws
     * before anything else happens and the saved attempt survives; a guest
     * abandons and goes to the quiz.
     */
    method HandleAbandonAndStartAsWritten(auth: AuthProvider, quiz: QuizProvider) returns (r: Result<Route, string>)
      requires auth.Valid() && quiz.Valid() && auth.store == quiz.store
      modifies this, quiz, quiz.store
      ensures auth.Valid() && quiz.Valid()
      ensures !auth.isGuest ==>
        r == Failure("subtractXP is not a function") && unchanged(this, quiz, quiz.store)
      ensures !auth.isGuest && old(quiz.HasActiveQuiz()) ==> quiz.HasActiveQuiz()
      ensures auth.isGuest ==>
        r == Success(QuizRoute) && !showAbandonModal && !quiz.HasActiveQuiz() &&
        quiz.store.entries == ClearedQuizData(old(quiz.store.entries))
    {
      if !auth.isGuest {
        return Failure("subtractXP is not a function");
      }
      quiz.ResetQuiz(true);
      ClearKeepsUsers(old(quiz.store.entries));
      showAbandonModal := false;
      r := Success(QuizRoute);
    }

    /**
     * `handleAbandonAndStart` as intended: a member loses the abandon
     * penalty (floored at zero, level recomputed), then everyone's saved
     * attempt is discarded with the preferences reset, and the quiz opens.
     */
    method HandleAbandonAndStart(auth: AuthProvider, quiz: QuizProvider) returns (nav: Route)
      requires auth.Valid() && quiz.Valid() && auth.store == quiz.store
      modifies this, auth, quiz, quiz.store
      ensures auth.Valid() && quiz.Valid()
      ensures nav == QuizRoute && !showAbandonModal
      ensures !quiz.HasActiveQuiz() && quiz.questions == [] && !quiz.quizStarted
      ensures quiz.quizPreferences == DefaultPreferences
      ensures old(auth.ActiveProfile()).Some? ==>
        auth.ActiveProfile() == Some(DeductXP(old(auth.ActiveProfile()).value, AbandonPenaltyXP)) &&
        quiz.store.entries == ClearedQuizData(SavedProfile(old(quiz.store.entries), old(auth.user).value.Username(),
                                                            DeductXP(old(auth.ActiveProfile()).value, AbandonPenaltyXP)))
      ensures old(auth.ActiveProfile()).None? ==>
        auth.ActiveProfile().None? && quiz.store.entries == ClearedQuizData(old(quiz.store.entries))
    {
      if !auth.isGuest {
        auth.SubtractXP(AbandonPenaltyXP);
        if old(auth.ActiveProfile()).Some? {
          ProfileSaveKeepsAttempt(old(quiz.store.entries), old(auth.user).value.Username(),
                                  DeductXP(old(auth.ActiveProfile()).value, AbandonPenaltyXP));
        }
      }
      ghost var m1 := quiz.store.entries;
      quiz.ResetQuiz(true);
      ClearKeepsUsers(m1);
      showAbandonModal := false;
      nav := QuizRoute;
    }

    /** `handleContinueExistingQuiz`: closes the prompt and goes back to the saved quiz. */
    method HandleContinueExistingQuiz() returns (nav: Route)
      modifies this
      ensures nav == QuizRoute && !showAbandonModal
      ensures pendingAction == old(pendingAction) && questionCount == old(questionCount)
    {
      showAbandonModal := false;
      nav := QuizRoute;
    }
  }

  /** `getLevelColor`: the badge colour band of a level (the profile page uses the same bands). */
  datatype LevelBand = GoldBand | PurpleBand | TealBand | CyanBand | GrayBand

  function LevelColor(level: int): (b: LevelBand)
    ensures b == GoldBand <==> level >= 9
    ensures b == PurpleBand <==> 7 <= level < 9
    ensures b == TealBand <==> 5 <= level < 7
    ensures b == CyanBand <==> 3 <= level < 5
    ensures b == GrayBand <==> level < 3
  {
    if level >= 9 then GoldBand
    else if level >= 7 then PurpleBand
    else if level >= 5 then TealBand
    else if level >= 3 then CyanBand
    else GrayBand
  }
}
