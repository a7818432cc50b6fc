/**
 * The quiz context: the attempt in progress, its start through the question
 * source, answering, the countdown value, and its persistence in local
 * storage so that a reload resumes it. The save effect that follows every
 * change of the persisted fields is `SaveEffect`, run at the end of each
 * operation that changes one of them.
 */
module QuizSession {
  import opened Wrappers
  import opened Records
  import opened Storage
  import opened Attempt
  import opened QuestionSource
  import opened Text

  const LoadFailedMessage: string := "Failed to load quiz questions. Please try again."

  /** A stored attempt that loads is consistent. */
  predicate StoredConsistent(m: Entries) {
    var s := LoadedQuizState(m);
    s.None? || Consistent(s.value.questions, s.value.currentIndex, s.value.answers, s.value.score)
  }

  /** Saving a state writes its attempt fields, whatever else it writes or keeps. */
  lemma SavedAttemptLoads(m: Entries, s: QuizState)
    ensures LoadedQuizState(SavedQuizState(m, s)).Some?
    ensures var l := LoadedQuizState(SavedQuizState(m, s)).value;
      l.questions == s.questions && l.currentIndex == s.currentIndex &&
      l.answers == s.answers && l.score == s.score && l.timeRemaining == s.timeRemaining
  {
  }

  /** Writing keys outside the quiz keys keeps a stored attempt consistent. */
  lemma StoredConsistentIgnoresOtherKeys(m: Entries, key: string, v: Value)
    requires key !in QuizKeys
    ensures StoredConsistent(m[key := v]) == StoredConsistent(m)
  {
    LoadIgnoresOtherKeys(m, key, v);
  }

  /** Saving a user's profile leaves the stored attempt as it was. */
  lemma ProfileSaveKeepsAttempt(m: Entries, username: string, p: Profile)
    ensures LoadedQuizState(SavedProfile(m, username, p)) == LoadedQuizState(m)
    ensures StoredConsistent(SavedProfile(m, username, p)) == StoredConsistent(m)
  {
    KeysPartition();
    assert UsersDbKey in PreservedKeys;
    LoadIgnoresOtherKeys(m, UsersDbKey, UsersValue(UsersIn(m)[ToLower(username) := p]));
  }

  /** The preferences the quiz setup left in session storage, or the "any" preferences. */
  function SessionPreferences(m: Entries): (p: Preferences)
    ensures QuizPreferencesKey !in m ==> p == DefaultPreferences
  {
    if QuizPreferencesKey in m && m[QuizPreferencesKey].PreferencesValue? then m[QuizPreferencesKey].prefs
    else DefaultPreferences
  }

  /**
   * Seconds left when a saved attempt is resumed: the whole seconds elapsed
   * since its start are taken off the full time, never going below zero.
   */
  function ResumedTime(startTime: int, now: int): (t: int)
    ensures t >= 0
    ensures now >= startTime ==> t <= TotalTime
    ensures now - startTime >= TotalTime * 1000 ==> t == 0
    ensures 0 <= now - startTime < 1000 ==> t == TotalTime
  {
    var elapsedSeconds := (now - startTime) / 1000;
    if TotalTime - elapsedSeconds > 0 then TotalTime - elapsedSeconds else 0
  }

  /** Each further second of elapsed time takes at most one second off the resumed time. */
  lemma ResumedTimeDecreases(startTime: int, now: int)
    ensures ResumedTime(startTime, now + 1000) <= ResumedTime(startTime, now)
    ensures ResumedTime(startTime, now + 1000) >= ResumedTime(startTime, now) - 1
  {
    assert (now + 1000 - startTime) / 1000 == (now - startTime) / 1000 + 1;
  }

  /** A loaded attempt the mount effect resumes: one with a truthy start time. */
  predicate Resumable(s: Option<Snapshot>) {
    s.Some? && IsTruthyTime(s.value.startTime)
  }

  /** The active-quiz summary shown before abandoning. */
  datatype ActiveQuizInfo = ActiveQuizInfo(
    questionsAnswered: int,
    totalQuestions: int,
    score: int,
    preferences: Preferences)

  /** `hasActiveQuiz`: a stored attempt with questions and a truthy start time. */
  predicate HasActiveQuizIn(m: Entries) {
    var s := LoadedQuizState(m);
    s.Some? && |s.value.questions| > 0 && IsTruthyTime(s.value.startTime)
  }

  /** `getActiveQuizInfo`: the stored attempt's counts, or nothing without stored questions. */
  function ActiveQuizInfoIn(m: Entries): (r: Option<ActiveQuizInfo>)
    ensures r.Some? <==> LoadedQuizState(m).Some? && |LoadedQuizState(m).value.questions| > 0
    ensures HasActiveQuizIn(m) ==> r.Some?
    ensures r.Some? ==>
      var s := LoadedQuizState(m).value;
      r.value.totalQuestions == |s.questions| && r.value.score == s.score &&
      r.value.questionsAnswered == AnsweredCount(s.answers) && r.value.preferences == s.quizPreferences
    ensures r.Some? && StoredConsistent(m) ==> 0 <= r.value.score <= r.value.questionsAnswered <= r.value.totalQuestions
  {
    var s := LoadedQuizState(m);
    if s.None? || |s.value.questions| == 0 then None
    else Some(ActiveQuizInfo(AnsweredCount(s.value.answers), |s.value.questions|, s.value.score, s.value.quizPreferences))
  }

  /** The quiz provider's state. */
  class QuizProvider {
    var questions: seq<Question>
    var currentIndex: int
    var answers: seq<Slot>
    var score: int
    var timeRemaining: int
    var isLoading: bool
    var error: Option<string>
    var quizStarted: bool
    var startTime: Option<int>
    var hasAttemptedRestore: bool
    var quizPreferences: Preferences
    var isStarting: bool
    /** Local storage, shared with the authentication provider. */
    const store: Store
    /** Session storage, where the quiz setup leaves the chosen preferences. */
    const sessionStore: Store
    const client: QuestionClient

    /** The attempt in memory is consistent and so is the one in local storage. */
    ghost predicate Valid()
      reads this, store
    {
      Consistent(questions, currentIndex, answers, score) && StoredConsistent(store.entries)
    }

    constructor (store: Store, sessionStore: Store, client: QuestionClient)
      ensures this.store == store && this.sessionStore == sessionStore && this.client == client
      ensures questions == [] && currentIndex == 0 && answers == [] && score == 0
      ensures timeRemaining == TotalTime && !isLoading && error == None && !quizStarted
      ensures startTime == None && !hasAttemptedRestore && quizPreferences == DefaultPreferences && !isStarting
      ensures StoredConsistent(store.entries) ==> Valid()
    {
      this.store := store;
      this.sessionStore := sessionStore;
      this.client := client;
      questions := [];
      currentIndex := 0;
      answers := [];
      score := 0;
      timeRemaining := TotalTime;
      isLoading := false;
      error := None;
      quizStarted := false;
      startTime := None;
      hasAttemptedRestore := false;
      quizPreferences := DefaultPreferences;
      isStarting := false;
    }

    /** The record the save effect writes. */
    function CurrentState(): QuizState
      reads this
    {
      QuizState(questions, currentIndex, answers, score, timeRemaining, startTime, Some(quizPreferences))
    }

    /** The save effect's guard: a started attempt with questions and a truthy start time. */
    predicate ShouldSave()
      reads this
    {
      quizStarted && |questions| > 0 && IsTruthyTime(startTime)
    }

    /** The save effect. */
    method SaveEffect()
      requires Valid()
      modifies store
      ensures Valid()
      ensures store.entries == if ShouldSave() then SavedQuizState(old(store.entries), CurrentState())
                               else old(store.entries)
    {
      if quizStarted && |questions| > 0 && IsTruthyTime(startTime) {
        store.SaveQuizState(CurrentState());
        SavedAttemptLoads(old(store.entries), CurrentState());
      }
    }

    /**
     * The mount effect: a stored attempt with a truthy start time is resumed,
     * its remaining time recomputed from the clock; expired attempts are
     * resumed with zero seconds.
     */
    method RestoreOnMount(now: int)
      requires Valid()
      modifies this, store
      ensures Valid() && hasAttemptedRestore
      ensures isLoading == old(isLoading) && error == old(error) && isStarting == old(isStarting)
      ensures Resumable(old(LoadedQuizState(store.entries))) ==>
        var s := old(LoadedQuizState(store.entries)).value;
        questions == s.questions && currentIndex == s.currentIndex &&
        answers == s.answers && score == s.score &&
        timeRemaining == ResumedTime(s.startTime.value, now) &&
        startTime == s.startTime && quizStarted && quizPreferences == s.quizPreferences &&
        store.entries == if ShouldSave() then SavedQuizState(old(store.entries), CurrentState()) else old(store.entries)
      ensures !Resumable(old(LoadedQuizState(store.entries))) ==>
        questions == old(questions) && currentIndex == old(currentIndex) && answers == old(answers) &&
        score == old(score) && timeRemaining == old(timeRemaining) && startTime == old(startTime) &&
        quizStarted == old(quizStarted) && quizPreferences == old(quizPreferences) &&
        store.entries == old(store.entries)
    {
      var saved := store.LoadQuizState();
      if Resumable(saved) {
        Resume(saved.value, ResumedTime(saved.value.startTime.value, now));
      } else {
        hasAttemptedRestore := true;
      }
    }

    /** Adopts a loaded attempt with a truthy start time and `remaining` seconds left, as the mount effect does. */
    method Resume(s: Snapshot, remaining: int)
      requires Valid() && IsTruthyTime(s.startTime)
      requires Consistent(s.questions, s.currentIndex, s.answers, s.score)
      modifies this, store
      ensures Valid() && hasAttemptedRestore
      ensures isLoading == old(isLoading) && error == old(error) && isStarting == old(isStarting)
      ensures questions == s.questions && currentIndex == s.currentIndex &&
        answers == s.answers && score == s.score &&
        timeRemaining == remaining &&
        startTime == s.startTime && quizStarted && quizPreferences == s.quizPreferences
      ensures store.entries == if ShouldSave() then SavedQuizState(old(store.entries), CurrentState()) else old(store.entries)
    {
      AdoptAttempt(s);
      AdoptClock(s, remaining);
      SaveEffect();
    }

    /** The attempt fields `Resume` adopts. */
    method AdoptAttempt(s: Snapshot)
      requires Valid()
      requires Consistent(s.questions, s.currentIndex, s.answers, s.score)
      modifies this
      ensures Valid()
      ensures questions == s.questions && currentIndex == s.currentIndex && answers == s.answers && score == s.score
      ensures timeRemaining == old(timeRemaining) && startTime == old(startTime) && quizStarted == old(quizStarted)
      ensures quizPreferences == old(quizPreferences) && hasAttemptedRestore == old(hasAttemptedRestore)
      ensures isLoading == old(isLoading) && error == old(error) && isStarting == old(isStarting)
    {
      questions, currentIndex, answers, score := s.questions, s.currentIndex, s.answers, s.score;
    }

    /** The clock, latch and preference fields `Resume` sets. */
    method AdoptClock(s: Snapshot, remaining: int)
      requires Valid()
      modifies this
      ensures Valid() && hasAttemptedRestore && quizStarted
      ensures timeRemaining == remaining && startTime == s.startTime && quizPreferences == s.quizPreferences
      ensures questions == old(questions) && currentIndex == old(currentIndex) && answers == old(answers) && score == old(score)
      ensures isLoading == old(isLoading) && error == old(error) && isStarting == old(isStarting)
    {
      timeRemaining, startTime, quizStarted := remaining, s.startTime, true;
      quizPreferences, hasAttemptedRestore := s.quizPreferences, true;
    }

    /**
     * The synchronous part of `startQuiz` (and, with `force`, of
     * `forceStartNewQuiz`): refused while a start is in flight; otherwise
     * marks the start, clears the error, adopts the session preferences and,
     * when forced, first clears the saved attempt.
     */
    method BeginStart(force: bool) returns (began: bool)
      requires Valid()
      modifies this, store
      ensures Valid()
      ensures began <==> !old(isStarting)
      ensures !began ==> unchanged(this, store)
      ensures began ==>
        isStarting && isLoading && error == None &&
        quizPreferences == SessionPreferences(sessionStore.entries) &&
        questions == old(questions) && currentIndex == old(currentIndex) && answers == old(answers) &&
        score == old(score) && timeRemaining == old(timeRemaining) && startTime == old(startTime) &&
        quizStarted == old(quizStarted) && hasAttemptedRestore == old(hasAttemptedRestore) &&
        var cleared := if force then ClearedQuizData(old(store.entries)) else old(store.entries);
        store.entries == if ShouldSave() then SavedQuizState(cleared, CurrentState()) else cleared
    {
      if isStarting {
        return false;
      }
      if force {
        store.ClearQuizData();
        ClearedLoadsNothing(old(store.entries));
      }
      Latch(SessionPreferences(sessionStore.entries));
      SaveEffect();
      began := true;
    }

    /** The field updates of a start that goes ahead: latched, loading, no error, the given preferences. */
    method Latch(prefs: Preferences)
      modifies this
      ensures isStarting && isLoading && error == None && quizPreferences == prefs
      ensures questions == old(questions) && currentIndex == old(currentIndex) && answers == old(answers)
      ensures score == old(score) && timeRemaining == old(timeRemaining) && startTime == old(startTime)
      ensures quizStarted == old(quizStarted) && hasAttemptedRestore == old(hasAttemptedRestore)
    {
      isStarting, isLoading, error, quizPreferences := true, true, None, prefs;
    }

    /**
     * The part of `startQuiz` after the fetch settles: questions start a
     * fresh attempt at the full time; a failure only records its message.
     * Either way the start is over.
     */
    method FinishStart(r: Result<seq<Question>, string>, now: int)
      requires Valid()
      modifies this, store
      ensures Valid()
      ensures !isLoading && !isStarting && quizPreferences == old(quizPreferences)
      ensures hasAttemptedRestore == old(hasAttemptedRestore)
      ensures r.Success? ==>
        questions == r.value && currentIndex == 0 && answers == Unanswered(|r.value|) && score == 0 &&
        timeRemaining == TotalTime && startTime == Some(now) && quizStarted && error == old(error) &&
        store.entries == if ShouldSave() then SavedQuizState(old(store.entries), CurrentState()) else old(store.entries)
      ensures r.Failure? ==>
        error == Some(if r.error == "" then LoadFailedMessage else r.error) &&
        questions == old(questions) && currentIndex == old(currentIndex) && answers == old(answers) &&
        score == old(score) && timeRemaining == old(timeRemaining) && startTime == old(startTime) &&
        quizStarted == old(quizStarted) && store.entries == old(store.entries)
    {
      match r
      case Success(fetched) =>
        FreshAttempt(fetched, now);
        SaveEffect();
      case Failure(message) =>
        error := Some(if message == "" then LoadFailedMessage else message);
        isLoading := false;
        isStarting := false;
    }

    /** The state updates of a successful start, before the save effect runs. */
    method FreshAttempt(fetched: seq<Question>, now: int)
      modifies this
      ensures Consistent(questions, currentIndex, answers, score)
      ensures questions == fetched && currentIndex == 0 && answers == Unanswered(|fetched|) && score == 0
      ensures timeRemaining == TotalTime && startTime == Some(now) && quizStarted
      ensures !isLoading && !isStarting && error == old(error)
      ensures quizPreferences == old(quizPreferences) && hasAttemptedRestore == old(hasAttemptedRestore)
    {
      UnansweredCounts(fetched, |fetched|);
      questions, currentIndex, answers, score := fetched, 0, Unanswered(|fetched|), 0;
      timeRemaining, startTime, quizStarted := TotalTime, Some(now), true;
      isLoading, isStarting := false, false;
    }

    /**
     * `startQuiz` (or `forceStartNewQuiz` with `force`) with the fetch
     * completed in between; a refused start changes nothing.
     */
    method StartQuiz(force: bool, fetch: string -> QuestionsResponse, decode: string -> string, now: int)
      requires Valid()
      requires store != sessionStore
      modifies this, store, client
      ensures Valid()
      ensures old(isStarting) ==> unchanged(this, store, client)
      ensures !old(isStarting) ==>
        !isLoading && !isStarting && quizPreferences == SessionPreferences(sessionStore.entries) &&
        var plan := Plan(fetch(ApiUrl(10, quizPreferences.category, quizPreferences.difficulty)), old(client.lastResults));
        match plan
        case ServeCached(qs) =>
          questions == qs && answers == Unanswered(|qs|) && score == 0 && currentIndex == 0 &&
          quizStarted && startTime == Some(now) && timeRemaining == TotalTime && error == None
        case MapResults(raws) =>
          |questions| == |raws| && (forall i :: 0 <= i < |raws| ==> MappedFrom(raws[i], questions[i], decode)) &&
          answers == Unanswered(|raws|) && score == 0 && currentIndex == 0 &&
          quizStarted && startTime == Some(now) && timeRemaining == TotalTime && error == None &&
          client.lastResults == Some(questions)
        case Fail(message) =>
          error == Some(if message == "" then LoadFailedMessage else message) &&
          questions == old(questions) && answers == old(answers) && score == old(score) &&
          currentIndex == old(currentIndex) && quizStarted == old(quizStarted)
    {
      var began := BeginStart(force);
      if began {
        var prefs := quizPreferences;
        var url, r := client.FetchQuizQuestions(FetchOptions(Some(prefs.category), Some(prefs.difficulty), None),
                                                fetch, decode, now);
        FinishStart(r, now);
      }
    }

    /**
     * `submitAnswer`: ignored past the last question and for a slot that is
     * not `null`; otherwise records the answer, scores it, and moves on to
     * the next question unless this was the last.
     */
    method SubmitAnswer(answer: string)
      requires Valid()
      modifies this, store
      ensures Valid()
      ensures var i := old(currentIndex);
        var accepted := i < |old(questions)| && old(answers)[i].None?;
        questions == old(questions) && quizStarted == old(quizStarted) && startTime == old(startTime) &&
        timeRemaining == old(timeRemaining) && quizPreferences == old(quizPreferences) &&
        (!accepted ==> unchanged(this, store)) &&
        (accepted ==>
          answers == old(answers)[i := Some(answer)] &&
          score == old(score) + (if answer == questions[i].correctAnswer then 1 else 0) &&
          currentIndex == (if i < |questions| - 1 then i + 1 else i) &&
          AnsweredCount(answers) == AnsweredCount(old(answers)) + 1 &&
          store.entries == if ShouldSave() then SavedQuizState(old(store.entries), CurrentState()) else old(store.entries))
    {
      if currentIndex >= |questions| {
        return;
      }
      if SlotAt(answers, currentIndex) != Null {
        return;
      }
      var isCorrect := answer == questions[currentIndex].correctAnswer;
      FillSlot(questions, answers, currentIndex, answer);
      answers := answers[currentIndex := Some(answer)];
      if isCorrect {
        score := score + 1;
      }
      if currentIndex < |questions| - 1 {
        currentIndex := currentIndex + 1;
      }
      SaveEffect();
    }

    /** `setTimeRemaining`, as the countdown uses it. */
    method SetTimeRemaining(t: int)
      requires Valid()
      modifies this, store
      ensures Valid()
      ensures timeRemaining == t
      ensures questions == old(questions) && currentIndex == old(currentIndex) && answers == old(answers) &&
        score == old(score) && startTime == old(startTime) && quizStarted == old(quizStarted) &&
        quizPreferences == old(quizPreferences) && isStarting == old(isStarting)
      ensures store.entries == if ShouldSave() then SavedQuizState(old(store.entries), CurrentState()) else old(store.entries)
    {
      timeRemaining := t;
      SaveEffect();
    }

    /**
     * `resetQuiz`, and with `resetPreferences` `abandonQuiz`: clears the saved
     * attempt and empties the one in memory.
     */
    method ResetQuiz(resetPreferences: bool)
      requires Valid()
      modifies this, store
      ensures Valid()
      ensures store.entries == ClearedQuizData(old(store.entries))
      ensures questions == [] && currentIndex == 0 && answers == [] && score == 0
      ensures timeRemaining == TotalTime && startTime == None && !quizStarted && error == None
      ensures quizPreferences == if resetPreferences then DefaultPreferences else old(quizPreferences)
      ensures isLoading == old(isLoading) && isStarting == old(isStarting)
      ensures !HasActiveQuizIn(store.entries) && ActiveQuizInfoIn(store.entries).None?
    {
      store.ClearQuizData();
      ClearedLoadsNothing(old(store.entries));
      questions := [];
      currentIndex := 0;
      answers := [];
      score := 0;
      timeRemaining := TotalTime;
      startTime := None;
      quizStarted := false;
      error := None;
      if resetPreferences {
        quizPreferences := DefaultPreferences;
      }
    }

    /** `hasActiveQuiz()`. */
    predicate HasActiveQuiz()
      reads this, store
    {
      HasActiveQuizIn(store.entries)
    }

    /** `getActiveQuizInfo()`. */
    function GetActiveQuizInfo(): Option<ActiveQuizInfo>
      reads this, store
    {
      ActiveQuizInfoIn(store.entries)
    }

    /** `isQuizComplete()`. */
    predicate IsQuizComplete()
      reads this
    {
      IsComplete(questions, currentIndex, answers)
    }

    /** `getResults()`. */
    function GetResults(): Results
      reads this
    {
      ResultsOf(questions, answers, score)
    }
  }

  /**
   * Answering every question of a fresh attempt in order ends with a
   * complete attempt: after the last submission the index is on the last
   * question and its slot is filled.
   */
  lemma LastSubmissionCompletes(questions: seq<Question>, answers: seq<Slot>, score: int, answer: string)
    requires Consistent(questions, |questions| - 1, answers, score) && questions != []
    requires answers[|questions| - 1].None?
    ensures IsComplete(questions, |questions| - 1, answers[|questions| - 1 := Some(answer)])
    ensures !IsComplete(questions, |questions| - 1, answers)
  {
  }

  /** A state that has just been saved resumes to the same attempt, shortened by the time elapsed since its start. */
  lemma SaveThenResume(m: Entries, s: QuizState, now: int)
    requires IsTruthyTime(s.startTime) && s.quizPreferences.Some?
    ensures var l := LoadedQuizState(SavedQuizState(m, s));
      l.Some? && IsTruthyTime(l.value.startTime) &&
      l.value.questions == s.questions && l.value.answers == s.answers && l.value.score == s.score &&
      l.value.currentIndex == s.currentIndex && l.value.quizPreferences == s.quizPreferences.value &&
      ResumedTime(l.value.startTime.value, now) == ResumedTime(s.startTime.value, now)
  {
    SaveLoadRoundTrip(m, s);
  }
}
