/**
 * The browser's key-value storage as the application uses it: the fixed key
 * names, the saved quiz snapshot, the users database keyed by lower-cased
 * username, and the session record. `Store` holds the map that the
 * operations overwrite key by key; the functions over `Entries` say what
 * each operation leaves behind.
 */
module Storage {
  import opened Wrappers
  import opened Records
  import opened Text

  const UserKey: string := "quizUser"
  const QuestionsKey: string := "quizQuestions"
  const CurrentIndexKey: string := "quizCurrentIndex"
  const AnswersKey: string := "quizAnswers"
  const ScoreKey: string := "quizScore"
  const StartTimeKey: string := "quizStartTime"
  const TimeRemainingKey: string := "quizTimeRemaining"
  const QuizPreferencesKey: string := "quizPreferences"
  const UsersDbKey: string := "quizUsersDB"
  const SessionKey: string := "quizSession"

  /** `Object.values(STORAGE_KEYS)`, in declaration order. */
  const StorageKeys: seq<string> :=
    [UserKey, QuestionsKey, CurrentIndexKey, AnswersKey, ScoreKey, StartTimeKey,
     TimeRemainingKey, QuizPreferencesKey, UsersDbKey, SessionKey]

  /** Account data that clearing quiz data keeps. */
  const PreservedKeys: set<string> := {UserKey, UsersDbKey, SessionKey}

  /** The keys of the saved quiz attempt. */
  const QuizKeys: set<string> :=
    {QuestionsKey, CurrentIndexKey, AnswersKey, ScoreKey, StartTimeKey, TimeRemainingKey, QuizPreferencesKey}

  lemma KeysPartition()
    ensures QuizKeys !! PreservedKeys
    ensures forall k :: k in StorageKeys <==> k in QuizKeys || k in PreservedKeys
  {
  }

  type Entries = map<string, Value>

  /** `getFromStorage`: the stored value, or `null` for an absent key. */
  function Get(m: Entries, key: string): (r: Option<Value>)
    ensures r.None? <==> key !in m
    ensures r.Some? ==> r.value == m[key]
  {
    if key in m then Some(m[key]) else None
  }

  /** Storage after `clearQuizData`: every quiz key removed, everything else kept. */
  function ClearedQuizData(m: Entries): (r: Entries)
    ensures forall k :: k in QuizKeys ==> k !in r
    ensures forall k :: k !in QuizKeys ==> Get(r, k) == Get(m, k)
  {
    m - QuizKeys
  }

  /** Clearing twice is clearing once, and account keys survive it. */
  lemma ClearQuizDataIdempotent(m: Entries)
    ensures ClearedQuizData(ClearedQuizData(m)) == ClearedQuizData(m)
    ensures forall k :: k in PreservedKeys ==> Get(ClearedQuizData(m), k) == Get(m, k)
  {
  }

  /** Clearing the quiz keys leaves the user database alone. */
  lemma ClearKeepsUsers(m: Entries)
    ensures UsersIn(ClearedQuizData(m)) == UsersIn(m)
  {
    assert UsersDbKey !in QuizKeys;
  }

  /** The state `saveQuizState` is given; only a truthy start time and preferences are written. */
  datatype QuizState = QuizState(
    questions: seq<Question>,
    currentIndex: int,
    answers: seq<Slot>,
    score: int,
    timeRemaining: int,
    startTime: Option<int>,
    quizPreferences: Option<Preferences>)

  /** What `loadQuizState` returns: defaults filled in for time and preferences. */
  datatype Snapshot = Snapshot(
    questions: seq<Question>,
    currentIndex: int,
    answers: seq<Slot>,
    score: int,
    timeRemaining: int,
    startTime: Option<int>,
    quizPreferences: Preferences)

  /** Storage after `saveQuizState(s)`. */
  function SavedQuizState(m: Entries, s: QuizState): (r: Entries)
  {
    var m1 := m[QuestionsKey := QuestionsValue(s.questions)]
               [CurrentIndexKey := IntValue(s.currentIndex)]
               [AnswersKey := SlotsValue(s.answers)]
               [ScoreKey := IntValue(s.score)]
               [TimeRemainingKey := IntValue(s.timeRemaining)];
    var m2 := if IsTruthyTime(s.startTime) then m1[StartTimeKey := IntValue(s.startTime.value)] else m1;
    if s.quizPreferences.Some? then m2[QuizPreferencesKey := PreferencesValue(s.quizPreferences.value)] else m2
  }

  /** A stored number (`null` when absent, or when the key holds some other kind of value). */
  function IntAt(m: Entries, key: string): Option<int> {
    if key in m && m[key].IntValue? then Some(m[key].n) else None
  }

  /** `loadQuizState`: `null` unless the questions, index, answers and score are all present. */
  function LoadedQuizState(m: Entries): (r: Option<Snapshot>)
    ensures r.None? <==>
      !(QuestionsKey in m && m[QuestionsKey].QuestionsValue?) || IntAt(m, CurrentIndexKey).None? ||
      !(AnswersKey in m && m[AnswersKey].SlotsValue?) || IntAt(m, ScoreKey).None?
  {
    if QuestionsKey in m && m[QuestionsKey].QuestionsValue? && IntAt(m, CurrentIndexKey).Some? &&
       AnswersKey in m && m[AnswersKey].SlotsValue? && IntAt(m, ScoreKey).Some?
    then
      Some(Snapshot(
        m[QuestionsKey].questions,
        IntAt(m, CurrentIndexKey).value,
        m[AnswersKey].slots,
        IntAt(m, ScoreKey).value,
        IntAt(m, TimeRemainingKey).GetOr(TotalTime),
        IntAt(m, StartTimeKey),
        if QuizPreferencesKey in m && m[QuizPreferencesKey].PreferencesValue?
        then m[QuizPreferencesKey].prefs else DefaultPreferences))
    else None
  }

  /**
   * Saving a state with a truthy start time and preferences, then loading,
   * gives back every field that was saved.
   */
  lemma SaveLoadRoundTrip(m: Entries, s: QuizState)
    requires IsTruthyTime(s.startTime) && s.quizPreferences.Some?
    ensures LoadedQuizState(SavedQuizState(m, s)) ==
      Some(Snapshot(s.questions, s.currentIndex, s.answers, s.score, s.timeRemaining,
                    s.startTime, s.quizPreferences.value))
  {
  }

  /**
   * A falsy start time leaves the stored start time as it was, and absent
   * preferences leave the stored preferences as they were.
   */
  lemma SaveKeepsFalsyFields(m: Entries, s: QuizState)
    ensures !IsTruthyTime(s.startTime) ==> Get(SavedQuizState(m, s), StartTimeKey) == Get(m, StartTimeKey)
    ensures s.quizPreferences.None? ==> Get(SavedQuizState(m, s), QuizPreferencesKey) == Get(m, QuizPreferencesKey)
    ensures forall k :: k !in QuizKeys ==> Get(SavedQuizState(m, s), k) == Get(m, k)
  {
  }

  /** Absent time and preferences load as 300 seconds and the "any" preferences. */
  lemma LoadDefaults(m: Entries)
    requires LoadedQuizState(m).Some?
    ensures TimeRemainingKey !in m ==> LoadedQuizState(m).value.timeRemaining == TotalTime
    ensures QuizPreferencesKey !in m ==> LoadedQuizState(m).value.quizPreferences == DefaultPreferences
  {
  }

  /** Once quiz data is cleared there is nothing to load. */
  lemma ClearedLoadsNothing(m: Entries)
    ensures LoadedQuizState(ClearedQuizData(m)).None?
  {
  }

  /** Writing keys outside the quiz keys does not change what loads. */
  lemma LoadIgnoresOtherKeys(m: Entries, key: string, v: Value)
    requires key !in QuizKeys
    ensures LoadedQuizState(m[key := v]) == LoadedQuizState(m)
    ensures LoadedQuizState(m - {key}) == LoadedQuizState(m)
  {
    assert IntAt(m[key := v], CurrentIndexKey) == IntAt(m, CurrentIndexKey);
  }

  /** `getUsers`: the users database, or an empty one. */
  function UsersIn(m: Entries): map<string, Profile> {
    if UsersDbKey in m && m[UsersDbKey].UsersValue? then m[UsersDbKey].users else map[]
  }

  /** `getUserProfile`: looked up by the lower-cased name. */
  function ProfileIn(m: Entries, username: string): Option<Profile> {
    var users := UsersIn(m);
    var key := ToLower(username);
    if key in users then Some(users[key]) else None
  }

  /** Storage after `saveUserProfile(username, profile)`. */
  function SavedProfile(m: Entries, username: string, profile: Profile): Entries {
    m[UsersDbKey := UsersValue(UsersIn(m)[ToLower(username) := profile])]
  }

  /**
   * Profiles are keyed case-insensitively: after saving under one spelling the
   * profile is found under every spelling with the same lower case, and every
   * other user is unchanged.
   */
  lemma ProfileLookupIgnoresCase(m: Entries, username: string, profile: Profile, other: string)
    ensures ToLower(other) == ToLower(username) ==> ProfileIn(SavedProfile(m, username, profile), other) == Some(profile)
    ensures ToLower(other) != ToLower(username) ==> ProfileIn(SavedProfile(m, username, profile), other) == ProfileIn(m, other)
    ensures LoadedQuizState(SavedProfile(m, username, profile)) == LoadedQuizState(m)
  {
    LoadIgnoresOtherKeys(m, UsersDbKey, UsersValue(UsersIn(m)[ToLower(username) := profile]));
  }

  /** The current session record, if one is stored. */
  function SessionIn(m: Entries): Option<Session> {
    if SessionKey in m && m[SessionKey].SessionValue? then Some(m[SessionKey].session) else None
  }

  /** Storage after `saveSession(s)`: the session and the legacy user key. */
  function SavedSession(m: Entries, s: Session): Entries {
    m[SessionKey := SessionValue(s)][UserKey := TextValue(s.username)]
  }

  /** Storage after `clearSession()`. */
  function ClearedSession(m: Entries): Entries {
    ClearedQuizData(m - {SessionKey, UserKey})
  }

  /** Saving a session writes both session keys and nothing else; clearing removes them and the quiz. */
  lemma SessionKeys(m: Entries, s: Session)
    ensures SessionIn(SavedSession(m, s)) == Some(s)
    ensures Get(SavedSession(m, s), UserKey) == Some(TextValue(s.username))
    ensures forall k :: k != SessionKey && k != UserKey ==> Get(SavedSession(m, s), k) == Get(m, k)
    ensures SessionIn(ClearedSession(m)).None? && UserKey !in ClearedSession(m)
    ensures LoadedQuizState(ClearedSession(m)).None?
    ensures UsersIn(ClearedSession(m)) == UsersIn(m)
  {
  }

  /** The browser's local storage. */
  class Store {
    var entries: Entries

    constructor ()
      ensures entries == map[]
    {
      entries := map[];
    }

    /** `getFromStorage(key)`. */
    function GetFromStorage(key: string): Option<Value>
      reads this
    {
      Get(entries, key)
    }

    /** `saveToStorage(key, value)`. */
    method SaveToStorage(key: string, v: Value)
      modifies this
      ensures entries == old(entries)[key := v]
    {
      entries := entries[key := v];
    }

    /** `removeFromStorage(key)`. */
    method RemoveFromStorage(key: string)
      modifies this
      ensures entries == old(entries) - {key}
    {
      entries := entries - {key};
    }

    /** `clearQuizData`: removes, one by one, every storage key that is not account data. */
    method ClearQuizData()
      modifies this
      ensures entries == ClearedQuizData(old(entries))
    {
      KeysPartition();
      for i := 0 to |StorageKeys|
        invariant entries == old(entries) - (set j | 0 <= j < i && StorageKeys[j] !in PreservedKeys :: StorageKeys[j])
      {
        var key := StorageKeys[i];
        if key !in PreservedKeys {
          RemoveFromStorage(key);
        }
      }
      assert (set j | 0 <= j < |StorageKeys| && StorageKeys[j] !in PreservedKeys :: StorageKeys[j]) == QuizKeys;
    }

    /** `saveQuizState(state)`. */
    method SaveQuizState(s: QuizState)
      modifies this
      ensures entries == SavedQuizState(old(entries), s)
    {
      SaveToStorage(QuestionsKey, QuestionsValue(s.questions));
      SaveToStorage(CurrentIndexKey, IntValue(s.currentIndex));
      SaveToStorage(AnswersKey, SlotsValue(s.answers));
      SaveToStorage(ScoreKey, IntValue(s.score));
      SaveToStorage(TimeRemainingKey, IntValue(s.timeRemaining));
      if IsTruthyTime(s.startTime) {
        SaveToStorage(StartTimeKey, IntValue(s.startTime.value));
      }
      if s.quizPreferences.Some? {
        SaveToStorage(QuizPreferencesKey, PreferencesValue(s.quizPreferences.value));
      }
    }

    /** `loadQuizState()`. */
    function LoadQuizState(): Option<Snapshot>
      reads this
    {
      LoadedQuizState(entries)
    }

    /** `getUsers()`. */
    function GetUsers(): map<string, Profile>
      reads this
    {
      UsersIn(entries)
    }

    /** `saveUsers(users)`. */
    method SaveUsers(users: map<string, Profile>)
      modifies this
      ensures entries == old(entries)[UsersDbKey := UsersValue(users)]
    {
      SaveToStorage(UsersDbKey, UsersValue(users));
    }

    /** `getUserProfile(username)`. */
    function GetUserProfile(username: string): Option<Profile>
      reads this
    {
      ProfileIn(entries, username)
    }

    /** `saveUserProfile(username, profile)`. */
    method SaveUserProfile(username: string, profile: Profile)
      modifies this
      ensures entries == SavedProfile(old(entries), username, profile)
    {
      var users := GetUsers();
      users := users[ToLower(username) := profile];
      SaveUsers(users);
    }

    /** `getCurrentSession()`. */
    function GetCurrentSession(): Option<Session>
      reads this
    {
      SessionIn(entries)
    }

    /** `saveSession(session)`. */
    method SaveSession(s: Session)
      modifies this
      ensures entries == SavedSession(old(entries), s)
    {
      SaveToStorage(SessionKey, SessionValue(s));
      SaveToStorage(UserKey, TextValue(s.username));
    }

    /** `clearSession()`. */
    method ClearSession()
      modifies this
      ensures entries == ClearedSession(old(entries))
    {
      RemoveFromStorage(SessionKey);
      RemoveFromStorage(UserKey);
      ClearQuizData();
    }
  }
}
