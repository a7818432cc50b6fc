/**
 * The login page: the sign-in and guest forms' checks, and the offer to
 * resume a saved attempt that has time left (an expired one is discarded).
 */
module LoginPage {
  import opened Wrappers
  import opened Records
  import opened Text
  import opened Storage
  import opened Auth
  import opened QuizSession
  import opened Navigation

  /** `formatTime` of the resume prompt: unpadded minutes, two-digit seconds. */
  function FormatTime(seconds: nat): string {
    Decimal(seconds / 60) + ":" + PadStart2(Decimal(seconds % 60))
  }

  /** The display reads back as the time it shows; minutes have one digit below ten minutes. */
  lemma FormatTimeReadsBack(seconds: nat)
    ensures var m := Decimal(seconds / 60);
      var ss := PadStart2(Decimal(seconds % 60));
      FormatTime(seconds) == m + ":" + ss &&
      AllDigits(m) && AllDigits(ss) && |ss| == 2 &&
      DecimalValue(m) * 60 + DecimalValue(ss) == seconds && DecimalValue(ss) < 60 &&
      (seconds < 600 <==> |m| == 1)
  {
    var minutes, rest := seconds / 60, seconds % 60;
    assert minutes * 60 + rest == seconds;
    assert seconds < 600 <==> minutes < 10;
    PaddedValue(Decimal(rest));
    DecimalRoundTrip(minutes);
    DecimalRoundTrip(rest);
  }

  /** A minute and five seconds shows as "1:05". */
  lemma FormatTimeExample()
    ensures FormatTime(65) == "1:05"
  {
    assert 65 / 60 == 1 && 65 % 60 == 5;
    assert Decimal(1) == "1";
    assert Decimal(5) == "5";
    assert PadStart2("5") == "05";
  }

  /** What the resume prompt shows. */
  datatype SavedProgress = SavedProgress(
    currentQuestion: int,
    totalQuestions: int,
    timeRemaining: int,
    score: int,
    quizPreferences: Preferences)

  /** The stored attempt has time left at `now`. */
  predicate ResumableAt(m: Entries, now: int) {
    HasActiveQuizIn(m) && ResumedTime(LoadedQuizState(m).value.startTime.value, now) > 0
  }

  /**
   * `checkForSavedProgress`: an active stored attempt with time left is
   * offered for resuming (1-based question number) and kept; an expired one
   * is cleared; without an active attempt nothing happens.
   */
  method CheckForSavedProgress(store: Store, now: int) returns (progress: Option<SavedProgress>)
    modifies store
    ensures progress.Some? <==> ResumableAt(old(store.entries), now)
    ensures progress.Some? ==>
      var s := old(LoadedQuizState(store.entries)).value;
      progress.value == SavedProgress(s.currentIndex + 1, |s.questions|, ResumedTime(s.startTime.value, now),
                                      s.score, s.quizPreferences) &&
      store.entries == old(store.entries)
    ensures progress.None? ==>
      store.entries == if HasActiveQuizIn(old(store.entries)) then ClearedQuizData(old(store.entries)) else old(store.entries)
    ensures progress.None? ==> !HasActiveQuizIn(store.entries)
    ensures progress.Some? ==> HasActiveQuizIn(store.entries)
  {
    var saved := store.LoadQuizState();
    if saved.Some? && |saved.value.questions| > 0 && IsTruthyTime(saved.value.startTime) {
      var s := saved.value;
      var remaining := ResumedTime(s.startTime.value, now);
      if remaining > 0 {
        return Some(SavedProgress(s.currentIndex + 1, |s.questions|, remaining, s.score, s.quizPreferences));
      }
      store.ClearQuizData();
      ClearedLoadsNothing(old(store.entries));
    }
    progress := None;
  }

  /** The sign-in form's checks: a blank username, then an empty password; otherwise the trimmed username. */
  function LoginCheck(username: string, password: string): (r: Result<string, string>)
    ensures r.Success? <==> Trim(username) != "" && password != ""
    ensures r.Success? ==> r.value == Trim(username)
    ensures Trim(username) == "" ==> r == Failure("Please enter your username")
    ensures Trim(username) != "" && password == "" ==> r == Failure("Please enter your password")
  {
    if Trim(username) == "" then Failure("Please enter your username")
    else if password == "" then Failure("Please enter your password")
    else Success(Trim(username))
  }

  /**
   * The guest form's checks on the trimmed name: non-empty, then at least two
   * UTF-16 code units, which one character beyond the Basic Multilingual Plane
   * already makes.
   */
  function GuestNameCheck(name: string): (r: Result<string, string>)
    ensures r.Success? <==> JsLength(Trim(name)) >= 2
    ensures r.Success? ==> r.value == Trim(name) && Trim(r.value) == r.value
    ensures Trim(name) == "" ==> r == Failure("Please enter a display name")
    ensures JsLength(Trim(name)) == 1 ==> r == Failure("Name must be at least 2 characters")
    ensures |Trim(name)| >= 2 ==> r.Success?
  {
    TrimIdempotent(name);
    if Trim(name) == "" then Failure("Please enter a display name")
    else if JsLength(Trim(name)) < 2 then Failure("Name must be at least 2 characters")
    else Success(Trim(name))
  }

  /** A single emoji is two code units, a long enough guest name. */
  lemma EmojiGuestNameAccepted()
    ensures GuestNameCheck("\U{1F600}") == Success("\U{1F600}")
  {
    var name := "\U{1F600}";
    TrimStartOfClean(name);
    TrimEndOfClean(name);
    assert Trim(name) == name;
    JsLengthOfAstral(name);
    assert JsLength(name) == 2;
  }

  /** A single letter, however padded, is too short. */
  lemma LetterGuestNameRefused()
    ensures GuestNameCheck(" a ") == Failure("Name must be at least 2 characters")
  {
    assert TrimStart(" a ") == "a ";
    assert "a "[..1] == "a";
    TrimEndOfClean("a");
    assert TrimEnd("a ") == "a";
    assert Trim(" a ") == "a";
    JsLengthOfBmp("a");
  }

  /** Signing in or saving a guest session leaves the stored attempt as it was. */
  lemma SessionSaveKeepsAttempt(m: Entries, s: Session)
    ensures LoadedQuizState(SavedSession(m, s)) == LoadedQuizState(m)
  {
    KeysPartition();
    assert SessionKey in PreservedKeys && UserKey in PreservedKeys;
    var m1 := m[SessionKey := SessionValue(s)];
    LoadIgnoresOtherKeys(m, SessionKey, SessionValue(s));
    LoadIgnoresOtherKeys(m1, UserKey, TextValue(s.username));
  }

  /** The login page's own state. */
  class LoginView {
    var error: string
    var savedProgress: Option<SavedProgress>
    var showResumeModal: bool

    constructor ()
      ensures error == "" && savedProgress == None && !showResumeModal
    {
      error := "";
      savedProgress := None;
      showResumeModal := false;
    }

    /** After a successful sign-in: prompt to resume, or go to the setup page. */
    method AfterSignIn(store: Store, now: int) returns (nav: Option<Route>)
      modifies this, store
      ensures error == old(error)
      ensures UsersIn(store.entries) == old(UsersIn(store.entries))
      ensures nav.None? <==> ResumableAt(old(store.entries), now)
      ensures nav.None? ==> showResumeModal && savedProgress.Some? && store.entries == old(store.entries)
      ensures nav.Some? ==>
        nav == Some(SetupRoute) && !HasActiveQuizIn(store.entries) &&
        showResumeModal == old(showResumeModal) && savedProgress == old(savedProgress)
    {
      var progress := CheckForSavedProgress(store, now);
      if progress.Some? {
        savedProgress := progress;
        showResumeModal := true;
        nav := None;
      } else {
        ClearKeepsUsers(old(store.entries));
        nav := Some(SetupRoute);
      }
    }

    /** `handleLogin`: checks the form, signs in with the trimmed name, then offers to resume. */
    method HandleLogin(auth: AuthProvider, username: string, password: string, now: int) returns (nav: Option<Route>)
      requires auth.Valid()
      modifies this, auth, auth.store
      ensures auth.Valid()
      ensures LoginCheck(username, password).Failure? ==>
        error == LoginCheck(username, password).error && nav.None? && unchanged(auth, auth.store)
      ensures LoginCheck(username, password).Success? && old(ProfileIn(auth.store.entries, Trim(username))).None? &&
              ToLower(Trim(username)) !in InheritedKeys ==>
        error == "User not found" && nav.None? && unchanged(auth, auth.store)
      ensures LoginCheck(username, password).Success? && old(ProfileIn(auth.store.entries, Trim(username))).None? &&
              ToLower(Trim(username)) in InheritedKeys ==>
        error == "Incorrect password" && nav.None? && unchanged(auth, auth.store)
      ensures LoginCheck(username, password).Success? && old(ProfileIn(auth.store.entries, Trim(username))).Some? &&
              old(ProfileIn(auth.store.entries, Trim(username))).value.password != password ==>
        error == "Incorrect password" && nav.None? && unchanged(auth, auth.store)
      ensures LoginCheck(username, password).Success? && old(ProfileIn(auth.store.entries, Trim(username))).Some? &&
              old(ProfileIn(auth.store.entries, Trim(username))).value.password == password ==>
        error == "" && !auth.isGuest &&
        auth.user == Some(Member(old(ProfileIn(auth.store.entries, Trim(username))).value.(lastLoginAt := now))) &&
        (nav.None? <==> ResumableAt(old(auth.store.entries), now)) &&
        (nav.Some? ==> nav == Some(SetupRoute) && !HasActiveQuizIn(auth.store.entries)) &&
        (nav.None? ==> showResumeModal)
    {
      error := "";
      var check := LoginCheck(username, password);
      if check.Failure? {
        error := check.error;
        return None;
      }
      var result := auth.Login(check.value, password, now);
      if result.Failed? {
        error := result.error;
        return None;
      }
      ghost var p := old(ProfileIn(auth.store.entries, Trim(username))).value.(lastLoginAt := now);
      ghost var m1 := SavedProfile(old(auth.store.entries), check.value, p);
      ProfileSaveKeepsAttempt(old(auth.store.entries), check.value, p);
      SessionSaveKeepsAttempt(m1, Session(p.username, false));
      nav := AfterSignIn(auth.store, now);
      KeysPartition();
      assert UsersDbKey !in QuizKeys;
    }

    /** `handleGuestContinue`: checks the name, continues as a guest under the trimmed name, then offers to resume. */
    method HandleGuestContinue(auth: AuthProvider, guestName: string, now: int) returns (nav: Option<Route>)
      requires auth.Valid()
      modifies this, auth, auth.store
      ensures auth.Valid()
      ensures GuestNameCheck(guestName).Failure? ==>
        error == GuestNameCheck(guestName).error && nav.None? && unchanged(auth, auth.store)
      ensures GuestNameCheck(guestName).Success? ==>
        error == "" && auth.isGuest && auth.user == Some(GuestUser(Trim(guestName))) &&
        (nav.None? <==> ResumableAt(old(auth.store.entries), now)) &&
        (nav.Some? ==> nav == Some(SetupRoute) && !HasActiveQuizIn(auth.store.entries)) &&
        (nav.None? ==> showResumeModal)
    {
      error := "";
      var check := GuestNameCheck(guestName);
      if check.Failure? {
        error := check.error;
        return None;
      }
      var result := auth.ContinueAsGuest(check.value);
      SessionSaveKeepsAttempt(old(auth.store.entries), Session(check.value, true));
      nav := AfterSignIn(auth.store, now);
    }

    /** `handleStartFresh`: discards the saved attempt and goes to the setup page. */
    method HandleStartFresh(store: Store) returns (nav: Route)
      modifies this, store
      ensures store.entries == ClearedQuizData(old(store.entries))
      ensures !HasActiveQuizIn(store.entries)
      ensures !showResumeModal && nav == SetupRoute
    {
      store.ClearQuizData();
      ClearedLoadsNothing(old(store.entries));
      showResumeModal := false;
      nav := SetupRoute;
    }
  }
}
