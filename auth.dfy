/**
 * The authentication context: the signed-in user, registration and login
 * against the users database, and the progress bookkeeping applied to the
 * signed-in member's stored profile (XP, quiz statistics, achievements).
 * Guests have no stored profile, and every bookkeeping operation leaves
 * storage alone for them.
 */
module Auth {
  import opened Wrappers
  import opened Records
  import opened Text
  import opened Levels
  import opened Progression
  import opened Storage

  /** The signed-in identity: a guest display name or a member's profile copy. */
  datatype User = GuestUser(name: string) | Member(profile: Profile) {
    function Username(): string {
      match this
      case GuestUser(n) => n
      case Member(p) => p.username
    }
  }

  /** `{ success: true }` or `{ success: false, error }`. */
  datatype AuthOutcome = Succeeded | Failed(error: string)

  /** Every stored profile sits under its own lower-cased username. */
  predicate UsersKeyed(users: map<string, Profile>) {
    forall k :: k in users ==> ToLower(users[k].username) == k
  }

  /**
   * The lower-case names under which a plain JavaScript object finds a member
   * inherited from `Object.prototype`. A lookup in the users database under one
   * of them is truthy even when no profile is stored there, and that member
   * has no `password`.
   */
  const InheritedKeys: set<string> := {"constructor", "__proto__"}

  /** The profile `register` creates. */
  function NewProfile(username: string, password: string, now: int): (p: Profile)
    ensures p.username == username && p.password == password
    ensures p.xp == 0 && p.level == 1 && p.level == Level(p.xp)
    ensures p.totalQuizzes == 0 && p.totalCorrect == 0 && p.totalQuestions == 0
    ensures p.achievements == [] && p.quizHistory == []
  {
    Profile(username, password, 0, 1, 0, 0, 0, [], [], now, now)
  }

  /** Re-saving the stored profile unchanged leaves storage as it was. */
  lemma ResaveSameProfile(m: Entries, username: string)
    requires ProfileIn(m, username).Some?
    ensures SavedProfile(m, username, ProfileIn(m, username).value) == m
  {
    var users := UsersIn(m);
    assert users[ToLower(username) := users[ToLower(username)]] == users;
  }

  /** A later save of the same user's profile overwrites an earlier one. */
  lemma ResaveOverwrites(m: Entries, username: string, a: Profile, b: Profile)
    ensures SavedProfile(SavedProfile(m, username, a), username, b) == SavedProfile(m, username, b)
  {
    var k := ToLower(username);
    assert UsersIn(SavedProfile(m, username, a)) == UsersIn(m)[k := a];
    assert UsersIn(m)[k := a][k := b] == UsersIn(m)[k := b];
  }

  /** The authentication provider's state, over the shared local storage. */
  class AuthProvider {
    var user: Option<User>
    var isGuest: bool
    var isLoading: bool
    const store: Store

    ghost predicate Valid()
      reads this, store
    {
      UsersKeyed(UsersIn(store.entries))
    }

    constructor (store: Store)
      ensures this.store == store
      ensures user == None && !isGuest && isLoading
    {
      this.store := store;
      user := None;
      isGuest := false;
      isLoading := true;
    }

    /** The users-database key of the signed-in member; none for a guest or when nobody is signed in. */
    function ActiveKey(): Option<string>
      reads this
    {
      if isGuest || user.None? then None else Some(ToLower(user.value.Username()))
    }

    /** The signed-in member's stored profile, if there is one. */
    function ActiveProfile(): Option<Profile>
      reads this, store
    {
      if isGuest || user.None? then None else ProfileIn(store.entries, user.value.Username())
    }

    /** The mount effect: a stored guest session signs the guest in; a member session loads the profile. */
    method RestoreSession()
      modifies this
      ensures !isLoading
      ensures SessionIn(store.entries).None? ==> user == old(user) && isGuest == old(isGuest)
      ensures SessionIn(store.entries).Some? && SessionIn(store.entries).value.isGuest ==>
        isGuest && user == Some(GuestUser(SessionIn(store.entries).value.username))
      ensures SessionIn(store.entries).Some? && !SessionIn(store.entries).value.isGuest ==>
        var found := ProfileIn(store.entries, SessionIn(store.entries).value.username);
        isGuest == old(isGuest) && user == (if found.Some? then Some(Member(found.value)) else old(user))
    {
      var session := store.GetCurrentSession();
      if session.Some? {
        if session.value.isGuest {
          isGuest := true;
          user := Some(GuestUser(session.value.username));
        } else {
          var profile := store.GetUserProfile(session.value.username);
          if profile.Some? {
            user := Some(Member(profile.value));
          }
        }
      }
      isLoading := false;
    }

    /**
     * `register`: refuses a name whose lower case is taken, or is an inherited
     * member of the users object; otherwise stores a fresh profile under the
     * lower-cased name and signs the member in.
     */
    method Register(username: string, password: string, now: int) returns (r: AuthOutcome)
      requires Valid()
      modifies this, store
      ensures Valid()
      ensures ToLower(username) in old(UsersIn(store.entries)) || ToLower(username) in InheritedKeys ==>
        r == Failed("Username already exists") && unchanged(this, store)
      ensures ToLower(username) !in old(UsersIn(store.entries)) && ToLower(username) !in InheritedKeys ==>
        r == Succeeded &&
        store.entries == SavedSession(SavedProfile(old(store.entries), username, NewProfile(username, password, now)),
                                      Session(username, false)) &&
        user == Some(Member(NewProfile(username, password, now))) && !isGuest
    {
      var users := store.GetUsers();
      if ToLower(username) in users || ToLower(username) in InheritedKeys {
        return Failed("Username already exists");
      }
      var profile := NewProfile(username, password, now);
      users := users[ToLower(username) := profile];
      store.SaveUsers(users);
      store.SaveSession(Session(username, false));
      user := Some(Member(profile));
      isGuest := false;
      r := Succeeded;
    }

    /**
     * `login`: an unknown name or a wrong password fails; otherwise the login
     * time is recorded. An inherited member of the users object is found but
     * has no password, so it fails the password comparison.
     */
    method Login(username: string, password: string, now: int) returns (r: AuthOutcome)
      requires Valid()
      modifies this, store
      ensures Valid()
      ensures old(ProfileIn(store.entries, username)).None? && ToLower(username) !in InheritedKeys ==>
        r == Failed("User not found") && unchanged(this, store)
      ensures old(ProfileIn(store.entries, username)).None? && ToLower(username) in InheritedKeys ==>
        r == Failed("Incorrect password") && unchanged(this, store)
      ensures old(ProfileIn(store.entries, username)).Some? &&
              old(ProfileIn(store.entries, username)).value.password != password ==>
        r == Failed("Incorrect password") && unchanged(this, store)
      ensures old(ProfileIn(store.entries, username)).Some? &&
              old(ProfileIn(store.entries, username)).value.password == password ==>
        var p := old(ProfileIn(store.entries, username)).value.(lastLoginAt := now);
        r == Succeeded &&
        store.entries == SavedSession(SavedProfile(old(store.entries), username, p), Session(p.username, false)) &&
        user == Some(Member(p)) && !isGuest
    {
      var users := store.GetUsers();
      var key := ToLower(username);
      if key !in users {
        if key in InheritedKeys {
          return Failed("Incorrect password");
        }
        return Failed("User not found");
      }
      var profile := users[key];
      if profile.password != password {
        return Failed("Incorrect password");
      }
      profile := profile.(lastLoginAt := now);
      users := users[key := profile];
      store.SaveUsers(users);
      store.SaveSession(Session(profile.username, false));
      user := Some(Member(profile));
      isGuest := false;
      r := Succeeded;
    }

    /** `continueAsGuest`: an empty display name becomes "Guest". */
    method ContinueAsGuest(displayName: string) returns (r: AuthOutcome)
      requires Valid()
      modifies this, store
      ensures Valid()
      ensures var name := if displayName == "" then "Guest" else displayName;
        r == Succeeded && isGuest && user == Some(GuestUser(name)) &&
        store.entries == SavedSession(old(store.entries), Session(name, true))
      ensures ActiveProfile().None?
    {
      var name := if displayName == "" then "Guest" else displayName;
      store.SaveSession(Session(name, true));
      user := Some(GuestUser(name));
      isGuest := true;
      r := Succeeded;
    }

    /** `logout`: clears the session and the saved quiz. */
    method Logout()
      requires Valid()
      modifies this, store
      ensures Valid()
      ensures store.entries == ClearedSession(old(store.entries))
      ensures user == None && !isGuest
    {
      store.ClearSession();
      user := None;
      isGuest := false;
    }

    /**
     * `addXP`: nothing for a guest, nobody, or a member without a stored
     * profile; otherwise the stored XP grows by `amount`, the stored level is
     * recomputed, and the level-up report is returned.
     */
    method AddXP(amount: int) returns (report: Option<XPReport>)
      requires Valid()
      modifies this, store
      ensures Valid()
      ensures ActiveKey() == old(ActiveKey())
      ensures old(ActiveProfile()).None? ==> report.None? && unchanged(this, store)
      ensures old(ActiveProfile()).Some? ==>
        var p := old(ActiveProfile()).value;
        report == Some(GainReport(p, amount)) &&
        store.entries == SavedProfile(old(store.entries), old(user).value.Username(), GainXP(p, amount)) &&
        user == Some(Member(GainXP(p, amount))) && isGuest == old(isGuest) &&
        ActiveProfile() == Some(GainXP(p, amount))
    {
      if isGuest || user.None? {
        return None;
      }
      var users := store.GetUsers();
      var key := ToLower(user.value.Username());
      if key !in users {
        return None;
      }
      var profile := users[key];
      var oldLevel := CalculateLevel(profile.xp);
      profile := profile.(xp := profile.xp + amount);
      var newLevel := CalculateLevel(profile.xp);
      profile := profile.(level := newLevel);
      users := users[key := profile];
      store.SaveUsers(users);
      user := Some(Member(profile));
      report := Some(XPReport(amount, profile.xp, newLevel > oldLevel, oldLevel, newLevel));
    }

    /** `updateStats`: records a finished quiz in the member's stored profile. */
    method UpdateStats(o: QuizOutcome, now: int)
      requires Valid()
      modifies this, store
      ensures Valid()
      ensures ActiveKey() == old(ActiveKey())
      ensures old(ActiveProfile()).None? ==> unchanged(this, store)
      ensures old(ActiveProfile()).Some? ==>
        var p := old(ActiveProfile()).value;
        store.entries == SavedProfile(old(store.entries), old(user).value.Username(), RecordQuiz(p, o, now)) &&
        user == Some(Member(RecordQuiz(p, o, now))) && isGuest == old(isGuest) &&
        ActiveProfile() == Some(RecordQuiz(p, o, now))
    {
      if isGuest || user.None? {
        return;
      }
      var users := store.GetUsers();
      var key := ToLower(user.value.Username());
      if key !in users {
        return;
      }
      var profile := RecordQuiz(users[key], o, now);
      users := users[key := profile];
      store.SaveUsers(users);
      user := Some(Member(profile));
    }

    /**
     * The XP penalty the setup page calls for an abandoned quiz: a member's
     * stored profile loses `amount` XP, floored at zero, and its level is
     * recomputed; without a stored profile nothing changes.
     */
    method SubtractXP(amount: nat)
      requires Valid()
      modifies this, store
      ensures Valid()
      ensures ActiveKey() == old(ActiveKey())
      ensures old(ActiveProfile()).None? ==> unchanged(this, store)
      ensures old(ActiveProfile()).Some? ==>
        var p := old(ActiveProfile()).value;
        store.entries == SavedProfile(old(store.entries), old(user).value.Username(), DeductXP(p, amount)) &&
        user == Some(Member(DeductXP(p, amount))) && isGuest == old(isGuest) &&
        ActiveProfile() == Some(DeductXP(p, amount))
    {
      if isGuest || user.None? {
        return;
      }
      var users := store.GetUsers();
      var key := ToLower(user.value.Username());
      if key !in users {
        return;
      }
      var profile := DeductXP(users[key], amount);
      users := users[key := profile];
      store.SaveUsers(users);
      user := Some(Member(profile));
    }

    /**
     * `unlockAchievement`: true exactly when a member's stored profile exists
     * and does not hold `id` yet; then one entry with that id is appended.
     */
    method UnlockAchievement(id: string, title: string, now: int) returns (unlocked: bool)
      requires Valid()
      modifies this, store
      ensures Valid()
      ensures ActiveKey() == old(ActiveKey())
      ensures unlocked <==> old(ActiveProfile()).Some? && !HasAchievement(old(ActiveProfile()).value, id)
      ensures !unlocked ==> unchanged(this, store)
      ensures old(ActiveProfile()).Some? ==>
        var q := Unlock(old(ActiveProfile()).value, id, title, now);
        store.entries == SavedProfile(old(store.entries), old(user).value.Username(), q) &&
        ActiveProfile() == Some(q) && isGuest == old(isGuest)
    {
      if isGuest || user.None? {
        return false;
      }
      var users := store.GetUsers();
      var key := ToLower(user.value.Username());
      if key !in users {
        return false;
      }
      var profile := users[key];
      if HasAchievement(profile, id) {
        ResaveSameProfile(store.entries, user.value.Username());
        return false;
      }
      profile := profile.(achievements := profile.achievements + [Achievement(id, title, now)]);
      users := users[key := profile];
      store.SaveUsers(users);
      user := Some(Member(profile));
      unlocked := true;
    }

    /**
     * `checkAchievements`: evaluates the rule table in order against the
     * stored profile and returns only the achievements this call unlocked.
     */
    method CheckAchievements(correct: int, total: int, now: int) returns (earned: seq<AchievementRule>)
      requires Valid()
      modifies this, store
      ensures Valid()
      ensures ActiveKey() == old(ActiveKey())
      ensures old(ActiveProfile()).None? ==> earned == [] && unchanged(this, store)
      ensures old(ActiveProfile()).Some? ==>
        var r := Sweep(old(ActiveProfile()).value, AchievementRules, correct, total, now);
        earned == r.earned &&
        store.entries == SavedProfile(old(store.entries), old(user).value.Username(), r.profile) &&
        ActiveProfile() == Some(r.profile) && isGuest == old(isGuest)
    {
      earned := [];
      if isGuest || user.None? {
        return;
      }
      var users := store.GetUsers();
      var key := ToLower(user.value.Username());
      if key !in users {
        return;
      }
      var base := users[key];
      ghost var name := user.value.Username();
      ResaveSameProfile(store.entries, name);
      assert AchievementRules[..0] == [];
      for i := 0 to |AchievementRules|
        invariant Valid()
        invariant !isGuest && user.Some? && ToLower(user.value.Username()) == key
        invariant var r := Sweep(base, AchievementRules[..i], correct, total, now);
          earned == r.earned &&
          store.entries == SavedProfile(old(store.entries), name, r.profile) &&
          ActiveProfile() == Some(r.profile)
      {
        var rule := AchievementRules[i];
        assert AchievementRules[..i + 1][..i] == AchievementRules[..i];
        ghost var prev := Sweep(base, AchievementRules[..i], correct, total, now);
        if rule.Holds(base, correct, total) {
          var ok := UnlockAchievement(rule.Id(), rule.Title(), now);
          ResaveOverwrites(old(store.entries), name, prev.profile,
                           Unlock(prev.profile, rule.Id(), rule.Title(), now));
          if ok {
            earned := earned + [rule];
          }
        }
      }
      assert AchievementRules[..|AchievementRules|] == AchievementRules;
    }
  }
}
