/**
 * The registration page: a fixed chain of checks on the trimmed username
 * and the two password fields, reporting only the first failure, and
 * registration under the trimmed name when every check passes.
 */
module RegisterPage {
  import opened Wrappers
  import opened Text
  import opened Storage
  import opened Auth
  import opened Navigation

  /** One character of `[a-zA-Z0-9_]`. */
  predicate IsUsernameChar(c: char) {
    'a' <= c <= 'z' || 'A' <= c <= 'Z' || '0' <= c <= '9' || c == '_'
  }

  /** `/^[a-zA-Z0-9_]+$/`: non-empty and made only of those characters. */
  predicate MatchesUsernamePattern(s: string) {
    |s| > 0 && forall i :: 0 <= i < |s| ==> IsUsernameChar(s[i])
  }

  /** Every condition the form requires, independently of the order it checks them in. */
  predicate Acceptable(username: string, password: string, confirm: string) {
    var u := Trim(username);
    3 <= JsLength(u) <= 20 && MatchesUsernamePattern(u) && JsLength(password) >= 4 && password == confirm
  }

  /** `handleSubmit`'s checks, in order, with lengths in UTF-16 code units: the first failing one gives its message; success gives the trimmed name. */
  function ValidateRegistration(username: string, password: string, confirm: string): (r: Result<string, string>)
    ensures r.Success? <==> Acceptable(username, password, confirm)
    ensures r.Success? ==> r.value == Trim(username)
    ensures Trim(username) == "" ==> r == Failure("Please enter a username")
    ensures 0 < JsLength(Trim(username)) < 3 ==> r == Failure("Username must be at least 3 characters")
    ensures JsLength(Trim(username)) > 20 ==> r == Failure("Username must be less than 20 characters")
    ensures 3 <= JsLength(Trim(username)) <= 20 && !MatchesUsernamePattern(Trim(username)) ==>
      r == Failure("Username can only contain letters, numbers, and underscores")
    ensures 3 <= JsLength(Trim(username)) <= 20 && MatchesUsernamePattern(Trim(username)) ==>
      (password == "" ==> r == Failure("Please enter a password")) &&
      (0 < JsLength(password) < 4 ==> r == Failure("Password must be at least 4 characters")) &&
      (JsLength(password) >= 4 && password != confirm ==> r == Failure("Passwords do not match"))
  {
    var u := Trim(username);
    if u == "" then Failure("Please enter a username")
    else if JsLength(u) < 3 then Failure("Username must be at least 3 characters")
    else if JsLength(u) > 20 then Failure("Username must be less than 20 characters")
    else if !MatchesUsernamePattern(u) then Failure("Username can only contain letters, numbers, and underscores")
    else if password == "" then Failure("Please enter a password")
    else if JsLength(password) < 4 then Failure("Password must be at least 4 characters")
    else if password != confirm then Failure("Passwords do not match")
    else Success(u)
  }

  /** A name matching the pattern is ASCII, so its `length` is its number of characters. */
  lemma PatternNameLength(s: string)
    requires MatchesUsernamePattern(s)
    ensures JsLength(s) == |s|
  {
    assert forall i :: 0 <= i < |s| ==> s[i] as int < 0x10000 by {
      forall i | 0 <= i < |s|
        ensures s[i] as int < 0x10000
      {
        assert IsUsernameChar(s[i]);
      }
    }
    JsLengthOfBmp(s);
  }

  /** Letters, digits and underscore are not white space. */
  lemma UsernameCharIsVisible(c: char)
    requires IsUsernameChar(c)
    ensures !IsWhitespace(c)
  {
  }

  /** An accepted name is already trimmed, holds no white space, and has 3 to 20 characters. */
  lemma AcceptedNameIsClean(username: string, password: string, confirm: string)
    ensures var r := ValidateRegistration(username, password, confirm);
      r.Success? ==>
        Trim(r.value) == r.value && 3 <= |r.value| <= 20 &&
        forall i :: 0 <= i < |r.value| ==> !IsWhitespace(r.value[i])
  {
    TrimIdempotent(username);
    var r := ValidateRegistration(username, password, confirm);
    if r.Success? {
      forall i | 0 <= i < |r.value|
        ensures !IsWhitespace(r.value[i])
      {
        UsernameCharIsVisible(r.value[i]);
      }
      PatternNameLength(r.value);
    }
  }

  /** Lengths are UTF-16 code units: two emoji make a password of the required four. */
  lemma TwoEmojiPasswordAccepted()
    ensures ValidateRegistration("abc", "\U{1F600}\U{1F600}", "\U{1F600}\U{1F600}") == Success("abc")
  {
    var name, password := "abc", "\U{1F600}\U{1F600}";
    TrimStartOfClean(name);
    TrimEndOfClean(name);
    assert Trim(name) == name;
    assert MatchesUsernamePattern(name);
    PatternNameLength(name);
    JsLengthOfAstral(password);
    assert JsLength(password) == 4;
  }

  /** An emoji followed by a letter is three code units, long enough for a name, and fails the pattern. */
  lemma EmojiNameFailsPattern()
    ensures ValidateRegistration("\U{1F600}a", "pass", "pass") ==
      Failure("Username can only contain letters, numbers, and underscores")
  {
    var name := "\U{1F600}a";
    TrimStartOfClean(name);
    TrimEndOfClean(name);
    assert Trim(name) == name;
    assert name[..1] == "\U{1F600}";
    JsLengthOfAstral(name[..1]);
    assert JsLength(name) == 3;
    assert !IsUsernameChar(name[0]);
    assert !MatchesUsernamePattern(name);
  }

  /** A name of exactly twenty characters is accepted, although the message for long names says "less than 20". */
  lemma TwentyCharactersAccepted()
    ensures ValidateRegistration("abcdefghij0123456789", "pass", "pass") == Success("abcdefghij0123456789")
  {
    var twenty := "abcdefghij0123456789";
    UsernameCharIsVisible(twenty[0]);
    UsernameCharIsVisible(twenty[19]);
    TrimStartOfClean(twenty);
    TrimEndOfClean(twenty);
    assert Trim(twenty) == twenty;
    assert MatchesUsernamePattern(twenty);
    PatternNameLength(twenty);
    JsLengthOfBmp("pass");
  }

  /**
   * The two names the users object inherits pass the form, so they reach
   * `register`, which finds them taken.
   */
  lemma InheritedNamesPassTheForm()
    ensures ValidateRegistration("constructor", "pass", "pass") == Success("constructor")
    ensures ValidateRegistration("__proto__", "pass", "pass") == Success("__proto__")
    ensures ToLower("constructor") in InheritedKeys && ToLower("__proto__") in InheritedKeys
  {
    var c, u := "constructor", "__proto__";
    UsernameCharIsVisible(c[0]);
    UsernameCharIsVisible(c[10]);
    TrimStartOfClean(c);
    TrimEndOfClean(c);
    assert MatchesUsernamePattern(c);
    PatternNameLength(c);
    UsernameCharIsVisible(u[0]);
    UsernameCharIsVisible(u[8]);
    TrimStartOfClean(u);
    TrimEndOfClean(u);
    assert MatchesUsernamePattern(u);
    PatternNameLength(u);
    JsLengthOfBmp("pass");
    assert ToLower(c) == c;
    assert ToLower(u) == u;
  }

  /** The registration page's own state. */
  class RegisterView {
    var error: string
    var isLoading: bool

    constructor ()
      ensures error == "" && !isLoading
    {
      error := "";
      isLoading := false;
    }

    /**
     * `handleSubmit`: a failed check shows its message and registers nobody;
     * otherwise the trimmed name is registered, leading to the setup page,
     * or the registration error is shown.
     */
    method HandleSubmit(auth: AuthProvider, username: string, password: string, confirm: string, now: int)
      returns (nav: Option<Route>)
      requires auth.Valid()
      modifies this, auth, auth.store
      ensures auth.Valid()
      ensures isLoading == (old(isLoading) && ValidateRegistration(username, password, confirm).Failure?)
      ensures var v := ValidateRegistration(username, password, confirm);
        (v.Failure? ==> error == v.error && nav.None? && unchanged(auth, auth.store)) &&
        (v.Success? && (ToLower(v.value) in old(UsersIn(auth.store.entries)) || ToLower(v.value) in InheritedKeys) ==>
          error == "Username already exists" && nav.None? && unchanged(auth, auth.store)) &&
        (v.Success? && ToLower(v.value) !in old(UsersIn(auth.store.entries)) && ToLower(v.value) !in InheritedKeys ==>
          error == "" && nav == Some(SetupRoute) && !auth.isGuest &&
          auth.user == Some(Member(NewProfile(v.value, password, now))))
    {
      error := "";
      var v := ValidateRegistration(username, password, confirm);
      if v.Failure? {
        error := v.error;
        return None;
      }
      isLoading := true;
      var result := auth.Register(v.value, password, now);
      isLoading := false;
      if result.Succeeded? {
        nav := Some(SetupRoute);
      } else {
        error := result.error;
        nav := None;
      }
    }
  }
}
