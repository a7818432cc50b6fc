# QuizArena core in Dafny

QuizArena is a browser quiz game. A player signs in, registers, or plays as a guest. They pick a category and a
difficulty, and answer ten trivia questions against a five-minute countdown. A registered member earns XP for each
finished quiz, and the XP determines one of ten levels and unlocks achievements. This project models the game's
logic and proves properties about it:

- **Attempt lifecycle.** The quiz provider's attempt can be started (once at a time), answered, timed, saved
  to local storage, resumed from storage, reset or abandoned. The queries `getResults`, `isQuizComplete`,
  `hasActiveQuiz` and `getActiveQuizInfo` are modelled too.
- **Progression.** The level table, XP gain with its level-up report, the statistics update with its
  newest-first history capped at 20, write-once achievements, and the achievement sweep that reports only
  what it newly unlocks.
- **Question source client.** The URL it builds, the count probe, how it classifies responses (including the
  429 fallback to the last batch), how it maps each question, the Fisher–Yates shuffle, and its two caches.
- **Persistence.** Local storage is a map from keys to typed values. The model covers saving and loading an
  attempt, clearing quiz data while keeping account data, the users database keyed by lower-cased name, and
  the session record.
- **Pages and components.** The resume-or-discard decision at login, the registration checks, the streak and
  the results redirect, the countdown tick, the one-time crediting of a finished quiz, the setup page's
  start and abandon flow, and the small formatters and decisions on the profile page, progress bar and
  question card.

Time (`Date.now`) is a parameter. Network replies are parameters that are functions from URL to a reply record.
The HTML entity decoder is a `string -> string` parameter. `Math.random` in the shuffle is a nondeterministic
choice of swap partner. React effects are explicit methods, which the page modules call in the order the effects
run.

Modules follow the program's files:

| module | file |
|---|---|
| `Levels`, `Progression`, `Auth` | `context/AuthContext.jsx` |
| `Attempt`, `QuizSession` | `context/QuizContext.jsx` |
| `QuestionSource` | `utils/api.js` |
| `Storage` | `utils/storage.js` |
| `ResultsPage`, `LoginPage`, `QuizPage`, `QuizSetupPage`, `RegisterPage`, `ProfilePage` | the pages |
| `Timer`, `ProgressBar`, `QuestionCard` | the components |

Shared modules:

- `Text` models the JavaScript string operations the code uses: `trim`, `toLowerCase`, decimal
  `toString` and `padStart`.
- `Percent` models `Math.round` of a percentage in integers.
- `Records` holds the shared data types.

Behaviour of the code worth knowing, which the model keeps:

- `fetchQuizQuestions` makes one request. There is no retry or backoff.
- `lastSuccessAt` is written but never read, so the cached batch has no expiry. It serves every later 429 reply.
- Response code 5 has no special handling. It takes the generic error path.
- The mount effect resumes an expired saved attempt with zero seconds instead of discarding it. Only the login
  page discards expired attempts.
- The abandon flow calls a `subtractXP` that the auth context does not provide (see Findings). Abandoning
  runs no level-only achievement pass.
- The message for a long username says "less than 20 characters", but a 20-character name is accepted.
- The users database is a plain object, so a lookup under "constructor" or "__proto__" finds an inherited
  member. Registering either name fails with "Username already exists", and signing in with it fails with
  "Incorrect password" (`InheritedKeys`).
- The login page's redirect effect runs whenever `user` changes. Every successful sign-in sets a user, so the
  page leaves for the setup page right after the handler. The resume prompt the handler opens therefore does
  not stay on screen. Only its clearing of an expired attempt lasts. The setup page asks about a remaining
  saved attempt only when a new quiz is started.
- Name and password lengths are JavaScript `length`, which counts UTF-16 code units: a single emoji is a
  two-character guest name (`Text.JsLength`).

## Model

| member | source | states |
|---|---|---|
| Percent.Percentage | src/pages/Results.jsx:84-86 | `Math.round(part / whole * 100)` lies in 0..100 for a part of the whole, is 100 for the whole and 0 for nothing |
| Percent.PercentageAtLeast | src/pages/Results.jsx:89 | the rounded percentage reaches a bound `b` exactly when `200·part ≥ (2b−1)·whole` |
| Levels.Level | src/context/AuthContext.jsx:15-26 | the level is 1..10; its threshold is reached and the next one is not |
| Levels.LevelUnique | src/context/AuthContext.jsx:59-68 | those facts determine the level: it is the largest `i+1` with `LEVEL_THRESHOLDS[i] ≤ xp` |
| Levels.LevelMonotonic | src/context/AuthContext.jsx:59-68 | more XP never gives a lower level |
| Levels.CalculateLevel | src/context/AuthContext.jsx:59-68 | the downward loop with `break` returns exactly `Level(xp)` |
| Levels.XPForNextLevel | src/context/AuthContext.jsx:71-75 | 0 exactly at level 10, otherwise strictly positive |
| Levels.XPForNextLevelIsExact | src/context/AuthContext.jsx:71-75 | gaining exactly the missing XP reaches the next level, one XP less does not |
| Levels.LevelProgress | src/context/AuthContext.jsx:78-88 | 100 at level 10, otherwise a rounded percentage in 0..100 for non-negative XP |
| Progression.GainXPIsExact | src/context/AuthContext.jsx:172-196 | XP grows by exactly `amount`, the stored level is that of the new total, `leveledUp` iff the new level exceeds the old, a non-negative gain never lowers the level |
| Progression.RecordQuiz | src/context/AuthContext.jsx:199-227 | one more quiz, the totals grow by the quiz's counts, the new entry is first, older entries shift by one, at most 20 kept, XP/level/achievements untouched |
| Progression.Unlock | src/context/AuthContext.jsx:230-254 | afterwards the id is held; unchanged when it already was, otherwise exactly one entry appended |
| Progression.UnlockIdempotent | src/context/AuthContext.jsx:230-254 | unlocking the same id twice is unlocking it once |
| Progression.UnlockKeeps | src/context/AuthContext.jsx:230-254 | every achievement held before is kept and at most the new id is added |
| Progression.RuleIdsDistinct | src/context/AuthContext.jsx:257-362 | no two achievement rules share an id |
| Progression.SweepEffect | src/context/AuthContext.jsx:257-362 | the check only appends achievements: an id is held afterwards iff it was held or its rule holds |
| Progression.SweepReportsOnlyNew | src/context/AuthContext.jsx:257-362 | each reported rule was not held before, is held after, holds, and is reported once |
| Progression.SweepEarnedIff | src/context/AuthContext.jsx:257-362 | a rule is reported exactly when its condition holds and it was not yet unlocked |
| Progression.SweepAgainEarnsNothing | src/context/AuthContext.jsx:257-362 | an immediate second check with the same quiz reports nothing and changes nothing |
| Progression.SweepStable | src/context/AuthContext.jsx:257-362 | any part of the rule table run over a checked profile reports nothing |
| Progression.DeductXPFloors | src/pages/QuizSetup.jsx:97-102 | the intended penalty takes `amount` XP, stops at zero (95 → 85, 5 → 0), never raises the level and changes nothing else |
| Auth.NewProfile | src/context/AuthContext.jsx:100-116 | a new profile starts at 0 XP, level 1, zero counters, no achievements and no history |
| Auth.ResaveSameProfile | src/utils/storage.js:196-200 | saving the stored profile back unchanged leaves storage as it was |
| Auth.ResaveOverwrites | src/utils/storage.js:196-200 | a later save of the same user's profile replaces an earlier one |
| Auth.AuthProvider.RestoreSession | src/context/AuthContext.jsx:42-56 | a stored guest session signs in the guest, a member session loads the stored profile, and loading ends |
| Auth.AuthProvider.Register | src/context/AuthContext.jsx:91-124 | fails with "Username already exists" when the lower-cased name is taken or is a member the users object inherits ("constructor", "__proto__"); otherwise stores the new profile and the session |
| Auth.AuthProvider.Login | src/context/AuthContext.jsx:127-150 | "User not found" for an absent name; "Incorrect password" for a wrong password or an inherited member ("constructor", "__proto__"), which has no password; otherwise the login time recorded and the session saved |
| Auth.AuthProvider.ContinueAsGuest | src/context/AuthContext.jsx:153-162 | a guest session under the name, "Guest" when empty, with no stored profile |
| Auth.AuthProvider.Logout | src/context/AuthContext.jsx:165-169 | nobody signed in, the session and the saved quiz cleared |
| Auth.AuthProvider.AddXP | src/context/AuthContext.jsx:172-196 | no profile: `null` and no write; otherwise the stored profile becomes `GainXP` and the report is `GainReport` |
| Auth.AuthProvider.UpdateStats | src/context/AuthContext.jsx:199-227 | the stored profile becomes `RecordQuiz` of the quiz, nothing is written without a profile |
| Auth.AuthProvider.UnlockAchievement | src/context/AuthContext.jsx:230-254 | true exactly when a profile exists without that id; the stored profile becomes `Unlock` |
| Auth.AuthProvider.CheckAchievements | src/context/AuthContext.jsx:257-362 | the loop over the rule table stores and reports exactly what `Sweep` does |
| Auth.AuthProvider.SubtractXP | src/pages/QuizSetup.jsx:97-102 | the penalty the setup page calls: a member's stored profile becomes `DeductXP`, nothing else changes |
| Attempt.SlotAt | src/context/QuizContext.jsx:116-120 | `answers[i]`: `undefined` outside the array, `null` for an empty slot, the text otherwise |
| Attempt.MatchInRange | src/pages/Quiz.jsx:128-130 | inside the array, strict equality with the correct answer means that slot holds the correct answer |
| Attempt.AnsweredCount | src/context/QuizContext.jsx:246 | the number of non-null slots: all slots iff every one is answered, 0 iff none is |
| Attempt.CorrectSoFar | src/pages/Quiz.jsx:128-130 | the number of slots strictly equal to their correct answer, never more than the answered ones |
| Attempt.UnansweredCounts | src/context/QuizContext.jsx:103-105 | a fresh all-`null` attempt has nothing answered and nothing correct |
| Attempt.FillSlot | src/context/QuizContext.jsx:123-133 | filling an empty slot adds one answered, and one correct iff the answer is that question's correct answer |
| Attempt.CompleteMeansLastAnswered | src/context/QuizContext.jsx:240-242 | for a consistent attempt, complete iff at the last question with its slot answered |
| Attempt.ResultsOf | src/context/QuizContext.jsx:244-256 | answered = non-null slots, correct = score, correct + wrong = answered |
| Attempt.ResultsBounded | src/context/QuizContext.jsx:244-256 | in a consistent attempt 0 ≤ correct ≤ answered ≤ total and wrong ≥ 0 |
| QuizSession.SavedAttemptLoads | src/utils/storage.js:82-127 | a saved attempt always loads, with the saved questions, index, answers and score |
| QuizSession.ProfileSaveKeepsAttempt | src/utils/storage.js:196-200 | saving a profile does not change the stored attempt |
| QuizSession.SessionPreferences | src/context/QuizContext.jsx:85-91 | the stored preferences, or the "any" preferences when none are stored |
| QuizSession.ResumedTime | src/context/QuizContext.jsx:41-42 | `max(0, 300 − ⌊elapsed ms / 1000⌋)`: never negative, at most 300, 0 once 300 s have passed, 300 within the first second |
| QuizSession.ResumedTimeDecreases | src/context/QuizContext.jsx:41-42 | one more second of elapsed time takes at most one second off, never adds |
| QuizSession.ActiveQuizInfoIn | src/context/QuizContext.jsx:162-173 | present iff stored questions exist; reports answered, total, score and preferences, ordered for a consistent attempt |
| QuizSession.QuizProvider.SaveEffect | src/context/QuizContext.jsx:61-73 | a started attempt with questions and a start time is written to storage, otherwise nothing is |
| QuizSession.QuizProvider.RestoreOnMount | src/context/QuizContext.jsx:37-58 | a stored attempt with a start time is adopted with its recomputed time and marked started; restore is then marked attempted |
| QuizSession.QuizProvider.Resume | src/context/QuizContext.jsx:43-54 | the loaded fields, the given remaining time, started, then saved by the save effect |
| QuizSession.QuizProvider.BeginStart | src/context/QuizContext.jsx:75-92 | refused while a start is in flight; otherwise latches, clears the error and adopts the stored preferences (clearing saved data first when forced) |
| QuizSession.QuizProvider.FinishStart | src/context/QuizContext.jsx:95-113 | questions start a fresh attempt (index 0, score 0, all slots `null`, 300 s, start time now); a failure only sets the error; the latch is released |
| QuizSession.QuizProvider.StartQuiz | src/context/QuizContext.jsx:75-114 | `startQuiz` and `forceStartNewQuiz`: outcome by the client's response plan (cached batch, mapped results, or error message) |
| QuizSession.QuizProvider.SubmitAnswer | src/context/QuizContext.jsx:116-141 | ignored past the end or on an answered slot; otherwise only that slot is filled, the score grows iff correct, the index advances unless last |
| QuizSession.QuizProvider.SetTimeRemaining | src/context/QuizContext.jsx:61-73 | sets the time and re-saves through the save effect, nothing else changes |
| QuizSession.QuizProvider.ResetQuiz | src/context/QuizContext.jsx:143-153 | `resetQuiz`, and with `resetPreferences` `abandonQuiz`: stored quiz data cleared, empty attempt at 300 s, not started, no active quiz left |
| QuizSession.LastSubmissionCompletes | src/context/QuizContext.jsx:240-242 | answering the last empty slot makes a consistent attempt complete, and it was not complete before |
| QuizSession.SaveThenResume | src/context/QuizContext.jsx:37-73 | an attempt the save effect wrote resumes to the same attempt with the time recomputed from its start |
| QuestionSource.QuestionCount | src/utils/api.js:58-82 | 100 for "any" without a request, 0 on a failed request, the total for "any" difficulty, else that difficulty's count or 0 |
| QuestionSource.QuestionCountNonNegative | src/utils/api.js:58-82 | a well-formed count reply never gives a negative count |
| QuestionSource.QueryParams | src/utils/api.js:89-104 | amount and `type=multiple` always; category and difficulty present iff given and not "any" |
| QuestionSource.WithOptional | src/utils/api.js:95-101 | a parameter is appended, last, exactly when its value is non-empty and not "any"; earlier ones are kept |
| QuestionSource.QueryStringAppend | src/utils/api.js:103 | one more parameter appends `&name=value` to the query string |
| QuestionSource.ApiUrl | src/utils/api.js:89-104 | the URL is the API base, `?`, and exactly the query string of `QueryParams` |
| QuestionSource.QueryStringSpelledOut | src/utils/api.js:89-104 | the query is `amount=N&type=multiple`, then `&category=c` exactly when a category other than "any" is given, then `&difficulty=d` likewise |
| QuestionSource.ApiUrlSpelledOut | src/utils/api.js:89-104 | the whole URL is the base, `?` and that query |
| QuestionSource.MappedOffersCorrect | src/utils/api.js:139-157 | a mapped question offers its correct answer among one more choice than it had incorrect answers |
| QuestionSource.ShuffleArray | src/utils/api.js:172-179 | the shuffle returns a permutation of its input (same length and multiset) |
| QuestionSource.MapQuestion | src/utils/api.js:139-157 | decoded question and correct answer, answers a permutation of decoded incorrect answers plus the correct one |
| QuestionSource.MapQuestions | src/utils/api.js:139-157 | every raw question is mapped, in order |
| QuestionSource.Plan | src/utils/api.js:111-165 | 429 with a previous batch serves it; other non-ok statuses and codes 1, 2 and other non-zero codes fail with their messages; only code 0 maps |
| QuestionSource.QuestionClient.FetchCategories | src/utils/api.js:23-50 | a filled cache is returned as is; otherwise "Any Category" followed by the fetched list, cached only on success |
| QuestionSource.QuestionClient.FetchQuizQuestions | src/utils/api.js:111-165 | requests the URL built from the defaulted options; only freshly mapped results replace the last batch |
| Storage.ClearedQuizData | src/utils/storage.js:59-76 | every quiz key is gone and every other key is unchanged |
| Storage.ClearQuizDataIdempotent | src/utils/storage.js:59-76 | clearing twice is clearing once; user, users database and session survive |
| Storage.ClearKeepsUsers | src/utils/storage.js:59-76 | clearing quiz data keeps the users database |
| Storage.LoadedQuizState | src/utils/storage.js:100-127 | `null` iff questions, index, answers or score is missing |
| Storage.SaveLoadRoundTrip | src/utils/storage.js:82-127 | saving with a start time and preferences, then loading, gives every saved field back |
| Storage.SaveKeepsFalsyFields | src/utils/storage.js:88-93 | a falsy start time or absent preferences leave the stored ones as they were, and no other key is touched |
| Storage.LoadDefaults | src/utils/storage.js:115-122 | an absent time loads as 300 and absent preferences as the "any" ones |
| Storage.ClearedLoadsNothing | src/utils/storage.js:59-76 | after clearing there is no attempt to load |
| Storage.LoadIgnoresOtherKeys | src/utils/storage.js:100-127 | writing or removing a key outside the quiz keys does not change what loads |
| Storage.ProfileLookupIgnoresCase | src/utils/storage.js:186-200 | a saved profile is found under every spelling with the same lower case; other users are unchanged |
| Storage.SessionKeys | src/utils/storage.js:214-227 | saving a session writes the session and the user key only; clearing removes both and the quiz data, keeps the users |
| Storage.Store.ClearQuizData | src/utils/storage.js:59-76 | the key-by-key removal loop leaves exactly `ClearedQuizData` |
| Storage.Store.SaveQuizState | src/utils/storage.js:82-94 | storage becomes `SavedQuizState` |
| Storage.Store.SaveUserProfile | src/utils/storage.js:196-200 | storage becomes `SavedProfile` |
| Storage.Store.SaveSession | src/utils/storage.js:214-218 | storage becomes `SavedSession` |
| Storage.Store.ClearSession | src/utils/storage.js:223-227 | storage becomes `ClearedSession` |
| ResultsPage.XPEarnedBounds | src/pages/Results.jsx:44-49 | 10 per correct answer plus a bonus of 0, 10 or 20 |
| ResultsPage.XPEarnedExamples | src/pages/Results.jsx:44-49 | 7/10 earns 80, 10/10 earns 120, 3/10 earns 30 |
| ResultsPage.XPEarnedBands | src/pages/Results.jsx:88-91 | the bonus bands as exact conditions on the counts |
| ResultsPage.XPEarnedMonotonic | src/pages/Results.jsx:88-91 | more correct answers never earn less XP |
| ResultsPage.RankFor | src/pages/Results.jsx:93-139 | the first band from the top (90, 80, 70, 50) that the percentage reaches, else the lowest rank |
| ResultsPage.RankMonotonic | src/pages/Results.jsx:93-139 | a higher percentage never gives a lower rank |
| ResultsPage.Badges | src/pages/Results.jsx:144-148 | Perfect Score iff 100%, Sharp Shooter iff ≥ 80%, On Fire iff ≥ 5 correct, Completionist iff all answered, each once |
| ResultsPage.PerfectImpliesSharp | src/pages/Results.jsx:144-148 | an all-correct quiz shows both Perfect Score and Sharp Shooter |
| ResultsPage.FinalizeEffects | src/pages/Results.jsx:52-73 | XP, then stats, then achievements: the profile holds the earned XP and its level, one more quiz, the entry first, and achievements see the updated counts |
| ResultsPage.ResultsView.ClearSavedAttempt | src/pages/Results.jsx:31-35 | with questions, the saved attempt is cleared and no active quiz remains |
| ResultsPage.ResultsView.ProcessResults | src/pages/Results.jsx:38-76 | runs once and only with questions; only a member's profile is credited, as `Finalize` describes |
| ResultsPage.Credit | src/pages/Results.jsx:52-73 | `addXP`, `updateStats`, `checkAchievements` in order leave the stored profile equal to `Finalize` |
| LoginPage.FormatTimeReadsBack | src/pages/Login.jsx:27-31 | unpadded minutes, two-digit seconds, reading back as the time shown |
| LoginPage.FormatTimeExample | src/pages/Login.jsx:27-31 | 65 seconds show as "1:05" |
| LoginPage.CheckForSavedProgress | src/pages/Login.jsx:33-54 | offered iff an attempt with questions, a start time and time left is stored (storage untouched, question number index + 1); an expired one is cleared |
| LoginPage.LoginCheck | src/pages/Login.jsx:56-68 | a blank username, then an empty password, are refused with their messages; otherwise the trimmed name |
| LoginPage.GuestNameCheck | src/pages/Login.jsx:88-100 | accepted iff the trimmed name is at least 2 UTF-16 code units long (any 2 characters suffice), with the two messages otherwise |
| LoginPage.EmojiGuestNameAccepted | src/pages/Login.jsx:97 | one emoji is two code units and is accepted as a guest name |
| LoginPage.LetterGuestNameRefused | src/pages/Login.jsx:97-100 | one letter, however padded, gets "Name must be at least 2 characters" |
| LoginPage.SessionSaveKeepsAttempt | src/utils/storage.js:214-218 | saving a session does not change the stored attempt |
| LoginPage.LoginView.AfterSignIn | src/pages/Login.jsx:77-81 | the handler's decision: the resume prompt when an attempt can be resumed, otherwise the setup page, with an expired attempt cleared (the page's redirect effect then leaves for setup anyway, see above) |
| LoginPage.LoginView.HandleLogin | src/pages/Login.jsx:56-86 | the form checks, then sign-in with the trimmed name and its errors (an inherited name gets "Incorrect password"); on success the signed-in member is the stored profile with the new login time, then the resume decision |
| LoginPage.LoginView.HandleGuestContinue | src/pages/Login.jsx:88-109 | the name checks, then a guest session under the trimmed name, then the resume decision |
| LoginPage.LoginView.HandleStartFresh | src/pages/Login.jsx:116-120 | clears the saved attempt and goes to the setup page |
| QuizPage.StreakFrom | src/pages/Quiz.jsx:34-44 | the run of matching answers ending just before the current index: at most that index long, all matching, the one before it not |
| QuizPage.Streak | src/pages/Quiz.jsx:34-44 | the backward loop with `break` computes exactly `StreakFrom` |
| QuizPage.CorrectPrefixBounded | src/pages/Quiz.jsx:128-130 | a prefix never has more correct answers than the whole |
| QuizPage.StreakWithinPrefix | src/pages/Quiz.jsx:34-44 | the streak is made of correct answers counted before the current index |
| QuizPage.StreakWithinScore | src/pages/Quiz.jsx:34-44 | in a consistent attempt the streak never exceeds the score |
| QuizPage.MissResetsStreak | src/pages/Quiz.jsx:66-73 | a miss on the previous question resets the streak, so no encouragement |
| QuizPage.ShowResultsWhenLastAnswered | src/pages/Quiz.jsx:53-64 | results are shown iff questions exist, the index is the last one and its slot is answered |
| QuizPage.AutoStart | src/pages/Quiz.jsx:46-51 | starts only after the restore attempt, with no quiz started and no questions; a start then ends started or with an error |
| Text.JsLength | src/pages/Login.jsx:97 | `length` in UTF-16 code units: between the number of characters and twice it, 0 only for the empty string |
| Text.JsLengthOfBmp | src/pages/Register.jsx:24-32 | below U+10000 it equals the number of characters |
| Text.JsLengthOfAstral | src/pages/Register.jsx:44 | characters from U+10000 up count twice |
| QuizSetupPage.NameById | src/pages/QuizSetup.jsx:62-67 | the first entry with that id names it; a missing entry or an empty name gives the fallback |
| QuizSetupPage.ChosenNames | src/pages/QuizSetup.jsx:60-67 | known difficulties get their table names, unknown ids the "Any" names |
| QuizSetupPage.AnyCategoryName | src/utils/api.js:44 | with the loaded list, "any" is named "Any Category" |
| QuizSetupPage.AvailabilityNotices | src/pages/QuizSetup.jsx:376-400 | start disabled iff the count is 0; the limited warning iff 0 < count < 10; never both warnings; "any" category never warns |
| QuizSetupPage.SetupView.LoadCategories | src/pages/QuizSetup.jsx:24-36 | the categories shown iff the client cached them, else the load error; the list begins with "Any Category" |
| QuizSetupPage.SetupView.CheckAvailability | src/pages/QuizSetup.jsx:39-58 | no probe and no count for "any"/"any"; otherwise `getQuestionCount` of the selection |
| QuizSetupPage.SetupView.StoreAndProceed | src/pages/QuizSetup.jsx:60-76 | the preferences stored in session storage, then the abandon prompt iff an attempt is saved, else the quiz |
| QuizSetupPage.SetupView.HandleStartQuiz | src/pages/QuizSetup.jsx:60-76 | stores the selection with its display names, then the prompt or the quiz |
| QuizSetupPage.SetupView.HandleQuickStart | src/pages/QuizSetup.jsx:78-95 | both selectors "any", the "any" preferences stored, then the prompt or the quiz |
| QuizSetupPage.SetupView.HandleAbandonAndStartAsWritten | src/pages/QuizSetup.jsx:97-111 | anyone but a guest hits the missing `subtractXP`: nothing is cleared and the saved attempt stays |
| QuizSetupPage.SetupView.HandleAbandonAndStart | src/pages/QuizSetup.jsx:97-111 | a member loses the floored penalty, then the attempt is abandoned with preferences reset, then the quiz opens |
| QuizSetupPage.SetupView.HandleContinueExistingQuiz | src/pages/QuizSetup.jsx:113-116 | closes the prompt and returns to the saved quiz |
| QuizSetupPage.LevelColor | src/pages/QuizSetup.jsx:178-184 | the colour bands ≥ 9, ≥ 7, ≥ 5, ≥ 3, else gray (the profile page uses the same bands) |
| RegisterPage.ValidateRegistration | src/pages/Register.jsx:14-52 | the first failing check's message, in order; success iff the trimmed name is 3..20 UTF-16 code units from `[A-Za-z0-9_]`, the password ≥ 4 code units and equal to the confirmation |
| RegisterPage.AcceptedNameIsClean | src/pages/Register.jsx:19-37 | an accepted name is already trimmed, holds no white space, and has 3..20 characters |
| RegisterPage.PatternNameLength | src/pages/Register.jsx:34 | a name matching `[a-zA-Z0-9_]+` has as many code units as characters |
| RegisterPage.TwoEmojiPasswordAccepted | src/pages/Register.jsx:44 | a password of two emoji is four code units and is accepted |
| RegisterPage.EmojiNameFailsPattern | src/pages/Register.jsx:24-37 | an emoji and a letter pass the length checks and fail on the pattern message |
| RegisterPage.TwentyCharactersAccepted | src/pages/Register.jsx:29-32 | a 20-character name is accepted despite the "less than 20" message |
| RegisterPage.InheritedNamesPassTheForm | src/pages/Register.jsx:14-68 | "constructor" and "__proto__" pass every form check and are their own lower case, so they reach the inherited-member refusal |
| RegisterPage.RegisterView.HandleSubmit | src/pages/Register.jsx:14-68 | a failed check shows its message and registers nobody; a taken or inherited name shows "Username already exists"; otherwise the trimmed name is registered and the setup page opens |
| Timer.NextTime | src/components/Timer.jsx:15-22 | one less while positive, never negative |
| Timer.CountdownReachesZero | src/components/Timer.jsx:15-22 | after n ticks a time t ≥ 0 is `max(0, t − n)` |
| Timer.ActionFor | src/components/Timer.jsx:10-13 | redirect to results iff no time is left |
| Timer.RedirectAfterAllTicks | src/components/Timer.jsx:10-22 | a countdown redirects after exactly as many ticks as it has seconds |
| Timer.Tick | src/components/Timer.jsx:15-22 | the provider's time becomes `NextTime` of the old time and the attempt is otherwise untouched |
| Timer.FormatClockReadsBack | src/components/Timer.jsx:28-32 | both fields two digits, reading back as the time shown |
| Timer.FullTimeShown | src/components/Timer.jsx:28-32 | the full 300 seconds show as "05:00" |
| Timer.StateFor | src/components/Timer.jsx:34-56 | critical and pulsing iff ≤ 60, warning iff 61..120, calm otherwise |
| ProfilePage.Accuracy | src/pages/Profile.jsx:26-28 | 0 without questions, otherwise the rounded percentage, in 0..100 |
| ProfilePage.AccuracyVersusAchievement | src/pages/Profile.jsx:26-28 | the achievement's exact 80% implies a shown accuracy of at least 80, but 159/200 shows 80 without earning it |
| ProfilePage.FiguresFor | src/pages/Profile.jsx:23-28 | a guest sees level 1, progress 0, 100 XP to go and 0%; a member sees the computed values |
| ProfilePage.LevelTitlesDistinct | src/pages/Profile.jsx:42-56 | levels 1..10 have distinct titles; anything else is "Novice" |
| ProfilePage.RecentHistory | src/pages/Profile.jsx:240 | at most the first five entries, in order |
| ProfilePage.RecentHistoryAfterQuiz | src/pages/Profile.jsx:240 | after a quiz the list opens with it, followed by the previous first four |
| ProgressBar.DotAt | src/components/ProgressBar.jsx:69-85 | current first; then a non-null slot is correct or incorrect by strict equality; else unanswered |
| ProgressBar.Dots | src/components/ProgressBar.jsx:69-85 | one dot per question |
| ProgressBar.DotsOfConsistentAttempt | src/components/ProgressBar.jsx:69-85 | in a consistent attempt a non-current dot is correct iff answered correctly, incorrect iff answered otherwise |
| ProgressBar.ProgressLabel | src/components/ProgressBar.jsx:10 | 0 at the first question, within 0..100 |
| ProgressBar.ProgressLabelBelowFull | src/components/ProgressBar.jsx:10 | below 100 while running with fewer than 200 questions |
| QuestionCard.AnswerLetter | src/components/Question.jsx:38-40 | the character with code 65 + index, a capital letter for the first 26 |
| QuestionCard.AnswerLettersDistinct | src/components/Question.jsx:38-40 | different answers get different letters; 0 → 'A', 3 → 'D' |
| QuestionCard.DifficultyBadge | src/components/Question.jsx:29-36 | by the lower-cased difficulty; missing or unknown gives the medium style |
| QuestionCard.BadgeIgnoresCase | src/components/Question.jsx:29-36 | the badge does not depend on letter case |
| QuestionCard.Card.Click | src/components/Question.jsx:15-20 | ignored while submitting; otherwise selects and schedules exactly that answer |
| QuestionCard.Card.DelayElapsed | src/components/Question.jsx:22-26 | the scheduled answer is submitted once, then selection and latch are cleared |

## Left out

- Rendering, styling, icons, animations and routing. A navigation is only its target route.
- Network transport, JSON parsing and HTTP headers. Replies are records given as functions of the URL.
- URL encoding of query values. `QueryString` joins the raw values.
- The HTML entity decoder and `Math.random` are parameters. Only the permutation property of the shuffle is proved, not its uniformity.
- Timers and React scheduling. The 300 ms answer delay, the 500 ms results delay, the 2 s encouragement banner and the interval are discrete steps. Re-renders and effect dependency tracking are collapsed into explicit calls in the order the code runs them.
- Loading flags that only drive spinners: the login page's `isLoading`, and the quiz provider's loading flag before the fetch.
- Floating point. Percentages are exact rational rounding, so a quotient that binary floating point rounds across a half (for example 29/200) may differ. The progress bar's widths and milestones are not modelled.
- Storage quota errors and the `try`/`catch` around storage access. Storage holds typed values, and a key holding a value of another kind reads as absent.
- Case folding beyond ASCII in `toLowerCase`.
- QuizSession.QuizProvider.RestoreOnMount: only attempts the provider itself saved are modelled. The provider's invariant requires the stored attempt's index, answers and score to agree, and every writer in the app keeps that. A snapshot left inconsistent by a failed storage write, or edited by hand, is not modelled.
- Inherited properties of the badge style object (a difficulty named like an object method). Only own keys are modelled.
- Plaintext password storage is modelled as it is, a compared string. Its security is not a concern of the model.
- `handleResume`, `handleQuitQuiz`, `handleBack` and the profile page's buttons only navigate or call members already modelled. The attempt stays saved when quitting.
- The redirect effects when a user is already signed in, or when the results page has no questions. The login page's effect fires after every successful sign-in, so the resume prompt that `LoginPage.LoginView.AfterSignIn` opens does not stay on screen (see above).
- QuestionCard.AnswerLetter: indices from 55231 up, which `String.fromCharCode` wraps or maps to surrogates, are not modelled. An answer list has four entries.
- ProgressBar.ProgressLabel: the label is stated for the rounded percentage, not the floating-point width.

## Findings

| source | as written | input that shows it | evidently intended | confidence | as-written member | corrected member |
|---|---|---|---|---|---|---|
| src/pages/QuizSetup.jsx:10, 100 | `subtractXP` is read from the auth context, which does not provide it (src/context/AuthContext.jsx:364-381), so the call throws before `abandonQuiz` | any signed-in member confirming "abandon and start" with a saved attempt | take 10 XP, floored at zero, with the level recomputed, then abandon and open the quiz | high, not executed | QuizSetupPage.SetupView.HandleAbandonAndStartAsWritten | QuizSetupPage.SetupView.HandleAbandonAndStart |
