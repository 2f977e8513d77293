# Kimchi Fusion feedback front-end — a Dafny model

This project models the decision logic of the Kimchi Fusion restaurant web front-end, a React app that collects guest feedback and star reviews and has an admin login. The pieces are independent, and the model keeps them that way. The feedback form calls neither the sanitiser, the validators nor the error classifier, so no combined submission pipeline is modelled.

| file | models |
|---|---|
| `wrappers.dfy` | `Option` and `Result` |
| `js_text.dfy` | the JavaScript string operations the source relies on: `trim` with the ECMAScript white-space set (the same set as the regular-expression class `\s`), `includes`, and `toLowerCase` |
| `security.dfy` | `sanitizeInput`, `isValidEmail`, `isValidPhone`, and the stubbed feedback rate limiter |
| `error_handler.dfy` | `handleError`: its message precedence and the SQLSTATE code switch (PostgreSQL documentation, Appendix A) |
| `login_page.dfy` | the login lockout state machine: `handleSubmit`, its three effects, the redirect default and the button state |
| `supabase_client.dfy` | environment validation, the refresh delay, and the single timer handle of `setupSessionRefresh` and the auth-change listener |
| `feedback_form.dfy` | the feedback record, the submit guard, the insert payload, the reset, and the change handlers |
| `review_page.dfy` | routing by rating, and the external review links |
| `review_form.dfy` | the rating state and the "rating > 0" submit gate |
| `star_rating.dfy` | the five star buttons, the filled rule, the labels and the click guard |

The model follows the JavaScript semantics of the code as written:

- **Truthiness.**
  - A lockout of `0` counts as "not set".
  - An `expires_at` of `0` counts as absent.
  - An empty requested path falls back to `/admin`.
- **React state updates.**
  - Setter calls inside a handler are queued.
  - The queue is applied in order once the handler segment ends (`Update`, `ApplyAll`).
  - The effects then run on the committed state (`Commit`).
  - This is why the resets at `src/pages/LoginPage.tsx:67-68` do not affect the check at line 72.
- **Time, remote results and stored values are parameters:**
  - the current time;
  - the outcome of `signInWithPassword`, `insert` and `refreshSession`;
  - the session returned by `getSession`;
  - the value read from `localStorage`.
- **Atomic segments.** Each handler segment between two `await`s is one atomic method or function.

## Model

| member | source | states |
|---|---|---|
| JsText.TrimStart | src/utils/security.ts:11 | the result is a suffix of the input with no leading white space, and the dropped prefix is all white space |
| JsText.TrimEnd | src/utils/security.ts:11 | the result is a prefix of the input with no trailing white space, and the dropped suffix is all white space |
| JsText.Trim | src/utils/security.ts:11 | `trim()`: the result is the infix `s[a..b]` whose prefix `s[..a]` and suffix `s[b..]` are all white space, and neither end of the result is white space, so exactly the longest white-space prefix and suffix are removed |
| JsText.BlankFrame | src/utils/security.ts:11 | a white-space-framed prefix of a white-space-framed suffix is a white-space-framed infix |
| JsText.TrimEmptyIffBlank | src/components/FeedbackForm.tsx:38 | a trimmed string is empty exactly when the input is all white space |
| JsText.TrimKeepsTrimmed | src/utils/security.ts:11 | trimming a string whose ends are not white space returns it unchanged |
| JsText.ContainsIffOccurs | src/utils/errorHandler.ts:32 | `includes(pat)` holds exactly when `pat` occurs at some index |
| JsText.ToLowerCase | src/pages/LoginPage.tsx:84 | same length; at each position a capital A-Z becomes the letter 32 code points on (its small letter), and every other character is unchanged |
| Security.IndexOf | src/utils/security.ts:18 | the position of the first occurrence of the character, or `None` when it does not occur |
| Security.LastIndexOf | src/utils/security.ts:18 | the position of the last occurrence of the character, or `None` when it does not occur |
| Security.IndexOfIsFirst | src/utils/security.ts:18 | an occurrence with none before it is the one `IndexOf` finds |
| Security.LastIndexOfIsLast | src/utils/security.ts:18 | an occurrence with none after it is the one `LastIndexOf` finds |
| Security.StripTags | src/utils/security.ts:6 | the global `/<[^>]*>/` replace: not longer, characters come from the input, input without `<` (or without `>`) is unchanged, and no `>` follows a surviving `<` |
| Security.StripTagsStep | src/utils/security.ts:6 | a first character other than `<` is kept, and the replace continues after it |
| Security.StripTagsKeepsPlainPrefix | src/utils/security.ts:6 | text without `<` in front of the rest survives as it is: `StripTags(x + z) == x + StripTags(z)` |
| Security.StripTagsDropsTag | src/utils/security.ts:6 | a `<`, text without `>`, and a `>` are removed as one tag: `StripTags("<" + y + ">" + z) == StripTags(z)` |
| Security.KeepAllowed | src/utils/security.ts:10 | the `[^\w\s.,!?@-]` removal: only allowed characters remain, all from the input; input made only of allowed characters is unchanged; one character is kept exactly when it is allowed |
| Security.KeepAllowedAppend | src/utils/security.ts:10 | the removal works piece by piece: `KeepAllowed(a + b) == KeepAllowed(a) + KeepAllowed(b)`, so with the one-character case every allowed character is kept, in order |
| Security.CleanSurvivesFilters | src/utils/security.ts:5-11 | clean text (no `<`, only allowed characters, no white space at either end) passes both replaces and the trim unchanged |
| Security.SanitizeInput | src/utils/security.ts:2-14 | output is no longer than the input, every character is allowed and comes from the input, it has no `<` or `>`, neither end is white space, and clean input is returned unchanged |
| Security.SanitizeEmpty | src/utils/security.ts:3 | the empty input gives the empty string |
| Security.SanitizeOutputIsClean | src/utils/security.ts:2-14 | every output of the sanitiser is clean |
| Security.SanitizeIdempotent | src/utils/security.ts:2-14 | sanitising twice gives the same as sanitising once |
| Security.MatchesEmailPattern | src/utils/security.ts:18 | the language of `/^[a-zA-Z0-9._-]+@[a-zA-Z0-9.-]+\.[a-zA-Z]{2,}$/`, by the positions of the `@` and the final `.` |
| Security.IsValidEmail | src/utils/security.ts:17-20 | `isValidEmail` decided by locating the first `@` and the last `.` after it; its meaning is given by `IsValidEmailIffPattern` |
| Security.ValidEmailMatchesPattern | src/utils/security.ts:17-20 | every address the validator accepts matches the e-mail regular expression |
| Security.ShapeDomainIsValid | src/utils/security.ts:18 | the text after the `@` of a matching address is a valid domain |
| Security.PatternMatchIsValidEmail | src/utils/security.ts:17-20 | every string the e-mail regular expression matches is accepted |
| Security.IsValidEmailIffPattern | src/utils/security.ts:17-20 | the validator accepts exactly the language of the e-mail regular expression |
| Security.ValidEmailHasOneAt | src/utils/security.ts:18 | a valid address contains exactly one `@` |
| Security.OneLetterTopLevelDomainRejected | src/utils/security.ts:18 | `a@b.c` is rejected |
| Security.TwoLetterDomainIsValid | src/utils/security.ts:18 | `b.co` is a valid domain |
| Security.TwoLetterTopLevelDomainAccepted | src/utils/security.ts:18 | `a@b.co` is accepted |
| Security.PhoneRunIff | src/utils/security.ts:25 | the `[\d\s+()-]{n,}` matcher holds exactly when the string has at least n characters, all digits, white space, `+`, `(`, `)` or `-` |
| Security.IsValidPhone | src/utils/security.ts:23-27 | `isValidPhone`: empty, or the run matcher with minimum 8; its meaning is given by `IsValidPhoneIff` |
| Security.IsValidPhoneIff | src/utils/security.ts:23-27 | a phone number is valid exactly when it is empty, or has at least 8 characters, all from the allowed class |
| Security.PhoneRejectsLetters | src/utils/security.ts:24-26 | `""` is valid and `"abc"` is not |
| Security.PhoneAcceptsFormattedNumber | src/utils/security.ts:25-26 | `"+1 (555) 123-4567"` is valid |
| Security.CheckRateLimit | src/utils/security.ts:42-44 | every submission is admitted |
| Security.GetRateLimitResetTime | src/utils/security.ts:46-48 | the reset time is always 0 |
| ErrorHandler.CodeResponse | src/utils/errorHandler.ts:69-93 | the `switch (code)`; its cases are stated by `CodeMapping` |
| ErrorHandler.CodeStage | src/utils/errorHandler.ts:65-95 | a value with a `code` property goes to the switch, anything else gets the default; stated by `UnmatchedErrorUsesCode` |
| ErrorHandler.HandleError | src/utils/errorHandler.ts:7-15 | the user message is always a catalogue string or the fixed "already submitted" string, never text taken from the error |
| ErrorHandler.FalsyGivesDefault | src/utils/errorHandler.ts:20-27 | a falsy error gives the default message, logged |
| ErrorHandler.MessagePrecedence | src/utils/errorHandler.ts:30-61 | message checks in the order network, validation, rate limit, auth, each with its message and log flag; a matching message wins over any code |
| ErrorHandler.UnmatchedErrorUsesCode | src/utils/errorHandler.ts:30-97 | an `Error` whose message matches nothing is classified by its `code` like any object, and without a code it gets the default |
| ErrorHandler.CodeMapping | src/utils/errorHandler.ts:69-93 | 23505 gives "already submitted", not logged; 23503/23502 give validation, logged; 42501 gives auth; 42P01/42P02 give server error; any other code gives the default |
| ErrorHandler.ShouldLogFalseIff | src/utils/errorHandler.ts:43-73 | `shouldLog` is false exactly for validation messages, rate-limit messages and code 23505 |
| ErrorHandler.ResponseIgnoresMessageText | src/utils/errorHandler.ts:30-62 | two messages that agree on the four substring tests get the same response |
| ErrorHandler.StartsWithContains | src/utils/errorHandler.ts:32 | a message that starts with a pattern includes it |
| ErrorHandler.NetworkTimeoutExample | src/utils/errorHandler.ts:32-36 | `"network timeout"` is a logged network error |
| ErrorHandler.NetworkBeatsValidationExample | src/utils/errorHandler.ts:32-45 | a message with both "network" and "invalid", carrying code 23505, is classified as a network error |
| LoginPage.CeilMinutes | src/pages/LoginPage.tsx:63 | `Math.ceil(ms / 60000)`: the least m with ms ≤ m·60000 |
| LoginPage.RedirectTarget | src/pages/LoginPage.tsx:55 | the requested path when one is given and non-empty, otherwise `/admin` |
| LoginPage.SignInDisabled | src/pages/LoginPage.tsx:159 | disabled exactly while loading or while a set lockout lies in the future |
| LoginPage.PlanSubmit | src/pages/LoginPage.tsx:61-86 | the handler's first segment: the queued updates and the sign-in call, if any; stated by `ActiveLockoutBlocks`, `TooManyAttemptsArmsLockout` and `StateAtSignIn` |
| LoginPage.CaughtMessage | src/pages/LoginPage.tsx:101 | the banner of the catch block is the `Error`'s message, or "An error occurred" for a non-`Error` value |
| LoginPage.AfterSignIn | src/pages/LoginPage.tsx:88-103 | the updates once sign-in settles: success resets and navigates; a returned error increments and shows its message; a rejected call only shows the caught message; loading ends in each case; stated by the three `After…SignIn` lemmas |
| LoginPage.Commit | src/pages/LoginPage.tsx:36-52 | the persist and reset effects on a committed render; stated by `CommitSettles` and `CommitStorageRules` |
| LoginPage.Mounted | src/pages/LoginPage.tsx:26-52 | the state after mount; stated by `MountRestoresOrResets` |
| LoginPage.SubmitOutcome | src/pages/LoginPage.tsx:57-105 | a whole submit, segment by segment with a commit after each; stated by `SignInAttempt` and `SubmitKeepsBound` |
| LoginPage.ApplyAllAppend | src/pages/LoginPage.tsx:57-105 | applying two queues one after the other is applying their concatenation |
| LoginPage.ApplyAllCons | src/pages/LoginPage.tsx:57-105 | a queue is applied from its first update on |
| LoginPage.ApplyAllPair | src/pages/LoginPage.tsx:57-105 | a queue of two updates applies them in order |
| LoginPage.CommitSettles | src/pages/LoginPage.tsx:36-52 | after the effects have run once, running them again on the next render changes nothing |
| LoginPage.CommitStorageRules | src/pages/LoginPage.tsx:36-52 | the record is written only with a positive count or a set lockout; a lockout that has passed resets the count, the lockout and storage |
| LoginPage.ActiveLockoutBlocks | src/pages/LoginPage.tsx:61-65 | a running lockout makes no sign-in call and only sets the banner; the minutes left are at least 1, and at most 15 for a lockout armed at most 15 minutes earlier |
| LoginPage.TooManyAttemptsArmsLockout | src/pages/LoginPage.tsx:61-77 | with five or more attempts and no running lockout, there is no sign-in call, a lockout now + 900000 is armed and stored, and the count is what the queued resets leave |
| LoginPage.ExpiredLockoutWithFiveAttempts | src/pages/LoginPage.tsx:61-77 | after an expired lockout with five attempts, the submit still locks out and leaves the count at 0 |
| LoginPage.AfterFailedSignIn | src/pages/LoginPage.tsx:88-91 | a failed sign-in adds one attempt, stores it, shows the error and stops loading |
| LoginPage.AfterRejectedSignIn | src/pages/LoginPage.tsx:100-104 | a rejected sign-in call sets the caught message and stops loading; the count, lockout and storage are unchanged |
| LoginPage.AfterSignInIgnoresClock | src/pages/LoginPage.tsx:36-52 | the commit after sign-in settles gives the same state at any clock reading, since the lockout is then cleared or unchanged |
| LoginPage.SuccessUpdates | src/pages/LoginPage.tsx:94-103 | the success updates set the count to 0, clear the lockout, remove the record, navigate and stop loading |
| LoginPage.AfterSuccessfulSignIn | src/pages/LoginPage.tsx:94-103 | after the effects run, a success leaves the count at 0, no lockout, no record, and the redirect taken |
| LoginPage.StateAtSignIn | src/pages/LoginPage.tsx:61-86 | below five attempts the sign-in call receives the trimmed, lower-cased e-mail and the unchanged password, with loading on and the banner cleared |
| LoginPage.SignInAttempt | src/pages/LoginPage.tsx:61-104 | a whole submit that reaches sign-in: a returned error adds exactly one attempt and stores it; a rejected call leaves count, lockout and storage as before and shows the caught message; success resets the count, clears the lockout and storage, and navigates |
| LoginPage.SubmitKeepsBound | src/pages/LoginPage.tsx:72-89 | a submit never takes the counter or its stored copy above five |
| LoginPage.MountRestoresOrResets | src/pages/LoginPage.tsx:26-52 | mounting restores the stored record, unless its lockout has passed, in which case the count goes to 0 and storage is cleared |
| LoginPage.Page.Mount | src/pages/LoginPage.tsx:22-55 | the mounted state is the load effect followed by the persist and reset effects; the redirect target is fixed |
| LoginPage.Page.ButtonDisabled | src/pages/LoginPage.tsx:159 | the button is disabled exactly while loading or while the lockout is active |
| LoginPage.Page.ApplyUpdate | src/pages/LoginPage.tsx:67-103 | one queued setter call changes exactly its own field |
| LoginPage.Page.ApplyQueue | src/pages/LoginPage.tsx:57-105 | the fields become the queue applied in order to the old state |
| LoginPage.Page.RunEffects | src/pages/LoginPage.tsx:36-52 | the fields become the committed state after the persist and reset effects |
| LoginPage.Page.Submit | src/pages/LoginPage.tsx:57-105 | the new state and the sign-in call are exactly those of the submit model, whose properties are the lemmas above |
| SupabaseClient.ValidateEnv | src/supabaseClient.ts:4-20 | fails exactly when the URL or key is missing or empty, or the URL does not parse; a missing value gives "Missing Supabase environment variables", checked first; with both present, an unparsable URL gives "Invalid Supabase URL format"; success carries both values |
| SupabaseClient.RefreshDelay | src/supabaseClient.ts:50-53 | never negative, 0 for at most five minutes to expiry, otherwise exactly five minutes before expiry, never beyond the time to expiry |
| SupabaseClient.RefreshDelayExamples | src/supabaseClient.ts:53 | ten minutes to expiry gives 300000; two minutes gives 0 |
| SupabaseClient.HasExpiry | src/supabaseClient.ts:47 | `session?.expires_at` is truthy: a session with an expiry other than 0 |
| SupabaseClient.SessionDelay | src/supabaseClient.ts:47-53 | the armed delay is never negative, and it makes the timer fire five minutes before the expiry instant (under the scheduler's reading of `expires_at`), or at once when that moment has passed |
| SupabaseClient.AsWrittenDelayCollapses | src/supabaseClient.ts:48-53 | with expiry seconds read as milliseconds, as the code is written, the delay armed for any session whose expiry number is at most the current time in milliseconds is 0 |
| SupabaseClient.ExpiryUnitCounterexample | src/supabaseClient.ts:48-53 | a session expiring in an hour gets session delay 0 as written and 3300000 ms with the unit converted |
| SupabaseClient.CorrectedDelayFiresFiveMinutesEarly | src/supabaseClient.ts:48-53 | with the unit converted, the timer fires five minutes before expiry, or at once when that moment has passed |
| SupabaseClient.AtMostOnePending | src/supabaseClient.ts:40 | timers confined to one handle's id number at most one |
| SupabaseClient.RefreshScheduler.constructor | src/supabaseClient.ts:40 | no handle and no pending timer at load; the scheduler's reading of `expires_at` is fixed |
| SupabaseClient.RefreshScheduler.SetupResumed | src/supabaseClient.ts:42-66 | without an expiry nothing is cleared or armed; with one, the old timer is cleared and exactly one new timer is pending, under a fresh handle, with the session delay under the scheduler's reading (as written, or converted) |
| SupabaseClient.RefreshScheduler.Fire | src/supabaseClient.ts:59-64 | the fired timer leaves nothing pending; setup runs again exactly when the refresh succeeded |
| SupabaseClient.RefreshScheduler.AuthStateChanged | src/supabaseClient.ts:72-78 | with a session, setup runs again and nothing is cleared; without one, the pending timer is cleared and the handle variable is kept |
| SupabaseClient.TwoSessionNotifications | src/supabaseClient.ts:55-64 | two session notifications, each followed by its setup, leave exactly one timer pending |
| FeedbackForm.CanSubmit | src/components/FeedbackForm.tsx:38-40 | the guard `name.trim() && email.trim()`; stated by `CanSubmitIff` |
| FeedbackForm.CanSubmitIff | src/components/FeedbackForm.tsx:38-40 | submission goes ahead exactly when neither name nor email is all white space |
| FeedbackForm.ToRow | src/components/FeedbackForm.tsx:59-69 | the insert payload; stated by `RowRoundTrip` |
| FeedbackForm.RowRoundTrip | src/components/FeedbackForm.tsx:59-69 | the insert row copies every field into its column: row to record and record to row are inverse |
| FeedbackForm.WithText | src/components/FeedbackForm.tsx:106-111 | `{ ...prev, [name]: value }`; stated by the two lemmas below |
| FeedbackForm.WithTextChangesOnlyThatField | src/components/FeedbackForm.tsx:106-111 | a change event sets the named field and leaves every other field, ratings included, unchanged |
| FeedbackForm.WithTextOwnValue | src/components/FeedbackForm.tsx:106-111 | writing a field's own value back changes nothing |
| FeedbackForm.Form.constructor | src/components/FeedbackForm.tsx:22-33 | the form starts all-empty and all-zero, not submitting |
| FeedbackForm.Form.SubmitDisabled | src/components/FeedbackForm.tsx:279 | the submit button is disabled exactly while a submission is in flight |
| FeedbackForm.Form.Submit | src/components/FeedbackForm.tsx:35-71 | a blank name or email returns with no insert and `isSubmitting` unchanged; otherwise `isSubmitting` is set and the row to insert is the field-by-field copy |
| FeedbackForm.Form.InsertSettled | src/components/FeedbackForm.tsx:73-103 | success thanks the guest, resets the form and navigates to `/`; failure reports the error and keeps the form; `isSubmitting` ends false either way |
| FeedbackForm.Form.HandleChange | src/components/FeedbackForm.tsx:106-112 | the form becomes the old one with only the named field changed |
| FeedbackForm.Form.SetOverallRating | src/components/FeedbackForm.tsx:195 | only the overall rating changes |
| FeedbackForm.Form.SetFoodQuality | src/components/FeedbackForm.tsx:224 | only the food rating changes |
| FeedbackForm.Form.SetServiceQuality | src/components/FeedbackForm.tsx:237 | only the service rating changes |
| StarRating.ReadOnlyProp | src/components/StarRating.tsx:10 | an omitted `readOnly` is false; a given one is used as it is |
| StarRating.DecimalString | src/components/StarRating.tsx:28 | the decimal numeral is non-empty, made of digits, has no leading zero, and reads back as the number |
| StarRating.StarLabel | src/components/StarRating.tsx:28 | the label is exactly the numeral followed by " star", plus a final "s" exactly when the count is not 1 |
| StarRating.IsFilled | src/components/StarRating.tsx:30 | a star is filled when its value is at most the rating; stated through `Render` |
| StarRating.StarLabelExamples | src/components/StarRating.tsx:28 | "1 star", "2 stars", "5 stars" |
| StarRating.Render | src/components/StarRating.tsx:11-36 | five buttons with values 1 to 5, each disabled exactly when read-only, labelled by its value, and filled exactly when its value is at most the rating |
| StarRating.RenderAscending | src/components/StarRating.tsx:11 | the button values strictly increase |
| StarRating.FilledCount | src/components/StarRating.tsx:30 | the number of filled buttons is at most the number of buttons |
| StarRating.FilledCountIsClampedRating | src/components/StarRating.tsx:30 | an integer rating r gives r filled stars, clamped to 0 to 5 |
| StarRating.HandleClick | src/components/StarRating.tsx:13-17 | the callback runs exactly when not read-only and a callback is present, with the clicked value |
| ReviewForm.ButtonMatchesGate | src/components/ReviewForm.tsx:15-31 | for ratings the stars can set, the button is disabled exactly when the submit gate refuses |
| ReviewForm.Form.constructor | src/components/ReviewForm.tsx:11 | the rating starts at 0 |
| ReviewForm.Form.SetRating | src/components/ReviewForm.tsx:26 | the star callback sets the rating |
| ReviewForm.Form.SubmitButtonDisabled | src/components/ReviewForm.tsx:29-31 | for every rating the stars can set, the form's button is disabled exactly when the submit gate refuses |
| ReviewForm.Form.HandleSubmit | src/components/ReviewForm.tsx:13-18 | `onSubmit` is called, once, with the current rating, exactly when the submit gate admits the rating (it is positive) |
| ReviewPage.ExternalReviewLink | src/pages/ReviewPage.tsx:8-11 | each platform maps to its fixed link |
| ReviewPage.LinksDistinct | src/pages/ReviewPage.tsx:8-11 | the two platforms have different links |
| ReviewPage.Page.constructor | src/pages/ReviewPage.tsx:16 | the platform-selection flag starts false; nothing has navigated |
| ReviewPage.Page.CurrentView | src/pages/ReviewPage.tsx:30-32 | platform selection is shown exactly when the flag is set |
| ReviewPage.Page.HandleReviewSubmit | src/pages/ReviewPage.tsx:18-24 | rating exactly 5 sets the flag without navigating; any other rating navigates to `/feedback` and leaves the flag |
| ReviewPage.Page.HandlePlatformSelect | src/pages/ReviewPage.tsx:26-28 | the location becomes the chosen platform's link; nothing else changes |

## Left out

- Remote calls are not modelled, only their results: `signInWithPassword`, `insert`/`select`, `getSession`, `refreshSession` and `createClient` are foreign library I/O. Their outcomes are parameters, and a refresh that calls setup again is reported to the caller rather than performed.
- Platform services are parameters or fields: `Date.now()`, `localStorage`, `JSON.parse`/`JSON.stringify`, `window.setTimeout`/`clearTimeout` (a map of pending timer ids), `alert` (the last alert text), `console` output, and navigation (the last path).
- `safeLogError` is not modelled: it writes environment-dependent console output and returns nothing.
- URL syntax checking is not modelled. Whether `new URL(...)` accepts the URL is a parameter of `ValidateEnv`.
- Client creation and the module-level call order at load are not modelled. The options passed to `createClient` and the first `setupSessionRefresh()` call are foreign I/O.
- JsText.ToLowerCase: lower-cases ASCII letters only. Unicode case mapping is left out because e-mail addresses are the only input.
- Strings are sequences of code points. UTF-16 surrogate pairs are not modelled.
- Malformed storage is not modelled: the stored login record is taken as well formed, with a natural count and an integer or null lockout. A non-numeric or tampered entry, or a `JSON.parse` failure, is not modelled.
- The login banner is a datatype, not text. It carries the minute count rather than the formatted sentence.
- An error returned by `signInWithPassword` is taken to be an `Error` instance, so its message is shown. A rejected call carries the thrown `Error`'s message, or nothing for a non-`Error` value.
- Each login submit uses one time value. The source calls `Date.now()` separately in each check of the first segment; those readings are treated as equal. The commit after the awaited sign-in runs a network round trip later, but nothing is lost there: that commit does not depend on the clock (`AfterSignInIgnoresClock`).
- Ratings are integers. Fractional ratings passed to the star component are not modelled.
- Concurrency is not modelled: interleaving between the handler segments of different submits, a second submit while one is in flight, and multi-tab storage races. Each segment between awaits is atomic.
- Rendering and styling (class names, icons, translations) are left out, except for the button states and labels listed above.
- The unused `RATE_LIMIT` configuration of the feedback limiter is kept as a constant that nothing reads, as in the source.
- src/utils/supabaseClient.ts, FeedbackList, ProtectedRoute, SupabaseTest, i18n, the routing and presentational components, and the type declarations are not part of this model.

## Findings

| source | as written | input that shows it | evidently intended | confidence | as-written member | corrected member |
|---|---|---|---|---|---|---|
| src/supabaseClient.ts:48 | `new Date(session.expires_at).getTime()` treats `expires_at` as milliseconds; the auth client reports it in seconds since the epoch | `expires_at = 1700003600` (one hour ahead) at `Date.now() = 1700000000000`: delay 0, so the timer fires at once and every successful refresh re-arms another immediate refresh | convert seconds to milliseconds (`expires_at * 1000`), giving a delay of 3300000 ms, five minutes before expiry | medium, not executed; depends on the auth client's documented unit for `expires_at` | SupabaseClient.ExpiryMillisAsWritten (with SupabaseClient.AsWrittenDelayCollapses and SupabaseClient.ExpiryUnitCounterexample) | SupabaseClient.ExpiryMillis (with SupabaseClient.CorrectedDelayFiresFiveMinutesEarly; the scheduler takes the reading as a parameter, so both behaviours are modelled by the same methods) |
