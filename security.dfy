/**
 * Input helpers of src/utils/security.ts: the two-pass text sanitiser,
 * the e-mail and phone validators (regular expressions, stated here as
 * predicates over characters) and the feedback rate limiter, which is a
 * stub that always admits.
 */
module Security {
  import opened Wrappers
  import opened JsText

  // ---------------------------------------------------------------------
  // Character classes
  // ---------------------------------------------------------------------

  predicate IsAsciiLetter(c: char) { 'a' <= c <= 'z' || 'A' <= c <= 'Z' }

  predicate IsDigit(c: char) { '0' <= c <= '9' }

  /** `\w` (no `u` flag): ASCII letters, digits and underscore. */
  predicate IsWordChar(c: char) { IsAsciiLetter(c) || IsDigit(c) || c == '_' }

  /** `[\w\s.,!?@-]`: what the sanitiser's second pass keeps. */
  predicate IsKept(c: char) {
    IsWordChar(c) || IsWhiteSpace(c) || c == '.' || c == ',' || c == '!' || c == '?' || c == '@' || c == '-'
  }

  // ---------------------------------------------------------------------
  // Searching
  // ---------------------------------------------------------------------

  /** Position of the first c in s. */
  function IndexOf(s: string, c: char): (r: Option<nat>)
    ensures r.Some? ==> r.value < |s| && s[r.value] == c && c !in s[..r.value]
    ensures r.None? ==> c !in s
  {
    if s == [] then None
    else if s[0] == c then Some(0)
    else match IndexOf(s[1..], c)
      case None => None
      case Some(k) => Some(k + 1)
  }

  /** Position of the last c in s. */
  function LastIndexOf(s: string, c: char): (r: Option<nat>)
    ensures r.Some? ==> r.value < |s| && s[r.value] == c && c !in s[r.value + 1..]
    ensures r.None? ==> c !in s
  {
    if s == [] then None
    else if s[|s| - 1] == c then Some(|s| - 1)
    else LastIndexOf(s[..|s| - 1], c)
  }

  lemma IndexOfIsFirst(s: string, c: char, i: nat)
    requires i < |s| && s[i] == c && c !in s[..i]
    ensures IndexOf(s, c) == Some(i)
  {
  }

  lemma LastIndexOfIsLast(s: string, c: char, i: nat)
    requires i < |s| && s[i] == c && c !in s[i + 1..]
    ensures LastIndexOf(s, c) == Some(i)
  {
  }

  // ---------------------------------------------------------------------
  // sanitizeInput
  // ---------------------------------------------------------------------

  /**
   * `input.replace(/<[^>]*>/g, '')`: scanning left to right, a `<` that has a
   * `>` somewhere after it starts a match that runs to the first such `>`, and
   * the whole match is removed; any other character is kept.
   */
  function StripTags(s: string): (r: string)
    ensures |r| <= |s|
    ensures forall c :: c in r ==> c in s
    ensures '<' !in s ==> r == s
    ensures '>' !in s ==> r == s
    ensures forall i, j :: 0 <= i < j < |r| && r[i] == '<' ==> r[j] != '>'
    decreases |s|
  {
    if s == [] then []
    else if s[0] == '<' && IndexOf(s[1..], '>').Some? then
      var close := IndexOf(s[1..], '>').value + 1;
      StripTags(s[close + 1..])
    else
      var rest := StripTags(s[1..]);
      assert s[0] == '<' ==> '>' !in s[1..];
      [s[0]] + rest
  }

  /** A first character other than `<` is kept and the scan goes on after it. */
  lemma StripTagsStep(s: string)
    requires s != [] && s[0] != '<'
    ensures StripTags(s) == [s[0]] + StripTags(s[1..])
  {
  }

  /** Concatenation regrouped. */
  lemma Regroup(p: string, q: string, t: string)
    ensures p + q + t == p + (q + t)
  {
  }

  /** Moving the first character of x out of x + t. */
  lemma SplitHead(x: string, t: string)
    requires x != []
    ensures x + t == [x[0]] + (x[1..] + t)
  {
    assert x == [x[0]] + x[1..];
  }

  /** Text before the first `<` is never part of a tag: it is kept as it is. */
  lemma {:induction false} StripTagsKeepsPlainPrefix(x: string, z: string)
    requires '<' !in x
    ensures StripTags(x + z) == x + StripTags(z)
    decreases |x|
  {
    if x == [] {
      assert x + z == z;
    } else {
      var s := x + z;
      assert s[0] == x[0] && x[0] in x;
      assert s[1..] == x[1..] + z;
      StripTagsStep(s);
      StripTagsKeepsPlainPrefix(x[1..], z);
      SplitHead(x, StripTags(z));
    }
  }

  /** A `<`, text without `>`, and a `>` form one tag, removed as a whole. */
  lemma StripTagsDropsTag(y: string, z: string)
    requires '>' !in y
    ensures StripTags(['<'] + y + ['>'] + z) == StripTags(z)
  {
    var s := ['<'] + y + ['>'] + z;
    assert s[1..] == y + ['>'] + z;
    assert s[1..][|y|] == '>';
    assert s[1..][..|y|] == y;
    IndexOfIsFirst(s[1..], '>', |y|);
    assert s[|y| + 2..] == z;
  }

  /** `.replace(/[^\w\s.,!?@-]/g, '')`: keeps exactly the characters of the allowed class, in order. */
  function KeepAllowed(s: string): (r: string)
    ensures |r| <= |s|
    ensures forall c :: c in r ==> IsKept(c) && c in s
    ensures (forall i :: 0 <= i < |s| ==> IsKept(s[i])) ==> r == s
    ensures |s| == 1 ==> r == if IsKept(s[0]) then s else []
  {
    if s == [] then []
    else (if IsKept(s[0]) then [s[0]] else []) + KeepAllowed(s[1..])
  }

  /** The filter works piece by piece, so with the one-character case it keeps the allowed characters in order. */
  lemma {:induction false} KeepAllowedAppend(a: string, b: string)
    ensures KeepAllowed(a + b) == KeepAllowed(a) + KeepAllowed(b)
    decreases |a|
  {
    if a == [] {
      assert a + b == b;
    } else {
      var s := a + b;
      assert s[0] == a[0];
      assert s[1..] == a[1..] + b;
      KeepAllowedAppend(a[1..], b);
      var head := if IsKept(a[0]) then [a[0]] else [];
      Regroup(head, KeepAllowed(a[1..]), KeepAllowed(b));
    }
  }

  /** Text with no `<`, only allowed characters and no white space at either end: what sanitising leaves alone. */
  predicate IsClean(s: string) {
    && '<' !in s
    && (forall i :: 0 <= i < |s| ==> IsKept(s[i]))
    && (s != [] ==> !IsWhiteSpace(s[0]) && !IsWhiteSpace(s[|s| - 1]))
  }

  /** Clean text passes both filters and the trim unchanged. */
  lemma CleanSurvivesFilters(s: string)
    ensures IsClean(s) ==> KeepAllowed(StripTags(s)) == s && Trim(s) == s
  {
    if IsClean(s) {
      TrimKeepsTrimmed(s);
    }
  }

  /** `sanitizeInput`: remove tags, then disallowed characters, then trim. */
  function SanitizeInput(input: string): (r: string)
    ensures |r| <= |input|
    ensures forall c :: c in r ==> IsKept(c) && c in input
    ensures '<' !in r && '>' !in r
    ensures r != [] ==> !IsWhiteSpace(r[0]) && !IsWhiteSpace(r[|r| - 1])
    ensures IsClean(input) ==> r == input
  {
    if input == [] then []
    else
      var kept := KeepAllowed(StripTags(input));
      assert !IsKept('<') && !IsKept('>');
      CleanSurvivesFilters(input);
      Trim(kept)
  }

  lemma SanitizeEmpty()
    ensures SanitizeInput("") == ""
  {
  }

  /** The output of sanitising is clean. */
  lemma SanitizeOutputIsClean(s: string)
    ensures IsClean(SanitizeInput(s))
  {
    var t := SanitizeInput(s);
    forall i | 0 <= i < |t| ensures IsKept(t[i]) { assert t[i] in t; }
  }

  /** Sanitising twice gives what sanitising once gives. */
  lemma SanitizeIdempotent(s: string)
    ensures SanitizeInput(SanitizeInput(s)) == SanitizeInput(s)
  {
    SanitizeOutputIsClean(s);
  }

  // ---------------------------------------------------------------------
  // isValidEmail: /^[a-zA-Z0-9._-]+@[a-zA-Z0-9.-]+\.[a-zA-Z]{2,}$/
  // ---------------------------------------------------------------------

  predicate IsLocalChar(c: char) { IsAsciiLetter(c) || IsDigit(c) || c == '.' || c == '_' || c == '-' }

  predicate IsDomainChar(c: char) { IsAsciiLetter(c) || IsDigit(c) || c == '.' || c == '-' }

  /**
   * The pattern matched with the `@` at index at and the final `.` at index dot:
   * a non-empty local part, a non-empty domain label run, and at least two letters.
   */
  predicate EmailShape(s: string, at: int, dot: int) {
    && 0 < at && at + 1 < dot && dot + 3 <= |s|
    && s[at] == '@' && s[dot] == '.'
    && (forall k :: 0 <= k < at ==> IsLocalChar(s[k]))
    && (forall k :: at < k < dot ==> IsDomainChar(s[k]))
    && (forall k :: dot < k < |s| ==> IsAsciiLetter(s[k]))
  }

  /** The language of the e-mail regular expression. */
  ghost predicate MatchesEmailPattern(s: string) {
    exists at, dot :: EmailShape(s, at, dot)
  }

  /** The domain after the `@`: allowed characters, and a last `.` with text before it and two or more letters after. */
  predicate IsValidDomain(d: string) {
    && (forall k :: 0 <= k < |d| ==> IsDomainChar(d[k]))
    && match LastIndexOf(d, '.')
       case None => false
       case Some(dot) => 0 < dot && dot + 3 <= |d| && forall k :: dot < k < |d| ==> IsAsciiLetter(d[k])
  }

  /** `isValidEmail`, decided by locating the `@` and the last `.` after it. */
  predicate IsValidEmail(email: string) {
    match IndexOf(email, '@')
    case None => false
    case Some(at) =>
      && 0 < at
      && (forall k :: 0 <= k < at ==> IsLocalChar(email[k]))
      && IsValidDomain(email[at + 1..])
  }

  /** Every string the decision procedure accepts matches the regular expression. */
  lemma ValidEmailMatchesPattern(s: string)
    requires IsValidEmail(s)
    ensures MatchesEmailPattern(s)
  {
    var at := IndexOf(s, '@').value;
    var d := s[at + 1..];
    var dot := LastIndexOf(d, '.').value;
    forall k | at < k < at + 1 + dot ensures IsDomainChar(s[k]) { assert s[k] == d[k - at - 1]; }
    forall k | at + 1 + dot < k < |s| ensures IsAsciiLetter(s[k]) { assert s[k] == d[k - at - 1]; }
    assert EmailShape(s, at, at + 1 + dot);
  }

  /** The text after the `@` of a matched string is a valid domain. */
  lemma ShapeDomainIsValid(s: string, at: int, dot: int)
    requires EmailShape(s, at, dot)
    ensures IsValidDomain(s[at + 1..])
  {
    var d := s[at + 1..];
    var ddot := dot - at - 1;
    forall k | 0 <= k < |d| ensures IsDomainChar(d[k]) {
      assert d[k] == s[k + at + 1];
    }
    forall k | ddot < k < |d| ensures IsAsciiLetter(d[k]) && d[k] != '.' {
      assert d[k] == s[k + at + 1];
    }
    assert '.' !in d[ddot + 1..];
    LastIndexOfIsLast(d, '.', ddot);
  }

  /** Every string the regular expression matches is accepted by the decision procedure. */
  lemma PatternMatchIsValidEmail(s: string)
    requires MatchesEmailPattern(s)
    ensures IsValidEmail(s)
  {
    var at, dot :| EmailShape(s, at, dot);
    assert '@' !in s[..at] by {
      forall k | 0 <= k < at ensures s[..at][k] != '@' { assert IsLocalChar(s[k]); }
    }
    IndexOfIsFirst(s, '@', at);
    ShapeDomainIsValid(s, at, dot);
  }

  /** The decision procedure accepts exactly the strings the regular expression matches. */
  lemma IsValidEmailIffPattern(s: string)
    ensures IsValidEmail(s) <==> MatchesEmailPattern(s)
  {
    if IsValidEmail(s) { ValidEmailMatchesPattern(s); }
    if MatchesEmailPattern(s) { PatternMatchIsValidEmail(s); }
  }

  /** A valid address has exactly one `@`. */
  lemma ValidEmailHasOneAt(s: string)
    requires IsValidEmail(s)
    ensures exists at :: 0 <= at < |s| && s[at] == '@'
    ensures forall i, j :: 0 <= i < |s| && 0 <= j < |s| && s[i] == '@' && s[j] == '@' ==> i == j
  {
    var at := IndexOf(s, '@').value;
    var d := s[at + 1..];
    assert forall k :: 0 <= k < |d| ==> d[k] == s[at + 1 + k];
  }

  /** A one-letter top-level domain is rejected. */
  lemma OneLetterTopLevelDomainRejected()
    ensures !IsValidEmail("a@b.c")
  {
    var s := "a@b.c";
    assert s[1..] == "@b.c";
    assert IndexOf(s, '@') == Some(1);
    assert s[2..] == "b.c";
    assert "b.c"[..2] == "b.";
    assert LastIndexOf("b.c", '.') == Some(1);
  }

  /** `b.co` is a domain: allowed characters, a dot after `b`, two letters after it. */
  lemma TwoLetterDomainIsValid()
    ensures IsValidDomain("b.co")
  {
    var d := "b.co";
    assert d[..3] == "b.c";
    assert "b.c"[..2] == "b.";
    assert LastIndexOf(d, '.') == Some(1);
    assert IsAsciiLetter(d[2]) && IsAsciiLetter(d[3]);
  }

  /** Two letters after the last dot are enough. */
  lemma TwoLetterTopLevelDomainAccepted()
    ensures IsValidEmail("a@b.co")
  {
    var s := "a@b.co";
    assert s[1..] == "@b.co";
    assert IndexOf(s, '@') == Some(1);
    assert s[2..] == "b.co";
    TwoLetterDomainIsValid();
  }

  // ---------------------------------------------------------------------
  // isValidPhone: empty, or /^[\d\s+()-]{8,}$/
  // ---------------------------------------------------------------------

  predicate IsPhoneChar(c: char) {
    IsDigit(c) || IsWhiteSpace(c) || c == '+' || c == '(' || c == ')' || c == '-'
  }

  /**
   * Matching `[\d\s+()-]{min,}$` from the current position: each step consumes
   * one character of the class and counts down the remaining minimum.
   */
  predicate MatchesPhoneRun(s: string, min: nat) {
    if s == [] then min == 0
    else IsPhoneChar(s[0]) && MatchesPhoneRun(s[1..], if min == 0 then 0 else min - 1)
  }

  /** `isValidPhone`: the phone is optional, so the empty string passes. */
  predicate IsValidPhone(phone: string) {
    phone == [] || MatchesPhoneRun(phone, 8)
  }

  /** The run matcher accepts exactly the strings of the class with at least min characters. */
  lemma {:induction false} PhoneRunIff(s: string, min: nat)
    ensures MatchesPhoneRun(s, min) <==> |s| >= min && forall i :: 0 <= i < |s| ==> IsPhoneChar(s[i])
  {
    if s != [] {
      PhoneRunIff(s[1..], if min == 0 then 0 else min - 1);
      assert forall i :: 1 <= i < |s| ==> s[i] == s[1..][i - 1];
    }
  }

  /** Valid phones: empty, or at least eight characters all from the class. */
  lemma IsValidPhoneIff(phone: string)
    ensures IsValidPhone(phone) <==> phone == [] || (|phone| >= 8 && forall i :: 0 <= i < |phone| ==> IsPhoneChar(phone[i]))
  {
    PhoneRunIff(phone, 8);
  }

  lemma PhoneRejectsLetters()
    ensures IsValidPhone("")
    ensures !IsValidPhone("abc")
  {
    IsValidPhoneIff("abc");
  }

  lemma PhoneAcceptsFormattedNumber()
    ensures IsValidPhone("+1 (555) 123-4567")
  {
    var p := "+1 (555) 123-4567";
    IsValidPhoneIff(p);
    assert forall i :: 0 <= i < |p| ==> IsPhoneChar(p[i]);
  }

  // ---------------------------------------------------------------------
  // Feedback rate limiter (stubbed)
  // ---------------------------------------------------------------------

  datatype RateLimitConfig = RateLimitConfig(maxAttempts: nat, windowMs: nat, storageKey: string)

  /** The declared configuration; neither stub below consults it. */
  const FeedbackRateLimit := RateLimitConfig(3, 60 * 60 * 1000, "feedback_submissions")

  /** `checkRateLimit`: every submission is admitted. */
  function CheckRateLimit(): (admitted: bool)
    ensures admitted
  {
    true
  }

  /** `getRateLimitResetTime`: never any waiting time. */
  function GetRateLimitResetTime(): (ms: int)
    ensures ms == 0
  {
    0
  }
}
