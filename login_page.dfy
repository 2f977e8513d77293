/**
 * The login lockout of src/pages/LoginPage.tsx.
 *
 * `handleSubmit` reads `loginAttempts` and `lockoutUntil` from the render it
 * belongs to (a snapshot) and issues setter calls that React queues and applies
 * in order after the handler's synchronous part; the effects keyed on those two
 * values then run (persist to storage, reset an expired lockout). The model
 * mirrors that: `PlanSubmit` and `AfterSignIn` produce ordered update lists,
 * `ApplyAll` applies a list, `Commit` runs the effects, and `Page.Submit` does
 * all of this in place. The current time, the storage content at mount and the
 * sign-in result are parameters; one `now` serves a whole submit.
 */
module LoginPage {
  import opened Wrappers
  import opened JsText

  const MaxAttempts := 5
  const WindowMs := 15 * 60 * 1000
  const MinuteMs := 60 * 1000
  const DefaultRedirect := "/admin"

  /** The JSON record under the `loginRateLimit` storage key. */
  datatype StoredRecord = StoredRecord(attempts: nat, lockout: Option<int>)

  /** The banner text, by kind. */
  datatype LoginError =
    | LockedOutFor(minutes: int)     // "Too many login attempts. Please try again in <minutes> minutes."
    | LockoutStarted                 // "Too many login attempts. Please try again in 15 minutes."
    | SignInFailed(message: string)  // the message of the caught error

  datatype Credentials = Credentials(email: string, password: string)

  /** How the `signInWithPassword` call settles. */
  datatype SignInOutcome =
    | SignedIn                          // resolved without an error
    | ReturnedError(message: string)    // resolved with an `error`, which the `throw error` after the increment rethrows
    | Rejected(thrown: Option<string>)  // the promise rejected: the Error's message, or None for a non-Error value

  /** The banner text of the catch block: the Error's message, or the fixed fallback. */
  function CaughtMessage(thrown: Option<string>): (message: string)
    ensures thrown.Some? ==> message == thrown.value
    ensures thrown.None? ==> message == "An error occurred"
  {
    thrown.GetOr("An error occurred")
  }

  /** Component state, the storage entry, and the route navigated to. */
  datatype PageState = PageState(
    attempts: nat,
    lockoutUntil: Option<int>,
    loading: bool,
    error: Option<LoginError>,
    stored: Option<StoredRecord>,
    navigatedTo: Option<string>)

  /** One setter call (or storage / navigation effect), in the order the handler issues them. */
  datatype Update =
    | SetAttempts(n: nat)
    | IncrementAttempts               // setLoginAttempts(prev => prev + 1)
    | SetLockout(until: Option<int>)
    | SetLoading(on: bool)
    | SetError(e: Option<LoginError>)
    | RemoveStored                    // localStorage.removeItem('loginRateLimit')
    | Navigate(path: string)

  /** The updates of the handler's first segment and the sign-in call it makes, if any. */
  datatype Plan = Plan(updates: seq<Update>, signIn: Option<Credentials>)

  /** `if (lockoutUntil)`: set, and not the falsy 0. */
  predicate IsSet(lockout: Option<int>) { lockout.Some? && lockout.value != 0 }

  /** `lockoutUntil && Date.now() < lockoutUntil`: the lockout is still running. */
  predicate IsActive(lockout: Option<int>, now: int) { IsSet(lockout) && now < lockout.value }

  /** `Math.ceil(ms / 60000)` for an integer number of milliseconds. */
  function CeilMinutes(ms: int): (m: int)
    ensures (m - 1) * MinuteMs < ms <= m * MinuteMs
  {
    (ms + MinuteMs - 1) / MinuteMs
  }

  /** `(location.state as any)?.from?.pathname || '/admin'`. */
  function RedirectTarget(requested: Option<string>): (path: string)
    ensures requested.Some? && requested.value != "" ==> path == requested.value
    ensures requested.None? || requested.value == "" ==> path == DefaultRedirect
  {
    if requested.Some? && requested.value != "" then requested.value else DefaultRedirect
  }

  /** The sign-in button's `disabled` expression. */
  function SignInDisabled(loading: bool, lockout: Option<int>, now: int): (disabled: bool)
    ensures disabled <==> loading || IsActive(lockout, now)
  {
    loading || (IsSet(lockout) && now < lockout.value)
  }

  /** The synchronous part of `handleSubmit`, on the render's snapshot of the two counters. */
  function PlanSubmit(attempts: nat, lockout: Option<int>, now: int, email: string, password: string): Plan {
    if IsSet(lockout) && now < lockout.value then
      Plan([SetError(Some(LockedOutFor(CeilMinutes(lockout.value - now))))], None)
    else
      var resets := if IsSet(lockout) then [SetAttempts(0), SetLockout(None)] else [];
      if attempts >= MaxAttempts then
        Plan(resets + [SetLockout(Some(now + WindowMs)), SetError(Some(LockoutStarted))], None)
      else
        Plan(resets + [SetLoading(true), SetError(None)],
             Some(Credentials(ToLowerCase(Trim(email)), password)))
  }

  /** The updates issued once `signInWithPassword` has settled, through the catch and finally blocks. */
  function AfterSignIn(outcome: SignInOutcome, from: string): seq<Update> {
    match outcome
    case SignedIn => [SetAttempts(0), SetLockout(None), RemoveStored, Navigate(from), SetLoading(false)]
    case ReturnedError(message) => [IncrementAttempts, SetError(Some(SignInFailed(message))), SetLoading(false)]
    case Rejected(thrown) => [SetError(Some(SignInFailed(CaughtMessage(thrown)))), SetLoading(false)]
  }

  function Apply(s: PageState, u: Update): PageState {
    match u
    case SetAttempts(n) => s.(attempts := n)
    case IncrementAttempts => s.(attempts := s.attempts + 1)
    case SetLockout(until) => s.(lockoutUntil := until)
    case SetLoading(on) => s.(loading := on)
    case SetError(e) => s.(error := e)
    case RemoveStored => s.(stored := None)
    case Navigate(path) => s.(navigatedTo := Some(path))
  }

  /** The queue applied in order. */
  function ApplyAll(s: PageState, us: seq<Update>): PageState
    decreases |us|
  {
    if us == [] then s else Apply(ApplyAll(s, us[..|us| - 1]), us[|us| - 1])
  }

  lemma ApplyAllAppend(s: PageState, us: seq<Update>, vs: seq<Update>)
    ensures ApplyAll(s, us + vs) == ApplyAll(ApplyAll(s, us), vs)
    decreases |vs|
  {
    if vs != [] {
      assert (us + vs)[..|us + vs| - 1] == us + vs[..|vs| - 1];
      ApplyAllAppend(s, us, vs[..|vs| - 1]);
    } else {
      assert us + vs == us;
    }
  }

  lemma ApplyAllCons(s: PageState, u: Update, us: seq<Update>)
    ensures ApplyAll(s, [u] + us) == ApplyAll(Apply(s, u), us)
  {
    ApplyAllAppend(s, [u], us);
    assert [u][..0] == [];
  }

  lemma ApplyAllPair(s: PageState, u: Update, v: Update)
    ensures ApplyAll(s, [u, v]) == Apply(Apply(s, u), v)
  {
    ApplyAllCons(s, u, [v]);
    assert [u] + [v] == [u, v];
    assert [v][..0] == [];
  }

  /**
   * The effects after a render whose previous commit was `prev`: the effect that writes
   * `loginRateLimit` runs when either counter changed, the effect that resets an expired
   * lockout when `lockoutUntil` changed. The render the reset effect causes runs both
   * again with 0 and null, which changes nothing (`CommitSettles`).
   */
  function Commit(prev: PageState, cur: PageState, now: int): PageState {
    var depsChanged := cur.attempts != prev.attempts || cur.lockoutUntil != prev.lockoutUntil;
    var persisted :=
      if depsChanged && (cur.attempts > 0 || IsSet(cur.lockoutUntil))
      then cur.(stored := Some(StoredRecord(cur.attempts, cur.lockoutUntil)))
      else cur;
    if cur.lockoutUntil != prev.lockoutUntil && IsSet(cur.lockoutUntil) && now > cur.lockoutUntil.value
    then persisted.(attempts := 0, lockoutUntil := None, stored := None)
    else persisted
  }

  /** The render that follows a commit runs its effects without any further change. */
  lemma CommitSettles(prev: PageState, cur: PageState, now: int)
    ensures Commit(cur, Commit(prev, cur, now), now) == Commit(prev, cur, now)
  {
  }

  /**
   * The storage entry is written only with a positive count or a set lockout, and an
   * entry holding an expired lockout is removed with the counters reset.
   */
  lemma CommitStorageRules(prev: PageState, cur: PageState, now: int)
    ensures var next := Commit(prev, cur, now);
      next.stored != cur.stored && next.stored.Some? ==> next.stored.value.attempts > 0 || IsSet(next.stored.value.lockout)
    ensures var next := Commit(prev, cur, now);
      cur.lockoutUntil != prev.lockoutUntil && IsSet(cur.lockoutUntil) && now > cur.lockoutUntil.value ==>
        next.attempts == 0 && next.lockoutUntil == None && next.stored == None
  {
  }

  /** The state on the first render. */
  function InitialState(storedAtLoad: Option<StoredRecord>): PageState {
    PageState(0, None, false, None, storedAtLoad, None)
  }

  /** Mount: the load effect copies the stored record into state, then the effects of that render run. */
  function Mounted(storedAtLoad: Option<StoredRecord>, now: int): PageState {
    var s0 := InitialState(storedAtLoad);
    match storedAtLoad
    case None => s0
    case Some(rec) => Commit(s0, ApplyAll(s0, [SetAttempts(rec.attempts), SetLockout(rec.lockout)]), now)
  }

  /** A whole submit: first segment, its commit, and, when sign-in is called, the continuation and its commit. */
  function SubmitOutcome(s: PageState, now: int, email: string, password: string, outcome: SignInOutcome, from: string): (PageState, Option<Credentials>) {
    var plan := PlanSubmit(s.attempts, s.lockoutUntil, now, email, password);
    var s1 := Commit(s, ApplyAll(s, plan.updates), now);
    if plan.signIn.None? then (s1, None)
    else (Commit(s1, ApplyAll(s1, AfterSignIn(outcome, from)), now), plan.signIn)
  }

  /** The bound on the counter and on the stored copy. */
  predicate Bounded(s: PageState) {
    s.attempts <= MaxAttempts && (s.stored.Some? ==> s.stored.value.attempts <= MaxAttempts)
  }

  // ---------------------------------------------------------------------
  // Properties of the model
  // ---------------------------------------------------------------------

  /** A running lockout makes no sign-in call and only sets the banner, with the minutes rounded up. */
  lemma ActiveLockoutBlocks(s: PageState, now: int, email: string, password: string, outcome: SignInOutcome, from: string)
    requires IsActive(s.lockoutUntil, now)
    ensures var (t, call) := SubmitOutcome(s, now, email, password, outcome, from);
      var minutes := CeilMinutes(s.lockoutUntil.value - now);
      && call == None
      && t == s.(error := Some(LockedOutFor(minutes)))
      && 1 <= minutes
      && (s.lockoutUntil.value <= now + WindowMs ==> minutes <= 15)
  {
    var m := CeilMinutes(s.lockoutUntil.value - now);
    var u := SetError(Some(LockedOutFor(m)));
    assert [u][..0] == [];
    assert ApplyAll(s, [u]) == s.(error := Some(LockedOutFor(m)));
    assert 0 < m;
    if s.lockoutUntil.value <= now + WindowMs {
      assert (m - 1) * MinuteMs < WindowMs;
    }
  }

  /**
   * With no running lockout and a snapshot count of five or more, no sign-in call is made and a
   * fresh 15-minute lockout is armed and stored. The count is whatever the queued resets leave:
   * 0 after an expired lockout (the queued resets in the lockout branch do not affect the
   * `loginAttempts >= maxAttempts` check, which reads the render's snapshot), else unchanged.
   */
  lemma TooManyAttemptsArmsLockout(s: PageState, now: nat, email: string, password: string, outcome: SignInOutcome, from: string)
    requires !IsActive(s.lockoutUntil, now) && s.attempts >= MaxAttempts
    ensures var (t, call) := SubmitOutcome(s, now, email, password, outcome, from);
      var count := if IsSet(s.lockoutUntil) then 0 else s.attempts;
      && call == None
      && t.lockoutUntil == Some(now + WindowMs)
      && t.attempts == count
      && t.stored == Some(StoredRecord(count, Some(now + WindowMs)))
      && t.error == Some(LockoutStarted)
      && t.loading == s.loading && t.navigatedTo == s.navigatedTo
  {
    var plan := PlanSubmit(s.attempts, s.lockoutUntil, now, email, password);
    var resets: seq<Update> := if IsSet(s.lockoutUntil) then [SetAttempts(0), SetLockout(None)] else [];
    var tail := [SetLockout(Some(now + WindowMs)), SetError(Some(LockoutStarted))];
    assert plan.updates == resets + tail;
    ApplyAllAppend(s, resets, tail);
    if IsSet(s.lockoutUntil) {
      ApplyAllPair(s, SetAttempts(0), SetLockout(None));
    }
    ApplyAllPair(ApplyAll(s, resets), tail[0], tail[1]);
  }

  /** Five failures, then an expired lockout: the next submit still locks out, and leaves the count at 0. */
  lemma ExpiredLockoutWithFiveAttempts(s: PageState, now: nat, email: string, password: string, outcome: SignInOutcome, from: string)
    requires IsSet(s.lockoutUntil) && s.lockoutUntil.value <= now && s.attempts == 5
    ensures var (t, call) := SubmitOutcome(s, now, email, password, outcome, from);
      call == None && t.attempts == 0 && t.lockoutUntil == Some(now + WindowMs)
  {
    TooManyAttemptsArmsLockout(s, now, email, password, outcome, from);
  }

  /** The continuation after a failed sign-in: one more attempt, stored, and the error shown. */
  lemma AfterFailedSignIn(s1: PageState, now: int, message: string, from: string)
    ensures Commit(s1, ApplyAll(s1, AfterSignIn(ReturnedError(message), from)), now)
         == s1.(attempts := s1.attempts + 1, error := Some(SignInFailed(message)), loading := false,
                stored := Some(StoredRecord(s1.attempts + 1, s1.lockoutUntil)))
  {
    var post := AfterSignIn(ReturnedError(message), from);
    assert post == [post[0]] + [post[1], post[2]];
    ApplyAllCons(s1, post[0], [post[1], post[2]]);
    ApplyAllPair(Apply(s1, post[0]), post[1], post[2]);
  }

  /**
   * The continuation after a rejected sign-in: the `setLoginAttempts(prev => prev + 1)` is skipped, so the count stays, and
   * only the banner and the loading flag change.
   */
  lemma AfterRejectedSignIn(s1: PageState, now: int, thrown: Option<string>, from: string)
    ensures Commit(s1, ApplyAll(s1, AfterSignIn(Rejected(thrown), from)), now)
         == s1.(error := Some(SignInFailed(CaughtMessage(thrown))), loading := false)
  {
    ApplyAllPair(s1, SetError(Some(SignInFailed(CaughtMessage(thrown)))), SetLoading(false));
  }

  /**
   * The commit after sign-in settles does not depend on the clock: the lockout is then
   * either cleared or unchanged, so the expired-lockout reset cannot fire.
   */
  lemma AfterSignInIgnoresClock(s1: PageState, outcome: SignInOutcome, from: string, now: int, later: int)
    ensures Commit(s1, ApplyAll(s1, AfterSignIn(outcome, from)), later)
         == Commit(s1, ApplyAll(s1, AfterSignIn(outcome, from)), now)
  {
    var us := AfterSignIn(outcome, from);
    match outcome
    case SignedIn =>
      SuccessUpdates(s1, from);
    case ReturnedError(message) =>
      ApplyAllCons(s1, IncrementAttempts, us[1..]);
      ApplyAllPair(Apply(s1, IncrementAttempts), us[1], us[2]);
      assert us == [IncrementAttempts] + us[1..];
    case Rejected(thrown) =>
      ApplyAllPair(s1, us[0], us[1]);
      assert us == [us[0], us[1]];
  }

  /** The updates queued after a successful sign-in, applied in order. */
  lemma SuccessUpdates(s1: PageState, from: string)
    ensures ApplyAll(s1, AfterSignIn(SignedIn, from))
         == s1.(attempts := 0, lockoutUntil := None, stored := None, navigatedTo := Some(from), loading := false)
  {
    var cleared := [SetAttempts(0), SetLockout(None)];
    var head := cleared + [RemoveStored];
    var tail := [Navigate(from), SetLoading(false)];
    assert AfterSignIn(SignedIn, from) == head + tail;
    ApplyAllAppend(s1, head, tail);
    assert head[..2] == cleared;
    ApplyAllPair(s1, SetAttempts(0), SetLockout(None));
    var mid := s1.(attempts := 0, lockoutUntil := None, stored := None);
    assert ApplyAll(s1, head) == mid;
    ApplyAllPair(mid, Navigate(from), SetLoading(false));
  }

  /** The continuation after a successful sign-in: counters and storage cleared, redirect taken. */
  lemma AfterSuccessfulSignIn(s1: PageState, now: int, from: string)
    ensures Commit(s1, ApplyAll(s1, AfterSignIn(SignedIn, from)), now)
         == s1.(attempts := 0, lockoutUntil := None, stored := None, navigatedTo := Some(from), loading := false)
  {
    SuccessUpdates(s1, from);
  }

  /** The state while the sign-in call is in flight: expired lockout reset, loading on, banner cleared. */
  lemma StateAtSignIn(s: PageState, now: int, email: string, password: string)
    requires !IsActive(s.lockoutUntil, now) && s.attempts < MaxAttempts
    ensures var plan := PlanSubmit(s.attempts, s.lockoutUntil, now, email, password);
      var s1 := Commit(s, ApplyAll(s, plan.updates), now);
      && plan.signIn == Some(Credentials(ToLowerCase(Trim(email)), password))
      && s1.attempts == (if IsSet(s.lockoutUntil) then 0 else s.attempts)
      && s1.lockoutUntil == (if IsSet(s.lockoutUntil) then None else s.lockoutUntil)
      && s1.loading && s1.error == None && s1.navigatedTo == s.navigatedTo
      && s1.stored == s.stored
  {
    var plan := PlanSubmit(s.attempts, s.lockoutUntil, now, email, password);
    var resets: seq<Update> := if IsSet(s.lockoutUntil) then [SetAttempts(0), SetLockout(None)] else [];
    var tail := [SetLoading(true), SetError(None)];
    assert plan.updates == resets + tail;
    ApplyAllAppend(s, resets, tail);
    if IsSet(s.lockoutUntil) {
      ApplyAllPair(s, SetAttempts(0), SetLockout(None));
    }
    ApplyAllPair(ApplyAll(s, resets), tail[0], tail[1]);
  }

  /**
   * Below five attempts and with no running lockout, sign-in is called with the trimmed,
   * lower-cased e-mail and the password as typed. A returned error adds exactly one to the
   * count left by the queued resets and stores it; a rejected call counts nothing and stores
   * nothing; a success clears count, lockout and storage and navigates to the redirect target.
   */
  lemma SignInAttempt(s: PageState, now: int, email: string, password: string, outcome: SignInOutcome, from: string)
    requires !IsActive(s.lockoutUntil, now) && s.attempts < MaxAttempts
    ensures var (t, call) := SubmitOutcome(s, now, email, password, outcome, from);
      var base := if IsSet(s.lockoutUntil) then 0 else s.attempts;
      var lockout := if IsSet(s.lockoutUntil) then None else s.lockoutUntil;
      && call == Some(Credentials(ToLowerCase(Trim(email)), password))
      && !t.loading
      && (outcome.ReturnedError? ==>
            && t.attempts == base + 1
            && t.lockoutUntil == lockout
            && t.stored == Some(StoredRecord(base + 1, lockout))
            && t.error == Some(SignInFailed(outcome.message))
            && t.navigatedTo == s.navigatedTo)
      && (outcome.Rejected? ==>
            && t.attempts == base
            && t.lockoutUntil == lockout
            && t.stored == s.stored
            && t.error == Some(SignInFailed(CaughtMessage(outcome.thrown)))
            && t.navigatedTo == s.navigatedTo)
      && (outcome.SignedIn? ==>
            && t.attempts == 0 && t.lockoutUntil == None && t.stored == None
            && t.error == None && t.navigatedTo == Some(from))
  {
    StateAtSignIn(s, now, email, password);
    var plan := PlanSubmit(s.attempts, s.lockoutUntil, now, email, password);
    var s1 := Commit(s, ApplyAll(s, plan.updates), now);
    match outcome
    case ReturnedError(message) => AfterFailedSignIn(s1, now, message, from);
    case Rejected(thrown) => AfterRejectedSignIn(s1, now, thrown, from);
    case SignedIn => AfterSuccessfulSignIn(s1, now, from);
  }

  /** Sign-in is only reached below five, so a submit never takes the counter above five. */
  lemma SubmitKeepsBound(s: PageState, now: nat, email: string, password: string, outcome: SignInOutcome, from: string)
    requires Bounded(s)
    ensures Bounded(SubmitOutcome(s, now, email, password, outcome, from).0)
  {
    if IsActive(s.lockoutUntil, now) {
      ActiveLockoutBlocks(s, now, email, password, outcome, from);
    } else if s.attempts >= MaxAttempts {
      TooManyAttemptsArmsLockout(s, now, email, password, outcome, from);
    } else {
      SignInAttempt(s, now, email, password, outcome, from);
    }
  }

  /** Mounting with a stored record restores it, unless its lockout has passed, which resets to 0 and clears storage. */
  lemma MountRestoresOrResets(rec: StoredRecord, now: int)
    ensures var s := Mounted(Some(rec), now);
      if IsSet(rec.lockout) && now > rec.lockout.value
      then s.attempts == 0 && s.lockoutUntil == None && s.stored == None
      else s.attempts == rec.attempts && s.lockoutUntil == rec.lockout && s.stored == Some(rec)
  {
    var s0 := InitialState(Some(rec));
    ApplyAllPair(s0, SetAttempts(rec.attempts), SetLockout(rec.lockout));
  }

  // ---------------------------------------------------------------------
  // The component
  // ---------------------------------------------------------------------

  class Page {
    var attempts: nat
    var lockoutUntil: Option<int>
    var loading: bool
    var error: Option<LoginError>
    var stored: Option<StoredRecord>
    var navigatedTo: Option<string>
    /** Where a successful sign-in navigates. */
    const from: string

    function State(): PageState
      reads this
    {
      PageState(attempts, lockoutUntil, loading, error, stored, navigatedTo)
    }

    /** Mount with the location's requested path and the storage content at load time. */
    constructor Mount(requested: Option<string>, storedAtLoad: Option<StoredRecord>, now: int)
      ensures State() == Mounted(storedAtLoad, now)
      ensures from == RedirectTarget(requested)
    {
      from := RedirectTarget(requested);
      attempts, lockoutUntil, loading, error, stored, navigatedTo := 0, None, false, None, storedAtLoad, None;
      new;
      if storedAtLoad.Some? {
        var before := State();
        ApplyQueue([SetAttempts(storedAtLoad.value.attempts), SetLockout(storedAtLoad.value.lockout)]);
        RunEffects(before, now);
      }
    }

    /** Whether the sign-in button is disabled at time now. */
    function ButtonDisabled(now: int): (disabled: bool)
      reads this
      ensures disabled <==> loading || IsActive(lockoutUntil, now)
    {
      SignInDisabled(loading, lockoutUntil, now)
    }

    method ApplyUpdate(u: Update)
      modifies this
      ensures State() == Apply(old(State()), u)
    {
      match u
      case SetAttempts(n) => attempts := n;
      case IncrementAttempts => attempts := attempts + 1;
      case SetLockout(until) => lockoutUntil := until;
      case SetLoading(on) => loading := on;
      case SetError(e) => error := e;
      case RemoveStored => stored := None;
      case Navigate(path) => navigatedTo := Some(path);
    }

    /** React processing the queued updates in order. */
    method ApplyQueue(updates: seq<Update>)
      modifies this
      ensures State() == ApplyAll(old(State()), updates)
    {
      ghost var start := State();
      for i := 0 to |updates|
        invariant State() == ApplyAll(start, updates[..i])
      {
        assert updates[..i + 1][..i] == updates[..i];
        ApplyUpdate(updates[i]);
      }
      assert updates[..|updates|] == updates;
    }

    /** The effects of the render after the commit whose counters were those of prev. */
    method RunEffects(prev: PageState, now: int)
      modifies this
      ensures State() == Commit(prev, old(State()), now)
    {
      var depsChanged := attempts != prev.attempts || lockoutUntil != prev.lockoutUntil;
      var lockoutChanged := lockoutUntil != prev.lockoutUntil;
      if depsChanged && (attempts > 0 || IsSet(lockoutUntil)) {
        stored := Some(StoredRecord(attempts, lockoutUntil));
      }
      if lockoutChanged && IsSet(lockoutUntil) && now > lockoutUntil.value {
        attempts := 0;
        lockoutUntil := None;
        stored := None;
      }
    }

    /**
     * `handleSubmit` with the inputs' current values, at time now; `outcome` is how the
     * sign-in call would settle. Returns the sign-in call made, if any.
     */
    method Submit(now: int, email: string, password: string, outcome: SignInOutcome) returns (signIn: Option<Credentials>)
      modifies this
      ensures (State(), signIn) == SubmitOutcome(old(State()), now, email, password, outcome, from)
    {
      var before := State();
      var plan := PlanSubmit(attempts, lockoutUntil, now, email, password);
      ApplyQueue(plan.updates);
      RunEffects(before, now);
      signIn := plan.signIn;
      if signIn.Some? {
        var atAwait := State();
        ApplyQueue(AfterSignIn(outcome, from));
        RunEffects(atAwait, now);
      }
    }
  }
}
