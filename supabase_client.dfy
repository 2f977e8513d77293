/**
 * The session-refresh scheduler of src/supabaseClient.ts and the
 * environment check that runs before the client is created.
 *
 * The module-level `refreshTokenTimer` handle and the browser's set of armed
 * timers are the state of `RefreshScheduler`. Every stretch of code between
 * two `await`s is one method: `SetupResumed` is the body of
 * `setupSessionRefresh` after `getSession()` returns, `Fire` is a timer firing
 * together with the continuation after `refreshSession()`, and
 * `AuthStateChanged` is the auth-change listener.
 */
module SupabaseClient {
  import opened Wrappers

  // ---------------------------------------------------------------------
  // Environment check
  // ---------------------------------------------------------------------

  datatype ClientConfig = ClientConfig(url: string, anonKey: string)

  /** An environment variable that is set to a non-empty string. */
  predicate IsTruthy(v: Option<string>) { v.Some? && v.value != "" }

  /**
   * `validateEnvVariables`. Whether the URL constructor accepts the URL is a
   * parameter (`urlParses`): URL parsing is not part of this model.
   */
  function ValidateEnv(url: Option<string>, anonKey: Option<string>, urlParses: bool): (r: Result<ClientConfig, string>)
    ensures r.Failure? <==> !IsTruthy(url) || !IsTruthy(anonKey) || !urlParses
    ensures !IsTruthy(url) || !IsTruthy(anonKey) ==> r == Failure("Missing Supabase environment variables")
    ensures IsTruthy(url) && IsTruthy(anonKey) && !urlParses ==> r == Failure("Invalid Supabase URL format")
    ensures r.Success? ==> r.value == ClientConfig(url.value, anonKey.value)
  {
    if !IsTruthy(url) || !IsTruthy(anonKey) then Failure("Missing Supabase environment variables")
    else if !urlParses then Failure("Invalid Supabase URL format")
    else Success(ClientConfig(url.value, anonKey.value))
  }

  // ---------------------------------------------------------------------
  // Refresh delay
  // ---------------------------------------------------------------------

  /** Refresh five minutes before expiry. */
  const RefreshMarginMs := 5 * 60 * 1000

  /** `Math.max(0, timeUntilExpiry - 5 * 60 * 1000)`. */
  function RefreshDelay(timeUntilExpiry: int): (delay: int)
    ensures 0 <= delay
    ensures timeUntilExpiry <= 0 ==> delay == 0
    ensures delay <= timeUntilExpiry || delay == 0
    ensures timeUntilExpiry >= RefreshMarginMs ==> timeUntilExpiry - delay == RefreshMarginMs
    ensures timeUntilExpiry <= RefreshMarginMs ==> delay == 0
  {
    if timeUntilExpiry - RefreshMarginMs > 0 then timeUntilExpiry - RefreshMarginMs else 0
  }

  lemma RefreshDelayExamples()
    ensures RefreshDelay(10 * 60 * 1000) == 300000
    ensures RefreshDelay(2 * 60 * 1000) == 0
  {
  }

  /** A session as the auth client reports it; `expires_at` is in seconds since the epoch. */
  datatype Session = Session(expiresAt: Option<int>)

  /** `session?.expires_at` is truthy (present and not 0). */
  predicate HasExpiry(session: Option<Session>) {
    session.Some? && session.value.expiresAt.Some? && session.value.expiresAt.value != 0
  }

  /** `new Date(session.expires_at).getTime()` as written: the seconds value is read as milliseconds. */
  function ExpiryMillisAsWritten(expiresAt: int): int {
    expiresAt
  }

  /** The expiry instant in milliseconds, converting the seconds value. */
  function ExpiryMillis(expiresAt: int): int {
    expiresAt * 1000
  }

  /**
   * How the scheduler turns `expires_at` into an instant: as the code is written
   * (the seconds value read as milliseconds), or with the unit converted.
   */
  datatype ExpiryReading = ReadAsMillis | ConvertSeconds

  function ExpiryInstant(reading: ExpiryReading, expiresAt: int): int {
    match reading
    case ReadAsMillis => ExpiryMillisAsWritten(expiresAt)
    case ConvertSeconds => ExpiryMillis(expiresAt)
  }

  /**
   * The delay armed for a session with an expiry, observed at time now (milliseconds):
   * the timer fires five minutes before the expiry instant, or at once when that moment has passed.
   */
  function SessionDelay(session: Option<Session>, now: int, reading: ExpiryReading): (delay: int)
    requires HasExpiry(session)
    ensures 0 <= delay
    ensures delay == 0 || now + delay == ExpiryInstant(reading, session.value.expiresAt.value) - RefreshMarginMs
    ensures now <= ExpiryInstant(reading, session.value.expiresAt.value) - RefreshMarginMs ==>
              now + delay == ExpiryInstant(reading, session.value.expiresAt.value) - RefreshMarginMs
  {
    RefreshDelay(ExpiryInstant(reading, session.value.expiresAt.value) - now)
  }

  /**
   * As written, any session whose expiry (in seconds) is not after the current time
   * in milliseconds gets a refresh delay of 0: for every real session the timer fires at once.
   */
  lemma AsWrittenDelayCollapses(session: Option<Session>, now: int)
    requires HasExpiry(session) && session.value.expiresAt.value <= now
    ensures SessionDelay(session, now, ReadAsMillis) == 0
  {
  }

  /** A session expiring in one hour, seen at 2023-11-14T22:13:20Z. */
  lemma ExpiryUnitCounterexample()
    ensures SessionDelay(Some(Session(Some(1700003600))), 1700000000000, ReadAsMillis) == 0
    ensures SessionDelay(Some(Session(Some(1700003600))), 1700000000000, ConvertSeconds) == 3300000
  {
  }

  /** With the unit converted, the timer fires exactly five minutes before expiry, or at once if that moment has passed. */
  lemma CorrectedDelayFiresFiveMinutesEarly(session: Option<Session>, now: int)
    requires HasExpiry(session)
    ensures ExpiryMillis(session.value.expiresAt.value) - now >= RefreshMarginMs ==>
              now + SessionDelay(session, now, ConvertSeconds) == session.value.expiresAt.value * 1000 - RefreshMarginMs
    ensures ExpiryMillis(session.value.expiresAt.value) - now < RefreshMarginMs ==> SessionDelay(session, now, ConvertSeconds) == 0
  {
  }

  // ---------------------------------------------------------------------
  // The timer handle
  // ---------------------------------------------------------------------

  /** The ids a handle can have pending: its own, if any. */
  function HandleIds(handle: Option<nat>): set<nat> {
    if handle.Some? then {handle.value} else {}
  }

  /** A map whose keys lie within one handle's ids has at most one entry. */
  lemma AtMostOnePending(handle: Option<nat>, pending: map<nat, int>)
    requires pending.Keys <= HandleIds(handle)
    ensures |pending| <= 1
  {
    if handle.Some? {
      assert pending.Keys <= {handle.value};
      if pending.Keys != {} {
        assert pending.Keys == {handle.value};
      }
    } else {
      assert pending.Keys == {};
    }
  }

  class RefreshScheduler {
    /** How this scheduler reads `expires_at`. */
    const reading: ExpiryReading
    /** `refreshTokenTimer`: the id of the last timer armed (browser ids start at 1, so a set handle is truthy). */
    var handle: Option<nat>
    /** Timers armed and neither fired nor cleared, with their delays. */
    var pending: map<nat, int>
    /** The id the next `window.setTimeout` returns. */
    var nextId: nat

    ghost predicate Valid()
      reads this
    {
      && 1 <= nextId
      && (handle.Some? ==> 1 <= handle.value < nextId)
      && pending.Keys <= HandleIds(handle)
    }

    /** Module load: no handle, nothing armed. The first `setupSessionRefresh()` call resumes in `SetupResumed`. */
    constructor (reading: ExpiryReading)
      ensures Valid() && handle == None && pending == map[] && this.reading == reading
    {
      this.reading := reading;
      handle := None;
      pending := map[];
      nextId := 1;
    }

    /**
     * `setupSessionRefresh` after `getSession()` returned `session` at time `now`:
     * with an expiry, clear the current handle and arm one new timer; otherwise do nothing.
     */
    method SetupResumed(session: Option<Session>, now: int) returns (armed: Option<nat>)
      requires Valid()
      modifies this
      ensures Valid() && |pending| <= 1
      ensures !HasExpiry(session) ==> armed == None && handle == old(handle) && pending == old(pending) && nextId == old(nextId)
      ensures HasExpiry(session) ==>
                && armed == Some(old(nextId)) && handle == armed
                && pending == map[old(nextId) := SessionDelay(session, now, reading)]
                && nextId == old(nextId) + 1
    {
      armed := None;
      if HasExpiry(session) {
        var delay := SessionDelay(session, now, reading);
        if handle.Some? {
          pending := pending - {handle.value};   // window.clearTimeout(refreshTokenTimer)
        }
        assert pending == map[];
        var id := nextId;                        // window.setTimeout(...)
        nextId := nextId + 1;
        pending := pending[id := delay];
        handle := Some(id);
        armed := handle;
      }
      AtMostOnePending(handle, pending);
    }

    /**
     * The pending timer `id` fires; its callback awaits `refreshSession()`, whose
     * success is `refreshOk`. A successful refresh calls `setupSessionRefresh()`
     * again (to resume in `SetupResumed`); a failed one arms nothing.
     */
    method Fire(id: nat, refreshOk: bool) returns (rerunSetup: bool)
      requires Valid() && id in pending
      modifies this
      ensures Valid() && pending == map[]
      ensures handle == old(handle) && nextId == old(nextId)
      ensures rerunSetup == refreshOk
    {
      pending := pending - {id};
      assert pending.Keys <= HandleIds(handle) - {id};
      rerunSetup := refreshOk;
    }

    /**
     * The auth-change listener: a notification with a session calls
     * `setupSessionRefresh()`; one without a session clears the handle's timer
     * but leaves the handle variable as it was.
     */
    method AuthStateChanged(session: Option<Session>) returns (rerunSetup: bool)
      requires Valid()
      modifies this
      ensures Valid() && |pending| <= 1
      ensures handle == old(handle) && nextId == old(nextId)
      ensures rerunSetup == session.Some?
      ensures session.Some? ==> pending == old(pending)
      ensures session.None? ==> pending == map[]
    {
      rerunSetup := session.Some?;
      if session.None? && handle.Some? {
        pending := pending - {handle.value};    // window.clearTimeout(refreshTokenTimer)
      }
      AtMostOnePending(handle, pending);
    }
  }

  /** Two notifications with a session, each followed by its setup, leave one timer armed: the second one. */
  method TwoSessionNotifications(session: Session, now: int, reading: ExpiryReading) returns (pendingAfter: nat)
    requires session.expiresAt.Some? && session.expiresAt.value != 0
    ensures pendingAfter == 1
  {
    var s := new RefreshScheduler(reading);
    var rerun := s.AuthStateChanged(Some(session));
    var first := s.SetupResumed(Some(session), now);
    rerun := s.AuthStateChanged(Some(session));
    var second := s.SetupResumed(Some(session), now);
    assert first != second;
    pendingAfter := |s.pending|;
  }
}
