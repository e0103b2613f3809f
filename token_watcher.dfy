/**
 * The auto-logout decision (`scheduleAutoLogout`). Decoding the JWT is an
 * oracle result, the clock is the input `now` (milliseconds), and instead of
 * calling or arming `logoutFn` the decision is returned as an action.
 */
module TokenWatcher {
  import opened Js

  /** What `jwtDecode(token)` yields: it throws, or gives claims of which only `exp` (seconds) is read. */
  datatype Decoded = Undecodable | Claims(exp: Option<int>)

  /**
   * What one call leaves behind: nothing, `logoutFn` already called once, or
   * one `setTimeout` armed for `delay` milliseconds. No cancellation handle
   * is returned in any case.
   */
  datatype LogoutAction = NoOp | Immediate | Scheduled(delay: int)

  /** `decoded.exp` is truthy: present and not 0. */
  predicate HasExpiry(decoded: Decoded) {
    decoded.Claims? && decoded.exp.Some? && decoded.exp.value != 0
  }

  /** Milliseconds from `now` until the token's `exp`. */
  function Delay(decoded: Decoded, now: int): int
    requires HasExpiry(decoded)
  {
    decoded.exp.value * 1000 - now
  }

  function ScheduleAutoLogout(decoded: Decoded, now: int): (a: LogoutAction)
    ensures !HasExpiry(decoded) <==> a == NoOp
    ensures HasExpiry(decoded) && Delay(decoded, now) <= 0 <==> a == Immediate
    ensures a.Scheduled? ==> HasExpiry(decoded) && a.delay == Delay(decoded, now) && a.delay > 0
  {
    match decoded
    case Undecodable => NoOp
    case Claims(exp) =>
      if exp.None? || exp.value == 0 then NoOp
      else
        var delay := exp.value * 1000 - now;
        if delay <= 0 then Immediate else Scheduled(delay)
  }

  /** The largest delay a browser timer holds: its delay is a 32-bit signed integer. */
  const MaxTimerDelay: int := 0x7FFF_FFFF

  /**
   * The delay `setTimeout` actually waits: the requested one converted to a
   * Web IDL `long` (wrapped modulo 2^32 into the signed 32-bit range), and a
   * negative result replaced by 0, as the HTML timer initialisation steps say.
   */
  function TimerDelay(delay: int): (d: nat)
    ensures 0 <= delay <= MaxTimerDelay ==> d == delay
    ensures MaxTimerDelay < delay < 0x1_0000_0000 ==> d == 0
    ensures d <= MaxTimerDelay
  {
    var wrapped := delay % 0x1_0000_0000;
    var signed := if wrapped > MaxTimerDelay then wrapped - 0x1_0000_0000 else wrapped;
    if signed < 0 then 0 else signed
  }

  /**
   * How many times `logoutFn` has run `elapsed` milliseconds after the call.
   * A timer whose effective delay is 0 counts as having run at elapsed 0.
   */
  function Invocations(a: LogoutAction, elapsed: nat): nat {
    match a
    case NoOp => 0
    case Immediate => 1
    case Scheduled(delay) => if elapsed >= TimerDelay(delay) then 1 else 0
  }

  /** A token that fails to decode, or has no truthy `exp` (missing or 0), never logs out. */
  lemma NoExpiryNeverLogsOut(decoded: Decoded, now: int, elapsed: nat)
    requires !HasExpiry(decoded)
    ensures ScheduleAutoLogout(decoded, now) == NoOp
    ensures Invocations(ScheduleAutoLogout(decoded, now), elapsed) == 0
  {
  }

  /** An expired token logs out at once, exactly once, and arms no timer. */
  lemma ExpiredLogsOutImmediately(exp: int, now: int, elapsed: nat)
    requires exp != 0 && exp * 1000 <= now
    ensures ScheduleAutoLogout(Claims(Some(exp)), now) == Immediate
    ensures Invocations(Immediate, 0) == 1 && Invocations(Immediate, elapsed) == 1
  {
  }

  /**
   * A live token whose delay fits a browser timer arms one deferred call, for
   * `exp*1000 - now` ms: nothing before it, one call after.
   */
  lemma LiveTokenLogsOutOnceAtExpiry(exp: int, now: int, elapsed: nat)
    requires exp != 0 && exp * 1000 > now
    requires exp * 1000 - now <= MaxTimerDelay
    ensures ScheduleAutoLogout(Claims(Some(exp)), now) == Scheduled(exp * 1000 - now)
    ensures Invocations(Scheduled(exp * 1000 - now), elapsed) == (if elapsed >= exp * 1000 - now then 1 else 0)
    ensures Invocations(Scheduled(exp * 1000 - now), 0) == 0
  {
  }

  /**
   * A token that lives longer than a browser timer can wait (about 24.8 days)
   * is logged out before it expires; below 2^32 ms the timer fires at once.
   */
  lemma LongLivedTokenLogsOutEarly(exp: int, now: int)
    requires exp != 0 && exp * 1000 - now > MaxTimerDelay
    ensures ScheduleAutoLogout(Claims(Some(exp)), now) == Scheduled(exp * 1000 - now)
    ensures TimerDelay(exp * 1000 - now) < exp * 1000 - now
    ensures Invocations(ScheduleAutoLogout(Claims(Some(exp)), now), TimerDelay(exp * 1000 - now)) == 1
    ensures exp * 1000 - now < 0x1_0000_0000 ==> Invocations(ScheduleAutoLogout(Claims(Some(exp)), now), 0) == 1
  {
  }

  /** Whatever the token, `logoutFn` runs at most once per call, and never un-runs. */
  lemma AtMostOneLogout(decoded: Decoded, now: int, t1: nat, t2: nat)
    requires t1 <= t2
    ensures Invocations(ScheduleAutoLogout(decoded, now), t2) <= 1
    ensures Invocations(ScheduleAutoLogout(decoded, now), t1) <= Invocations(ScheduleAutoLogout(decoded, now), t2)
  {
  }
}
