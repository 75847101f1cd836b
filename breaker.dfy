/** The failure counter behind the request handler's circuit breaker (server.py lines 55-60,
    380-403) as values: its three regimes, the cool-down a rejected request is told about,
    and the transitions the handler applies to it after each outcome. */
module CircuitBreaker {

  /** From this many failures on, every request is checked against the cool-down (line 380). */
  const OpenThreshold: int := 3
  /** The value a hard rate limit pins the counter at (line 509); the counter never exceeds it. */
  const CriticalCount: int := 100
  const NormalCoolDown: int := 900
  const CriticalCoolDown: int := 3600
  const JitterSeconds: int := 300

  /** `auth_failure_count`: it starts at 0, only grows while below `CriticalCount`, and is set
      to `CriticalCount` at most, so every reachable value lies in this range. */
  type Count = c: int | 0 <= c <= CriticalCount

  /** A draw of `randint(0, JITTER_SECONDS)`, both ends included. */
  type Jitter = j: int | 0 <= j <= JitterSeconds

  /** The admission check runs when there is no client or the breaker is open. */
  predicate NeedsAdmissionCheck(hasClient: bool, count: Count)
  {
    !hasClient || count >= OpenThreshold
  }

  /** The base cool-down (line 384): the long one once the counter is critical, whether a hard
      rate limit pinned it or authentication failures accumulated to it. */
  function BaseCoolDown(count: Count): int
  {
    if count >= CriticalCount then CriticalCoolDown else NormalCoolDown
  }

  /** The critical cool-down is four times the normal one. */
  lemma CriticalCoolDownLonger(normal: Count, critical: Count)
    requires normal < CriticalCount <= critical
    ensures BaseCoolDown(critical) == 4 * BaseCoolDown(normal)
  {
  }

  /** What the admission block decides. A rejection carries whether the counter is critical
      (it selects the reason shown), the remaining seconds and those seconds in whole minutes. */
  datatype Admission = Admitted | Rejected(critical: bool, remaining: int, minutes: int)

  /** Lines 380-403. `remaining` is `int(actual_cool_down - time_passed)`, which truncates the
      positive difference: it is the floor, not the ceiling, so a request rejected with less
      than a second to go is told to wait 0 seconds. */
  function Decide(hasClient: bool, count: Count, lastFailure: real, now: real, jitter: Jitter): (r: Admission)
    ensures r.Rejected? <==>
              NeedsAdmissionCheck(hasClient, count)
              && now - lastFailure < (BaseCoolDown(count) + jitter) as real
    ensures r.Rejected? ==> (r.critical <==> count >= CriticalCount)
    ensures r.Rejected? ==>
              0 <= r.remaining
              && r.remaining as real <= (BaseCoolDown(count) + jitter) as real - (now - lastFailure)
              < r.remaining as real + 1.0
    ensures r.Rejected? ==> r.minutes * 60 <= r.remaining < r.minutes * 60 + 60
  {
    if !NeedsAdmissionCheck(hasClient, count) then Admitted
    else
      var actualCoolDown := BaseCoolDown(count) + jitter;
      var timePassed := now - lastFailure;
      if timePassed < actualCoolDown as real then
        var remaining := (actualCoolDown as real - timePassed).Floor;
        Rejected(count >= CriticalCount, remaining, remaining / 60)
      else Admitted
  }

  /** Whatever the jitter draw, a request inside the base cool-down is rejected and one past
      the base cool-down plus the largest jitter is admitted. */
  lemma AdmissionWindow(hasClient: bool, count: Count, lastFailure: real, now: real, jitter: Jitter)
    requires NeedsAdmissionCheck(hasClient, count)
    ensures now - lastFailure < BaseCoolDown(count) as real ==> Decide(hasClient, count, lastFailure, now, jitter).Rejected?
    ensures now - lastFailure >= (BaseCoolDown(count) + JitterSeconds) as real ==> Decide(hasClient, count, lastFailure, now, jitter).Admitted?
  {
  }

  /** A closed breaker with a client never consults the clock. */
  lemma ClosedBreakerAdmits(count: Count, lastFailure: real, now: real, jitter: Jitter)
    requires count < OpenThreshold
    ensures Decide(true, count, lastFailure, now, jitter) == Admitted
  {
  }

  /** The outcomes that move the counter. */
  datatype Event =
    | HardLimited     // a "429" error on the first send (lines 505-510)
    | AuthFailed      // cold-start init failed (lines 421-425) or the refresh-and-resend failed (lines 570-575)
    | Succeeded       // a send succeeded, first time or after refresh (lines 492-495, 568)
    | InitSucceeded   // cold-start init succeeded (lines 417-418)

  /** The counter after one event. */
  function Step(count: Count, e: Event): Count
  {
    match e
    case HardLimited => CriticalCount
    case AuthFailed => if count < CriticalCount then count + 1 else count
    case Succeeded => 0
    case InitSucceeded => if count < CriticalCount then 0 else count
  }

  /** The counter after a sequence of events, one request at a time. */
  function Replay(count: Count, events: seq<Event>): Count
    decreases |events|
  {
    if events == [] then count else Replay(Step(count, events[0]), events[1..])
  }

  lemma {:induction false} ReplayAppend(count: Count, a: seq<Event>, b: seq<Event>)
    ensures Replay(count, a + b) == Replay(Replay(count, a), b)
    decreases |a|
  {
    if a == [] {
      assert a + b == b;
    } else {
      assert (a + b)[1..] == a[1..] + b;
      ReplayAppend(Step(count, a[0]), a[1..], b);
    }
  }

  /** Any number (at least one) of hard rate limits leaves the counter at exactly 100, not at
      the number of events. */
  lemma {:induction false} HardLimitsPinCounter(count: Count, events: seq<Event>)
    requires |events| > 0
    requires forall k :: 0 <= k < |events| ==> events[k] == HardLimited
    ensures Replay(count, events) == CriticalCount
    decreases |events|
  {
    if |events| > 1 {
      HardLimitsPinCounter(Step(count, events[0]), events[1..]);
    }
  }

  /** Once critical, the counter stays critical until a success: neither an authentication
      failure nor a cold-start init lowers it. */
  lemma {:induction false} CriticalIsSticky(events: seq<Event>)
    requires forall k :: 0 <= k < |events| ==> events[k] != Succeeded
    ensures Replay(CriticalCount, events) == CriticalCount
    decreases |events|
  {
    if events != [] {
      CriticalIsSticky(events[1..]);
    }
  }

  /** A single success after any history resets the counter. */
  lemma SuccessResets(count: Count, events: seq<Event>)
    ensures Replay(count, events + [Succeeded]) == 0
  {
    ReplayAppend(count, events, [Succeeded]);
  }

  /** Consecutive authentication failures add one each, saturating at 100. */
  lemma {:induction false} AuthFailuresAccumulate(count: Count, events: seq<Event>)
    requires forall k :: 0 <= k < |events| ==> events[k] == AuthFailed
    ensures Replay(count, events) == if count + |events| <= CriticalCount then count + |events| else CriticalCount
    decreases |events|
  {
    if events != [] {
      AuthFailuresAccumulate(Step(count, events[0]), events[1..]);
    }
  }

  /** Authentication failures alone reach the critical regime: from an open breaker, 97 more
      failures with no rate limit select the one-hour cool-down. */
  lemma AuthFailuresReachCritical(events: seq<Event>)
    requires |events| == CriticalCount - OpenThreshold
    requires forall k :: 0 <= k < |events| ==> events[k] == AuthFailed
    ensures Replay(OpenThreshold, events) == CriticalCount
    ensures BaseCoolDown(Replay(OpenThreshold, events)) == CriticalCoolDown
  {
    AuthFailuresAccumulate(OpenThreshold, events);
  }

  /** So three failed refreshes open a closed breaker. */
  lemma ThreeAuthFailuresOpen()
    ensures Replay(0, [AuthFailed, AuthFailed, AuthFailed]) >= OpenThreshold
  {
    AuthFailuresAccumulate(0, [AuthFailed, AuthFailed, AuthFailed]);
  }

  /** The admission block as written. Line 13 imports the function `random` from module
      `random`, so `random.randint` on line 388 looks up an attribute the function does not
      have: whenever the block runs it raises AttributeError before the clock is read and
      before any state changes, and lines 626-630 answer 500 with that message. The rest of
      this model uses `Decide`, the evident intent, with the jitter drawn by the caller. */
  datatype AsWrittenAdmission = Proceeds | RaisesAttributeError(message: string)

  const RandintAttributeError: string := "'builtin_function_or_method' object has no attribute 'randint'"

  function DecideAsWritten(hasClient: bool, count: Count): (r: AsWrittenAdmission)
    ensures r.RaisesAttributeError? <==> NeedsAdmissionCheck(hasClient, count)
  {
    if NeedsAdmissionCheck(hasClient, count) then RaisesAttributeError(RandintAttributeError) else Proceeds
  }

  /** A server with no client and counter 0, its failure time still the initial 0.0, at any
      real clock reading (seconds since the epoch, so far past 1200): as written the request
      fails (and, the state being untouched, so does every later one), while the intended
      check admits it for every jitter draw and goes on to initialise the client. */
  lemma RandintFinding(now: real, jitter: Jitter)
    requires now >= (NormalCoolDown + JitterSeconds) as real
    ensures DecideAsWritten(false, 0).RaisesAttributeError?
    ensures Decide(false, 0, 0.0, now, jitter) == Admitted
  {
  }
}
