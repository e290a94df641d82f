/** The leased circuit breaker.

    The functions say what each call does to a breaker value; the class is the breaker itself.  The
    time is the reading of the breaker's clock at the call, in any unit. */
module Breaker {

  const FAILURE_THRESHOLD := 4
  const RECOVERY_SECONDS := 60
  const ROUTE_FAILURE_THRESHOLD := 3
  const ROUTE_RECOVERY_SECONDS := 30

  datatype Mode = Closed | Open | HalfOpen

  datatype State = State(mode: Mode, generation: nat, failures: nat, threshold: int, openedAt: int, pending: bool, timeout: int)

  datatype Lease = Lease(generation: nat, halfOpen: bool)

  const NO_LEASE := Lease(0, false)

  function New(threshold: int, timeout: int): State {
    State(Closed, 1, 0, threshold, 0, false, timeout)
  }

  /** The threshold in force: the default stands in for one that is not positive. */
  function Limit(s: State): nat {
    if s.threshold <= 0 then FAILURE_THRESHOLD else s.threshold
  }

  function Probe(s: State): (bool, Lease, State) {
    var t := s.(mode := HalfOpen, pending := true, generation := s.generation + 1);
    (true, Lease(t.generation, true), t)
  }

  function Acquire(s: State, now: int): (bool, Lease, State) {
    match s.mode
    case Closed => (true, Lease(s.generation, false), s)
    case Open => if now - s.openedAt >= s.timeout then Probe(s) else (false, NO_LEASE, s)
    case HalfOpen => if s.pending then (false, NO_LEASE, s) else Probe(s)
  }

  predicate Current(s: State, l: Lease) {
    l.generation != 0 && l.generation == s.generation
  }

  predicate CanContinue(s: State, l: Lease) {
    Current(s, l) && if l.halfOpen then s.mode == HalfOpen && s.pending else s.mode == Closed
  }

  function OpenAt(s: State, now: int): State {
    s.(mode := Open, openedAt := now, failures := s.failures + 1, generation := s.generation + 1, pending := false)
  }

  function Settle(s: State, l: Lease, success: bool, now: int): (bool, State) {
    if !CanContinue(s, l) then (false, s)
    else if l.halfOpen then
      (true, if success then s.(mode := Closed, failures := 0, generation := s.generation + 1, pending := false) else OpenAt(s, now))
    else if success then (true, s.(failures := 0))
    else (true, if s.failures + 1 >= Limit(s) then OpenAt(s, now).(pending := s.pending) else s.(failures := s.failures + 1))
  }

  function SettleCancel(s: State, l: Lease): (bool, State) {
    if !CanContinue(s, l) || !l.halfOpen then (false, s)
    else (true, s.(pending := false, mode := Open, generation := s.generation + 1))
  }

  predicate WouldAllow(s: State, now: int) {
    match s.mode
    case Closed => true
    case Open => now - s.openedAt >= s.timeout
    case HalfOpen => !s.pending
  }

  class CircuitBreaker {
    var mode: Mode
    var generation: nat
    var consecutiveFailures: nat
    var failureThreshold: int
    var openedAt: int
    var pendingProbe: bool
    var recoveryTimeout: int

    function Value(): State
      reads this
    {
      State(mode, generation, consecutiveFailures, failureThreshold, openedAt, pendingProbe, recoveryTimeout)
    }

    constructor (threshold: int, timeout: int)
      ensures Value() == New(threshold, timeout)
    {
      mode := Closed;
      generation := 1;
      consecutiveFailures := 0;
      failureThreshold := threshold;
      openedAt := 0;
      pendingProbe := false;
      recoveryTimeout := timeout;
    }

    method AcquireLease(now: int) returns (allowed: bool, lease: Lease)
      modifies this
      ensures (allowed, lease, Value()) == Acquire(old(Value()), now)
    {
      allowed, lease := false, NO_LEASE;
      match mode {
        case Closed =>
          allowed, lease := true, Lease(generation, false);
        case Open =>
          if now - openedAt >= recoveryTimeout {
            mode := HalfOpen;
            pendingProbe := true;
            generation := generation + 1;
            allowed, lease := true, Lease(generation, true);
          }
        case HalfOpen =>
          if !pendingProbe {
            pendingProbe := true;
            generation := generation + 1;
            allowed, lease := true, Lease(generation, true);
          }
      }
    }

    method MayContinue(lease: Lease) returns (ok: bool)
      ensures ok == CanContinue(Value(), lease)
    {
      if lease.generation == 0 || lease.generation != generation {
        return false;
      }
      if lease.halfOpen {
        return mode == HalfOpen && pendingProbe;
      }
      return mode == Closed;
    }

    method SettleLease(lease: Lease, success: bool, now: int) returns (accepted: bool)
      modifies this
      ensures (accepted, Value()) == Settle(old(Value()), lease, success, now)
    {
      if lease.generation == 0 || lease.generation != generation {
        return false;
      }
      if lease.halfOpen {
        if mode != HalfOpen || !pendingProbe {
          return false;
        }
        pendingProbe := false;
        if success {
          mode := Closed;
          consecutiveFailures := 0;
        } else {
          mode := Open;
          openedAt := now;
          consecutiveFailures := consecutiveFailures + 1;
        }
        generation := generation + 1;
        return true;
      }
      if mode != Closed {
        return false;
      }
      if success {
        consecutiveFailures := 0;
        return true;
      }
      consecutiveFailures := consecutiveFailures + 1;
      var threshold := failureThreshold;
      if threshold <= 0 {
        threshold := FAILURE_THRESHOLD;
      }
      if consecutiveFailures >= threshold {
        mode := Open;
        openedAt := now;
        generation := generation + 1;
      }
      return true;
    }

    method CancelLease(lease: Lease) returns (accepted: bool)
      modifies this
      ensures (accepted, Value()) == SettleCancel(old(Value()), lease)
    {
      if lease.generation == 0 || lease.generation != generation || !lease.halfOpen || mode != HalfOpen || !pendingProbe {
        return false;
      }
      pendingProbe := false;
      mode := Open;
      generation := generation + 1;
      return true;
    }

    method WouldAdmit(now: int) returns (ok: bool)
      ensures ok == WouldAllow(Value(), now)
    {
      match mode {
        case Closed => ok := true;
        case Open => ok := now - openedAt >= recoveryTimeout;
        case HalfOpen => ok := !pendingProbe;
      }
    }
  }
}
