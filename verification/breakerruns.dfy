/** The breaker under every interleaving of concurrent lease holders. */
module BreakerRuns {
  import opened Breaker

  /** One call on the breaker.  A holder may settle or cancel any lease it was ever granted, at any
      time and any number of times; `i` is the position of the grant. */
  datatype Action =
    | Take
    | Report(i: nat, success: bool)
    | Release(i: nat)
    | Wait(d: nat)

  /** The accepted settlements that bear on the closed state: a success, a failure, or a closing. */
  datatype Note = Success | Failure | Closing

  /** The breaker, the clock, the leases granted so far in order, and the accepted settlements. */
  datatype System = System(breaker: State, now: int, grants: seq<Lease>, notes: seq<Note>)

  function Start(threshold: int, timeout: int, now: int): System {
    System(New(threshold, timeout), now, [], [])
  }

  predicate Enabled(s: System, a: Action) {
    match a
    case Report(i, _) => i < |s.grants|
    case Release(i) => i < |s.grants|
    case _ => true
  }

  function NoteOf(s: System, l: Lease, success: bool): seq<Note> {
    if !Settle(s.breaker, l, success, s.now).0 then []
    else if l.halfOpen then (if success then [Closing] else [])
    else [if success then Success else Failure]
  }

  function Next(s: System, a: Action): System
    requires Enabled(s, a)
  {
    match a
    case Take =>
      var (ok, l, b) := Acquire(s.breaker, s.now);
      s.(breaker := b, grants := if ok then s.grants + [l] else s.grants)
    case Report(i, success) =>
      s.(breaker := Settle(s.breaker, s.grants[i], success, s.now).1, notes := s.notes + NoteOf(s, s.grants[i], success))
    case Release(i) => s.(breaker := SettleCancel(s.breaker, s.grants[i]).1)
    case Wait(d) => s.(now := s.now + d)
  }

  /** The states of a run: each follows from the one before by an enabled action. */
  ghost predicate IsRun(states: seq<System>, actions: seq<Action>, threshold: int, timeout: int) {
    && |states| == |actions| + 1
    && states[0] == Start(threshold, timeout, states[0].now)
    && forall k :: 0 <= k < |actions| ==> Enabled(states[k], actions[k]) && states[k + 1] == Next(states[k], actions[k])
  }

  /** The failures at the end of the settlements. */
  function TrailingFailures(notes: seq<Note>): nat {
    if notes == [] || notes[|notes| - 1] != Failure then 0 else 1 + TrailingFailures(notes[..|notes| - 1])
  }

  /** Whether the breaker has ever been opened. */
  predicate Opened(b: State) {
    b.generation > 1
  }

  // --- The invariant ---

  ghost predicate Consistent(s: System) {
    GrantsOk(s.breaker, s.grants) && StateOk(s.breaker, s.notes, s.now)
  }

  ghost predicate GrantsOk(b: State, grants: seq<Lease>) {
    && (forall i :: 0 <= i < |grants| ==> 1 <= grants[i].generation <= b.generation)
    // A lease of the current generation is of the kind the current mode grants.
    && (forall i :: 0 <= i < |grants| && grants[i].generation == b.generation ==> b.mode == if grants[i].halfOpen then HalfOpen else Closed)
    && (forall i, j :: 0 <= i < j < |grants| && grants[i].halfOpen && grants[j].halfOpen ==> grants[i].generation < grants[j].generation)
    && (b.mode == HalfOpen ==> Lease(b.generation, true) in grants)
  }

  ghost predicate StateOk(b: State, notes: seq<Note>, now: int) {
    && b.generation >= 1
    && (b.mode == HalfOpen <==> b.pending)
    && (b.mode == Closed ==> b.failures == TrailingFailures(notes) < Limit(b))
    && (b.mode != Closed ==> Opened(b))
    && (Opened(b) ==> b.openedAt <= now && (b.mode != Open ==> b.openedAt + b.timeout <= now))
  }

  lemma StartConsistent(threshold: int, timeout: int, now: int)
    ensures Consistent(Start(threshold, timeout, now))
  {
  }

  lemma TakeConsistent(s: System)
    requires Consistent(s) && s.breaker.timeout >= 0
    ensures Consistent(Next(s, Take))
  {
    var t := Next(s, Take);
    if t.grants != s.grants {
      assert t.grants[|s.grants|] in t.grants;
    }
  }

  lemma TrailingSnoc(notes: seq<Note>, n: Note)
    ensures TrailingFailures(notes + [n]) == if n == Failure then 1 + TrailingFailures(notes) else 0
  {
    assert (notes + [n])[..|notes|] == notes;
  }

  /** A report that is refused changes nothing. */
  lemma RefusedReport(s: System, i: nat, success: bool)
    requires i < |s.grants| && !Settle(s.breaker, s.grants[i], success, s.now).0
    ensures Next(s, Report(i, success)) == s
  {
    assert s.notes + [] == s.notes;
  }

  lemma ReportGrants(b: State, grants: seq<Lease>, l: Lease, success: bool, now: int)
    requires GrantsOk(b, grants) && l in grants && Settle(b, l, success, now).0
    ensures GrantsOk(Settle(b, l, success, now).1, grants)
  {
  }

  lemma ReportState(s: System, l: Lease, success: bool)
    requires StateOk(s.breaker, s.notes, s.now) && Settle(s.breaker, l, success, s.now).0
    ensures StateOk(Settle(s.breaker, l, success, s.now).1, s.notes + NoteOf(s, l, success), s.now)
  {
    hide TrailingFailures;
    var note := NoteOf(s, l, success);
    if note != [] {
      TrailingSnoc(s.notes, note[0]);
    } else {
      assert s.notes + [] == s.notes;
    }
  }

  lemma ReportConsistent(s: System, i: nat, success: bool)
    requires Consistent(s) && i < |s.grants|
    ensures Consistent(Next(s, Report(i, success)))
  {
    hide GrantsOk, StateOk, Settle, NoteOf;
    if Settle(s.breaker, s.grants[i], success, s.now).0 {
      ReportGrants(s.breaker, s.grants, s.grants[i], success, s.now);
      ReportState(s, s.grants[i], success);
    } else {
      RefusedReport(s, i, success);
    }
  }

  lemma StepConsistent(s: System, a: Action)
    requires Consistent(s) && s.breaker.timeout >= 0 && Enabled(s, a)
    ensures Consistent(Next(s, a)) && Next(s, a).breaker.timeout == s.breaker.timeout && Next(s, a).breaker.threshold == s.breaker.threshold
  {
    match a
    case Take => TakeConsistent(s);
    case Report(i, success) => ReportConsistent(s, i, success);
    case _ =>
  }

  lemma {:induction false} RunConsistent(states: seq<System>, actions: seq<Action>, threshold: int, timeout: int, k: nat)
    requires IsRun(states, actions, threshold, timeout) && timeout >= 0 && k < |states|
    ensures Consistent(states[k]) && states[k].breaker.timeout == timeout && states[k].breaker.threshold == threshold
  {
    if k == 0 {
      StartConsistent(threshold, timeout, states[0].now);
    } else {
      RunConsistent(states, actions, threshold, timeout, k - 1);
      StepConsistent(states[k - 1], actions[k - 1]);
    }
  }

  // --- What it gives ---

  /** The `i`-th grant is a live half-open lease. */
  predicate HoldsProbe(s: System, i: nat)
    requires i < |s.grants|
  {
    s.grants[i].halfOpen && CanContinue(s.breaker, s.grants[i])
  }

  /** In every reachable state: half-open exactly when a probe is pending, and then exactly one
      grant holds the live half-open lease. */
  lemma OneProbe(states: seq<System>, actions: seq<Action>, threshold: int, timeout: int, k: nat)
    requires IsRun(states, actions, threshold, timeout) && timeout >= 0 && k < |states|
    ensures var s := states[k];
            && (s.breaker.mode == HalfOpen <==> s.breaker.pending)
            && (forall i, j :: 0 <= i < |s.grants| && 0 <= j < |s.grants| && HoldsProbe(s, i) && HoldsProbe(s, j) ==> i == j)
            && (s.breaker.mode == HalfOpen <==> exists i :: 0 <= i < |s.grants| && HoldsProbe(s, i))
  {
    RunConsistent(states, actions, threshold, timeout, k);
    var s := states[k];
    if s.breaker.mode == HalfOpen {
      var i :| 0 <= i < |s.grants| && s.grants[i] == Lease(s.breaker.generation, true);
      assert HoldsProbe(s, i);
    }
  }

  lemma StepMonotone(s: System, a: Action)
    requires Enabled(s, a)
    ensures var t := Next(s, a);
            && t.breaker.generation >= s.breaker.generation && t.now >= s.now && s.grants <= t.grants
            && (t.breaker != s.breaker && t.breaker.mode != Closed ==> t.breaker.generation > s.breaker.generation)
            && (t.breaker.mode == Open && s.breaker.mode != Open ==> t.breaker.generation > s.breaker.generation)
  {
    // In a mode other than closed every accepted call ends the generation.
    var t := Next(s, a);
  }

  lemma RunStep(states: seq<System>, actions: seq<Action>, threshold: int, timeout: int, k: nat)
    requires IsRun(states, actions, threshold, timeout) && k + 1 < |states|
    ensures k < |actions| && Enabled(states[k], actions[k]) && states[k + 1] == Next(states[k], actions[k])
  {
  }

  lemma {:induction false} RunMonotone(states: seq<System>, actions: seq<Action>, threshold: int, timeout: int, i: nat, j: nat)
    requires IsRun(states, actions, threshold, timeout) && i <= j < |states|
    ensures states[i].breaker.generation <= states[j].breaker.generation && states[i].now <= states[j].now && states[i].grants <= states[j].grants
    decreases j
  {
    hide *;
    if i < j {
      RunMonotone(states, actions, threshold, timeout, i, j - 1);
      RunStep(states, actions, threshold, timeout, j - 1);
      StepMonotone(states[j - 1], actions[j - 1]);
    }
  }

  /** A lease granted before the breaker opened never changes it again: at any later point of the
      run the lease is not live, and settling or cancelling it is refused without effect. */
  lemma LeaseDiesAtOpening(states: seq<System>, actions: seq<Action>, threshold: int, timeout: int, i: nat, j: nat, k: nat, success: bool)
    requires IsRun(states, actions, threshold, timeout) && timeout >= 0
    requires j < k < |states| && i < |states[j].grants|
    requires states[j].breaker.mode != Open && states[j + 1].breaker.mode == Open
    ensures var l, b := states[j].grants[i], states[k].breaker;
            !CanContinue(b, l) && Settle(b, l, success, states[k].now) == (false, b) && SettleCancel(b, l) == (false, b)
  {
    RunConsistent(states, actions, threshold, timeout, j);
    StepMonotone(states[j], actions[j]);
    RunMonotone(states, actions, threshold, timeout, j + 1, k);
  }

  /** While the clock does not go back, nothing is granted from an opening until the recovery
      timeout has passed: a grant at action `j` after a failure opened the breaker at action `i`
      comes at least the timeout later. */
  lemma {:induction false} NoGrantDuringCooldown(states: seq<System>, actions: seq<Action>, threshold: int, timeout: int, i: nat, j: nat)
    requires IsRun(states, actions, threshold, timeout) && timeout >= 0
    requires i < j < |actions| && actions[i].Report?
    requires states[i].breaker.mode != Open && states[i + 1].breaker.mode == Open
    requires actions[j] == Take && |states[j + 1].grants| > |states[j].grants|
    ensures states[j].now >= states[i].now + timeout
  {
    RunConsistent(states, actions, threshold, timeout, i);
    assert states[i + 1].breaker.openedAt == states[i].now;
    OpeningsAdvance(states, actions, threshold, timeout, i + 1, j);
    RunConsistent(states, actions, threshold, timeout, j);
  }

  lemma OpeningStep(s: System, a: Action)
    requires Consistent(s) && Opened(s.breaker) && Enabled(s, a)
    ensures Opened(Next(s, a).breaker) && Next(s, a).breaker.openedAt >= s.breaker.openedAt
  {
  }

  lemma {:induction false} OpeningsAdvance(states: seq<System>, actions: seq<Action>, threshold: int, timeout: int, i: nat, j: nat)
    requires IsRun(states, actions, threshold, timeout) && timeout >= 0 && i <= j < |states| && Opened(states[i].breaker)
    ensures Opened(states[j].breaker) && states[j].breaker.openedAt >= states[i].breaker.openedAt
    decreases j
  {
    hide *;
    if i < j {
      OpeningsAdvance(states, actions, threshold, timeout, i, j - 1);
      RunStep(states, actions, threshold, timeout, j - 1);
      RunConsistent(states, actions, threshold, timeout, j - 1);
      OpeningStep(states[j - 1], actions[j - 1]);
    }
  }

  /** A failure of a live lease in the closed state. */
  lemma FailureCounts(s: System, i: nat)
    requires Consistent(s) && s.breaker.mode == Closed && i < |s.grants|
    ensures var t := Next(s, Report(i, false));
            && s.breaker.failures == TrailingFailures(s.notes)
            && (CanContinue(s.breaker, s.grants[i]) ==>
                t.notes == s.notes + [Failure]
                && (t.breaker.mode == Open <==> TrailingFailures(t.notes) >= Limit(s.breaker))
                && (t.breaker.mode == Open <==> TrailingFailures(t.notes) == Limit(s.breaker)))
  {
    hide GrantsOk, TrailingFailures;
    TrailingSnoc(s.notes, Failure);
  }

  /** While closed, the counter is the run of failures since the last success or closing, and an
      accepted failure opens the breaker exactly when it makes that run reach the threshold. */
  lemma OpensAtThreshold(states: seq<System>, actions: seq<Action>, threshold: int, timeout: int, k: nat, i: nat)
    requires IsRun(states, actions, threshold, timeout) && timeout >= 0 && k < |states|
    requires states[k].breaker.mode == Closed && i < |states[k].grants|
    ensures var s := states[k];
            var t := Next(s, Report(i, false));
            && s.breaker.failures == TrailingFailures(s.notes)
            && (CanContinue(s.breaker, s.grants[i]) ==>
                t.notes == s.notes + [Failure]
                && (t.breaker.mode == Open <==> TrailingFailures(t.notes) >= Limit(s.breaker))
                && (t.breaker.mode == Open <==> TrailingFailures(t.notes) == Limit(s.breaker)))
  {
    hide *;
    RunConsistent(states, actions, threshold, timeout, k);
    FailureCounts(states[k], i);
  }

  /** Looking is not taking: the answer is that of a call made at the same time. */
  lemma LookAgrees(b: State, now: int)
    ensures WouldAllow(b, now) <==> Acquire(b, now).0
  {
  }

  /** A cancelled probe leaves the breaker grantable at once and from then on. */
  lemma CancelledProbeFreesAtOnce(states: seq<System>, actions: seq<Action>, threshold: int, timeout: int, k: nat, i: nat, later: int)
    requires IsRun(states, actions, threshold, timeout) && timeout >= 0 && k < |states|
    requires i < |states[k].grants| && SettleCancel(states[k].breaker, states[k].grants[i]).0 && later >= states[k].now
    ensures Acquire(SettleCancel(states[k].breaker, states[k].grants[i]).1, later).0
  {
    RunConsistent(states, actions, threshold, timeout, k);
  }

  /** Once its holder has settled or cancelled it, a lease is never again the one a half-open
      breaker waits for. */
  lemma SettledProbeIsNeverAwaited(states: seq<System>, actions: seq<Action>, threshold: int, timeout: int, i: nat, j: nat, k: nat)
    requires IsRun(states, actions, threshold, timeout) && timeout >= 0
    requires j < k < |states| && i < |states[j].grants|
    requires actions[j] == Release(i) || (actions[j].Report? && actions[j].i == i)
    ensures !(states[k].breaker.mode == HalfOpen && states[k].breaker.generation == states[j].grants[i].generation)
  {
    RunConsistent(states, actions, threshold, timeout, j);
    RunConsistent(states, actions, threshold, timeout, k);
    RunMonotone(states, actions, threshold, timeout, j, k);
    RunMonotone(states, actions, threshold, timeout, j + 1, k);
    var l := states[j].grants[i];
    assert states[k].grants[i] == l;
    if l.halfOpen && Current(states[j].breaker, l) {
      assert states[j + 1].breaker.generation > l.generation;
    }
  }

  // --- When it admits again ---

  /** A failure opens the breaker at action `i`. */
  ghost predicate OpensAt(states: seq<System>, actions: seq<Action>, i: nat)
    requires |states| == |actions| + 1 && i < |actions|
  {
    actions[i].Report? && states[i].breaker.mode != Open && states[i + 1].breaker.mode == Open
  }

  lemma OpeningTime(s: System, a: Action)
    requires Consistent(s) && Enabled(s, a)
    ensures var opens := a.Report? && s.breaker.mode != Open && Next(s, a).breaker.mode == Open;
            Next(s, a).breaker.openedAt == if opens then s.now else s.breaker.openedAt
  {
    hide GrantsOk;
  }

  lemma OpeningAt(states: seq<System>, actions: seq<Action>, threshold: int, timeout: int, k: nat)
    requires IsRun(states, actions, threshold, timeout) && timeout >= 0 && k + 1 < |states|
    ensures |states| == |actions| + 1
    ensures states[k + 1].breaker.openedAt == if OpensAt(states, actions, k) then states[k].now else states[k].breaker.openedAt
  {
    RunStep(states, actions, threshold, timeout, k);
    RunConsistent(states, actions, threshold, timeout, k);
    assert |states| == |actions| + 1;
    hide IsRun, Next, Consistent, Enabled;
    OpeningTime(states[k], actions[k]);
  }

  lemma {:induction false} OpenedSince(states: seq<System>, actions: seq<Action>, threshold: int, timeout: int, i: nat, k: nat)
    requires IsRun(states, actions, threshold, timeout) && timeout >= 0 && i < k < |states| && OpensAt(states, actions, i)
    requires forall j :: i < j < k ==> !OpensAt(states, actions, j)
    ensures states[k].breaker.openedAt == states[i].now
    decreases k
  {
    hide *;
    OpeningAt(states, actions, threshold, timeout, k - 1);
    if i < k - 1 {
      OpenedSince(states, actions, threshold, timeout, i, k - 1);
    }
  }

  /** After the last failure that opened the breaker, whatever was cancelled or asked since: a call is
      granted exactly when a probe has closed the breaker again, or the timeout has passed since that
      failure and no probe is out; and it is granted a probe exactly in the second case. */
  lemma AdmitsAgainExactly(states: seq<System>, actions: seq<Action>, threshold: int, timeout: int, i: nat, k: nat, now: int)
    requires IsRun(states, actions, threshold, timeout) && timeout >= 0 && i < k < |states| && OpensAt(states, actions, i)
    requires forall j :: i < j < k ==> !OpensAt(states, actions, j)
    ensures var s := states[k];
            var closed, probing := s.breaker.mode == Closed, exists g :: 0 <= g < |s.grants| && HoldsProbe(s, g);
            && (Acquire(s.breaker, now).0 <==> closed || (!probing && now >= states[i].now + timeout))
            && (Acquire(s.breaker, now).0 ==> Acquire(s.breaker, now).1.halfOpen == !closed)
  {
    OpenedSince(states, actions, threshold, timeout, i, k);
    OneProbe(states, actions, threshold, timeout, k);
    RunConsistent(states, actions, threshold, timeout, k);
  }

  /** A breaker that no failure has opened grants every call. */
  lemma {:induction false} NeverOpenedAdmits(states: seq<System>, actions: seq<Action>, threshold: int, timeout: int, k: nat, now: int)
    requires IsRun(states, actions, threshold, timeout) && timeout >= 0 && k < |states| && forall j :: 0 <= j < k ==> !OpensAt(states, actions, j)
    ensures states[k].breaker.mode == Closed && Acquire(states[k].breaker, now) == (true, Lease(1, false), states[k].breaker) && states[k].breaker.generation == 1
    decreases k
  {
    if k > 0 {
      NeverOpenedAdmits(states, actions, threshold, timeout, k - 1, now);
      RunStep(states, actions, threshold, timeout, k - 1);
      RunConsistent(states, actions, threshold, timeout, k - 1);
      assert !OpensAt(states, actions, k - 1);
    }
  }

  /** The holder of the probe decides: a success closes the breaker, with no failure on its count; a
      failure starts the timeout anew, and nothing is granted before it has passed. */
  lemma ProbeDecides(states: seq<System>, actions: seq<Action>, threshold: int, timeout: int, k: nat, i: nat, later: int)
    requires IsRun(states, actions, threshold, timeout) && timeout >= 0 && k < |states| && i < |states[k].grants| && HoldsProbe(states[k], i)
    ensures var good, bad := Next(states[k], Report(i, true)).breaker, Next(states[k], Report(i, false)).breaker;
            && good.mode == Closed && good.failures == 0 && Acquire(good, later).0 && !Acquire(good, later).1.halfOpen
            && (Acquire(bad, later).0 <==> later >= states[k].now + timeout) && (Acquire(bad, later).0 ==> Acquire(bad, later).1.halfOpen)
  {
    RunConsistent(states, actions, threshold, timeout, k);
  }

  /** No call but the holder's own ends a probe. */
  lemma ProbeStep(s: System, a: Action, i: nat)
    requires Consistent(s) && Enabled(s, a) && i < |s.grants| && HoldsProbe(s, i)
    requires a != Release(i) && !(a.Report? && a.i == i)
    ensures i < |Next(s, a).grants| && HoldsProbe(Next(s, a), i) && Next(s, a).breaker == s.breaker
  {
    match a
    case Report(j, success) =>
      assert !CanContinue(s.breaker, s.grants[j]);
    case Release(j) =>
      assert !SettleCancel(s.breaker, s.grants[j]).0;
    case _ =>
  }

  lemma {:induction false} OnlyItsHolderEndsAProbe(states: seq<System>, actions: seq<Action>, threshold: int, timeout: int, i: nat, j: nat, k: nat)
    requires IsRun(states, actions, threshold, timeout) && timeout >= 0
    requires j <= k < |states| && i < |states[j].grants| && HoldsProbe(states[j], i)
    requires forall n :: j <= n < k ==> actions[n] != Release(i) && !(actions[n].Report? && actions[n].i == i)
    ensures i < |states[k].grants| && HoldsProbe(states[k], i)
    decreases k
  {
    hide *;
    if j < k {
      OnlyItsHolderEndsAProbe(states, actions, threshold, timeout, i, j, k - 1);
      RunStep(states, actions, threshold, timeout, k - 1);
      RunConsistent(states, actions, threshold, timeout, k - 1);
      ProbeStep(states[k - 1], actions[k - 1], i);
    }
  }

  /** A lease of the closed breaker lives exactly until a failure opens the breaker. */
  lemma {:induction false} LeaseLivesUntilOpening(states: seq<System>, actions: seq<Action>, threshold: int, timeout: int, i: nat, j: nat, k: nat)
    requires IsRun(states, actions, threshold, timeout) && timeout >= 0
    requires j <= k < |states| && i < |states[j].grants| && !states[j].grants[i].halfOpen && CanContinue(states[j].breaker, states[j].grants[i])
    ensures CanContinue(states[k].breaker, states[j].grants[i]) <==> forall n :: j <= n < k ==> !OpensAt(states, actions, n)
    decreases k
  {
    if forall n :: j <= n < k ==> !OpensAt(states, actions, n) {
      if j < k {
        LeaseLivesUntilOpening(states, actions, threshold, timeout, i, j, k - 1);
        RunStep(states, actions, threshold, timeout, k - 1);
        assert !OpensAt(states, actions, k - 1);
        ClosedStep(states[k - 1], actions[k - 1], states[j].grants[i]);
      }
    } else {
      var n: nat :| j <= n < k && OpensAt(states, actions, n);
      RunMonotone(states, actions, threshold, timeout, j, n);
      assert states[n].grants[i] == states[j].grants[i];
      LeaseDiesAtOpening(states, actions, threshold, timeout, i, n, k, true);
    }
  }

  lemma ClosedStep(s: System, a: Action, l: Lease)
    requires Enabled(s, a) && !l.halfOpen && CanContinue(s.breaker, l)
    requires !(a.Report? && Next(s, a).breaker.mode == Open)
    ensures CanContinue(Next(s, a).breaker, l)
  {
  }
}
