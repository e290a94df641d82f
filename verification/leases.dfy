/** The leases of a request on the breakers it uses.

    A request's trace names its claims and endings.  Here they are actions in the run of a breaker
    that any number of other holders use at the same time. */
module Leases {
  import opened Wrappers
  import B = Breaker
  import R = BreakerRuns
  import F = Failover
  import W = Forwarding

  /** Which candidates a breaker belongs to: those of one provider, or those of one route. */
  type Share = F.Candidate -> bool

  predicate Claims(provider: bool, a: F.Action) {
    if provider then a.ClaimProvider? else a.ClaimRoute?
  }

  predicate Ends(provider: bool, a: F.Action) {
    if provider then a.EndProvider? else a.EndRoute?
  }

  function VisitAt(cs: seq<F.Candidate>, trace: seq<F.Action>, n: nat): int
    requires n <= |trace|
  {
    F.WatchAll(cs, trace[..n]).visit
  }

  /** The trace's action `n` is a claim or an ending on the breaker. */
  ghost predicate Uses(cs: seq<F.Candidate>, trace: seq<F.Action>, provider: bool, mine: Share, n: nat) {
    && n < |trace| && (Claims(provider, trace[n]) || Ends(provider, trace[n]))
    && 0 <= VisitAt(cs, trace, n) < |cs| && mine(cs[VisitAt(cs, trace, n)])
  }

  /** A claim is a call that was granted the lease; an ending settles or cancels a grant of it. */
  predicate Plays(s: R.System, a: R.Action, t: F.Action)
    requires t.ClaimProvider? || t.ClaimRoute? || t.EndProvider? || t.EndRoute?
  {
    if t.ClaimProvider? || t.ClaimRoute? then
      a.Take? && B.Acquire(s.breaker, s.now).0 && B.Acquire(s.breaker, s.now).1 == t.lease
    else
      && (if t.how == F.Cancelled then a.Release? else a.Report? && a.success == (t.how == F.Succeeded))
      && a.i < |s.grants| && s.grants[a.i] == t.lease
  }

  /** Everything the request does to the breaker is an action of the run, `at` says which. */
  ghost predicate PlayedOn(cs: seq<F.Candidate>, trace: seq<F.Action>, provider: bool, mine: Share,
                           states: seq<R.System>, actions: seq<R.Action>, at: map<nat, nat>) {
    |states| == |actions| + 1 &&
    forall n: nat :: Uses(cs, trace, provider, mine, n) ==> n in at && at[n] < |actions| && Plays(states[at[n]], actions[at[n]], trace[n])
  }

  lemma VisitStays(cs: seq<F.Candidate>, trace: seq<F.Action>, i: nat, j: nat)
    requires i <= j <= |trace| && forall k :: i <= k < j ==> !trace[k].Visit?
    ensures VisitAt(cs, trace, j) == VisitAt(cs, trace, i)
    decreases j - i
  {
    if i < j {
      F.PrefixStep(cs, trace, i);
      KeepsVisit(cs, F.WatchAll(cs, trace[..i]), trace[i]);
      VisitStays(cs, trace, i + 1, j);
    }
  }

  lemma KeepsVisit(cs: seq<F.Candidate>, w: F.Watch, a: F.Action)
    requires !a.Visit?
    ensures F.Observe(cs, w, a).visit == w.visit
  {
    hide F.KindOf, F.ProviderEnding, F.RouteEnding, F.BlamesTarget, F.MayGoOn;
  }

  lemma EndedInVisit(cs: seq<F.Candidate>, trace: seq<F.Action>, provider: bool, mine: Share, i: nat) returns (j: nat)
    requires F.Kept(cs, trace) && Uses(cs, trace, provider, mine, i) && Claims(provider, trace[i])
    ensures i < j && Uses(cs, trace, provider, mine, j) && Ends(provider, trace[j]) && trace[j].lease == trace[i].lease
  {
    hide F.WatchAll, F.Kept;
    if provider {
      j := F.ProviderEndedOnce(cs, trace, i);
    } else {
      j := F.RouteEndedOnce(cs, trace, i);
    }
    VisitStays(cs, trace, i, j);
  }

  /** A kept trace leaves no breaker half-open on a lease it claims: once its last action on the
      breaker is done, the breaker does not wait for that lease, whatever other holders do before,
      between and after. */
  lemma NoClaimLeft(cs: seq<F.Candidate>, trace: seq<F.Action>, provider: bool, mine: Share,
                    states: seq<R.System>, actions: seq<R.Action>, at: map<nat, nat>, threshold: int, timeout: int, i: nat, k: nat)
    requires F.Kept(cs, trace) && R.IsRun(states, actions, threshold, timeout) && timeout >= 0
    requires PlayedOn(cs, trace, provider, mine, states, actions, at)
    requires Uses(cs, trace, provider, mine, i) && Claims(provider, trace[i])
    requires k < |states| && forall n: nat :: Uses(cs, trace, provider, mine, n) ==> at[n] < k
    ensures !(states[k].breaker.mode == B.HalfOpen && states[k].breaker.generation == trace[i].lease.generation)
  {
    hide F.Kept, F.WatchAll, R.IsRun;
    var j := EndedInVisit(cs, trace, provider, mine, i);
    var a := actions[at[j]];
    R.SettledProbeIsNeverAwaited(states, actions, threshold, timeout, a.i, at[j], k);
  }

  /** The lease that the breaker of candidate `c` grants a visit that comes to `reason`, if any. */
  function Grant<X>(world: W.World<X>, provider: bool, c: nat, convert: bool, reason: W.Reason): Option<B.Lease> {
    if reason in {W.TargetClosed, W.ProviderClosed} then None
    else if provider then world.acquireProvider(c)
    else if convert && reason !in {W.NotReady, W.RouteClosed} then world.acquireRoute(c)
    else None
  }

  function ClaimOf(provider: bool, lease: B.Lease): F.Action {
    if provider then F.ClaimProvider(lease) else F.ClaimRoute(lease)
  }

  lemma GrantIsClaimed<X>(world: W.World<X>, provider: bool, c: nat, convert: bool, reason: W.Reason)
    requires Grant(world, provider, c, convert, reason).Some?
    ensures (c as int, ClaimOf(provider, Grant(world, provider, c, convert, reason).value)) in W.Granted(world, c, convert, reason)
  {
  }

  lemma {:induction false} GrantIsDue<X>(cs: seq<F.Candidate>, world: W.World<X>, fates: seq<W.Fate>, provider: bool, c: nat)
    requires c < |fates| <= |cs| && Grant(world, provider, c, cs[c].convert, fates[c].reason).Some?
    ensures (c as int, ClaimOf(provider, Grant(world, provider, c, cs[c].convert, fates[c].reason).value)) in W.Due(cs, world, fates)
    decreases |fates|
  {
    if c == |fates| - 1 {
      GrantIsClaimed(world, provider, c, cs[c].convert, fates[c].reason);
    } else {
      hide W.Granted, W.RecordOf, W.Marked, Grant;
      GrantIsDue(cs, world, fates[..|fates| - 1], provider, c);
    }
  }

  /** A request leaves no breaker half-open on any lease granted to it: whichever candidates it came
      to, once its last action on a breaker is done, that breaker does not wait for the lease it
      granted, whatever other holders do before, between and after. */
  lemma NoProbeLeft<X>(r: W.Request, world: W.World<X>, fates: seq<W.Fate>, buffered: bool, noBudget: (nat, nat) -> bool, error: Option<int>,
                       provider: bool, mine: Share, states: seq<R.System>, actions: seq<R.Action>, at: map<nat, nat>,
                       threshold: int, timeout: int, c: nat, k: nat)
    requires W.Finished(r.candidates, r.trace, r.chain) && W.Concluded(r, world, fates, buffered, noBudget, error)
    requires c < |fates| && mine(r.candidates[c]) && Grant(world, provider, c, r.candidates[c].convert, fates[c].reason).Some?
    requires R.IsRun(states, actions, threshold, timeout) && timeout >= 0
    requires PlayedOn(r.candidates, r.trace, provider, mine, states, actions, at)
    requires k < |states| && forall n: nat :: Uses(r.candidates, r.trace, provider, mine, n) ==> at[n] < k
    ensures var lease := Grant(world, provider, c, r.candidates[c].convert, fates[c].reason).value;
            !(states[k].breaker.mode == B.HalfOpen && states[k].breaker.generation == lease.generation)
  {
    hide F.Kept, F.WatchAll, R.IsRun, PlayedOn, W.FateHolds, Grant, W.Due;
    var lease := Grant(world, provider, c, r.candidates[c].convert, fates[c].reason).value;
    GrantIsDue(r.candidates, world, fates, provider, c);
    var i := F.LedgerIsTrace(r.trace, (c as int, ClaimOf(provider, lease)));
    F.LedgerWatched(r.candidates, r.trace[..i]);
    NoClaimLeft(r.candidates, r.trace, provider, mine, states, actions, at, threshold, timeout, i, k);
  }
}
