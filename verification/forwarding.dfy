/** The record of one request while it is forwarded: its trace, its attempt chain, and the probe
    guards and target record of the candidate being visited. */
module Forwarding {
  import opened Wrappers
  import opened Breaker
  import opened Failover

  /** A single-use guard over a breaker lease: not claimed, held, or used up. */
  datatype Guard = Unclaimed | Held(lease: Lease) | Used

  lemma CallAndAnswer(cs: seq<Candidate>, trace: seq<Action>, c: nat, answer: Answer)
    ensures var more := trace + [Call(c)] + [Answered(c, answer)];
            && WatchAll(cs, more) == Observe(cs, Observe(cs, WatchAll(cs, trace), Call(c)), Answered(c, answer))
            && CallsOf(more) == CallsOf(trace) + [c] && TalksOf(more) == TalksOf(trace) + [(c, answer)]
  {
    hide Observe;
    var called := trace + [Call(c)];
    var more := called + [Answered(c, answer)];
    assert called[..|trace|] == trace && more[..|called|] == called;
    assert CallsOf(called) + [] == CallsOf(called) && TalksOf(trace) + [] == TalksOf(trace);
  }

  class Request {
    const candidates: seq<Candidate>
    var trace: seq<Action>
    var chain: seq<Entry>
    var attemptOrder: nat
    var providerProbe: Guard
    var routeProbe: Guard
    var targetSettled: bool
    ghost var watch: Watch
    ghost var talks: seq<(nat, Answer)>

    /** `pending` are the upstream calls that have no chain entry yet. */
    ghost predicate Valid(pending: seq<nat>)
      reads this
    {
      && watch == WatchAll(candidates, trace) && watch.ok && talks == TalksOf(trace)
      && watch.provider == (if providerProbe.Held? then Some(providerProbe.lease) else None)
      && watch.route == (if routeProbe.Held? then Some(routeProbe.lease) else None)
      && (watch.visit >= 0 ==> (watch.records > 0 <==> targetSettled))
      && attemptOrder == |chain| && ChainOk(candidates, chain)
      && CallsOf(trace) == StartedOf(chain) + pending
    }

    constructor (candidates: seq<Candidate>)
      ensures this.candidates == candidates && trace == [] && chain == []
      ensures Valid([]) && watch == UNSTARTED && talks == []
    {
      this.candidates := candidates;
      trace, chain, attemptOrder := [], [], 0;
      providerProbe, routeProbe, targetSettled := Unclaimed, Unclaimed, false;
      watch, talks := UNSTARTED, [];
    }

    method Act(a: Action, ghost pending: seq<nat>)
      requires watch == WatchAll(candidates, trace) && talks == TalksOf(trace) && !a.Call? && !a.Answered?
      requires CallsOf(trace) == StartedOf(chain) + pending
      modifies this`trace, this`watch
      ensures trace == old(trace) + [a] && watch == Observe(candidates, old(watch), a) && watch == WatchAll(candidates, trace)
      ensures CallsOf(trace) == StartedOf(chain) + pending && talks == TalksOf(trace)
    {
      WatchSnoc(candidates, trace, a);
      assert (trace + [a])[..|trace|] == trace;
      assert CallsOf(trace) + [] == CallsOf(trace) && TalksOf(trace) + [] == TalksOf(trace);
      trace := trace + [a];
      watch := Observe(candidates, watch, a);
    }

    method BeginVisit(c: nat)
      requires Valid([]) && watch.provider.None? && watch.route.None? && MayGoOn(watch) && watch.visit < c < |candidates|
      modifies this`trace, this`watch, this`providerProbe, this`routeProbe, this`targetSettled
      ensures Valid([]) && watch == Observe(candidates, old(watch), Visit(c))
      ensures providerProbe == routeProbe == Unclaimed && !targetSettled
    {
      Act(Visit(c), []);
      providerProbe, routeProbe, targetSettled := Unclaimed, Unclaimed, false;
    }

    method ClaimedProvider(lease: Lease)
      requires Valid([]) && watch.visit >= 0 && watch.provider.None? && watch.claims == 0 && !watch.committed
      modifies this`trace, this`watch, this`providerProbe
      ensures Valid([]) && watch == Observe(candidates, old(watch), ClaimProvider(lease)) && providerProbe == Held(lease)
    {
      Act(ClaimProvider(lease), []);
      providerProbe := Held(lease);
    }

    method ClaimedRoute(lease: Lease)
      requires Valid([]) && watch.provider.Some? && watch.route.None? && watch.visitCalls == 0 && !watch.committed
      requires 0 <= watch.visit < |candidates| && candidates[watch.visit].convert
      modifies this`trace, this`watch, this`routeProbe
      ensures Valid([]) && watch == Observe(candidates, old(watch), ClaimRoute(lease)) && routeProbe == Held(lease)
    {
      Act(ClaimRoute(lease), []);
      routeProbe := Held(lease);
    }

    /** The guard methods do nothing unless the guard is held, so that the first one called wins. */
    method EndProviderProbe(how: End, ghost pending: seq<nat>)
      requires Valid(pending) && 0 <= watch.visit < |candidates| && !watch.awaiting
      requires providerProbe.Held? ==> how == ProviderEnding(watch, candidates[watch.visit].maxRetries)
      modifies this`trace, this`watch, this`providerProbe
      ensures Valid(pending) && !providerProbe.Held?
      ensures watch == if old(providerProbe).Held? then Observe(candidates, old(watch), EndProvider(old(providerProbe).lease, how)) else old(watch)
    {
      if providerProbe.Held? {
        Act(EndProvider(providerProbe.lease, how), pending);
        providerProbe := Used;
      }
    }

    method EndRouteProbe(how: End, ghost pending: seq<nat>)
      requires Valid(pending) && !watch.awaiting
      requires routeProbe.Held? ==> how == RouteEnding(watch)
      modifies this`trace, this`watch, this`routeProbe
      ensures Valid(pending) && !routeProbe.Held?
      ensures watch == if old(routeProbe).Held? then Observe(candidates, old(watch), EndRoute(old(routeProbe).lease, how)) else old(watch)
    {
      if routeProbe.Held? {
        Act(EndRoute(routeProbe.lease, how), pending);
        routeProbe := Used;
      }
    }

    method CancelProbes(ghost pending: seq<nat>)
      requires Valid(pending) && 0 <= watch.visit < |candidates| && !watch.awaiting
      requires providerProbe.Held? ==> ProviderEnding(watch, candidates[watch.visit].maxRetries) == Cancelled
      requires routeProbe.Held? ==> RouteEnding(watch) == Cancelled
      modifies this`trace, this`watch, this`providerProbe, this`routeProbe
      ensures Valid(pending) && !providerProbe.Held? && !routeProbe.Held?
      ensures watch == old(watch).(provider := None, route := None)
    {
      EndProviderProbe(Cancelled, pending);
      EndRouteProbe(Cancelled, pending);
    }

    /** The target's breaker is told once per visit. */
    method RecordTarget(success: bool, ghost pending: seq<nat>)
      requires Valid(pending) && watch.visit >= 0 && watch.last.Some?
      requires if success then KindOf(watch.last.value) == Delivered else KindOf(watch.last.value) == Again || BlamesTarget(watch.last.value)
      modifies this`trace, this`watch, this`targetSettled
      ensures Valid(pending) && watch == old(watch).(records := watch.records, ledger := watch.ledger) && targetSettled
      ensures watch.ledger == old(watch.ledger) + if old(targetSettled) then [] else [(watch.visit, TargetRecord(success))]
    {
      if !targetSettled {
        targetSettled := true;
        Act(TargetRecord(success), pending);
      }
    }

    method CallUpstream(c: nat, answer: Answer)
      requires Valid([]) && c == watch.visit && c < |candidates| && watch.provider.Some? && (candidates[c].convert ==> watch.route.Some?)
      requires MayGoOn(watch) && (watch.last.Some? ==> KindOf(watch.last.value) == Again)
      requires watch.calls < MAX_TOTAL_ATTEMPTS && watch.visitCalls <= candidates[c].maxRetries
      requires answer.Buffered? ==> answer.convert == candidates[c].convert
      modifies this`trace, this`watch, this`talks
      ensures Valid([c]) && watch == Observe(candidates, Observe(candidates, old(watch), Call(c)), Answered(c, answer))
      ensures talks == old(talks) + [(c, answer)]
    {
      var call, answered := Call(c), Answered(c, answer);
      CallAndAnswer(candidates, trace, c, answer);
      assert StartedOf(chain) + [] == StartedOf(chain);
      trace := trace + [call] + [answered];
      watch := Observe(candidates, Observe(candidates, watch, call), answered);
      talks := talks + [(c, answer)];
    }

    method WriteResponse(ghost pending: seq<nat>)
      requires Valid(pending) && !watch.committed
      modifies this`trace, this`watch
      ensures Valid(pending) && watch == Observe(candidates, old(watch), Commit) && trace == old(trace) + [Commit]
    {
      Act(Commit, pending);
    }

    /** A chain entry for something that reached no upstream. */
    method Skip(c: nat, status: string, ghost pending: seq<nat>)
      requires Valid(pending) && c < |candidates|
      modifies this`chain, this`attemptOrder
      ensures Valid(pending) && chain == old(chain) + [Entry(|old(chain)| + 1, c, false, 0.0, false, status)]
    {
      assert StartedOf(chain) + [] == StartedOf(chain);
      attemptOrder := attemptOrder + 1;
      chain := chain + [Entry(attemptOrder, c, false, 0.0, false, status)];
      assert chain[..|chain| - 1] == old(chain);
    }

    /** The chain entry of an upstream call. */
    method Attempted(c: nat, status: string)
      requires Valid([c]) && c < |candidates|
      modifies this`chain, this`attemptOrder
      ensures Valid([]) && chain == old(chain) + [Entry(|old(chain)| + 1, c, true, candidates[c].price, candidates[c].priced, status)]
    {
      attemptOrder := attemptOrder + 1;
      chain := chain + [Entry(attemptOrder, c, true, candidates[c].price, candidates[c].priced, status)];
      assert chain[..|chain| - 1] == old(chain);
      assert StartedOf(chain) + [] == StartedOf(chain);
    }
  }

  // --- The state of a visit ---

  /** Candidate `c` is being visited, after `n` calls that may be followed by another. */
  ghost predicate Visiting(r: Request, c: nat, n: nat)
    reads r
  {
    && c < |r.candidates| && r.Valid([]) && r.watch.visit == c && !r.watch.committed && !r.watch.awaiting && r.watch.visitCalls == n
    && (r.watch.last.Some? <==> n > 0) && (r.watch.last.Some? ==> KindOf(r.watch.last.value) == Again)
  }

  /** The same with the leases in hand that a call needs, and nothing recorded of the target. */
  ghost predicate InHand(r: Request, c: nat, n: nat)
    reads r
  {
    Visiting(r, c, n) && r.providerProbe.Held? && (r.routeProbe.Held? <==> r.candidates[c].convert) && !r.targetSettled
  }

  /** The same, the last call having ended as `answer` says. */
  ghost predicate InHandAfter(r: Request, c: nat, n: nat, answer: Answer)
    reads r
  {
    InHand(r, c, n) && r.watch.last == Some(answer)
  }

  ghost predicate NothingInHand(r: Request)
    reads r
  {
    r.Valid([]) && !r.providerProbe.Held? && !r.routeProbe.Held? && !r.watch.awaiting
  }

  /** Between candidates, and free to go on. */
  ghost predicate Clear(r: Request)
    reads r
  {
    NothingInHand(r) && MayGoOn(r.watch)
  }

  /** The one call to candidate `c` that has no chain entry yet, with the leases still in hand. */
  ghost predicate Called(r: Request, c: nat, answer: Answer)
    reads r
  {
    && c < |r.candidates| && r.Valid([c]) && r.watch.visit == c && !r.watch.committed && !r.watch.awaiting
    && r.watch.last == Some(answer) && r.watch.visitCalls > 0
    && r.providerProbe.Held? && (r.routeProbe.Held? <==> r.candidates[c].convert) && !r.targetSettled
  }

  // --- Breaking a visit off while retries are left: nothing is charged to a provider or a route ---

  method GiveUpProvider(r: Request, c: nat, n: nat)
    requires Visiting(r, c, n) && n <= r.candidates[c].maxRetries
    modifies r`trace, r`watch, r`providerProbe
    ensures Visiting(r, c, n) && !r.providerProbe.Held? && r.watch.calls == old(r.watch.calls) && r.watch.ledger == old(r.watch.ledger)
  {
    hide ChainOk, CallsOf, StartedOf, WatchAll;
    r.EndProviderProbe(Cancelled, []);
  }

  method GiveUpRoute(r: Request, c: nat, n: nat)
    requires Visiting(r, c, n)
    modifies r`trace, r`watch, r`routeProbe
    ensures Visiting(r, c, n) && !r.routeProbe.Held? && r.watch.calls == old(r.watch.calls) && r.watch.ledger == old(r.watch.ledger)
  {
    hide ChainOk, CallsOf, StartedOf, WatchAll;
    r.EndRouteProbe(Cancelled, []);
  }

  method GiveUp(r: Request, c: nat, n: nat)
    requires Visiting(r, c, n) && n <= r.candidates[c].maxRetries
    modifies r`trace, r`watch, r`providerProbe, r`routeProbe
    ensures Visiting(r, c, n) && NothingInHand(r) && r.watch.calls == old(r.watch.calls) && r.watch.ledger == old(r.watch.ledger)
  {
    hide ChainOk, CallsOf, StartedOf, WatchAll, KindOf;
    GiveUpProvider(r, c, n);
    GiveUpRoute(r, c, n);
  }

  /** The ledger's entry of a target record. */
  function Marked(c: nat, record: Option<bool>): seq<(int, Action)> {
    if record.None? then [] else [(c, TargetRecord(record.value))]
  }

  /** The target is told of a failure if one of its calls had failed. */
  method RecordFailure(r: Request, c: nat, n: nat)
    requires Visiting(r, c, n) && n > 0 && !r.targetSettled
    modifies r`trace, r`watch, r`targetSettled
    ensures Visiting(r, c, n) && r.watch.calls == old(r.watch.calls) && r.watch.last == old(r.watch.last)
    ensures r.watch.ledger == old(r.watch.ledger) + Marked(c, Some(false))
  {
    hide ChainOk, CallsOf, StartedOf, WatchAll;
    r.RecordTarget(false, []);
  }

  /** The cap or the budget breaks the visit off: calls made so far have failed the target. */
  method BreakOff(r: Request, c: nat, n: nat, status: string)
    requires c < |r.candidates| && n <= r.candidates[c].maxRetries && InHand(r, c, n)
    modifies r
    ensures Clear(r) && r.watch.visit == c && r.watch.calls == old(r.watch.calls) && r.talks == old(r.talks)
    ensures r.watch.ledger == old(r.watch.ledger) + if n > 0 then Marked(c, Some(false)) else []
  {
    hide ChainOk, CallsOf, StartedOf, WatchAll, TalksOf, KindOf;
    if n > 0 {
      RecordFailure(r, c, n);
    }
    GiveUp(r, c, n);
    r.Skip(c, status, []);
  }

  /** What a finished request guarantees: the rules were kept with every lease given back, and the
      attempt chain is in order and accounts for exactly the upstream calls. */
  ghost predicate Finished(cs: seq<Candidate>, trace: seq<Action>, chain: seq<Entry>) {
    Kept(cs, trace) && ChainOk(cs, chain) && CallsOf(trace) == StartedOf(chain)
  }

  /** The status of the response when every candidate has been passed over or has failed. */
  function ExhaustedStatus(lastStatus: int, lastFailureWasConversion: bool, routeOnlySkipped: bool, targetBreakerOnlySkipped: bool, chained: bool): int {
    if 400 <= lastStatus < 500 then lastStatus
    else if !lastFailureWasConversion && lastStatus >= 500 then 503
    else if targetBreakerOnlySkipped && chained then 503
    else if routeOnlySkipped && lastStatus == 0 then 503
    else 502
  }

  lemma FinishedNow(r: Request)
    requires NothingInHand(r)
    ensures Finished(r.candidates, r.trace, r.chain) && TalksOf(r.trace) == r.talks && WatchAll(r.candidates, r.trace) == r.watch
    ensures Ledger(r.trace) == r.watch.ledger
  {
    LedgerWatched(r.candidates, r.trace);
    assert StartedOf(r.chain) + [] == StartedOf(r.chain);
  }

  /** The error that is written when nothing was delivered. */
  method WriteError(r: Request)
    requires Clear(r)
    modifies r
    ensures Finished(r.candidates, r.trace, r.chain) && TalksOf(r.trace) == old(r.talks) && WatchAll(r.candidates, r.trace).committed
    ensures r.chain == old(r.chain) && Ledger(r.trace) == old(r.watch.ledger)
  {
    hide ChainOk, CallsOf, StartedOf, WatchAll, TalksOf, KindOf;
    r.WriteResponse([]);
    FinishedNow(r);
  }

  // --- Answers from outside ---

  datatype Preflight = KeyError | BodyError | UrlError | Ready

  datatype Backoff = Elapsed | ClientLeft | BudgetGone

  /** The answers a request gets from the breakers, the clock and the network, by candidate and attempt. */
  datatype World<!R> = World(
    targetAdmits: nat -> bool,
    acquireProvider: nat -> Option<Lease>,
    preflight: nat -> Preflight,
    acquireRoute: nat -> Option<Lease>,
    budgetLeft: (nat, nat) -> bool,
    backoff: (nat, nat) -> Backoff,
    canContinue: (nat, nat) -> bool,
    attempt: (nat, nat) -> R)

  // --- What becomes of the candidates ---

  /** Why a candidate was left: the first seven pass the request on, the others end the walk. */
  datatype Reason = TargetClosed | ProviderClosed | NotReady | RouteClosed | OutOfRetries | Lost | BreakerOpened | Stopped | ClientGone | Ended

  /** What became of one candidate, with the answers it gave. */
  datatype Fate = Fate(reason: Reason, answers: seq<Answer>)

  predicate MovesOn(f: Fate) {
    f.reason !in {Stopped, ClientGone, Ended}
  }

  /** The target, the provider and, for a converting candidate, the route let the request in. */
  predicate LetIn<R>(world: World<R>, c: nat, convert: bool) {
    && world.targetAdmits(c) && world.acquireProvider(c).Some? && world.preflight(c) == Ready
    && (convert ==> world.acquireRoute(c).Some?)
  }

  predicate AllAgain(answers: seq<Answer>) {
    forall k :: 0 <= k < |answers| ==> KindOf(answers[k]) == Again
  }

  predicate AgainThen(answers: seq<Answer>, kinds: set<Kind>) {
    answers != [] && AllAgain(answers[..|answers| - 1]) && KindOf(answers[|answers| - 1]) in kinds
  }

  /** The reason holds: `mayStop` says that the cap is reached or the time is up. */
  predicate Justified<R>(world: World<R>, c: nat, candidate: Candidate, f: Fate, mayStop: bool) {
    var n := |f.answers|;
    match f.reason
    case TargetClosed => n == 0 && !world.targetAdmits(c)
    case ProviderClosed => n == 0 && world.targetAdmits(c) && world.acquireProvider(c).None?
    case NotReady => n == 0 && world.targetAdmits(c) && world.acquireProvider(c).Some? && world.preflight(c) != Ready
    case RouteClosed =>
      && n == 0 && world.targetAdmits(c) && world.acquireProvider(c).Some? && world.preflight(c) == Ready
      && candidate.convert && world.acquireRoute(c).None?
    case OutOfRetries => LetIn(world, c, candidate.convert) && n == candidate.maxRetries + 1 && AllAgain(f.answers)
    case Lost => LetIn(world, c, candidate.convert) && n <= candidate.maxRetries + 1 && AgainThen(f.answers, {Unconverted})
    case BreakerOpened => LetIn(world, c, candidate.convert) && 0 < n <= candidate.maxRetries && AllAgain(f.answers) && !world.canContinue(c, n)
    case Stopped => LetIn(world, c, candidate.convert) && n <= candidate.maxRetries && AllAgain(f.answers) && mayStop
    case ClientGone => LetIn(world, c, candidate.convert) && 0 < n <= candidate.maxRetries && AllAgain(f.answers) && world.backoff(c, n) == ClientLeft
    case Ended => LetIn(world, c, candidate.convert) && n <= candidate.maxRetries + 1 && AgainThen(f.answers, {Delivered, Final})
  }

  /** The pause before another attempt: the visit is broken off when the client leaves or the budget
      is gone in the meantime. */
  method Pause<R>(r: Request, world: World<R>, c: nat, n: nat) returns (pause: Backoff)
    requires c < |r.candidates| && 0 < n <= r.candidates[c].maxRetries && InHand(r, c, n)
    modifies r
    ensures pause == world.backoff(c, n) && (pause == Elapsed ==> unchanged(r))
    ensures pause != Elapsed ==> NothingInHand(r) && Clear(r) && !r.watch.committed && r.watch.visit == c
    ensures pause != Elapsed ==> r.watch.calls == old(r.watch.calls) && r.talks == old(r.talks)
    ensures pause != Elapsed ==> r.watch.ledger == old(r.watch.ledger) + if pause == BudgetGone then Marked(c, Some(false)) else []
  {
    hide ChainOk, CallsOf, StartedOf, WatchAll, TalksOf, KindOf;
    pause := world.backoff(c, n);
    match pause {
      case Elapsed =>
      case ClientLeft =>
        GiveUp(r, c, n);
        r.Skip(c, "client_abort", []);
      case BudgetGone =>
        GiveUp(r, c, n);
        RecordFailure(r, c, n);
    }
  }

  // --- What the fates call for ---

  /** The lease the provider's breaker grants, claimed. */
  function ProviderClaim<R>(world: World<R>, c: nat): seq<(int, Action)> {
    match world.acquireProvider(c)
    case None => []
    case Some(lease) => [(c, ClaimProvider(lease))]
  }

  /** The lease the route's breaker grants, claimed; a native candidate asks for none. */
  function RouteClaim<R>(world: World<R>, c: nat, convert: bool): seq<(int, Action)> {
    if !convert then []
    else match world.acquireRoute(c)
      case None => []
      case Some(lease) => [(c, ClaimRoute(lease))]
  }

  /** The claims of a visit: every lease granted, as far as the visit came. */
  function Granted<R>(world: World<R>, c: nat, convert: bool, reason: Reason): seq<(int, Action)> {
    match reason
    case TargetClosed => []
    case ProviderClosed => []
    case NotReady => ProviderClaim(world, c)
    case RouteClosed => ProviderClaim(world, c)
    case _ => ProviderClaim(world, c) + RouteClaim(world, c, convert)
  }

  /** What a visit tells the target's breaker: success for a delivered answer; failure for a final
      answer it is to blame for, for failed calls that are not tried again, and for calls broken off
      by the cap or the budget. */
  function RecordOf(f: Fate): Option<bool> {
    if f.answers == [] then None
    else
      var last := f.answers[|f.answers| - 1];
      match f.reason
      case Lost => RecordAfter(last)
      case Ended => RecordAfter(last)
      case Stopped => Some(false)
      case OutOfRetries => if TargetFailed(last) then Some(false) else None
      case BreakerOpened => if TargetFailed(last) then Some(false) else None
      case _ => None
  }

  /** The record of a visit whose calls failed, by the last answer. */
  function FailureMarked(c: nat, last: Answer): seq<(int, Action)> {
    Marked(c, if TargetFailed(last) then Some(false) else None)
  }

  /** The record of a visit broken off after `n` calls. */
  function BrokenOff(c: nat, n: nat, last: Answer, reason: Reason): seq<(int, Action)> {
    if n == 0 || reason == ClientGone then [] else if reason == Stopped then Marked(c, Some(false)) else FailureMarked(c, last)
  }

  lemma BrokenOffIsDue(c: nat, answers: seq<Answer>, last: Answer, reason: Reason)
    requires reason in {Stopped, BreakerOpened, ClientGone} && (answers != [] ==> answers[|answers| - 1] == last)
    ensures BrokenOff(c, |answers|, last, reason) == Marked(c, RecordOf(Fate(reason, answers)))
  {
  }

  lemma ExhaustedIsDue(c: nat, answers: seq<Answer>, last: Answer)
    requires answers != [] && answers[|answers| - 1] == last
    ensures FailureMarked(c, last) == Marked(c, RecordOf(Fate(OutOfRetries, answers)))
  {
  }

  lemma EndIsDue(answers: seq<Answer>, last: Answer, reason: Reason)
    requires reason in {Lost, Ended}
    ensures RecordOf(Fate(reason, answers + [last])) == RecordAfter(last)
  {
  }

  /** The ledger of a whole visit. */
  lemma VisitIsDue<R>(world: World<R>, c: nat, convert: bool, before: seq<(int, Action)>, f: Fate)
    ensures f.answers == [] ==> before + Granted(world, c, convert, f.reason) + Marked(c, RecordOf(f)) == before + Granted(world, c, convert, f.reason)
    ensures f.reason in {OutOfRetries, Lost, BreakerOpened, Stopped, ClientGone, Ended} ==>
      before + Granted(world, c, convert, f.reason) + Marked(c, RecordOf(f))
      == before + ProviderClaim(world, c) + RouteClaim(world, c, convert) + Marked(c, RecordOf(f))
  {
    hide ProviderClaim, RouteClaim;
    assert before + (ProviderClaim(world, c) + RouteClaim(world, c, convert)) == before + ProviderClaim(world, c) + RouteClaim(world, c, convert);
  }

  /** The ledger the fates call for, candidate by candidate. */
  function Due<R>(cs: seq<Candidate>, world: World<R>, fates: seq<Fate>): seq<(int, Action)>
    requires |fates| <= |cs|
  {
    if fates == [] then []
    else
      var c, f := |fates| - 1, fates[|fates| - 1];
      Due(cs, world, fates[..c]) + Granted(world, c, cs[c].convert, f.reason) + Marked(c, RecordOf(f))
  }

  lemma DueSnoc<R>(cs: seq<Candidate>, world: World<R>, fates: seq<Fate>, f: Fate)
    requires |fates| < |cs|
    ensures Due(cs, world, fates + [f]) == Due(cs, world, fates) + Granted(world, |fates|, cs[|fates|].convert, f.reason) + Marked(|fates|, RecordOf(f))
  {
    assert (fates + [f])[..|fates|] == fates;
  }

  /** The checks and claims before the first attempt on a candidate, the same in both loops. */
  method Admit<R>(r: Request, world: World<R>, c: nat) returns (admitted: bool, targetClosed: bool, routeClosed: bool, ghost f: Fate)
    requires c < |r.candidates| && Clear(r) && r.watch.visit < c
    modifies r
    ensures r.watch.visit <= c && r.watch.calls == old(r.watch.calls) && r.talks == old(r.talks)
    ensures admitted ==> InHand(r, c, 0) && LetIn(world, c, r.candidates[c].convert) && !targetClosed && !routeClosed
    ensures admitted ==>
      && r.providerProbe == Held(world.acquireProvider(c).value)
      && (if r.candidates[c].convert then r.routeProbe == Held(world.acquireRoute(c).value) else r.routeProbe == Unclaimed)
      && r.watch.ledger == old(r.watch.ledger) + ProviderClaim(world, c) + RouteClaim(world, c, r.candidates[c].convert)
    ensures !admitted ==> r.watch.ledger == old(r.watch.ledger) + Granted(world, c, r.candidates[c].convert, f.reason)
    ensures !admitted ==>
      Clear(r) && f.answers == [] && Justified(world, c, r.candidates[c], f, false) && f.reason in {TargetClosed, ProviderClosed, NotReady, RouteClosed}
      && (targetClosed <==> f.reason == TargetClosed) && (routeClosed <==> f.reason == RouteClosed)
  {
    hide ChainOk, CallsOf, StartedOf, WatchAll, TalksOf, KindOf;
    admitted, targetClosed, routeClosed, f := false, false, false, Fate(TargetClosed, []);
    if !world.targetAdmits(c) {
      targetClosed := true;
      r.Skip(c, "target_breaker_open", []);
      return;
    }
    r.BeginVisit(c);
    var acquired := world.acquireProvider(c);
    if acquired.None? {
      f := Fate(ProviderClosed, []);
      r.Skip(c, "circuit_open", []);
      return;
    }
    r.ClaimedProvider(acquired.value);
    if world.preflight(c) != Ready {
      f := Fate(NotReady, []);
      r.EndProviderProbe(Cancelled, []);
      r.Skip(c, "preflight_error", []);
      return;
    }
    if r.candidates[c].convert {
      var route := world.acquireRoute(c);
      if route.None? {
        f, routeClosed := Fate(RouteClosed, []), true;
        r.EndProviderProbe(Cancelled, []);
        return;
      }
      r.ClaimedRoute(route.value);
    }
    admitted := true;
  }

  function Tagged(c: nat, answers: seq<Answer>): seq<(nat, Answer)> {
    seq(|answers|, i requires 0 <= i < |answers| => (c, answers[i]))
  }

  lemma TaggedSnoc(c: nat, answers: seq<Answer>, a: Answer)
    ensures Tagged(c, answers + [a]) == Tagged(c, answers) + [(c, a)] && Tagged(c, []) == []
  {
  }

  /** The conversation that the fates tell: candidate by candidate, in order. */
  function Told(fates: seq<Fate>): seq<(nat, Answer)> {
    if fates == [] then [] else Told(fates[..|fates| - 1]) + Tagged(|fates| - 1, fates[|fates| - 1].answers)
  }

  lemma ToldSnoc(fates: seq<Fate>, f: Fate)
    ensures Told(fates + [f]) == Told(fates) + Tagged(|fates|, f.answers)
  {
    assert (fates + [f])[..|fates|] == fates;
  }

  /** The status an answer leaves behind for the error that is written when nothing is delivered. */
  function Noted(a: Answer): Option<int> {
    match a
    case Buffered(r, _) => if KindOf(a) == Again then Some(EffectiveStatus(r)) else None
    case Streamed(r) =>
      if r.status == SRetryable then Some(if r.statusCode >= 400 then r.statusCode else 0)
      else if r.status == SConversionError then Some(r.statusCode)
      else None
  }

  function LastNoted(before: int, answers: seq<Answer>): int {
    if answers == [] then before
    else if Noted(answers[|answers| - 1]).Some? then Noted(answers[|answers| - 1]).value
    else LastNoted(before, answers[..|answers| - 1])
  }

  lemma NotedSnoc(before: int, answers: seq<Answer>, a: Answer)
    ensures LastNoted(before, answers + [a]) == if Noted(a).Some? then Noted(a).value else LastNoted(before, answers)
  {
    assert (answers + [a])[..|answers|] == answers;
  }

  function LastStatus(fates: seq<Fate>): int {
    if fates == [] then 0
    else
      var f := fates[|fates| - 1];
      if f.reason == Stopped then 503 else LastNoted(LastStatus(fates[..|fates| - 1]), f.answers)
  }

  /** How many attempts the cap has counted; the buffered loop counts one turned away by the breaker. */
  function Spent(fates: seq<Fate>, buffered: bool): nat {
    if fates == [] then 0
    else
      var f := fates[|fates| - 1];
      Spent(fates[..|fates| - 1], buffered) + |f.answers| + if buffered && f.reason == BreakerOpened then 1 else 0
  }

  predicate MayStop<R>(world: World<R>, c: nat, n: nat, spent: nat, noBudget: (nat, nat) -> bool) {
    spent + n >= MAX_TOTAL_ATTEMPTS || !world.budgetLeft(c, n) || (n > 0 && world.backoff(c, n) == BudgetGone) || noBudget(c, n)
  }

  predicate FateHolds<R>(cs: seq<Candidate>, world: World<R>, fates: seq<Fate>, c: nat, buffered: bool, noBudget: (nat, nat) -> bool)
    requires c < |fates| && c < |cs|
  {
    Justified(world, c, cs[c], fates[c], MayStop(world, c, |fates[c].answers|, Spent(fates[..c], buffered), noBudget))
  }

  /** Every candidate up to the last one looked at has a justified fate, and only the last can have
      ended the walk. */
  predicate Explained<R>(cs: seq<Candidate>, world: World<R>, fates: seq<Fate>, buffered: bool, noBudget: (nat, nat) -> bool) {
    && |fates| <= |cs|
    && (forall c: nat :: c < |fates| ==> FateHolds(cs, world, fates, c, buffered, noBudget))
    && (forall c :: 0 <= c < |fates| - 1 ==> MovesOn(fates[c]))
  }

  lemma FateStillHolds<R>(cs: seq<Candidate>, world: World<R>, fates: seq<Fate>, f: Fate, c: nat, buffered: bool, noBudget: (nat, nat) -> bool)
    requires c < |fates| && c < |cs| && FateHolds(cs, world, fates, c, buffered, noBudget)
    ensures FateHolds(cs, world, fates + [f], c, buffered, noBudget)
  {
    hide Justified, MayStop;
    assert (fates + [f])[..c] == fates[..c];
  }

  lemma LastFateHolds<R>(cs: seq<Candidate>, world: World<R>, fates: seq<Fate>, f: Fate, buffered: bool, noBudget: (nat, nat) -> bool)
    requires |fates| < |cs| && Justified(world, |fates|, cs[|fates|], f, MayStop(world, |fates|, |f.answers|, Spent(fates, buffered), noBudget))
    ensures FateHolds(cs, world, fates + [f], |fates|, buffered, noBudget)
  {
    hide Justified, MayStop;
    assert (fates + [f])[..|fates|] == fates;
  }

  lemma ExplainedSnoc<R>(cs: seq<Candidate>, world: World<R>, fates: seq<Fate>, f: Fate, buffered: bool, noBudget: (nat, nat) -> bool)
    requires Explained(cs, world, fates, buffered, noBudget) && |fates| < |cs| && (fates != [] ==> MovesOn(fates[|fates| - 1]))
    requires Justified(world, |fates|, cs[|fates|], f, MayStop(world, |fates|, |f.answers|, Spent(fates, buffered), noBudget))
    ensures Explained(cs, world, fates + [f], buffered, noBudget)
  {
    hide Justified, MayStop, Spent, FateHolds;
    forall c: nat | c < |fates| + 1 ensures FateHolds(cs, world, fates + [f], c, buffered, noBudget) {
      if c == |fates| {
        LastFateHolds(cs, world, fates, f, buffered, noBudget);
      } else {
        FateStillHolds(cs, world, fates, f, c, buffered, noBudget);
      }
    }
  }

  /** What the error status depends on besides the last status. */
  predicate AnyRouteClosed(fates: seq<Fate>) {
    exists c :: 0 <= c < |fates| && fates[c].reason == RouteClosed
  }

  predicate OnlyTargetsClosed(fates: seq<Fate>) {
    forall c :: 0 <= c < |fates| ==> fates[c].reason == TargetClosed
  }

  lemma AnyRouteClosedMore(fates: seq<Fate>, f: Fate)
    ensures AnyRouteClosed(fates + [f]) <==> AnyRouteClosed(fates) || f.reason == RouteClosed
  {
    var more := fates + [f];
    forall c | 0 <= c < |fates| ensures more[c] == fates[c] {
    }
    assert more[|fates|] == f;
  }

  /** One more fate in the accounts of the walk. */
  lemma AccountsMore(fates: seq<Fate>, f: Fate, buffered: bool)
    ensures Spent(fates + [f], buffered) == Spent(fates, buffered) + |f.answers| + if buffered && f.reason == BreakerOpened then 1 else 0
    ensures LastStatus(fates + [f]) == if f.reason == Stopped then 503 else LastNoted(LastStatus(fates), f.answers)
    ensures OnlyTargetsClosed(fates + [f]) <==> OnlyTargetsClosed(fates) && f.reason == TargetClosed
  {
    hide LastNoted;
    var more := fates + [f];
    assert more[..|fates|] == fates && more[|fates|] == f;
  }

  function StatusOfError(fates: seq<Fate>, buffered: bool, chained: bool): int {
    ExhaustedStatus(LastStatus(fates), buffered && fates != [] && fates[|fates| - 1].reason == Lost, AnyRouteClosed(fates), OnlyTargetsClosed(fates), chained)
  }

  /** What is settled when a walk is over: the conversation is the one the fates tell; the leases
      claimed are exactly those granted, and the targets are told exactly what is due; the walk ended
      early only for a reason; and the error, if any, has the status the fates call for. */
  ghost predicate Concluded<R>(r: Request, world: World<R>, fates: seq<Fate>, buffered: bool, noBudget: (nat, nat) -> bool, error: Option<int>)
    reads r
  {
    && Explained(r.candidates, world, fates, buffered, noBudget) && TalksOf(r.trace) == Told(fates)
    && Ledger(r.trace) == Due(r.candidates, world, fates)
    && (|fates| < |r.candidates| ==> fates != [] && !MovesOn(fates[|fates| - 1]))
    && (error.None? <==> fates != [] && fates[|fates| - 1].reason in {ClientGone, Ended})
    && (error.Some? ==> error.value == StatusOfError(fates, buffered, r.chain != []))
  }
}
