/** What the failover loops may do, and a monitor that checks it.

    A request leaves a trace of the actions that matter to others: claims and settlements of the
    provider and route breakers, records on the target breaker, upstream calls, and what is written
    to the client.  `Watch` reads a trace and says whether the rules were kept. */
module Failover {
  import opened Wrappers
  import opened Breaker

  const MAX_TOTAL_ATTEMPTS := 8

  datatype Candidate = Candidate(provider: string, target: string, convert: bool, maxRetries: nat, price: real, priced: bool)

  // --- Errors ---

  datatype Failure = NoFailure | Canceled | Truncation | NetError | NetWrite | OtherError

  datatype Category = Retryable | NonRetryable | ClientAbort

  function CategorizeError(f: Failure, status: int): Category {
    if f == Canceled then ClientAbort
    else if f != NoFailure then Retryable
    else if status in {405, 406, 413, 414, 415, 422, 501} then NonRetryable
    else if status >= 400 then Retryable
    else NonRetryable
  }

  predicate IsBreakerFailure(f: Failure, status: int) {
    match f
    case Canceled => false
    case Truncation => true
    case NetError => true
    case NetWrite => true
    case OtherError => false
    case NoFailure => status >= 400
  }

  predicate IsClientDisconnect(f: Failure) {
    f == Canceled || f == NetWrite
  }

  predicate IsTargetFailure(f: Failure, status: int) {
    if f != NoFailure then IsBreakerFailure(f, status) else status >= 400
  }

  // --- What an upstream attempt gives ---

  /** A buffered attempt: its failure, the status written, if any, and whether a response that has
      to be converted converts. */
  datatype Response = Response(failure: Failure, status: int, wrote: bool, converts: bool)

  function EffectiveStatus(r: Response): int {
    if r.failure != NoFailure && !r.wrote then 502 else r.status
  }

  datatype StreamStatus = SSuccess | SConversionError | STruncated | SDownstreamError | SClientAbort | SNonRetryable | SRetryable

  /** A streaming attempt: its outcome, status and cause, and whether the response was committed. */
  datatype StreamResult = StreamResult(status: StreamStatus, statusCode: int, cause: Failure, committed: bool, partial: bool)

  datatype Answer = Buffered(response: Response, convert: bool) | Streamed(result: StreamResult)

  /** Delivered to the client, lost in conversion, to be tried again, or the end of the request. */
  datatype Kind = Delivered | Unconverted | Again | Final

  function KindOf(a: Answer): Kind {
    match a
    case Buffered(r, convert) =>
      if r.failure == NoFailure && EffectiveStatus(r) < 400 then (if convert && !r.converts then Unconverted else Delivered)
      else if CategorizeError(r.failure, EffectiveStatus(r)) == Retryable then Again
      else Final
    case Streamed(r) =>
      match r.status
      case SSuccess => Delivered
      case SConversionError => if r.committed then Final else Unconverted
      case SRetryable => Again
      case _ => Final
  }

  predicate LostInConversion(a: Answer) {
    if a.Buffered? then KindOf(a) == Unconverted else a.result.status == SConversionError
  }

  /** Whether the provider's breaker is charged with a failure; `exhausted` when no retry is left. */
  predicate BlamesProvider(a: Answer, exhausted: bool) {
    match a
    case Buffered(r, _) =>
      var category := CategorizeError(r.failure, EffectiveStatus(r));
      !(r.failure == NoFailure && EffectiveStatus(r) < 400)
      && (category == NonRetryable || (category == Retryable && exhausted)) && IsBreakerFailure(r.failure, EffectiveStatus(r))
    case Streamed(r) =>
      match r.status
      case STruncated => true
      case SNonRetryable => r.statusCode >= 500
      case SRetryable => exhausted && IsBreakerFailure(r.cause, if r.statusCode >= 400 then r.statusCode else 0)
      case _ => false
  }

  /** Whether an answer that ends the request is recorded as a failure of the target. */
  predicate BlamesTarget(a: Answer) {
    match a
    case Buffered(r, _) => CategorizeError(r.failure, EffectiveStatus(r)) == NonRetryable && IsTargetFailure(r.failure, EffectiveStatus(r))
    case Streamed(r) => r.status == STruncated || (r.status == SNonRetryable && IsTargetFailure(r.cause, r.statusCode))
  }

  /** Whether a target whose retries are cut short or used up by this answer has failed. */
  predicate TargetFailed(a: Answer) {
    match a
    case Buffered(r, _) => IsTargetFailure(r.failure, EffectiveStatus(r))
    case Streamed(r) => IsTargetFailure(r.cause, if r.statusCode >= 400 then r.statusCode else 0)
  }

  /** What an answer that ends the visit tells the target's breaker. */
  function RecordAfter(a: Answer): Option<bool> {
    if KindOf(a) == Delivered then Some(true) else if BlamesTarget(a) then Some(false) else None
  }

  // --- Traces ---

  datatype End = Succeeded | Failed | Cancelled

  datatype Action =
    | Visit(c: nat)
    | ClaimProvider(lease: Lease)
    | EndProvider(lease: Lease, how: End)
    | ClaimRoute(lease: Lease)
    | EndRoute(lease: Lease, how: End)
    | TargetRecord(success: bool)
    | Call(c: nat)
    | Answered(c: nat, answer: Answer)
    | Commit

  /** What is known after part of a trace: the candidate visited, the leases in hand, the last answer
      of this visit, what has happened in the visit and in the request, and the ledger. */
  datatype Watch = Watch(ok: bool, visit: int, provider: Option<Lease>, route: Option<Lease>, claims: nat, failures: nat,
                         records: nat, last: Option<Answer>, awaiting: bool, visitCalls: nat, calls: nat, committed: bool,
                         ledger: seq<(int, Action)>)

  const UNSTARTED := Watch(true, -1, None, None, 0, 0, 0, None, false, 0, 0, false, [])

  /** How the provider's lease has to be ended, given the last answer of the visit. */
  function ProviderEnding(w: Watch, maxRetries: nat): End {
    if w.last.None? then Cancelled
    else if KindOf(w.last.value) == Delivered then Succeeded
    else if BlamesProvider(w.last.value, w.visitCalls == maxRetries + 1) then Failed
    else Cancelled
  }

  /** The route breaker is charged for conversion errors and for nothing else. */
  function RouteEnding(w: Watch): End {
    if w.last.None? then Cancelled
    else if KindOf(w.last.value) == Delivered then Succeeded
    else if LostInConversion(w.last.value) then Failed
    else Cancelled
  }

  /** The visit goes on, or the next one begins, only after an answer that allows it. */
  predicate MayGoOn(w: Watch) {
    !w.committed && !w.awaiting && (w.last.Some? ==> KindOf(w.last.value) == Again || KindOf(w.last.value) == Unconverted)
  }

  function Observe(cs: seq<Candidate>, w: Watch, a: Action): Watch {
    match a
    case Visit(c) =>
      // Candidates are visited in order, with nothing in hand.
      w.(ok := w.ok && w.provider.None? && w.route.None? && MayGoOn(w) && w.visit < c < |cs|,
         visit := c, claims := 0, failures := 0, records := 0, last := None, awaiting := false, visitCalls := 0)
    case ClaimProvider(l) =>
      w.(ok := w.ok && w.visit >= 0 && w.provider.None? && w.claims == 0 && !w.committed, provider := Some(l), claims := w.claims + 1,
         ledger := w.ledger + [(w.visit, a)])
    case EndProvider(l, how) =>
      w.(ok := w.ok && w.provider == Some(l) && !w.awaiting && 0 <= w.visit < |cs| && how == ProviderEnding(w, cs[w.visit].maxRetries),
         provider := None, failures := w.failures + if how == Failed then 1 else 0)
    case ClaimRoute(l) =>
      w.(ok := w.ok && w.provider.Some? && w.route.None? && w.visitCalls == 0 && !w.committed && 0 <= w.visit < |cs| && cs[w.visit].convert,
         route := Some(l), ledger := w.ledger + [(w.visit, a)])
    case EndRoute(l, how) =>
      w.(ok := w.ok && w.route == Some(l) && !w.awaiting && how == RouteEnding(w), route := None)
    case TargetRecord(success) =>
      w.(ok := w.ok && w.records == 0 && w.last.Some?
               && (if success then KindOf(w.last.value) == Delivered else KindOf(w.last.value) == Again || BlamesTarget(w.last.value)),
         records := w.records + 1, ledger := w.ledger + [(w.visit, a)])
    case Call(c) =>
      w.(ok := w.ok && c == w.visit && 0 <= c < |cs| && w.provider.Some? && (cs[c].convert ==> w.route.Some?)
               && MayGoOn(w) && (w.last.Some? ==> KindOf(w.last.value) == Again)
               && w.calls < MAX_TOTAL_ATTEMPTS && w.visitCalls <= cs[c].maxRetries,
         awaiting := true, visitCalls := w.visitCalls + 1, calls := w.calls + 1)
    case Answered(c, answer) =>
      w.(ok := w.ok && w.awaiting && c == w.visit && c < |cs| && (answer.Buffered? ==> answer.convert == cs[c].convert),
         awaiting := false, last := Some(answer))
    case Commit => w.(ok := w.ok && !w.committed, committed := true)
  }

  function WatchAll(cs: seq<Candidate>, trace: seq<Action>): Watch {
    if trace == [] then UNSTARTED else Observe(cs, WatchAll(cs, trace[..|trace| - 1]), trace[|trace| - 1])
  }

  lemma WatchSnoc(cs: seq<Candidate>, trace: seq<Action>, a: Action)
    ensures WatchAll(cs, trace + [a]) == Observe(cs, WatchAll(cs, trace), a)
  {
    assert (trace + [a])[..|trace|] == trace;
  }

  /** The trace of a request that is over kept every rule and gave back every lease. */
  predicate Kept(cs: seq<Candidate>, trace: seq<Action>) {
    var w := WatchAll(cs, trace);
    w.ok && w.provider.None? && w.route.None?
  }

  // --- What a kept trace means ---

  lemma {:induction false} PrefixKept(cs: seq<Candidate>, trace: seq<Action>, n: nat)
    requires n <= |trace| && WatchAll(cs, trace).ok
    ensures WatchAll(cs, trace[..n]).ok
    decreases |trace|
  {
    if n < |trace| {
      var init := trace[..|trace| - 1];
      assert init[..n] == trace[..n];
      PrefixKept(cs, init, n);
    } else {
      assert trace[..n] == trace;
    }
  }

  lemma PrefixStep(cs: seq<Candidate>, trace: seq<Action>, n: nat)
    requires n < |trace|
    ensures WatchAll(cs, trace[..n + 1]) == Observe(cs, WatchAll(cs, trace[..n]), trace[n])
  {
    assert trace[..n + 1] == trace[..n] + [trace[n]];
    WatchSnoc(cs, trace[..n], trace[n]);
  }

  lemma KeptIsOk(cs: seq<Candidate>, trace: seq<Action>)
    requires Kept(cs, trace)
    ensures WatchAll(cs, trace).ok
  {
  }

  lemma ClaimIsHeld(cs: seq<Candidate>, w: Watch, a: Action)
    ensures a.ClaimProvider? ==> Observe(cs, w, a).provider == Some(a.lease)
    ensures a.ClaimRoute? ==> Observe(cs, w, a).route == Some(a.lease)
  {
    hide KindOf, ProviderEnding, RouteEnding, BlamesTarget, MayGoOn;
  }

  predicate OnProvider(a: Action) {
    a.ClaimProvider? || a.EndProvider?
  }

  predicate OnRoute(a: Action) {
    a.ClaimRoute? || a.EndRoute?
  }

  lemma HeldProvider(cs: seq<Candidate>, w: Watch, a: Action, lease: Lease)
    requires Observe(cs, w, a).ok && w.provider == Some(lease)
    ensures if a.EndProvider? then a.lease == lease && Observe(cs, w, a).provider.None?
            else Observe(cs, w, a).provider == Some(lease) && !OnProvider(a) && !a.Visit?
  {
    hide KindOf, ProviderEnding, RouteEnding, BlamesTarget, MayGoOn;
  }

  /** A provider lease in hand is held until it is ended. */
  lemma {:induction false} ProviderEnd(cs: seq<Candidate>, trace: seq<Action>, n: nat, lease: Lease) returns (j: nat)
    requires Kept(cs, trace) && n <= |trace| && WatchAll(cs, trace[..n]).provider == Some(lease)
    ensures n <= j < |trace| && trace[j].EndProvider? && trace[j].lease == lease && WatchAll(cs, trace[..j + 1]).provider.None?
    ensures forall k :: n <= k < j ==> !OnProvider(trace[k]) && !trace[k].Visit?
    decreases |trace| - n
  {
    hide Observe;
    assert n < |trace| by {
      assert trace[..|trace|] == trace;
    }
    PrefixKept(cs, trace, n + 1);
    PrefixStep(cs, trace, n);
    HeldProvider(cs, WatchAll(cs, trace[..n]), trace[n], lease);
    if trace[n].EndProvider? {
      j := n;
    } else {
      j := ProviderEnd(cs, trace, n + 1, lease);
    }
  }

  /** Every provider lease claimed is settled or cancelled, with the same lease, as the very next
      thing that happens to a provider breaker, and before the next candidate is visited. */
  lemma {:induction false} ProviderEndedOnce(cs: seq<Candidate>, trace: seq<Action>, i: nat) returns (j: nat)
    requires Kept(cs, trace) && i < |trace| && trace[i].ClaimProvider?
    ensures i < j < |trace| && trace[j].EndProvider? && trace[j].lease == trace[i].lease
    ensures forall k :: i < k < j ==> !OnProvider(trace[k]) && !trace[k].Visit?
    ensures forall k :: j < k < |trace| && OnProvider(trace[k]) ==> exists c :: j < c <= k && trace[c].ClaimProvider?
  {
    hide Observe, WatchAll, Kept;
    PrefixStep(cs, trace, i);
    ClaimIsHeld(cs, WatchAll(cs, trace[..i]), trace[i]);
    KeptIsOk(cs, trace);
    j := ProviderEnd(cs, trace, i + 1, trace[i].lease);
    forall k | j < k < |trace| && OnProvider(trace[k]) ensures exists c :: j < c <= k && trace[c].ClaimProvider? {
      NextIsClaim(cs, trace, j + 1, k);
    }
  }

  lemma NoProvider(cs: seq<Candidate>, w: Watch, a: Action)
    requires Observe(cs, w, a).ok && w.provider.None? && !a.ClaimProvider?
    ensures Observe(cs, w, a).provider.None? && !OnProvider(a)
  {
    hide KindOf, ProviderEnding, RouteEnding, BlamesTarget, MayGoOn;
  }

  lemma {:induction false} NextIsClaim(cs: seq<Candidate>, trace: seq<Action>, n: nat, k: nat)
    requires WatchAll(cs, trace).ok && n <= k < |trace| && OnProvider(trace[k]) && WatchAll(cs, trace[..n]).provider.None?
    ensures exists c :: n <= c <= k && trace[c].ClaimProvider?
    decreases k - n
  {
    hide Observe;
    PrefixKept(cs, trace, n + 1);
    PrefixStep(cs, trace, n);
    if !trace[n].ClaimProvider? {
      NoProvider(cs, WatchAll(cs, trace[..n]), trace[n]);
      NextIsClaim(cs, trace, n + 1, k);
    }
  }

  lemma HeldRoute(cs: seq<Candidate>, w: Watch, a: Action, lease: Lease)
    requires Observe(cs, w, a).ok && w.route == Some(lease)
    ensures if a.EndRoute? then a.lease == lease && Observe(cs, w, a).route.None?
            else Observe(cs, w, a).route == Some(lease) && !OnRoute(a) && !a.Visit?
  {
    hide KindOf, ProviderEnding, RouteEnding, BlamesTarget, MayGoOn;
  }

  lemma {:induction false} RouteEnd(cs: seq<Candidate>, trace: seq<Action>, n: nat, lease: Lease) returns (j: nat)
    requires Kept(cs, trace) && n <= |trace| && WatchAll(cs, trace[..n]).route == Some(lease)
    ensures n <= j < |trace| && trace[j].EndRoute? && trace[j].lease == lease && WatchAll(cs, trace[..j + 1]).route.None?
    ensures forall k :: n <= k < j ==> !OnRoute(trace[k]) && !trace[k].Visit?
    decreases |trace| - n
  {
    hide Observe;
    assert n < |trace| by {
      assert trace[..|trace|] == trace;
    }
    PrefixKept(cs, trace, n + 1);
    PrefixStep(cs, trace, n);
    HeldRoute(cs, WatchAll(cs, trace[..n]), trace[n], lease);
    if trace[n].EndRoute? {
      j := n;
    } else {
      j := RouteEnd(cs, trace, n + 1, lease);
    }
  }

  lemma NoRoute(cs: seq<Candidate>, w: Watch, a: Action)
    requires Observe(cs, w, a).ok && w.route.None? && !a.ClaimRoute?
    ensures Observe(cs, w, a).route.None? && !OnRoute(a)
  {
    hide KindOf, ProviderEnding, RouteEnding, BlamesTarget, MayGoOn;
  }

  lemma {:induction false} NextIsRouteClaim(cs: seq<Candidate>, trace: seq<Action>, n: nat, k: nat)
    requires WatchAll(cs, trace).ok && n <= k < |trace| && OnRoute(trace[k]) && WatchAll(cs, trace[..n]).route.None?
    ensures exists c :: n <= c <= k && trace[c].ClaimRoute?
    decreases k - n
  {
    hide Observe;
    PrefixKept(cs, trace, n + 1);
    PrefixStep(cs, trace, n);
    if !trace[n].ClaimRoute? {
      NoRoute(cs, WatchAll(cs, trace[..n]), trace[n]);
      NextIsRouteClaim(cs, trace, n + 1, k);
    }
  }

  /** The same for route leases. */
  lemma {:induction false} RouteEndedOnce(cs: seq<Candidate>, trace: seq<Action>, i: nat) returns (j: nat)
    requires Kept(cs, trace) && i < |trace| && trace[i].ClaimRoute?
    ensures i < j < |trace| && trace[j].EndRoute? && trace[j].lease == trace[i].lease
    ensures forall k :: i < k < j ==> !OnRoute(trace[k]) && !trace[k].Visit?
    ensures forall k :: j < k < |trace| && OnRoute(trace[k]) ==> exists c :: j < c <= k && trace[c].ClaimRoute?
  {
    hide Observe, WatchAll, Kept;
    PrefixStep(cs, trace, i);
    ClaimIsHeld(cs, WatchAll(cs, trace[..i]), trace[i]);
    KeptIsOk(cs, trace);
    j := RouteEnd(cs, trace, i + 1, trace[i].lease);
    forall k | j < k < |trace| && OnRoute(trace[k]) ensures exists c :: j < c <= k && trace[c].ClaimRoute? {
      NextIsRouteClaim(cs, trace, j + 1, k);
    }
  }

  predicate ProviderFails(a: Action) {
    a.EndProvider? && a.how == Failed
  }

  /** Two failures of provider breakers belong to different visits. */
  lemma {:induction false} OneFailureAVisit(cs: seq<Candidate>, trace: seq<Action>, i: nat, j: nat)
    requires Kept(cs, trace) && i < j < |trace| && ProviderFails(trace[i]) && ProviderFails(trace[j])
    ensures exists v :: i < v < j && trace[v].Visit?
  {
    PrefixKept(cs, trace, i);
    PrefixStep(cs, trace, i);
    ClaimsCover(cs, trace, i);
    PrefixKept(cs, trace, i + 1);
    NeedsVisit(cs, trace, i + 1, j);
  }

  lemma ClaimsStep(cs: seq<Candidate>, w: Watch, a: Action)
    requires Observe(cs, w, a).ok && (w.provider.Some? ==> w.claims == 1)
    ensures Observe(cs, w, a).provider.Some? ==> Observe(cs, w, a).claims == 1
    ensures w.provider.None? && w.claims == 1 && !a.Visit? ==>
      !a.EndProvider? && Observe(cs, w, a).provider.None? && Observe(cs, w, a).claims == 1
  {
    hide KindOf, ProviderEnding, RouteEnding, BlamesTarget, MayGoOn;
  }

  lemma {:induction false} ClaimsCover(cs: seq<Candidate>, trace: seq<Action>, n: nat)
    requires WatchAll(cs, trace).ok && n <= |trace|
    ensures WatchAll(cs, trace[..n]).provider.Some? ==> WatchAll(cs, trace[..n]).claims == 1
    decreases n
  {
    if n == 0 {
      assert trace[..0] == [];
    } else {
      hide Observe;
      PrefixKept(cs, trace, n);
      PrefixStep(cs, trace, n - 1);
      ClaimsCover(cs, trace, n - 1);
      ClaimsStep(cs, WatchAll(cs, trace[..n - 1]), trace[n - 1]);
    }
  }

  lemma {:induction false} NeedsVisit(cs: seq<Candidate>, trace: seq<Action>, n: nat, j: nat)
    requires WatchAll(cs, trace).ok && n <= j < |trace| && trace[j].EndProvider?
    requires WatchAll(cs, trace[..n]).provider.None? && WatchAll(cs, trace[..n]).claims == 1
    ensures exists v :: n <= v < j && trace[v].Visit?
    decreases j - n
  {
    hide Observe;
    PrefixKept(cs, trace, n + 1);
    PrefixStep(cs, trace, n);
    if !trace[n].Visit? {
      ClaimsStep(cs, WatchAll(cs, trace[..n]), trace[n]);
      NeedsVisit(cs, trace, n + 1, j);
    }
  }

  /** The last answer of the visit a trace is in. */
  function LastAnswer(trace: seq<Action>): Option<Answer> {
    if trace == [] || trace[|trace| - 1].Visit? then None
    else if trace[|trace| - 1].Answered? then Some(trace[|trace| - 1].answer)
    else LastAnswer(trace[..|trace| - 1])
  }

  lemma AnswerStep(cs: seq<Candidate>, w: Watch, a: Action)
    ensures Observe(cs, w, a).last == if a.Visit? then None else if a.Answered? then Some(a.answer) else w.last
  {
    hide KindOf, ProviderEnding, RouteEnding, BlamesTarget, MayGoOn;
  }

  lemma {:induction false} AnswerWatched(cs: seq<Candidate>, trace: seq<Action>)
    ensures WatchAll(cs, trace).last == LastAnswer(trace)
  {
    hide Observe;
    if trace != [] {
      AnswerStep(cs, WatchAll(cs, trace[..|trace| - 1]), trace[|trace| - 1]);
      AnswerWatched(cs, trace[..|trace| - 1]);
    }
  }

  lemma ConversionBlamesNoOther(a: Answer, exhausted: bool)
    requires LostInConversion(a)
    ensures !BlamesProvider(a, exhausted) && !BlamesTarget(a) && KindOf(a) != Again && KindOf(a) != Delivered
  {
  }

  /** Conversion errors count against the route breaker and nothing else: a route lease is ended with
      a failure exactly when the last answer of the visit was lost in conversion, and then neither
      the provider's lease is ended with a failure nor the target given a record. */
  lemma ConversionChargesRouteOnly(cs: seq<Candidate>, trace: seq<Action>, j: nat)
    requires Kept(cs, trace) && j < |trace|
    ensures var last := LastAnswer(trace[..j]);
            var lost := last.Some? && LostInConversion(last.value);
            && (trace[j].EndRoute? ==> (trace[j].how == Failed <==> lost))
            && (lost ==> !ProviderFails(trace[j]) && !trace[j].TargetRecord?)
  {
    PrefixKept(cs, trace, j + 1);
    PrefixStep(cs, trace, j);
    AnswerWatched(cs, trace[..j]);
    var w := WatchAll(cs, trace[..j]);
    if w.last.Some? && LostInConversion(w.last.value) {
      ConversionBlamesNoOther(w.last.value, true);
      ConversionBlamesNoOther(w.last.value, false);
    }
    hide KindOf, BlamesTarget, BlamesProvider, LostInConversion, MayGoOn;
  }

  lemma RecordsStep(cs: seq<Candidate>, w: Watch, a: Action)
    requires Observe(cs, w, a).ok && !a.Visit?
    ensures Observe(cs, w, a).records >= w.records && (a.TargetRecord? ==> w.records == 0 && Observe(cs, w, a).records == 1)
  {
    hide KindOf, ProviderEnding, RouteEnding, BlamesTarget, MayGoOn;
  }

  lemma {:induction false} RecordNeedsVisit(cs: seq<Candidate>, trace: seq<Action>, n: nat, j: nat)
    requires WatchAll(cs, trace).ok && n <= j < |trace| && trace[j].TargetRecord? && WatchAll(cs, trace[..n]).records > 0
    ensures exists v :: n <= v < j && trace[v].Visit?
    decreases j - n
  {
    hide Observe;
    PrefixKept(cs, trace, n + 1);
    PrefixStep(cs, trace, n);
    if !trace[n].Visit? {
      RecordsStep(cs, WatchAll(cs, trace[..n]), trace[n]);
      RecordNeedsVisit(cs, trace, n + 1, j);
    }
  }

  /** The target is given at most one record a visit. */
  lemma OneRecordAVisit(cs: seq<Candidate>, trace: seq<Action>, i: nat, j: nat)
    requires Kept(cs, trace) && i < j < |trace| && trace[i].TargetRecord? && trace[j].TargetRecord?
    ensures exists v :: i < v < j && trace[v].Visit?
  {
    hide Observe;
    PrefixKept(cs, trace, i + 1);
    PrefixStep(cs, trace, i);
    RecordsStep(cs, WatchAll(cs, trace[..i]), trace[i]);
    RecordNeedsVisit(cs, trace, i + 1, j);
  }

  /** Nothing is called, claimed, visited or written once a response is committed. */
  lemma {:induction false} CommitIsLast(cs: seq<Candidate>, trace: seq<Action>, i: nat, j: nat)
    requires Kept(cs, trace) && i < j < |trace| && trace[i].Commit?
    ensures !trace[j].Commit? && !trace[j].Call? && !trace[j].Visit? && !trace[j].ClaimProvider? && !trace[j].ClaimRoute?
  {
    hide Observe, WatchAll;
    PrefixStep(cs, trace, i);
    CommitCommits(cs, WatchAll(cs, trace[..i]));
    StaysCommitted(cs, trace, i + 1, j);
    KeptIsOk(cs, trace);
    PrefixKept(cs, trace, j + 1);
    PrefixStep(cs, trace, j);
    NothingAfterCommit(cs, WatchAll(cs, trace[..j]), trace[j]);
  }

  lemma CommitCommits(cs: seq<Candidate>, w: Watch)
    ensures Observe(cs, w, Commit).committed
  {
  }

  lemma NothingAfterCommit(cs: seq<Candidate>, w: Watch, a: Action)
    requires w.committed && Observe(cs, w, a).ok
    ensures !a.Commit? && !a.Call? && !a.Visit? && !a.ClaimProvider? && !a.ClaimRoute?
  {
    hide KindOf, ProviderEnding, RouteEnding, BlamesTarget;
  }

  lemma CommitStays(cs: seq<Candidate>, w: Watch, a: Action)
    requires w.committed
    ensures Observe(cs, w, a).committed
  {
    hide KindOf, ProviderEnding, RouteEnding, BlamesTarget, MayGoOn;
  }

  lemma {:induction false} StaysCommitted(cs: seq<Candidate>, trace: seq<Action>, i: nat, j: nat)
    requires i <= j <= |trace| && WatchAll(cs, trace[..i]).committed
    ensures WatchAll(cs, trace[..j]).committed
    decreases j
  {
    hide *;
    if i < j {
      StaysCommitted(cs, trace, i, j - 1);
      PrefixStep(cs, trace, j - 1);
      CommitStays(cs, WatchAll(cs, trace[..j - 1]), trace[j - 1]);
    }
  }

  // --- Upstream calls ---

  /** The candidates called, in order. */
  function CallsOf(trace: seq<Action>): seq<nat> {
    if trace == [] then []
    else CallsOf(trace[..|trace| - 1]) + if trace[|trace| - 1].Call? then [trace[|trace| - 1].c] else []
  }

  /** The conversation with upstream: the answers, each with the candidate that gave it. */
  function TalksOf(trace: seq<Action>): seq<(nat, Answer)> {
    if trace == [] then []
    else
      var a := trace[|trace| - 1];
      TalksOf(trace[..|trace| - 1]) + if a.Answered? then [(a.c, a.answer)] else []
  }

  function Count(calls: seq<nat>, c: nat): nat {
    if calls == [] then 0 else Count(calls[..|calls| - 1], c) + if calls[|calls| - 1] == c then 1 else 0
  }

  predicate Ordered(calls: seq<nat>) {
    forall i, j :: 0 <= i < j < |calls| ==> calls[i] <= calls[j]
  }

  /** The watch counts the calls. */
  ghost predicate Counted(cs: seq<Candidate>, w: Watch, calls: seq<nat>) {
    && |calls| == w.calls <= MAX_TOTAL_ATTEMPTS && Ordered(calls)
    && (forall i :: 0 <= i < |calls| ==> calls[i] < |cs| && calls[i] <= w.visit)
    && (forall c: nat :: c > w.visit ==> Count(calls, c) == 0)
    && (forall c: nat :: c < |cs| ==> Count(calls, c) <= cs[c].maxRetries + 1)
    && (if w.visit >= 0 then w.visit < |cs| && Count(calls, w.visit) == w.visitCalls else w.visitCalls == 0)
  }

  lemma CountedCall(cs: seq<Candidate>, w: Watch, calls: seq<nat>, a: Action)
    requires Counted(cs, w, calls) && a.Call? && a.c == w.visit && a.c < |cs| && w.calls < MAX_TOTAL_ATTEMPTS && w.visitCalls <= cs[a.c].maxRetries
    ensures Counted(cs, Observe(cs, w, a), calls + [a.c])
  {
    hide KindOf, ProviderEnding, RouteEnding, BlamesTarget, MayGoOn;
    var more := calls + [a.c];
    assert more[..|calls|] == calls;
    assert forall c: nat :: Count(more, c) == Count(calls, c) + if a.c == c then 1 else 0;
  }

  lemma CountedStep(cs: seq<Candidate>, w: Watch, calls: seq<nat>, a: Action)
    requires Counted(cs, w, calls) && Observe(cs, w, a).ok
    ensures Counted(cs, Observe(cs, w, a), calls + if a.Call? then [a.c] else [])
  {
    hide KindOf, ProviderEnding, RouteEnding, BlamesTarget, MayGoOn;
    if a.Call? {
      CountedCall(cs, w, calls, a);
    } else {
      assert calls + [] == calls;
    }
  }

  lemma {:induction false} CallsCounted(cs: seq<Candidate>, trace: seq<Action>)
    requires WatchAll(cs, trace).ok
    ensures Counted(cs, WatchAll(cs, trace), CallsOf(trace))
    decreases |trace|
  {
    if trace != [] {
      hide Observe, Counted;
      PrefixKept(cs, trace, |trace| - 1);
      CallsCounted(cs, trace[..|trace| - 1]);
      CountedStep(cs, WatchAll(cs, trace[..|trace| - 1]), CallsOf(trace[..|trace| - 1]), trace[|trace| - 1]);
    }
  }

  /** At most eight upstream calls in all, at most `maxRetries + 1` to a candidate, in candidate order. */
  lemma CallsBounded(cs: seq<Candidate>, trace: seq<Action>, c: nat)
    requires Kept(cs, trace) && c < |cs|
    ensures |CallsOf(trace)| <= MAX_TOTAL_ATTEMPTS == 8 && Ordered(CallsOf(trace)) && Count(CallsOf(trace), c) <= cs[c].maxRetries + 1
  {
    CallsCounted(cs, trace);
  }

  // --- What the breakers were asked for and told ---

  /** The candidate a trace has come to, by its last visit. */
  function VisitOf(trace: seq<Action>): int {
    if trace == [] then -1
    else if trace[|trace| - 1].Visit? then trace[|trace| - 1].c
    else VisitOf(trace[..|trace| - 1])
  }

  predicate OnLedger(a: Action) {
    a.ClaimProvider? || a.ClaimRoute? || a.TargetRecord?
  }

  /** The leases claimed and the target records made, in order, each with the candidate visited. */
  function Ledger(trace: seq<Action>): seq<(int, Action)> {
    if trace == [] then []
    else
      var before, a := trace[..|trace| - 1], trace[|trace| - 1];
      Ledger(before) + if OnLedger(a) then [(VisitOf(before), a)] else []
  }

  lemma LedgerStep(cs: seq<Candidate>, w: Watch, a: Action)
    ensures Observe(cs, w, a).visit == if a.Visit? then a.c else w.visit
    ensures Observe(cs, w, a).ledger == w.ledger + if OnLedger(a) then [(w.visit, a)] else []
  {
    hide KindOf, ProviderEnding, RouteEnding, BlamesTarget, MayGoOn;
    assert w.ledger + [] == w.ledger;
  }

  /** The watch keeps the ledger. */
  lemma {:induction false} LedgerWatched(cs: seq<Candidate>, trace: seq<Action>)
    ensures WatchAll(cs, trace).visit == VisitOf(trace) && WatchAll(cs, trace).ledger == Ledger(trace)
  {
    hide Observe;
    if trace != [] {
      LedgerWatched(cs, trace[..|trace| - 1]);
      LedgerStep(cs, WatchAll(cs, trace[..|trace| - 1]), trace[|trace| - 1]);
    }
  }

  /** Every entry of the ledger is an action of the trace at a visit of its candidate. */
  lemma {:induction false} LedgerIsTrace(trace: seq<Action>, entry: (int, Action)) returns (i: nat)
    requires entry in Ledger(trace)
    ensures i < |trace| && trace[i] == entry.1 && VisitOf(trace[..i]) == entry.0
  {
    var before, a := trace[..|trace| - 1], trace[|trace| - 1];
    if entry in Ledger(before) {
      i := LedgerIsTrace(before, entry);
      assert before[..i] == trace[..i];
    } else {
      i := |before|;
    }
  }

  // --- The attempt chain of the request log ---

  datatype Entry = Entry(order: nat, c: nat, started: bool, cost: real, costKnown: bool, status: string)

  /** The candidates of the entries flagged as upstream-started. */
  function StartedOf(chain: seq<Entry>): seq<nat> {
    if chain == [] then []
    else StartedOf(chain[..|chain| - 1]) + if chain[|chain| - 1].started then [chain[|chain| - 1].c] else []
  }

  /** Entry `i` has order `i + 1`, and a started entry carries its candidate's price snapshot. */
  predicate ChainOk(cs: seq<Candidate>, chain: seq<Entry>) {
    forall i :: 0 <= i < |chain| ==>
      chain[i].order == i + 1 && chain[i].c < |cs| &&
      (chain[i].started ==> chain[i].cost == cs[chain[i].c].price && chain[i].costKnown == cs[chain[i].c].priced)
  }

  function PriceOf(cs: seq<Candidate>, calls: seq<nat>): real
    requires forall i :: 0 <= i < |calls| ==> calls[i] < |cs|
  {
    if calls == [] then 0.0 else PriceOf(cs, calls[..|calls| - 1]) + cs[calls[|calls| - 1]].price
  }

  /** The cost written to the log: the sum over the started entries, and whether all were known. */
  method LogCost(chain: seq<Entry>, cs: seq<Candidate>) returns (cost: real, known: bool)
    requires ChainOk(cs, chain)
    ensures (forall i :: 0 <= i < |StartedOf(chain)| ==> StartedOf(chain)[i] < |cs|)
    ensures cost == PriceOf(cs, StartedOf(chain))
    ensures known <==> forall i :: 0 <= i < |StartedOf(chain)| ==> cs[StartedOf(chain)[i]].priced
  {
    cost, known := 0.0, true;
    assert chain[..0] == [];
    for i := 0 to |chain|
      invariant forall j :: 0 <= j < |StartedOf(chain[..i])| ==> StartedOf(chain[..i])[j] < |cs|
      invariant cost == PriceOf(cs, StartedOf(chain[..i]))
      invariant known <==> forall j :: 0 <= j < |StartedOf(chain[..i])| ==> cs[StartedOf(chain[..i])[j]].priced
    {
      ghost var before := StartedOf(chain[..i]);
      assert chain[..i + 1][..i] == chain[..i];
      if chain[i].started {
        cost := cost + chain[i].cost;
        if !chain[i].costKnown {
          known := false;
        }
        ghost var after := StartedOf(chain[..i + 1]);
        assert after == before + [chain[i].c];
        assert after[..|before|] == before;
        assert forall j :: 0 <= j < |before| ==> after[j] == before[j];
      } else {
        assert StartedOf(chain[..i + 1]) == before;
      }
    }
    assert chain[..|chain|] == chain;
  }
}
