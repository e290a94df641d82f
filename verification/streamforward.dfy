/** Forwarding a request whose response is streamed. */
module StreamForward {
  import opened Wrappers
  import opened Framing
  import opened Breaker
  import U = UsageAccumulator
  import opened Failover
  import opened Forwarding
  import opened StreamAttempt

  /** How an attempt leaves the retry loop; `Abort` closes the client's connection. */
  datatype Flow = Retry | NextCandidate | Done | Abort

  datatype Progress = Progress(lastStatus: int, totalAttempts: nat, attemptsCapped: bool, routeOnlySkipped: bool, targetBreakerOnlySkipped: bool)

  /** The status a retryable result leaves behind. */
  function StatusAfter(result: StreamResult): int {
    if result.statusCode >= 400 then result.statusCode else 0
  }

  /** A stream cut off after bytes were sent: the client's connection is aborted under it. */
  predicate CutsOff(result: StreamResult) {
    result.committed && (result.status == SConversionError || (result.status == STruncated && !result.partial))
  }

  /** One call of candidate `c` that gave `result` and has its chain entry; what it wrote is written. */
  ghost predicate Settling(r: Request, c: nat, result: StreamResult)
    reads r
  {
    && c < |r.candidates| && r.Valid([]) && r.watch.visit == c && r.watch.committed == result.committed && !r.watch.awaiting
    && r.watch.last == Some(Streamed(result)) && r.watch.visitCalls > 0
    && r.providerProbe.Held? && (r.routeProbe.Held? <==> r.candidates[c].convert) && !r.targetSettled
  }

  method CallStream(r: Request, c: nat, result: StreamResult)
    requires c < |r.candidates| && InHand(r, c, r.watch.visitCalls)
    requires r.watch.calls < MAX_TOTAL_ATTEMPTS && r.watch.visitCalls <= r.candidates[c].maxRetries
    modifies r
    ensures Settling(r, c, result) && r.watch.calls == old(r.watch.calls) + 1 && r.watch.visitCalls == old(r.watch.visitCalls) + 1
    ensures r.talks == old(r.talks) + [(c, Streamed(result))] && r.watch.ledger == old(r.watch.ledger)
  {
    hide ChainOk, CallsOf, StartedOf, WatchAll, TalksOf, ProviderEnding, RouteEnding, BlamesTarget;
    r.CallUpstream(c, Streamed(result));
    if result.committed {
      r.WriteResponse([c]);
    }
    r.Attempted(c, "streamed");
  }

  /** Both guards of a visit are settled, the provider's first. */
  method EndProbes(r: Request, c: nat, provider: End, route: End)
    requires c < |r.candidates| && r.Valid([]) && r.watch.visit == c && !r.watch.awaiting
    requires provider == ProviderEnding(r.watch, r.candidates[c].maxRetries) && route == RouteEnding(r.watch)
    modifies r`trace, r`watch, r`providerProbe, r`routeProbe
    ensures NothingInHand(r) && r.watch == old(r.watch).(provider := None, route := None, failures := r.watch.failures)
  {
    hide ChainOk, CallsOf, StartedOf, WatchAll, TalksOf, KindOf, BlamesProvider, LostInConversion;
    r.EndProviderProbe(provider, []);
    r.EndRouteProbe(route, []);
  }

  /** A result that ends the request, or passes it to the next candidate. */
  method Settle(r: Request, c: nat, result: StreamResult) returns (flow: Flow)
    requires Settling(r, c, result) && Possible(result) && result.status != SRetryable
    modifies r
    ensures NothingInHand(r) && r.watch.visit == c && r.watch.calls == old(r.watch.calls) && r.talks == old(r.talks)
    ensures r.watch.committed == result.committed
    ensures flow == NextCandidate <==> KindOf(Streamed(result)) == Unconverted
    ensures flow != Retry && (flow == NextCandidate ==> Clear(r)) && (flow == Abort <==> CutsOff(result))
    ensures r.watch.ledger == old(r.watch.ledger) + Marked(c, RecordAfter(Streamed(result)))
  {
    hide ChainOk, CallsOf, StartedOf, WatchAll, TalksOf;
    match result.status {
      case SSuccess =>
        r.RecordTarget(true, []);
        EndProbes(r, c, Succeeded, Succeeded);
        flow := Done;
      case SConversionError =>
        EndProbes(r, c, Cancelled, Failed);
        flow := if result.committed then Abort else NextCandidate;
      case STruncated =>
        r.RecordTarget(false, []);
        EndProbes(r, c, Failed, Cancelled);
        flow := if result.partial then Done else Abort;
      case SDownstreamError =>
        r.CancelProbes([]);
        flow := Done;
      case SClientAbort =>
        r.CancelProbes([]);
        flow := Done;
      case SNonRetryable =>
        if IsTargetFailure(result.cause, result.statusCode) {
          r.RecordTarget(false, []);
        }
        r.EndRouteProbe(Cancelled, []);
        r.EndProviderProbe(if result.statusCode >= 500 then Failed else Cancelled, []);
        flow := Done;
    }
  }

  /** Every retry of candidate `c` was used up; the last result was `result`. */
  method Exhausted(r: Request, c: nat, n: nat, result: StreamResult)
    requires c < |r.candidates| && n == r.candidates[c].maxRetries + 1 && InHandAfter(r, c, n, Streamed(result))
    modifies r
    ensures Clear(r) && r.watch.visit == c && r.watch.calls == old(r.watch.calls) && r.talks == old(r.talks)
    ensures r.watch.ledger == old(r.watch.ledger) + FailureMarked(c, Streamed(result))
  {
    hide ChainOk, CallsOf, StartedOf, WatchAll, TalksOf;
    if IsBreakerFailure(result.cause, StatusAfter(result)) {
      r.EndProviderProbe(Failed, []);
    }
    if IsTargetFailure(result.cause, StatusAfter(result)) {
      r.RecordTarget(false, []);
    }
    r.CancelProbes([]);
  }

  /** The rule's budget ran out before the attempt was started. */
  function NoTime<S>(world: World<Exchange<S>>): (nat, nat) -> bool {
    (c: nat, n: nat) => world.attempt(c, n).NoBudget?
  }

  /** The cap or the budget is reached before an attempt. */
  method CutShort(r: Request, c: nat, n: nat, status: string)
    requires c < |r.candidates| && n <= r.candidates[c].maxRetries && InHand(r, c, n)
    modifies r
    ensures Clear(r) && r.watch.visit == c && r.watch.calls == old(r.watch.calls) && r.talks == old(r.talks)
    ensures r.watch.ledger == old(r.watch.ledger) + if n > 0 then Marked(c, Some(false)) else []
  {
    hide ChainOk, CallsOf, StartedOf, WatchAll, TalksOf, KindOf;
    if n > 0 {
      RecordFailure(r, c, n);
    }
    GiveUpRoute(r, c, n);
    r.Skip(c, status, []);
    GiveUpProvider(r, c, n);
  }

  /** The breaker has opened since the last attempt. */
  method TurnAway(r: Request, c: nat, n: nat, ghost last: Answer, recordTarget: bool)
    requires c < |r.candidates| && 0 < n <= r.candidates[c].maxRetries && InHandAfter(r, c, n, last) && (recordTarget <==> TargetFailed(last))
    modifies r
    ensures Clear(r) && r.watch.visit == c && r.watch.calls == old(r.watch.calls) && r.talks == old(r.talks)
    ensures r.watch.ledger == old(r.watch.ledger) + FailureMarked(c, last)
  {
    hide ChainOk, CallsOf, StartedOf, WatchAll, TalksOf, KindOf, TargetFailed;
    GiveUpProvider(r, c, n);
    r.Skip(c, "circuit_open", []);
    if recordTarget {
      RecordFailure(r, c, n);
    }
    GiveUpRoute(r, c, n);
  }

  /** What comes before attempt `n`: the cap, the budget, the backoff and the breaker. */
  method BeforeAttempt<S>(r: Request, world: World<Exchange<S>>, c: nat, n: nat, ghost last: Answer, p: Progress, recordTarget: bool)
    returns (flow: Flow, q: Progress, ghost reason: Reason)
    requires c < |r.candidates| && n <= r.candidates[c].maxRetries && InHand(r, c, n) && (n > 0 ==> InHandAfter(r, c, n, last))
    requires r.watch.calls == p.totalAttempts && !p.attemptsCapped
    requires n > 0 ==> (recordTarget <==> TargetFailed(last))
    modifies r
    ensures r.watch.ledger == old(r.watch.ledger) + if flow == Retry then [] else BrokenOff(c, n, last, reason)
    ensures r.watch.visit == c && r.watch.calls == old(r.watch.calls) == q.totalAttempts && r.talks == old(r.talks)
    ensures flow == Retry ==> InHand(r, c, n) && (n > 0 ==> InHandAfter(r, c, n, last)) && q == p && p.totalAttempts < MAX_TOTAL_ATTEMPTS
    ensures flow == NextCandidate ==> Clear(r) && reason in {Stopped, BreakerOpened}
    ensures flow == Done ==> NothingInHand(r) && !r.watch.committed && reason == ClientGone && n > 0 && world.backoff(c, n) == ClientLeft
    ensures flow != Abort && (flow != Retry && reason != Stopped ==> q == p)
    ensures flow != Retry && reason == Stopped ==>
      q == p.(lastStatus := 503, attemptsCapped := true)
      && (p.totalAttempts >= MAX_TOTAL_ATTEMPTS || !world.budgetLeft(c, n) || (n > 0 && world.backoff(c, n) == BudgetGone))
    ensures flow != Retry && reason == BreakerOpened ==> n > 0 && !world.canContinue(c, n)
  {
    hide ChainOk, CallsOf, StartedOf, WatchAll, TalksOf, KindOf;
    q, reason := p, Stopped;
    if q.totalAttempts >= MAX_TOTAL_ATTEMPTS || !world.budgetLeft(c, n) {
      CutShort(r, c, n, if q.totalAttempts >= MAX_TOTAL_ATTEMPTS then "attempts_capped" else "budget_exceeded");
      return NextCandidate, q.(lastStatus := 503, attemptsCapped := true), Stopped;
    }
    if n > 0 {
      var pause := Pause(r, world, c, n);
      if pause == ClientLeft {
        return Done, q, ClientGone;
      }
      if pause == BudgetGone {
        return NextCandidate, q.(lastStatus := 503, attemptsCapped := true), Stopped;
      }
      if !world.canContinue(c, n) {
        TurnAway(r, c, n, last, recordTarget);
        return NextCandidate, q, BreakerOpened;
      }
    }
    flow := Retry;
  }

  /** One attempt: a retryable result sent nothing, so it leaves everything in hand. */
  method OneAttempt<S(!new)>(r: Request, exchange: Exchange<S>, decode: Bytes -> Option<U.Facts>, c: nat, n: nat) returns (flow: Flow, result: StreamResult)
    requires c < |r.candidates| && n <= r.candidates[c].maxRetries && InHand(r, c, n)
    requires r.watch.calls < MAX_TOTAL_ATTEMPTS && !exchange.NoBudget?
    modifies r
    ensures r.watch.visit == c && r.watch.calls == old(r.watch.calls) + 1 && r.talks == old(r.talks) + [(c, Streamed(result))]
    ensures result == ResultFor(decode, exchange)
    ensures flow == (match KindOf(Streamed(result)) case Again => Retry case Unconverted => NextCandidate case _ => flow)
    ensures KindOf(Streamed(result)) in {Delivered, Final} ==> flow in {Done, Abort}
    ensures flow == Retry ==> InHandAfter(r, c, n + 1, Streamed(result))
    ensures flow == NextCandidate ==> Clear(r)
    ensures flow in {Done, Abort} ==> NothingInHand(r) && r.watch.committed == result.committed && (flow == Abort <==> CutsOff(result))
    ensures r.watch.ledger == old(r.watch.ledger) + if flow == Retry then [] else Marked(c, RecordAfter(Streamed(result)))
  {
    hide ChainOk, CallsOf, StartedOf, WatchAll, TalksOf, ResultFor;
    var sent;
    result, sent := RunAttempt(exchange, decode);
    ResultsArePossible(decode, exchange);
    CallStream(r, c, result);
    if result.status == SRetryable {
      return Retry, result;
    }
    flow := Settle(r, c, result);
  }

  // --- One visit ---

  /** The answers are the results of the candidate's first exchanges. */
  predicate Heard<S>(decode: Bytes -> Option<U.Facts>, world: World<Exchange<S>>, c: nat, answers: seq<Answer>) {
    forall k :: 0 <= k < |answers| ==> answers[k] == Streamed(ResultFor(decode, world.attempt(c, k)))
  }

  /** What a visit does to the request's variables. */
  ghost predicate Follows(f: Fate, p: Progress, q: Progress) {
    && q.totalAttempts == p.totalAttempts + |f.answers|
    && (q.attemptsCapped <==> f.reason == Stopped)
    && q.lastStatus == (if f.reason == Stopped then 503 else LastNoted(p.lastStatus, f.answers))
    && (q.routeOnlySkipped <==> p.routeOnlySkipped || f.reason == RouteClosed)
    && (q.targetBreakerOnlySkipped <==> p.targetBreakerOnlySkipped && f.reason == TargetClosed)
  }

  ghost predicate Left<S>(decode: Bytes -> Option<U.Facts>, world: World<Exchange<S>>, c: nat, candidate: Candidate, p: Progress, q: Progress, f: Fate) {
    && Justified(world, c, candidate, f, MayStop(world, c, |f.answers|, p.totalAttempts, NoTime(world))) && Follows(f, p, q)
    && Heard(decode, world, c, f.answers)
  }

  /** The visit ended with a stream cut off. */
  predicate EndsCut(f: Fate) {
    f.reason == Ended && f.answers != [] &&
    var last := f.answers[|f.answers| - 1];
    last.Streamed? && CutsOff(last.result)
  }

  ghost predicate Flows(r: Request, flow: Flow, f: Fate)
    reads r
  {
    && NothingInHand(r) && flow != Retry && (flow == NextCandidate <==> f.reason !in {ClientGone, Ended})
    && (flow == NextCandidate ==> Clear(r)) && (flow == Abort <==> EndsCut(f))
    && (f.reason == Ended ==> f.answers != [] && f.answers[|f.answers| - 1].Streamed? && r.watch.committed == f.answers[|f.answers| - 1].result.committed)
    && (f.reason == ClientGone ==> !r.watch.committed)
  }

  /** Between two attempts: every result so far was retryable. */
  ghost predicate Trying<S>(decode: Bytes -> Option<U.Facts>, world: World<Exchange<S>>, c: nat, convert: bool, p: Progress, q: Progress, answers: seq<Answer>) {
    && LetIn(world, c, convert) && !p.targetBreakerOnlySkipped && !p.attemptsCapped && AllAgain(answers) && Heard(decode, world, c, answers)
    && q == p.(totalAttempts := p.totalAttempts + |answers|, lastStatus := LastNoted(p.lastStatus, answers))
  }

  lemma LeftBefore<S>(decode: Bytes -> Option<U.Facts>, world: World<Exchange<S>>, c: nat, candidate: Candidate, p: Progress, q: Progress, q2: Progress, answers: seq<Answer>, reason: Reason)
    requires Trying(decode, world, c, candidate.convert, p, q, answers) && |answers| <= candidate.maxRetries && reason in {Stopped, BreakerOpened, ClientGone}
    requires reason == Stopped ==>
      q2 == q.(lastStatus := 503, attemptsCapped := true)
      && (q.totalAttempts >= MAX_TOTAL_ATTEMPTS || !world.budgetLeft(c, |answers|) || (|answers| > 0 && world.backoff(c, |answers|) == BudgetGone)
          || world.attempt(c, |answers|).NoBudget?)
    requires reason == BreakerOpened ==> q2 == q && |answers| > 0 && !world.canContinue(c, |answers|)
    requires reason == ClientGone ==> q2 == q && |answers| > 0 && world.backoff(c, |answers|) == ClientLeft
    ensures Left(decode, world, c, candidate, p, q2, Fate(reason, answers))
  {
    hide LetIn, AllAgain, Heard, LastNoted;
  }

  lemma TryingMore<S>(decode: Bytes -> Option<U.Facts>, world: World<Exchange<S>>, c: nat, convert: bool, p: Progress, q: Progress, answers: seq<Answer>, result: StreamResult)
    requires Trying(decode, world, c, convert, p, q, answers) && result == ResultFor(decode, world.attempt(c, |answers|)) && result.status == SRetryable
    ensures Trying(decode, world, c, convert, p, q.(totalAttempts := q.totalAttempts + 1, lastStatus := StatusAfter(result)), answers + [Streamed(result)])
  {
    hide LetIn, ResultFor;
    NotedSnoc(p.lastStatus, answers, Streamed(result));
  }

  lemma LeftAfter<S>(decode: Bytes -> Option<U.Facts>, world: World<Exchange<S>>, c: nat, candidate: Candidate, p: Progress, q: Progress, answers: seq<Answer>, result: StreamResult)
    requires Trying(decode, world, c, candidate.convert, p, q, answers) && |answers| <= candidate.maxRetries && result == ResultFor(decode, world.attempt(c, |answers|))
    requires result.status != SRetryable
    ensures var lost := KindOf(Streamed(result)) == Unconverted;
            Left(decode, world, c, candidate, p,
                 q.(totalAttempts := q.totalAttempts + 1, lastStatus := if result.status == SConversionError then result.statusCode else q.lastStatus),
                 Fate(if lost then Lost else Ended, answers + [Streamed(result)]))
  {
    hide LetIn, ResultFor;
    var answer := Streamed(result);
    NotedSnoc(p.lastStatus, answers, answer);
    assert (answers + [answer])[..|answers|] == answers;
  }

  lemma LeftExhausted<S>(decode: Bytes -> Option<U.Facts>, world: World<Exchange<S>>, c: nat, candidate: Candidate, p: Progress, q: Progress, answers: seq<Answer>)
    requires Trying(decode, world, c, candidate.convert, p, q, answers) && |answers| == candidate.maxRetries + 1
    ensures Left(decode, world, c, candidate, p, q, Fate(OutOfRetries, answers))
  {
    hide LetIn, AllAgain, Heard, LastNoted;
  }

  lemma TaggedNone(c: nat, talks: seq<(nat, Answer)>)
    ensures talks + Tagged(c, []) == talks
  {
  }

  lemma TaggedMore(c: nat, talks: seq<(nat, Answer)>, answers: seq<Answer>, a: Answer)
    ensures (talks + Tagged(c, answers)) + [(c, a)] == talks + Tagged(c, answers + [a])
  {
    TaggedSnoc(c, answers, a);
  }

  lemma RetryableIsAgain(result: StreamResult)
    ensures KindOf(Streamed(result)) == Again <==> result.status == SRetryable
  {
  }

  lemma StatusDecides(result: StreamResult)
    ensures TargetFailed(Streamed(result)) <==> IsTargetFailure(result.cause, StatusAfter(result))
  {
  }

  /** Attempt `n`, after everything before it let it pass. */
  method Advance<S(!new)>(r: Request, world: World<Exchange<S>>, decode: Bytes -> Option<U.Facts>, c: nat, n: nat, ghost p: Progress, q: Progress,
                          ghost answers: seq<Answer>, ghost before: seq<(nat, Answer)>)
    returns (flow: Flow, next: Progress, result: StreamResult, ghost fate: Fate)
    requires c < |r.candidates| && |answers| == n <= r.candidates[c].maxRetries && InHand(r, c, n) && r.watch.calls == q.totalAttempts < MAX_TOTAL_ATTEMPTS
    requires Trying(decode, world, c, r.candidates[c].convert, p, q, answers) && r.talks == before + Tagged(c, answers)
    modifies r
    ensures r.watch.visit == c && r.watch.calls == next.totalAttempts && r.talks == before + Tagged(c, fate.answers)
    ensures flow == Retry ==>
      fate.answers == answers + [Streamed(result)] && InHandAfter(r, c, n + 1, Streamed(result))
      && next.lastStatus == StatusAfter(result) && r.watch.ledger == old(r.watch.ledger)
      && Trying(decode, world, c, r.candidates[c].convert, p, next, fate.answers)
    ensures flow != Retry ==> Flows(r, flow, fate) && Left(decode, world, c, r.candidates[c], p, next, fate) && fate.reason in {Lost, Stopped, Ended}
    ensures flow != Retry ==> r.watch.ledger == old(r.watch.ledger) + Marked(c, RecordOf(fate))
  {
    hide ChainOk, CallsOf, StartedOf, WatchAll, TalksOf, StatusAfter, Tagged, LastNoted, LetIn, AllAgain, Heard, Left, ResultFor, Trying, Justified,
         RecordOf, RecordAfter;
    var exchange := world.attempt(c, n);
    next := q;
    result := StreamResult(SRetryable, 0, NoFailure, false, false);
    if exchange.NoBudget? {
      BreakOff(r, c, n, "budget_exceeded");
      next := q.(lastStatus := 503, attemptsCapped := true);
      LeftBefore(decode, world, c, r.candidates[c], p, q, next, answers, Stopped);
      if n > 0 {
        BrokenOffIsDue(c, answers, answers[n - 1], Stopped);
      } else {
        BrokenOffIsDue(c, answers, Streamed(result), Stopped);
      }
      return NextCandidate, next, result, Fate(Stopped, answers);
    }
    flow, result := OneAttempt(r, exchange, decode, c, n);
    RetryableIsAgain(result);
    TaggedMore(c, before, answers, Streamed(result));
    fate := Fate(if flow == NextCandidate then Lost else Ended, answers + [Streamed(result)]);
    EndIsDue(answers, Streamed(result), fate.reason);
    if flow == Retry {
      TryingMore(decode, world, c, r.candidates[c].convert, p, q, answers, result);
      next := q.(totalAttempts := q.totalAttempts + 1, lastStatus := StatusAfter(result));
    } else {
      LeftAfter(decode, world, c, r.candidates[c], p, q, answers, result);
      next := q.(totalAttempts := q.totalAttempts + 1, lastStatus := if result.status == SConversionError then result.statusCode else q.lastStatus);
    }
  }

  /** The per-target retry loop. */
  method TryCandidate<S(!new)>(r: Request, world: World<Exchange<S>>, decode: Bytes -> Option<U.Facts>, c: nat, p: Progress)
    returns (flow: Flow, q: Progress, ghost fate: Fate)
    requires c < |r.candidates| && InHand(r, c, 0) && r.watch.calls == p.totalAttempts && Trying(decode, world, c, r.candidates[c].convert, p, p, [])
    modifies r
    ensures r.watch.visit == c && r.watch.calls == q.totalAttempts && Flows(r, flow, fate)
    ensures Left(decode, world, c, r.candidates[c], p, q, fate) && r.talks == old(r.talks) + Tagged(c, fate.answers)
    ensures fate.reason in {OutOfRetries, Lost, BreakerOpened, Stopped, ClientGone, Ended}
    ensures r.watch.ledger == old(r.watch.ledger) + Marked(c, RecordOf(fate))
  {
    hide ChainOk, CallsOf, StartedOf, WatchAll, TalksOf, KindOf, IsBreakerFailure, IsTargetFailure, StatusAfter, Tagged, LastNoted, LetIn, AllAgain, Heard, Left, ResultFor,
         RecordOf, BrokenOff, FailureMarked, Marked, TargetFailed;
    q := p;
    var n := 0;
    var result := StreamResult(SRetryable, 0, NoFailure, false, false);
    ghost var answers: seq<Answer> := [];
    TaggedNone(c, r.talks);
    while n <= r.candidates[c].maxRetries
      invariant n <= r.candidates[c].maxRetries + 1 && InHand(r, c, n) && r.watch.calls == q.totalAttempts
      invariant n > 0 ==> InHandAfter(r, c, n, Streamed(result))
      invariant |answers| == n && r.watch.ledger == old(r.watch.ledger)
      invariant n > 0 ==> q.lastStatus == StatusAfter(result) && answers[n - 1] == Streamed(result)
      invariant Trying(decode, world, c, r.candidates[c].convert, p, q, answers) && r.talks == old(r.talks) + Tagged(c, answers)
      decreases r.candidates[c].maxRetries + 1 - n
    {
      ghost var before, reason := q, Stopped;
      StatusDecides(result);
      flow, q, reason := BeforeAttempt(r, world, c, n, Streamed(result), q, IsTargetFailure(result.cause, q.lastStatus));
      if flow != Retry {
        LeftBefore(decode, world, c, r.candidates[c], p, before, q, answers, reason);
        BrokenOffIsDue(c, answers, Streamed(result), reason);
        return flow, q, Fate(reason, answers);
      }
      flow, q, result, fate := Advance(r, world, decode, c, n, p, q, answers, old(r.talks));
      if flow != Retry {
        return;
      }
      answers := fate.answers;
      n := n + 1;
    }
    LeftExhausted(decode, world, c, r.candidates[c], p, q, answers);
    ExhaustedIsDue(c, answers, Streamed(result));
    Exhausted(r, c, n, result);
    flow, fate := NextCandidate, Fate(OutOfRetries, answers);
  }

  // --- The walk ---

  lemma LeftUntried<S>(decode: Bytes -> Option<U.Facts>, world: World<Exchange<S>>, c: nat, candidate: Candidate, p: Progress, q: Progress, f: Fate)
    requires f.answers == [] && f.reason in {TargetClosed, ProviderClosed, NotReady, RouteClosed} && Justified(world, c, candidate, f, false)
    requires !p.attemptsCapped
    requires q == p.(routeOnlySkipped := p.routeOnlySkipped || f.reason == RouteClosed,
                     targetBreakerOnlySkipped := p.targetBreakerOnlySkipped && f.reason == TargetClosed)
    ensures Left(decode, world, c, candidate, p, q, f)
  {
  }

  lemma TryingStart<S>(decode: Bytes -> Option<U.Facts>, world: World<Exchange<S>>, c: nat, convert: bool, p: Progress)
    requires LetIn(world, c, convert) && !p.targetBreakerOnlySkipped && !p.attemptsCapped
    ensures Trying(decode, world, c, convert, p, p, [])
  {
  }

  lemma LeftFromVisit<S>(decode: Bytes -> Option<U.Facts>, world: World<Exchange<S>>, c: nat, candidate: Candidate, p: Progress, ready: Progress, q: Progress, f: Fate)
    requires Left(decode, world, c, candidate, ready, q, f) && ready == p.(targetBreakerOnlySkipped := false)
    requires f.reason in {OutOfRetries, Lost, BreakerOpened, Stopped, ClientGone, Ended}
    ensures Left(decode, world, c, candidate, p, q, f)
  {
    hide Justified, MayStop, Heard;
  }

  /** One candidate, from its checks to its final outcome. */
  method VisitCandidate<S(!new)>(r: Request, world: World<Exchange<S>>, decode: Bytes -> Option<U.Facts>, c: nat, p: Progress)
    returns (flow: Flow, q: Progress, ghost fate: Fate)
    requires c < |r.candidates| && Clear(r) && r.watch.visit < c && r.watch.calls == p.totalAttempts && !p.attemptsCapped
    modifies r
    ensures r.watch.visit <= c && r.watch.calls == q.totalAttempts && Flows(r, flow, fate)
    ensures Left(decode, world, c, r.candidates[c], p, q, fate) && r.talks == old(r.talks) + Tagged(c, fate.answers)
    ensures r.watch.ledger == old(r.watch.ledger) + Granted(world, c, r.candidates[c].convert, fate.reason) + Marked(c, RecordOf(fate))
  {
    hide ChainOk, CallsOf, StartedOf, WatchAll, TalksOf, KindOf, Tagged, Left, Trying, LetIn, Justified, Granted, ProviderClaim, RouteClaim, RecordOf, Marked;
    TaggedNone(c, r.talks);
    var admitted, targetClosed, routeClosed;
    admitted, targetClosed, routeClosed, fate := Admit(r, world, c);
    q := p.(routeOnlySkipped := p.routeOnlySkipped || routeClosed, targetBreakerOnlySkipped := p.targetBreakerOnlySkipped && targetClosed);
    if !admitted {
      LeftUntried(decode, world, c, r.candidates[c], p, q, fate);
      VisitIsDue(world, c, r.candidates[c].convert, old(r.watch.ledger), fate);
      return NextCandidate, q, fate;
    }
    ghost var ready := q;
    TryingStart(decode, world, c, r.candidates[c].convert, ready);
    flow, q, fate := TryCandidate(r, world, decode, c, q);
    LeftFromVisit(decode, world, c, r.candidates[c], p, ready, q, fate);
    VisitIsDue(world, c, r.candidates[c].convert, old(r.watch.ledger), fate);
  }

  /** The variables of the walk are what the fates so far make them. */
  ghost predicate Recorded(p: Progress, fates: seq<Fate>) {
    && p.totalAttempts == Spent(fates, false) && p.lastStatus == LastStatus(fates)
    && (p.routeOnlySkipped <==> AnyRouteClosed(fates)) && (p.targetBreakerOnlySkipped <==> OnlyTargetsClosed(fates))
  }

  lemma RecordedMore(p: Progress, q: Progress, fates: seq<Fate>, f: Fate)
    requires Recorded(p, fates) && Follows(f, p, q)
    ensures Recorded(q, fates + [f])
  {
    hide LastNoted, Spent, LastStatus, AnyRouteClosed, OnlyTargetsClosed;
    AccountsMore(fates, f, false);
    AnyRouteClosedMore(fates, f);
  }

  ghost predicate AllHeard<S>(decode: Bytes -> Option<U.Facts>, world: World<Exchange<S>>, fates: seq<Fate>) {
    forall c: nat :: c < |fates| ==> Heard(decode, world, c, fates[c].answers)
  }

  lemma NothingYet<S>(decode: Bytes -> Option<U.Facts>, cs: seq<Candidate>, world: World<Exchange<S>>, p: Progress)
    requires p == Progress(0, 0, false, false, true)
    ensures Recorded(p, []) && Explained(cs, world, [], false, NoTime(world)) && AllHeard(decode, world, []) && Told([]) == [] && Due(cs, world, []) == []
  {
  }

  lemma Concludes<S>(decode: Bytes -> Option<U.Facts>, cs: seq<Candidate>, world: World<Exchange<S>>, fates: seq<Fate>, f: Fate, p: Progress, q: Progress)
    requires Explained(cs, world, fates, false, NoTime(world)) && |fates| < |cs| && (fates != [] ==> MovesOn(fates[|fates| - 1]))
    requires Recorded(p, fates) && Left(decode, world, |fates|, cs[|fates|], p, q, f)
    ensures Explained(cs, world, fates + [f], false, NoTime(world)) && Recorded(q, fates + [f])
    ensures Heard(decode, world, |fates|, f.answers) && (q.attemptsCapped <==> f.reason == Stopped)
  {
    hide Explained, Justified, MayStop;
    ExplainedSnoc(cs, world, fates, f, false, NoTime(world));
    RecordedMore(p, q, fates, f);
  }

  lemma StatusIsRecorded(p: Progress, fates: seq<Fate>, chained: bool)
    requires Recorded(p, fates)
    ensures ExhaustedStatus(p.lastStatus, false, p.routeOnlySkipped, p.targetBreakerOnlySkipped, chained) == StatusOfError(fates, false, chained)
  {
    hide ExhaustedStatus;
  }

  /** Whether the client was left with a response: not when it went away first. */
  predicate GotResponse(fates: seq<Fate>) {
    fates == [] ||
    var f := fates[|fates| - 1];
    if f.reason == ClientGone then false
    else if f.reason == Ended then f.answers != [] && f.answers[|f.answers| - 1].Streamed? && f.answers[|f.answers| - 1].result.committed
    else true
  }

  /** Between two candidates. */
  ghost predicate Walking<S>(r: Request, decode: Bytes -> Option<U.Facts>, world: World<Exchange<S>>, p: Progress, fates: seq<Fate>)
    reads r
  {
    && |fates| <= |r.candidates| && Clear(r) && r.watch.visit < |fates| && r.watch.calls == p.totalAttempts
    && Explained(r.candidates, world, fates, false, NoTime(world)) && AllHeard(decode, world, fates)
    && Recorded(p, fates) && r.talks == Told(fates) && r.watch.ledger == Due(r.candidates, world, fates)
    && (if fates == [] then !p.attemptsCapped else if p.attemptsCapped then fates[|fates| - 1].reason == Stopped else MovesOn(fates[|fates| - 1]))
  }

  method VisitNext<S(!new)>(r: Request, decode: Bytes -> Option<U.Facts>, world: World<Exchange<S>>, p: Progress, c: nat, ghost fates: seq<Fate>)
    returns (flow: Flow, q: Progress, ghost fate: Fate)
    requires Walking(r, decode, world, p, fates) && c == |fates| < |r.candidates| && !p.attemptsCapped
    modifies r
    ensures flow != Retry && (flow == NextCandidate ==> Walking(r, decode, world, q, fates + [fate]))
    ensures flow != NextCandidate ==>
      NothingInHand(r) && r.talks == Told(fates + [fate]) && Explained(r.candidates, world, fates + [fate], false, NoTime(world))
      && r.watch.ledger == Due(r.candidates, world, fates + [fate])
      && AllHeard(decode, world, fates + [fate]) && fate.reason in {ClientGone, Ended}
      && (r.watch.committed <==> GotResponse(fates + [fate])) && (flow == Abort <==> EndsCut(fate))
  {
    hide ChainOk, CallsOf, StartedOf, WatchAll, TalksOf, KindOf, Told, Tagged, Explained, Recorded, Left, MayStop, Justified, Heard, NoTime, Due, Granted, RecordOf, Marked;
    flow, q, fate := VisitCandidate(r, world, decode, c, p);
    Concludes(decode, r.candidates, world, fates, fate, p, q);
    ToldSnoc(fates, fate);
    DueSnoc(r.candidates, world, fates, fate);
  }

  /** For every candidate list and every course of events: the rules are kept, every lease granted is
      claimed and given back, every target is told what is due, the chain accounts for the calls, at most one response is written, each candidate is left
      for a reason that holds, and the connection is aborted exactly when the last stream was cut off. */
  method ForwardStream<S(!new)>(candidates: seq<Candidate>, world: World<Exchange<S>>, decode: Bytes -> Option<U.Facts>)
    returns (r: Request, error: Option<int>, aborted: bool, ghost fates: seq<Fate>)
    ensures r.candidates == candidates && Finished(candidates, r.trace, r.chain)
    ensures Concluded(r, world, fates, false, NoTime(world), error) && AllHeard(decode, world, fates)
    ensures (WatchAll(candidates, r.trace).committed <==> GotResponse(fates)) && (aborted <==> fates != [] && EndsCut(fates[|fates| - 1]))
  {
    hide Finished, ChainOk, CallsOf, StartedOf, WatchAll, TalksOf, KindOf, Told, Explained, Recorded, AllHeard, NoTime, Due, Ledger, EndsCut, StatusOfError;
    r := new Request(candidates);
    var p := Progress(0, 0, false, false, true);
    fates := [];
    NothingYet(decode, candidates, world, p);
    var c := 0;
    aborted := false;
    while c < |candidates| && !p.attemptsCapped
      invariant c == |fates| <= |candidates| && fresh(r) && r.candidates == candidates && Walking(r, decode, world, p, fates)
    {
      ghost var fate;
      var flow, q;
      flow, q, fate := VisitNext(r, decode, world, p, c, fates);
      fates := fates + [fate];
      if flow != NextCandidate {
        FinishedNow(r);
        return r, None, flow == Abort, fates;
      }
      p := q;
      c := c + 1;
    }
    error := Some(ExhaustedStatus(p.lastStatus, false, p.routeOnlySkipped, p.targetBreakerOnlySkipped, r.chain != []));
    StatusIsRecorded(p, fates, r.chain != []);
    NotCut(fates, p.attemptsCapped);
    WriteError(r);
  }

  /** A walk that went through to its end was not ended by a stream cut off. */
  lemma NotCut(fates: seq<Fate>, capped: bool)
    ensures fates != [] && (if capped then fates[|fates| - 1].reason == Stopped else MovesOn(fates[|fates| - 1])) ==> !EndsCut(fates[|fates| - 1])
  {
  }
}
