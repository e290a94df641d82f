/** Forwarding a request whose response is buffered. */
module BufferedForward {
  import opened Wrappers
  import opened Breaker
  import opened Failover
  import opened Forwarding

  /** How an attempt leaves the retry loop. */
  datatype Flow = Retry | NextCandidate | Done

  /** A response below 400: it is converted, if need be, and copied to the client. */
  method Deliver(r: Request, c: nat, response: Response) returns (converted: bool)
    requires c < |r.candidates| && Called(r, c, Buffered(response, r.candidates[c].convert))
    requires response.failure == NoFailure && EffectiveStatus(response) < 400
    modifies r
    ensures NothingInHand(r) && r.watch.calls == old(r.watch.calls) && r.watch.visit == c && r.talks == old(r.talks)
    ensures converted == r.watch.committed == (KindOf(Buffered(response, r.candidates[c].convert)) == Delivered)
    ensures !converted ==> Clear(r)
    ensures r.watch.ledger == old(r.watch.ledger) + Marked(c, RecordAfter(Buffered(response, r.candidates[c].convert)))
  {
    hide ChainOk, CallsOf, StartedOf, WatchAll, TalksOf;
    if r.candidates[c].convert && !response.converts {
      r.EndProviderProbe(Cancelled, [c]);
      r.EndRouteProbe(Failed, [c]);
      r.Attempted(c, "conversion_error");
      return false;
    }
    r.RecordTarget(true, [c]);
    r.EndRouteProbe(Succeeded, [c]);
    r.WriteResponse([c]);
    r.Attempted(c, "success");
    r.EndProviderProbe(Succeeded, []);
    converted := true;
  }

  /** A failure that ends the request: the error is written to the client. */
  method Refuse(r: Request, c: nat, response: Response, category: Category)
    requires c < |r.candidates| && Called(r, c, Buffered(response, r.candidates[c].convert))
    requires !(response.failure == NoFailure && EffectiveStatus(response) < 400)
    requires category == CategorizeError(response.failure, EffectiveStatus(response)) != Retryable
    modifies r
    ensures NothingInHand(r) && r.watch.calls == old(r.watch.calls) && r.watch.visit == c && r.watch.committed && r.talks == old(r.talks)
    ensures r.watch.ledger == old(r.watch.ledger) + Marked(c, RecordAfter(Buffered(response, r.candidates[c].convert)))
  {
    hide ChainOk, CallsOf, StartedOf, WatchAll, TalksOf;
    if category == ClientAbort {
      r.CancelProbes([c]);
      r.WriteResponse([c]);
      r.Attempted(c, "client_abort");
    } else {
      if IsTargetFailure(response.failure, EffectiveStatus(response)) {
        r.RecordTarget(false, [c]);
      }
      r.EndRouteProbe(Cancelled, [c]);
      r.WriteResponse([c]);
      r.Attempted(c, "non_retryable");
      r.EndProviderProbe(if IsBreakerFailure(response.failure, response.status) then Failed else Cancelled, []);
    }
  }

  /** One upstream call and what follows from its result. */
  method Attempt(r: Request, c: nat, response: Response) returns (flow: Flow)
    requires c < |r.candidates| && InHand(r, c, r.watch.visitCalls)
    requires r.watch.calls < MAX_TOTAL_ATTEMPTS && r.watch.visitCalls <= r.candidates[c].maxRetries
    modifies r
    ensures r.watch.calls == old(r.watch.calls) + 1 && r.watch.visit == c
    ensures var answer := Buffered(response, r.candidates[c].convert);
            && r.talks == old(r.talks) + [(c, answer)]
            && flow == (match KindOf(answer) case Again => Retry case Unconverted => NextCandidate case _ => Done)
    ensures flow == Retry ==> InHandAfter(r, c, old(r.watch.visitCalls) + 1, Buffered(response, r.candidates[c].convert))
    ensures flow == NextCandidate ==> Clear(r)
    ensures flow == Done ==> NothingInHand(r) && r.watch.committed
    ensures r.watch.ledger == old(r.watch.ledger) + if flow == Retry then [] else Marked(c, RecordAfter(Buffered(response, r.candidates[c].convert)))
  {
    hide ChainOk, CallsOf, StartedOf, WatchAll, ProviderEnding, RouteEnding, TalksOf;
    r.CallUpstream(c, Buffered(response, r.candidates[c].convert));
    var effectiveStatus := EffectiveStatus(response);
    var category := CategorizeError(response.failure, effectiveStatus);
    if response.failure == NoFailure && effectiveStatus < 400 {
      var converted := Deliver(r, c, response);
      flow := if converted then Done else NextCandidate;
    } else if category == Retryable {
      r.Attempted(c, "retryable");
      flow := Retry;
    } else {
      Refuse(r, c, response, category);
      flow := Done;
    }
  }

  /** The state of the request between candidates. */
  datatype Progress = Progress(lastStatus: int, lastFailureWasConversion: bool, totalAttempts: nat, attemptsCapped: bool,
                               routeOnlySkipped: bool, targetBreakerOnlySkipped: bool)

  /** Every retry of candidate `c` was used up; the last answer was `answer`. */
  method Exhausted(r: Request, c: nat, n: nat, response: Response)
    requires c < |r.candidates| && n == r.candidates[c].maxRetries + 1
    requires InHandAfter(r, c, n, Buffered(response, r.candidates[c].convert))
    modifies r
    ensures Clear(r) && r.watch.visit == c && r.watch.calls == old(r.watch.calls) && r.talks == old(r.talks)
    ensures r.watch.ledger == old(r.watch.ledger) + FailureMarked(c, Buffered(response, r.candidates[c].convert))
  {
    hide ChainOk, CallsOf, StartedOf, WatchAll, TalksOf;
    if IsBreakerFailure(response.failure, EffectiveStatus(response)) {
      r.EndProviderProbe(Failed, []);
    }
    if IsTargetFailure(response.failure, EffectiveStatus(response)) {
      r.RecordTarget(false, []);
    }
    r.CancelProbes([]);
  }

  function Never(c: nat, n: nat): bool {
    false
  }

  /** The breaker has opened since the last attempt. */
  method TurnAway(r: Request, c: nat, n: nat, ghost last: Answer, recordTarget: bool)
    requires c < |r.candidates| && 0 < n <= r.candidates[c].maxRetries && InHandAfter(r, c, n, last) && (recordTarget <==> TargetFailed(last))
    modifies r
    ensures Clear(r) && r.watch.visit == c && r.watch.calls == old(r.watch.calls) && r.talks == old(r.talks)
    ensures r.watch.ledger == old(r.watch.ledger) + FailureMarked(c, last)
  {
    hide ChainOk, CallsOf, StartedOf, WatchAll, KindOf, TalksOf, TargetFailed;
    GiveUp(r, c, n);
    r.Skip(c, "circuit_open", []);
    if recordTarget {
      RecordFailure(r, c, n);
    }
  }

  /** What comes before attempt `n`: the cap, the budget, the backoff and the breaker. */
  method BeforeAttempt(r: Request, world: World<Response>, c: nat, n: nat, ghost last: Answer, p: Progress, recordTarget: bool)
    returns (flow: Flow, q: Progress, ghost reason: Reason)
    requires c < |r.candidates| && n <= r.candidates[c].maxRetries && InHand(r, c, n) && (n > 0 ==> InHandAfter(r, c, n, last))
    requires r.watch.calls <= p.totalAttempts && !p.attemptsCapped
    requires n > 0 ==> (recordTarget <==> TargetFailed(last))
    modifies r
    ensures r.watch.ledger == old(r.watch.ledger) + if flow == Retry then [] else BrokenOff(c, n, last, reason)
    ensures r.watch.visit == c && r.watch.calls == old(r.watch.calls) <= q.totalAttempts && r.talks == old(r.talks)
    ensures flow == Retry ==> InHand(r, c, n) && (n > 0 ==> InHandAfter(r, c, n, last)) && p.totalAttempts < MAX_TOTAL_ATTEMPTS
    ensures flow == NextCandidate ==> Clear(r) && reason in {Stopped, BreakerOpened}
    ensures flow == Done ==> NothingInHand(r) && !r.watch.committed && reason == ClientGone && n > 0 && world.backoff(c, n) == ClientLeft
    ensures flow != Retry && reason == Stopped ==>
      q == p.(lastStatus := 503, attemptsCapped := true)
      && (p.totalAttempts >= MAX_TOTAL_ATTEMPTS || !world.budgetLeft(c, n) || (n > 0 && world.backoff(c, n) == BudgetGone))
    ensures flow != Retry && reason == BreakerOpened ==> q == p.(totalAttempts := p.totalAttempts + 1) && n > 0 && !world.canContinue(c, n)
    ensures flow == Retry ==> q == p.(totalAttempts := p.totalAttempts + 1)
    ensures flow == Done ==> q == p
  {
    hide ChainOk, CallsOf, StartedOf, WatchAll, KindOf, TalksOf;
    q, reason := p, Stopped;
    if q.totalAttempts >= MAX_TOTAL_ATTEMPTS || !world.budgetLeft(c, n) {
      BreakOff(r, c, n, if q.totalAttempts >= MAX_TOTAL_ATTEMPTS then "attempts_capped" else "budget_exceeded");
      return NextCandidate, q.(lastStatus := 503, attemptsCapped := true), Stopped;
    }
    if n > 0 {
      var pause := Pause(r, world, c, n);
      if pause == ClientLeft {
        return Done, q, ClientGone;
      }
      if pause == BudgetGone {
        return NextCandidate, q.(lastStatus := 503, attemptsCapped := true), Stopped;
      }
    }
    // The attempt counts against the cap even when the breaker turns it away.
    q := q.(totalAttempts := q.totalAttempts + 1);
    if n > 0 && !world.canContinue(c, n) {
      TurnAway(r, c, n, last, recordTarget);
      return NextCandidate, q, BreakerOpened;
    }
    flow := Retry;
  }

  /** The answers are those of the candidate's first attempts. */
  predicate Heard(world: World<Response>, c: nat, convert: bool, answers: seq<Answer>) {
    forall k :: 0 <= k < |answers| ==> answers[k] == Buffered(world.attempt(c, k), convert)
  }

  /** What a visit does to the request's variables. */
  ghost predicate Follows(f: Fate, p: Progress, q: Progress) {
    && q.totalAttempts == p.totalAttempts + |f.answers| + (if f.reason == BreakerOpened then 1 else 0)
    && (q.attemptsCapped <==> f.reason == Stopped)
    && q.lastStatus == (if f.reason == Stopped then 503 else LastNoted(p.lastStatus, f.answers))
    && (q.lastFailureWasConversion <==> f.reason == Lost)
    && (q.routeOnlySkipped <==> p.routeOnlySkipped || f.reason == RouteClosed)
    && (q.targetBreakerOnlySkipped <==> p.targetBreakerOnlySkipped && f.reason == TargetClosed)
  }

  ghost predicate Flows(r: Request, finished: bool, f: Fate)
    reads r
  {
    && NothingInHand(r) && (finished <==> f.reason in {ClientGone, Ended}) && (!finished ==> Clear(r))
    && (f.reason == Ended ==> r.watch.committed) && (f.reason == ClientGone ==> !r.watch.committed)
  }

  /** Between two attempts: every answer so far called for another attempt. */
  ghost predicate Trying(world: World<Response>, c: nat, convert: bool, p: Progress, q: Progress, answers: seq<Answer>) {
    && LetIn(world, c, convert) && !p.lastFailureWasConversion && !p.targetBreakerOnlySkipped && !p.attemptsCapped
    && AllAgain(answers) && Heard(world, c, convert, answers)
    && q == p.(totalAttempts := p.totalAttempts + |answers|, lastStatus := LastNoted(p.lastStatus, answers))
  }

  ghost predicate Left(world: World<Response>, c: nat, candidate: Candidate, p: Progress, q: Progress, f: Fate) {
    && Justified(world, c, candidate, f, MayStop(world, c, |f.answers|, p.totalAttempts, Never)) && Follows(f, p, q)
    && Heard(world, c, candidate.convert, f.answers)
  }

  lemma LeftBefore(world: World<Response>, c: nat, candidate: Candidate, p: Progress, q: Progress, q2: Progress, answers: seq<Answer>, reason: Reason)
    requires Trying(world, c, candidate.convert, p, q, answers) && |answers| <= candidate.maxRetries && reason in {Stopped, BreakerOpened, ClientGone}
    requires reason == Stopped ==>
      q2 == q.(lastStatus := 503, attemptsCapped := true)
      && (q.totalAttempts >= MAX_TOTAL_ATTEMPTS || !world.budgetLeft(c, |answers|) || (|answers| > 0 && world.backoff(c, |answers|) == BudgetGone))
    requires reason == BreakerOpened ==> q2 == q.(totalAttempts := q.totalAttempts + 1) && |answers| > 0 && !world.canContinue(c, |answers|)
    requires reason == ClientGone ==> q2 == q && |answers| > 0 && world.backoff(c, |answers|) == ClientLeft
    ensures Left(world, c, candidate, p, q2, Fate(reason, answers))
  {
    hide LetIn, AllAgain, Heard, LastNoted;
  }

  lemma TryingMore(world: World<Response>, c: nat, convert: bool, p: Progress, q: Progress, answers: seq<Answer>, response: Response)
    requires Trying(world, c, convert, p, q, answers) && response == world.attempt(c, |answers|) && KindOf(Buffered(response, convert)) == Again
    ensures Trying(world, c, convert, p, q.(totalAttempts := q.totalAttempts + 1, lastStatus := EffectiveStatus(response)), answers + [Buffered(response, convert)])
  {
    hide LetIn, KindOf, EffectiveStatus;
    NotedSnoc(p.lastStatus, answers, Buffered(response, convert));
  }

  lemma LeftAfter(world: World<Response>, c: nat, candidate: Candidate, p: Progress, q: Progress, answers: seq<Answer>, response: Response)
    requires Trying(world, c, candidate.convert, p, q, answers) && |answers| <= candidate.maxRetries && response == world.attempt(c, |answers|)
    requires KindOf(Buffered(response, candidate.convert)) != Again
    ensures var answer := Buffered(response, candidate.convert);
            var lost := KindOf(answer) == Unconverted;
            Left(world, c, candidate, p, q.(totalAttempts := q.totalAttempts + 1, lastFailureWasConversion := lost),
                 Fate(if lost then Lost else Ended, answers + [answer]))
  {
    hide LetIn, KindOf, EffectiveStatus;
    var answer := Buffered(response, candidate.convert);
    NotedSnoc(p.lastStatus, answers, answer);
    assert (answers + [answer])[..|answers|] == answers;
  }

  lemma LeftExhausted(world: World<Response>, c: nat, candidate: Candidate, p: Progress, q: Progress, answers: seq<Answer>)
    requires Trying(world, c, candidate.convert, p, q, answers) && |answers| == candidate.maxRetries + 1
    ensures Left(world, c, candidate, p, q, Fate(OutOfRetries, answers))
  {
    hide LetIn, AllAgain, Heard, LastNoted;
  }

  /** Attempt `n`, after everything before it let it pass. */
  method Advance(r: Request, world: World<Response>, c: nat, n: nat, ghost p: Progress, ghost before: Progress, q: Progress,
                 ghost answers: seq<Answer>, ghost talks: seq<(nat, Answer)>)
    returns (flow: Flow, next: Progress, response: Response, ghost fate: Fate)
    requires c < |r.candidates| && |answers| == n <= r.candidates[c].maxRetries && InHand(r, c, n)
    requires r.watch.calls <= before.totalAttempts < MAX_TOTAL_ATTEMPTS && q == before.(totalAttempts := before.totalAttempts + 1)
    requires Trying(world, c, r.candidates[c].convert, p, before, answers) && r.talks == talks + Tagged(c, answers)
    modifies r
    ensures r.watch.visit == c && r.watch.calls <= next.totalAttempts && r.talks == talks + Tagged(c, fate.answers)
    ensures flow == Retry ==>
      fate.answers == answers + [Buffered(response, r.candidates[c].convert)] && InHandAfter(r, c, n + 1, Buffered(response, r.candidates[c].convert))
      && next.lastStatus == EffectiveStatus(response) && r.watch.ledger == old(r.watch.ledger)
      && Trying(world, c, r.candidates[c].convert, p, next, fate.answers)
    ensures flow != Retry ==> Flows(r, flow == Done, fate) && Left(world, c, r.candidates[c], p, next, fate) && fate.reason in {Lost, Ended}
    ensures flow != Retry ==> r.watch.ledger == old(r.watch.ledger) + Marked(c, RecordOf(fate))
  {
    hide ChainOk, CallsOf, StartedOf, WatchAll, TalksOf, EffectiveStatus, Tagged, LastNoted, LetIn, AllAgain, Heard, Left, Trying, Justified, KindOf,
         RecordOf, RecordAfter, Marked;
    response := world.attempt(c, n);
    ghost var answer := Buffered(response, r.candidates[c].convert);
    flow := Attempt(r, c, response);
    TaggedMore(c, talks, answers, answer);
    fate := Fate(if flow == NextCandidate then Lost else Ended, answers + [answer]);
    EndIsDue(answers, answer, fate.reason);
    if flow == Retry {
      TryingMore(world, c, r.candidates[c].convert, p, before, answers, response);
      next := q.(lastStatus := EffectiveStatus(response));
    } else {
      LeftAfter(world, c, r.candidates[c], p, before, answers, response);
      next := q.(lastFailureWasConversion := flow == NextCandidate);
    }
  }

  /** The per-target retry loop, with the one settlement of the candidate's final outcome. */
  method TryCandidate(r: Request, world: World<Response>, c: nat, p: Progress) returns (finished: bool, q: Progress, ghost fate: Fate)
    requires c < |r.candidates| && InHand(r, c, 0) && r.watch.calls <= p.totalAttempts
    requires Trying(world, c, r.candidates[c].convert, p, p, [])
    modifies r
    ensures r.watch.visit == c && r.watch.calls <= q.totalAttempts && Flows(r, finished, fate)
    ensures Left(world, c, r.candidates[c], p, q, fate) && r.talks == old(r.talks) + Tagged(c, fate.answers)
    ensures fate.reason in {OutOfRetries, Lost, BreakerOpened, Stopped, ClientGone, Ended}
    ensures r.watch.ledger == old(r.watch.ledger) + Marked(c, RecordOf(fate))
  {
    hide ChainOk, CallsOf, StartedOf, WatchAll, TalksOf, KindOf, EffectiveStatus, IsBreakerFailure, IsTargetFailure, Tagged, LastNoted, LetIn, AllAgain, Heard, Left,
         RecordOf, BrokenOff, FailureMarked, Marked;
    q := p;
    var attempt := 0;
    var response := world.attempt(c, 0);
    ghost var answers: seq<Answer> := [];
    TaggedNone(c, r.talks);
    while attempt <= r.candidates[c].maxRetries
      invariant attempt <= r.candidates[c].maxRetries + 1 && InHand(r, c, attempt) && r.watch.calls <= q.totalAttempts
      invariant attempt > 0 ==> InHandAfter(r, c, attempt, Buffered(response, r.candidates[c].convert))
      invariant |answers| == attempt && r.watch.ledger == old(r.watch.ledger)
      invariant attempt > 0 ==> q.lastStatus == EffectiveStatus(response) && answers[attempt - 1] == Buffered(response, r.candidates[c].convert)
      invariant Trying(world, c, r.candidates[c].convert, p, q, answers) && r.talks == old(r.talks) + Tagged(c, answers)
      decreases r.candidates[c].maxRetries + 1 - attempt
    {
      var flow;
      ghost var before, reason := q, Stopped;
      flow, q, reason := BeforeAttempt(r, world, c, attempt, Buffered(response, r.candidates[c].convert), q, IsTargetFailure(response.failure, q.lastStatus));
      if flow != Retry {
        LeftBefore(world, c, r.candidates[c], p, before, q, answers, reason);
        BrokenOffIsDue(c, answers, Buffered(response, r.candidates[c].convert), reason);
        return flow == Done, q, Fate(reason, answers);
      }
      flow, q, response, fate := Advance(r, world, c, attempt, p, before, q, answers, old(r.talks));
      if flow != Retry {
        return flow == Done, q, fate;
      }
      answers := fate.answers;
      attempt := attempt + 1;
    }
    LeftExhausted(world, c, r.candidates[c], p, q, answers);
    ExhaustedIsDue(c, answers, Buffered(response, r.candidates[c].convert));
    Exhausted(r, c, attempt, response);
    finished, fate := false, Fate(OutOfRetries, answers);
  }

  lemma TaggedNone(c: nat, talks: seq<(nat, Answer)>)
    ensures talks + Tagged(c, []) == talks
  {
  }

  lemma TaggedMore(c: nat, talks: seq<(nat, Answer)>, answers: seq<Answer>, a: Answer)
    ensures (talks + Tagged(c, answers)) + [(c, a)] == talks + Tagged(c, answers + [a])
  {
    TaggedSnoc(c, answers, a);
  }

  /** One candidate, from its checks to its final outcome. */
  method VisitCandidate(r: Request, world: World<Response>, c: nat, p: Progress) returns (finished: bool, q: Progress, ghost fate: Fate)
    requires c < |r.candidates| && Clear(r) && r.watch.visit < c && r.watch.calls <= p.totalAttempts && !p.attemptsCapped
    modifies r
    ensures r.watch.visit <= c && r.watch.calls <= q.totalAttempts && Flows(r, finished, fate)
    ensures Left(world, c, r.candidates[c], p, q, fate) && r.talks == old(r.talks) + Tagged(c, fate.answers)
    ensures r.watch.ledger == old(r.watch.ledger) + Granted(world, c, r.candidates[c].convert, fate.reason) + Marked(c, RecordOf(fate))
  {
    hide ChainOk, CallsOf, StartedOf, WatchAll, TalksOf, KindOf, Tagged, Left, Trying, LetIn, Justified, Granted, ProviderClaim, RouteClaim, RecordOf, Marked;
    TaggedNone(c, r.talks);
    var admitted, targetClosed, routeClosed;
    admitted, targetClosed, routeClosed, fate := Admit(r, world, c);
    q := p.(lastFailureWasConversion := false, routeOnlySkipped := p.routeOnlySkipped || routeClosed,
            targetBreakerOnlySkipped := p.targetBreakerOnlySkipped && targetClosed);
    if !admitted {
      LeftUntried(world, c, r.candidates[c], p, q, fate);
      VisitIsDue(world, c, r.candidates[c].convert, old(r.watch.ledger), fate);
      return false, q, fate;
    }
    ghost var ready := q;
    TryingStart(world, c, r.candidates[c].convert, ready);
    finished, q, fate := TryCandidate(r, world, c, q);
    LeftFromVisit(world, c, r.candidates[c], p, ready, q, fate);
    VisitIsDue(world, c, r.candidates[c].convert, old(r.watch.ledger), fate);
  }

  lemma LeftUntried(world: World<Response>, c: nat, candidate: Candidate, p: Progress, q: Progress, f: Fate)
    requires f.answers == [] && f.reason in {TargetClosed, ProviderClosed, NotReady, RouteClosed} && Justified(world, c, candidate, f, false)
    requires !p.attemptsCapped
    requires q == p.(lastFailureWasConversion := false, routeOnlySkipped := p.routeOnlySkipped || f.reason == RouteClosed,
                     targetBreakerOnlySkipped := p.targetBreakerOnlySkipped && f.reason == TargetClosed)
    ensures Left(world, c, candidate, p, q, f)
  {
  }

  lemma TryingStart(world: World<Response>, c: nat, convert: bool, p: Progress)
    requires LetIn(world, c, convert) && !p.lastFailureWasConversion && !p.targetBreakerOnlySkipped && !p.attemptsCapped
    ensures Trying(world, c, convert, p, p, [])
  {
  }

  lemma LeftFromVisit(world: World<Response>, c: nat, candidate: Candidate, p: Progress, ready: Progress, q: Progress, f: Fate)
    requires Left(world, c, candidate, ready, q, f) && ready == p.(lastFailureWasConversion := false, targetBreakerOnlySkipped := false)
    requires f.reason in {OutOfRetries, Lost, BreakerOpened, Stopped, ClientGone, Ended}
    ensures Left(world, c, candidate, p, q, f)
  {
    hide Justified, MayStop, Heard;
  }

  /** The variables of the walk are what the fates so far make them. */
  ghost predicate Recorded(p: Progress, fates: seq<Fate>) {
    && p.totalAttempts == Spent(fates, true) && p.lastStatus == LastStatus(fates)
    && (p.lastFailureWasConversion <==> fates != [] && fates[|fates| - 1].reason == Lost)
    && (p.routeOnlySkipped <==> AnyRouteClosed(fates)) && (p.targetBreakerOnlySkipped <==> OnlyTargetsClosed(fates))
    && (p.attemptsCapped <==> fates != [] && fates[|fates| - 1].reason == Stopped)
  }

  lemma RecordedMore(p: Progress, q: Progress, fates: seq<Fate>, f: Fate)
    requires Recorded(p, fates) && Follows(f, p, q)
    ensures Recorded(q, fates + [f])
  {
    hide LastNoted, Spent, LastStatus, AnyRouteClosed, OnlyTargetsClosed;
    AccountsMore(fates, f, true);
    AnyRouteClosedMore(fates, f);
  }

  /** Whether every answer is the one the world gave to that attempt of that candidate. */
  predicate AllHeard(cs: seq<Candidate>, world: World<Response>, fates: seq<Fate>)
    requires |fates| <= |cs|
  {
    forall c: nat :: c < |fates| ==> Heard(world, c, cs[c].convert, fates[c].answers)
  }

  /** Between two candidates. */
  ghost predicate Walking(r: Request, world: World<Response>, p: Progress, fates: seq<Fate>)
    reads r
  {
    && |fates| <= |r.candidates| && Clear(r) && r.watch.visit < |fates| && r.watch.calls <= p.totalAttempts
    && Explained(r.candidates, world, fates, true, Never) && AllHeard(r.candidates, world, fates)
    && Recorded(p, fates) && r.talks == Told(fates) && r.watch.ledger == Due(r.candidates, world, fates)
    && (if fates == [] then !p.attemptsCapped else if p.attemptsCapped then fates[|fates| - 1].reason == Stopped else MovesOn(fates[|fates| - 1]))
  }

  method VisitNext(r: Request, world: World<Response>, p: Progress, c: nat, ghost fates: seq<Fate>) returns (finished: bool, q: Progress, ghost fate: Fate)
    requires Walking(r, world, p, fates) && c == |fates| < |r.candidates| && !p.attemptsCapped
    modifies r
    ensures !finished ==> Walking(r, world, q, fates + [fate])
    ensures finished ==>
      NothingInHand(r) && r.talks == Told(fates + [fate]) && Explained(r.candidates, world, fates + [fate], true, Never)
      && r.watch.ledger == Due(r.candidates, world, fates + [fate])
      && AllHeard(r.candidates, world, fates + [fate]) && fate.reason in {ClientGone, Ended} && (r.watch.committed <==> fate.reason == Ended)
  {
    hide ChainOk, CallsOf, StartedOf, WatchAll, TalksOf, KindOf, Told, Tagged, Explained, Recorded, Left, MayStop, Justified, Heard, Due, Granted, RecordOf, Marked;
    finished, q, fate := VisitCandidate(r, world, c, p);
    Concludes(r.candidates, world, fates, fate, p, q);
    ToldSnoc(fates, fate);
    DueSnoc(r.candidates, world, fates, fate);
  }

  /** For every candidate list and every course of events: the rules are kept, every lease granted is
      claimed and given back, every target is told what is due, the chain accounts for the calls, at most one response is written, and each candidate is
      left for a reason that holds. */
  method ForwardBuffered(candidates: seq<Candidate>, world: World<Response>) returns (r: Request, error: Option<int>, ghost fates: seq<Fate>)
    ensures r.candidates == candidates && Finished(candidates, r.trace, r.chain)
    ensures Concluded(r, world, fates, true, Never, error) && AllHeard(candidates, world, fates)
    ensures WatchAll(candidates, r.trace).committed <==> !(fates != [] && fates[|fates| - 1].reason == ClientGone)
  {
    hide Finished, ChainOk, CallsOf, StartedOf, WatchAll, TalksOf, KindOf, Told, Explained, Recorded, AllHeard, Due, Ledger;
    r := new Request(candidates);
    var p := Progress(0, false, 0, false, false, true);
    fates := [];
    NothingYet(candidates, world, p);
    var c := 0;
    while c < |candidates| && !p.attemptsCapped
      invariant c == |fates| <= |candidates| && fresh(r) && r.candidates == candidates && Walking(r, world, p, fates)
    {
      ghost var fate;
      var finished, q;
      finished, q, fate := VisitNext(r, world, p, c, fates);
      fates := fates + [fate];
      if finished {
        FinishedNow(r);
        return r, None, fates;
      }
      p := q;
      c := c + 1;
    }
    error := Some(ExhaustedStatus(p.lastStatus, p.lastFailureWasConversion, p.routeOnlySkipped, p.targetBreakerOnlySkipped, r.chain != []));
    StatusIsRecorded(p, fates, r.chain != []);
    WriteError(r);
  }

  lemma NothingYet(cs: seq<Candidate>, world: World<Response>, p: Progress)
    requires p == Progress(0, false, 0, false, false, true)
    ensures Recorded(p, []) && Explained(cs, world, [], true, Never) && AllHeard(cs, world, []) && Told([]) == [] && Due(cs, world, []) == []
  {
  }

  lemma Concludes(cs: seq<Candidate>, world: World<Response>, fates: seq<Fate>, f: Fate, p: Progress, q: Progress)
    requires Explained(cs, world, fates, true, Never) && |fates| < |cs| && (fates != [] ==> MovesOn(fates[|fates| - 1]))
    requires Recorded(p, fates) && Left(world, |fates|, cs[|fates|], p, q, f)
    ensures Explained(cs, world, fates + [f], true, Never) && Recorded(q, fates + [f])
    ensures Heard(world, |fates|, cs[|fates|].convert, f.answers) && (q.attemptsCapped <==> f.reason == Stopped)
  {
    hide Explained, Justified, MayStop;
    ExplainedSnoc(cs, world, fates, f, true, Never);
    RecordedMore(p, q, fates, f);
  }

  lemma StatusIsRecorded(p: Progress, fates: seq<Fate>, chained: bool)
    requires Recorded(p, fates)
    ensures ExhaustedStatus(p.lastStatus, p.lastFailureWasConversion, p.routeOnlySkipped, p.targetBreakerOnlySkipped, chained) == StatusOfError(fates, true, chained)
  {
    hide ExhaustedStatus;
  }
}
