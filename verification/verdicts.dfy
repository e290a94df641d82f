/** What the loops decide, told from statuses and failures alone. */
module Verdicts {
  import opened Wrappers
  import opened Framing
  import U = UsageAccumulator
  import opened Failover
  import opened Forwarding
  import opened StreamAttempt
  import opened GateSafety
  import opened AttemptOutcomes
  import B = BufferedForward
  import S = StreamForward

  // --- One answer ---

  predicate Good(r: Response) {
    r.failure == NoFailure && r.status < 400
  }

  /** An error that another attempt or another candidate may get over. */
  predicate PassingError(r: Response) {
    r.failure == Truncation || r.failure == NetError || r.failure == NetWrite || r.failure == OtherError
    || (r.failure == NoFailure && r.status >= 400 && !FinalStatus(r.status))
  }

  predicate Delivers(r: Response, convert: bool) {
    Good(r) && (convert ==> r.converts)
  }

  /** The client has gone, or no other upstream would answer differently. */
  predicate GivesUp(r: Response) {
    r.failure == Canceled || (r.failure == NoFailure && FinalStatus(r.status))
  }

  lemma BufferedKinds(r: Response, convert: bool)
    ensures var kind := KindOf(Buffered(r, convert));
            && (kind == Again <==> PassingError(r)) && (kind == Delivered <==> Delivers(r, convert))
            && (kind == Unconverted <==> Good(r) && convert && !r.converts) && (kind == Final <==> GivesUp(r))
  {
  }

  /** Nothing was sent and nothing was lost in conversion: the exchange may be tried again. */
  ghost predicate PassingExchange<X(!new)>(decode: Bytes -> Option<U.Facts>, x: Exchange<X>) {
    match x
    case NoBudget => true
    case NoResponse(f) => f != Canceled
    case NoBody(f) => f != Canceled
    case ErrorStatus(status, readFailure) => readFailure != NoFailure || !FinalStatus(status)
    case Body(_, _, _, _, _, _, _) => SentBytes(decode, x) == "" && !LostWhole(decode, x)
  }

  /** Conversion failed before anything was sent, and the bytes held back tell of no upstream error. */
  ghost predicate LostWhole<X(!new)>(decode: Bytes -> Option<U.Facts>, x: Exchange<X>)
    requires x.Body?
  {
    && SentBytes(decode, x) == ""
    && (EndingOf(decode, x).CloseBroke? || (EndingOf(decode, x).ConversionBroke? && !U.Fed(decode, U.NEW_STATE, HeldBytes(decode, x)).tally.errored))
  }

  /** What the gate's guarantees assume of an exchange. */
  ghost predicate Ordinary<X(!new)>(x: Exchange<X>) {
    (x.Body? ==> DeafOnceClosed(x.source)) && (x.ErrorStatus? ==> x.status >= 400)
  }

  lemma StreamedKinds<X(!new)>(decode: Bytes -> Option<U.Facts>, x: Exchange<X>)
    requires Ordinary(x)
    ensures var kind := KindOf(Streamed(ResultFor(decode, x)));
            && (kind == Again <==> PassingExchange(decode, x))
            && (kind == Unconverted <==> x.Body? && LostWhole(decode, x))
  {
    hide ResultFor, SentBytes, HeldBytes, EndingOf, U.Fed;
    if x.Body? {
      StatusExactly(decode, x);
    } else {
      WithoutBodyExactly(decode, x);
    }
  }

  // --- The end of a visit ---

  /** Of a justified fate, the last answer tells whether it ended the walk. */
  lemma EndingAnswer<X>(world: World<X>, c: nat, candidate: Candidate, f: Fate, mayStop: bool)
    requires Justified(world, c, candidate, f, mayStop)
    ensures f.reason == Ended <==> f.answers != [] && KindOf(f.answers[|f.answers| - 1]) in {Delivered, Final}
    ensures f.reason == Lost <==> f.answers != [] && KindOf(f.answers[|f.answers| - 1]) == Unconverted
    ensures forall k :: 0 <= k < |f.answers| - 1 ==> KindOf(f.answers[k]) == Again
  {
    hide KindOf, LetIn;
  }

  /** The buffered loop ends at a candidate exactly when its last answer was delivered, was cancelled
      by the client, or had one of the seven final statuses; and before that it got passing errors. */
  lemma EndedExactly(r: Request, world: World<Response>, fates: seq<Fate>, error: Option<int>, c: nat)
    requires Concluded(r, world, fates, true, B.Never, error) && B.AllHeard(r.candidates, world, fates) && c < |fates|
    ensures var n := |fates[c].answers|;
            && (fates[c].reason == Ended <==> n > 0 && (Delivers(world.attempt(c, n - 1), r.candidates[c].convert) || GivesUp(world.attempt(c, n - 1))))
            && (fates[c].reason == Lost <==> n > 0 && Good(world.attempt(c, n - 1)) && r.candidates[c].convert && !world.attempt(c, n - 1).converts)
            && forall k: nat :: k < n - 1 ==> PassingError(world.attempt(c, k))
  {
    hide KindOf, Told, Due, Ledger, TalksOf, Spent, StatusOfError;
    var f := fates[c];
    assert FateHolds(r.candidates, world, fates, c, true, B.Never) && B.Heard(world, c, r.candidates[c].convert, f.answers);
    EndingAnswer(world, c, r.candidates[c], f, MayStop(world, c, |f.answers|, Spent(fates[..c], true), B.Never));
    hide Justified, MayStop;
    forall k: nat | k < |f.answers| ensures f.answers[k] == Buffered(world.attempt(c, k), r.candidates[c].convert) {
    }
    forall x: Response, convert: bool
      ensures var kind := KindOf(Buffered(x, convert));
              && (kind == Again <==> PassingError(x)) && (kind == Delivered <==> Delivers(x, convert))
              && (kind == Unconverted <==> Good(x) && convert && !x.converts) && (kind == Final <==> GivesUp(x))
    {
      BufferedKinds(x, convert);
    }
  }

  /** The streaming loop: a visit ends exactly with an exchange that is neither passing nor lost whole
      in conversion, after passing ones. */
  lemma StreamEndedExactly<X(!new)>(r: Request, decode: Bytes -> Option<U.Facts>, world: World<Exchange<X>>, fates: seq<Fate>, error: Option<int>, c: nat)
    requires Concluded(r, world, fates, false, S.NoTime(world), error) && S.AllHeard(decode, world, fates) && c < |fates|
    requires forall k: nat :: k < |fates[c].answers| ==> Ordinary(world.attempt(c, k))
    ensures var n := |fates[c].answers|;
            && (fates[c].reason == Ended <==> n > 0 && !PassingExchange(decode, world.attempt(c, n - 1))
                                              && !(world.attempt(c, n - 1).Body? && LostWhole(decode, world.attempt(c, n - 1))))
            && forall k: nat :: k < n - 1 ==> PassingExchange(decode, world.attempt(c, k))
  {
    hide KindOf, Told, Due, Ledger, TalksOf, Spent, StatusOfError, PassingExchange, LostWhole, ResultFor;
    var f := fates[c];
    assert FateHolds(r.candidates, world, fates, c, false, S.NoTime(world)) && S.Heard(decode, world, c, f.answers);
    EndingAnswer(world, c, r.candidates[c], f, MayStop(world, c, |f.answers|, Spent(fates[..c], false), S.NoTime(world)));
    hide Justified, MayStop;
    forall k: nat | k < |f.answers|
      ensures KindOf(f.answers[k]) == Again <==> PassingExchange(decode, world.attempt(c, k))
      ensures KindOf(f.answers[k]) == Unconverted <==> world.attempt(c, k).Body? && LostWhole(decode, world.attempt(c, k))
    {
      StreamedKinds(decode, world.attempt(c, k));
    }
  }

  /** Bytes were sent, and they are not the whole of a good stream. */
  ghost predicate CutExchange<X(!new)>(decode: Bytes -> Option<U.Facts>, x: Exchange<X>) {
    x.Body? && SentBytes(decode, x) != "" &&
    var end, t := EndingOf(decode, x), U.Fed(decode, U.NEW_STATE, SentBytes(decode, x)).tally;
    end.ConversionBroke? || end.CloseBroke? || t.errored || (UpstreamStopped(end) && !U.Successful(t))
  }

  /** The client's connection is aborted exactly when the last exchange sent bytes, and then its
      conversion failed, or they tell of an upstream error, or they do not end a stream well and it was
      not the client or its connection that stopped it. */
  lemma AbortedExactly<X(!new)>(r: Request, decode: Bytes -> Option<U.Facts>, world: World<Exchange<X>>, fates: seq<Fate>, error: Option<int>)
    requires Concluded(r, world, fates, false, S.NoTime(world), error) && S.AllHeard(decode, world, fates) && fates != []
    requires fates[|fates| - 1].answers != [] ==> Ordinary(world.attempt(|fates| - 1, |fates[|fates| - 1].answers| - 1))
    ensures var c, n := |fates| - 1, |fates[|fates| - 1].answers|;
            S.EndsCut(fates[c]) <==> n > 0 && CutExchange(decode, world.attempt(c, n - 1))
  {
    hide Told, Due, Ledger, TalksOf, Spent, StatusOfError, ResultFor, SentBytes, HeldBytes, EndingOf, U.Fed, U.Successful;
    var c := |fates| - 1;
    var f := fates[c];
    assert FateHolds(r.candidates, world, fates, c, false, S.NoTime(world)) && S.Heard(decode, world, c, f.answers);
    EndingAnswer(world, c, r.candidates[c], f, MayStop(world, c, |f.answers|, Spent(fates[..c], false), S.NoTime(world)));
    hide Justified, MayStop;
    if f.answers != [] {
      var x := world.attempt(c, |f.answers| - 1);
      if x.Body? {
        StatusExactly(decode, x);
        EndingIsReal(decode, x);
      } else {
        WithoutBodyExactly(decode, x);
      }
    }
  }

  // --- When every answer is a passing error ---

  /** Every breaker, check and clock lets the request go on. */
  ghost predicate Smooth<X(!new)>(world: World<X>, cs: seq<Candidate>, noBudget: (nat, nat) -> bool) {
    forall c: nat :: c < |cs| ==>
      && world.targetAdmits(c) && world.acquireProvider(c).Some? && world.preflight(c) == Ready && world.acquireRoute(c).Some?
      && forall n: nat :: GoesOn(world, c, n, noBudget)
  }

  predicate GoesOn<X>(world: World<X>, c: nat, n: nat, noBudget: (nat, nat) -> bool) {
    world.budgetLeft(c, n) && world.backoff(c, n) == Elapsed && world.canContinue(c, n) && !noBudget(c, n)
  }

  /** The calls that the first `n` candidates have room for. */
  function Room(cs: seq<Candidate>, n: nat): nat
    requires n <= |cs|
  {
    if n == 0 then 0 else Room(cs, n - 1) + cs[n - 1].maxRetries + 1
  }

  lemma {:induction false} RoomGrows(cs: seq<Candidate>, m: nat, n: nat)
    requires m <= n <= |cs|
    ensures Room(cs, m) <= Room(cs, n)
    decreases n
  {
    if m < n {
      RoomGrows(cs, m, n - 1);
    }
  }

  /** A visit with passing errors only uses up its retries, unless the cap stops it. */
  lemma SmoothFate<X(!new)>(cs: seq<Candidate>, world: World<X>, f: Fate, c: nat, spent: nat, noBudget: (nat, nat) -> bool)
    requires c < |cs| && Smooth(world, cs, noBudget) && AllAgain(f.answers)
    requires Justified(world, c, cs[c], f, MayStop(world, c, |f.answers|, spent, noBudget))
    ensures f.reason == OutOfRetries || f.reason == Stopped
    ensures f.reason == OutOfRetries ==> |f.answers| == cs[c].maxRetries + 1
    ensures f.reason == Stopped ==> |f.answers| <= cs[c].maxRetries && spent + |f.answers| >= MAX_TOTAL_ATTEMPTS
  {
    hide KindOf;
    assert GoesOn(world, c, |f.answers|, noBudget);
  }

  lemma {:induction false} EveryoneBefore<X(!new)>(cs: seq<Candidate>, world: World<X>, fates: seq<Fate>, buffered: bool, noBudget: (nat, nat) -> bool, n: nat)
    requires n < |fates| && Explained(cs, world, fates, buffered, noBudget) && Smooth(world, cs, noBudget)
    requires forall i :: 0 <= i < |fates| ==> AllAgain(fates[i].answers)
    ensures Spent(fates[..n], buffered) == Room(cs, n)
    ensures fates[n].reason == OutOfRetries || fates[n].reason == Stopped
    ensures fates[n].reason == OutOfRetries ==> |fates[n].answers| == cs[n].maxRetries + 1
    ensures fates[n].reason == Stopped ==> n == |fates| - 1 && |fates[n].answers| <= cs[n].maxRetries && Room(cs, n) + |fates[n].answers| >= MAX_TOTAL_ATTEMPTS
    decreases n
  {
    hide Justified, Smooth, MayStop, AllAgain;
    if n > 0 {
      EveryoneBefore(cs, world, fates, buffered, noBudget, n - 1);
      assert fates[..n] == fates[..n - 1] + [fates[n - 1]];
      AccountsMore(fates[..n - 1], fates[n - 1], buffered);
    }
    assert FateHolds(cs, world, fates, n, buffered, noBudget);
    SmoothFate(cs, world, fates[n], n, Spent(fates[..n], buffered), noBudget);
  }

  /** Every candidate that the cap of eight has room for is called `maxRetries + 1` times. */
  lemma EveryoneIsTried<X(!new)>(cs: seq<Candidate>, world: World<X>, fates: seq<Fate>, buffered: bool, noBudget: (nat, nat) -> bool, c: nat)
    requires Explained(cs, world, fates, buffered, noBudget) && Smooth(world, cs, noBudget)
    requires |fates| < |cs| ==> fates != [] && !MovesOn(fates[|fates| - 1])
    requires forall i :: 0 <= i < |fates| ==> AllAgain(fates[i].answers)
    requires c < |cs| && Room(cs, c + 1) <= MAX_TOTAL_ATTEMPTS
    ensures c < |fates| && fates[c].reason == OutOfRetries && |fates[c].answers| == cs[c].maxRetries + 1
  {
    if c < |fates| {
      EveryoneBefore(cs, world, fates, buffered, noBudget, c);
    } else {
      RoomGrows(cs, |fates|, c + 1);
      EveryoneBefore(cs, world, fates, buffered, noBudget, |fates| - 1);
    }
  }

  /** In the buffered loop: when every response is a passing error and nothing else stands in the way,
      every candidate the cap has room for is called `maxRetries + 1` times, and an error is written. */
  lemma PassingErrorsTryEveryone(r: Request, world: World<Response>, fates: seq<Fate>, error: Option<int>, c: nat)
    requires Concluded(r, world, fates, true, B.Never, error) && B.AllHeard(r.candidates, world, fates) && Smooth(world, r.candidates, B.Never)
    requires forall i: nat, k: nat :: PassingError(world.attempt(i, k))
    requires c < |r.candidates| && Room(r.candidates, c + 1) <= MAX_TOTAL_ATTEMPTS
    ensures c < |fates| && fates[c].reason == OutOfRetries && |fates[c].answers| == r.candidates[c].maxRetries + 1 && error.Some?
  {
    hide KindOf, Told, Due, Ledger, TalksOf, Spent, StatusOfError, Smooth, PassingError;
    forall i | 0 <= i < |fates| ensures AllAgain(fates[i].answers) {
      assert B.Heard(world, i, r.candidates[i].convert, fates[i].answers);
      forall k | 0 <= k < |fates[i].answers| ensures KindOf(fates[i].answers[k]) == Again {
        BufferedKinds(world.attempt(i, k), r.candidates[i].convert);
      }
    }
    EveryoneIsTried(r.candidates, world, fates, true, B.Never, c);
    EveryoneBefore(r.candidates, world, fates, true, B.Never, |fates| - 1);
  }

  /** And in the streaming loop, when every exchange is passing. */
  lemma PassingExchangesTryEveryone<X(!new)>(r: Request, decode: Bytes -> Option<U.Facts>, world: World<Exchange<X>>, fates: seq<Fate>, error: Option<int>, c: nat)
    requires Concluded(r, world, fates, false, S.NoTime(world), error) && S.AllHeard(decode, world, fates) && Smooth(world, r.candidates, S.NoTime(world))
    requires forall i: nat, k: nat :: Ordinary(world.attempt(i, k)) && PassingExchange(decode, world.attempt(i, k))
    requires c < |r.candidates| && Room(r.candidates, c + 1) <= MAX_TOTAL_ATTEMPTS
    ensures c < |fates| && fates[c].reason == OutOfRetries && |fates[c].answers| == r.candidates[c].maxRetries + 1 && error.Some?
  {
    hide KindOf, Told, Due, Ledger, TalksOf, Spent, StatusOfError, Smooth, PassingExchange, ResultFor, Ordinary, S.NoTime;
    forall i | 0 <= i < |fates| ensures AllAgain(fates[i].answers) {
      assert S.Heard(decode, world, i, fates[i].answers);
      forall k | 0 <= k < |fates[i].answers| ensures KindOf(fates[i].answers[k]) == Again {
        StreamedKinds(decode, world.attempt(i, k));
      }
    }
    EveryoneIsTried(r.candidates, world, fates, false, S.NoTime(world), c);
    EveryoneBefore(r.candidates, world, fates, false, S.NoTime(world), |fates| - 1);
  }

  // --- Who is charged ---

  /** Transport failures and error statuses count against an upstream; cancellations and unknown errors
      do not. */
  predicate CountsAgainst(f: Failure, status: int) {
    f == Truncation || f == NetError || f == NetWrite || (f == NoFailure && status >= 400)
  }

  /** The provider's breaker is charged for a final status, for an error that used up the retries, for a
      stream cut off, and for a final 5xx of a stream. */
  predicate ChargesProvider(a: Answer, exhausted: bool) {
    match a
    case Buffered(r, _) => (r.failure == NoFailure && FinalStatus(r.status)) || (exhausted && CountsAgainst(r.failure, r.status))
    case Streamed(r) =>
      || r.status == STruncated
      || (r.status == SNonRetryable && r.statusCode >= 500)
      || (r.status == SRetryable && exhausted && CountsAgainst(r.cause, r.statusCode))
  }

  /** The calls since the last visit began. */
  function CallsInVisit(trace: seq<Action>): nat {
    if trace == [] || trace[|trace| - 1].Visit? then 0
    else CallsInVisit(trace[..|trace| - 1]) + if trace[|trace| - 1].Call? then 1 else 0
  }

  lemma CallsStep(cs: seq<Candidate>, w: Watch, a: Action)
    ensures Observe(cs, w, a).visitCalls == if a.Visit? then 0 else w.visitCalls + if a.Call? then 1 else 0
  {
    hide KindOf, ProviderEnding, RouteEnding, BlamesTarget, MayGoOn;
  }

  lemma {:induction false} CallsWatched(cs: seq<Candidate>, trace: seq<Action>)
    ensures WatchAll(cs, trace).visitCalls == CallsInVisit(trace)
    decreases |trace|
  {
    hide Observe;
    if trace != [] {
      CallsWatched(cs, trace[..|trace| - 1]);
      CallsStep(cs, WatchAll(cs, trace[..|trace| - 1]), trace[|trace| - 1]);
    }
  }

  lemma ProviderBlame(a: Answer, exhausted: bool)
    ensures BlamesProvider(a, exhausted) && KindOf(a) != Delivered <==> ChargesProvider(a, exhausted)
  {
  }

  lemma EndingAllowed(cs: seq<Candidate>, w: Watch, a: Action)
    requires Observe(cs, w, a).ok && a.EndProvider?
    ensures 0 <= w.visit < |cs| && a.how == ProviderEnding(w, cs[w.visit].maxRetries)
  {
    hide KindOf, RouteEnding, BlamesTarget, MayGoOn, ProviderEnding;
  }

  /** In a trace that keeps the rules: a provider's lease is ended well exactly after a delivered
      answer, and with a failure exactly when the last answer of the visit charges the provider. */
  lemma ProviderChargedExactly(cs: seq<Candidate>, trace: seq<Action>, j: nat)
    requires Failover.Kept(cs, trace) && j < |trace| && trace[j].EndProvider?
    ensures var last, c := LastAnswer(trace[..j]), VisitOf(trace[..j]);
            && 0 <= c < |cs|
            && (trace[j].how == Failed <==> last.Some? && ChargesProvider(last.value, CallsInVisit(trace[..j]) == cs[c].maxRetries + 1))
            && (trace[j].how == Succeeded <==> last.Some? && KindOf(last.value) == Delivered)
  {
    hide Observe, WatchAll, Failover.Kept, KindOf, BlamesProvider, ChargesProvider;
    KeptIsOk(cs, trace);
    PrefixKept(cs, trace, j + 1);
    PrefixStep(cs, trace, j);
    AnswerWatched(cs, trace[..j]);
    CallsWatched(cs, trace[..j]);
    LedgerWatched(cs, trace[..j]);
    var w := WatchAll(cs, trace[..j]);
    EndingAllowed(cs, w, trace[j]);
    if w.last.Some? {
      ProviderBlame(w.last.value, w.visitCalls == cs[w.visit].maxRetries + 1);
    }
  }

  /** Only the conversion failed. */
  predicate ConversionLost(a: Answer) {
    match a
    case Buffered(r, convert) => Good(r) && convert && !r.converts
    case Streamed(r) => r.status == SConversionError
  }

  lemma RouteBlame(a: Answer)
    ensures LostInConversion(a) && KindOf(a) != Delivered <==> ConversionLost(a)
  {
    if a.Buffered? {
      BufferedKinds(a.response, a.convert);
    }
  }

  lemma RouteEndingAllowed(cs: seq<Candidate>, w: Watch, a: Action)
    requires Observe(cs, w, a).ok && a.EndRoute?
    ensures a.how == RouteEnding(w)
  {
    hide KindOf, RouteEnding, BlamesTarget, MayGoOn, ProviderEnding;
  }

  /** A route's lease is ended well exactly after a delivered answer, and with a failure exactly when only
      the conversion failed. */
  lemma RouteChargedExactly(cs: seq<Candidate>, trace: seq<Action>, j: nat)
    requires Failover.Kept(cs, trace) && j < |trace| && trace[j].EndRoute?
    ensures var last := LastAnswer(trace[..j]);
            && (trace[j].how == Failed <==> last.Some? && ConversionLost(last.value))
            && (trace[j].how == Succeeded <==> last.Some? && KindOf(last.value) == Delivered)
  {
    hide Observe, WatchAll, Failover.Kept, KindOf, LostInConversion, ConversionLost;
    KeptIsOk(cs, trace);
    PrefixKept(cs, trace, j + 1);
    PrefixStep(cs, trace, j);
    AnswerWatched(cs, trace[..j]);
    var w := WatchAll(cs, trace[..j]);
    RouteEndingAllowed(cs, w, trace[j]);
    if w.last.Some? {
      RouteBlame(w.last.value);
    }
  }

  /** Whether the target has failed by this answer. */
  predicate ChargesTarget(a: Answer) {
    match a
    case Buffered(r, _) => CountsAgainst(r.failure, r.status)
    case Streamed(r) => CountsAgainst(r.cause, r.statusCode)
  }

  /** What a visit tells the target: a delivered answer is a success; a final answer or the last of the
      failed calls is a failure when it counts against the target; calls cut short by the cap or the
      budget are a failure in any case; and nothing is told when the client has left, when only the
      conversion failed, or when there was no call. */
  lemma RecordExactly<X>(world: World<X>, c: nat, candidate: Candidate, f: Fate, mayStop: bool)
    requires Justified(world, c, candidate, f, mayStop)
    ensures f.answers == [] ==> RecordOf(f) == None
    ensures f.answers != [] ==>
      var last := f.answers[|f.answers| - 1];
      RecordOf(f) == match f.reason {
        case Ended => if KindOf(last) == Delivered then Some(true) else if EndsCharged(last) then Some(false) else None
        case Stopped => Some(false)
        case OutOfRetries => if ChargesTarget(last) then Some(false) else None
        case BreakerOpened => if ChargesTarget(last) then Some(false) else None
        case _ => None
      }
  {
    hide LetIn;
  }

  /** A final answer that counts against the target. */
  predicate EndsCharged(a: Answer) {
    match a
    case Buffered(r, _) => r.failure == NoFailure && FinalStatus(r.status)
    case Streamed(r) => r.status == STruncated || (r.status == SNonRetryable && CountsAgainst(r.cause, r.statusCode))
  }

  // --- The error that is written ---

  /** All answers, candidate by candidate. */
  function AllAnswers(fates: seq<Fate>): seq<Answer> {
    if fates == [] then [] else AllAnswers(fates[..|fates| - 1]) + fates[|fates| - 1].answers
  }

  lemma {:induction false} LastNotedOf(before: int, a: seq<Answer>, b: seq<Answer>)
    ensures LastNoted(before, a + b) == LastNoted(LastNoted(before, a), b)
    decreases |b|
  {
    hide Noted;
    if b == [] {
      assert a + b == a;
    } else {
      assert (a + b)[..|a + b| - 1] == a + b[..|b| - 1];
      LastNotedOf(before, a, b[..|b| - 1]);
    }
  }

  /** Unless the cap or the budget stopped the walk, the status that counts is that of the last error
      among all answers. */
  lemma {:induction false} LastErrorCounts(fates: seq<Fate>)
    requires forall c :: 0 <= c < |fates| ==> fates[c].reason != Stopped
    ensures LastStatus(fates) == LastNoted(0, AllAnswers(fates))
    decreases |fates|
  {
    hide LastNoted;
    if fates != [] {
      LastErrorCounts(fates[..|fates| - 1]);
      LastNotedOf(0, AllAnswers(fates[..|fates| - 1]), fates[|fates| - 1].answers);
    } else {
      NothingNoted();
    }
  }

  lemma NothingNoted()
    ensures LastNoted(0, []) == 0
  {
  }

  /** The status an error leaves: its own, 502 when nothing was written, 0 for a stream that failed
      without an error status. */
  lemma NotedExactly(r: Response, convert: bool)
    ensures Noted(Buffered(r, convert)) == if !PassingError(r) then None else if r.failure != NoFailure && !r.wrote then Some(502) else Some(r.status)
  {
  }

  /** The error written when nothing was delivered: the last status if it is a 4xx; 503 when it is a 5xx
      that was not followed by a buffered response lost in conversion, when no target let the request in,
      or when a route was closed and no status is known; and 502 otherwise. */
  lemma ErrorExactly(fates: seq<Fate>, buffered: bool, chained: bool)
    ensures var status, last := StatusOfError(fates, buffered, chained), LastStatus(fates);
            var lost := buffered && fates != [] && fates[|fates| - 1].reason == Lost;
            var unavailable := (last >= 500 && !lost) || (chained && OnlyTargetsClosed(fates)) || (last == 0 && AnyRouteClosed(fates));
            && (400 <= last < 500 <==> status == last && 400 <= status < 500)
            && (status == 503 <==> !(400 <= last < 500) && unavailable)
            && (status == 502 <==> !(400 <= last < 500) && !unavailable)
  {
  }
}
