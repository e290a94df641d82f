/** The recent attempts of every route mode: a bounded number of keys, a bounded number of attempts
    for each, and a time horizon. */
module RouteWindows {
  import opened Wrappers

  const SAMPLES := 64
  const HORIZON := 600_000

  datatype Class = NoClass | Status429 | Status5xx | Transport | ClientAbort | Truncated | Downstream | ConversionLocal

  datatype Attempt = Attempt(success: bool, class_: Class, firstByteMs: int, ttftMs: int)

  datatype Sample = Sample(at: int, attempt: Attempt)

  datatype Key = Key(target: string, inbound: string, upstream: string)

  datatype Route = Route(samples: seq<Sample>, lastIngest: int)

  // --- Order of keys ---

  /** Strings by their characters, a prefix first. */
  predicate Before(a: string, b: string) {
    b != "" && (a == "" || a[0] < b[0] || (a[0] == b[0] && Before(a[1..], b[1..])))
  }

  predicate KeyBefore(a: Key, b: Key) {
    if a.target != b.target then Before(a.target, b.target)
    else if a.inbound != b.inbound then Before(a.inbound, b.inbound)
    else Before(a.upstream, b.upstream)
  }

  lemma {:induction false} BeforeIsTotal(a: string, b: string)
    ensures Before(a, b) || a == b || Before(b, a)
    ensures !(Before(a, b) && Before(b, a)) && !Before(a, a)
  {
    if a != "" {
      if b != "" && a[0] == b[0] {
        BeforeIsTotal(a[1..], b[1..]);
        assert a == [a[0]] + a[1..] && b == [b[0]] + b[1..];
      }
      BeforeIsTotal(a[1..], a[1..]);
    }
  }

  lemma {:induction false} BeforeIsTransitive(a: string, b: string, c: string)
    requires Before(a, b) && Before(b, c)
    ensures Before(a, c)
  {
    if a != "" && a[0] == b[0] == c[0] {
      BeforeIsTransitive(a[1..], b[1..], c[1..]);
    }
  }

  // --- What a window shows ---

  /** The last 64 of the samples ever taken. */
  function LastOnes(history: seq<Sample>): seq<Sample> {
    if |history| <= SAMPLES then history else history[|history| - SAMPLES..]
  }

  /** The samples not before `cutoff`. */
  function Since(samples: seq<Sample>, cutoff: int): seq<Sample> {
    if samples == [] then []
    else
      var s := samples[|samples| - 1];
      Since(samples[..|samples| - 1], cutoff) + if s.at >= cutoff then [s] else []
  }

  datatype Totals = Totals(attempts: nat, successes: nat, failures: nat, status429: nat, status5xx: nat, transport: nat, truncated: nat,
                           conversionLocal: nat, clientAborts: nat, downstream: nat, firstBytes: seq<int>, ttfts: seq<int>,
                           lastUsed: int, lastSuccess: int, lastFailure: int)

  const NO_TOTALS := Totals(0, 0, 0, 0, 0, 0, 0, 0, 0, 0, [], [], 0, 0, 0)

  function One(c: Class, d: Class): nat {
    if c == d then 1 else 0
  }

  /** Every failure but the client's own leaves. */
  predicate CountsAsFailed(c: Class) {
    c != NoClass && c != ClientAbort
  }

  function Later(a: int, b: int): int {
    if a < b then b else a
  }

  function Add(t: Totals, s: Sample): Totals {
    var a := s.attempt;
    Totals(t.attempts + 1, t.successes + (if a.success then 1 else 0),
           t.failures + (if a.class_ in {Status5xx, Transport, Truncated, ConversionLocal} then 1 else 0),
           t.status429 + One(a.class_, Status429), t.status5xx + One(a.class_, Status5xx), t.transport + One(a.class_, Transport),
           t.truncated + One(a.class_, Truncated), t.conversionLocal + One(a.class_, ConversionLocal),
           t.clientAborts + One(a.class_, ClientAbort), t.downstream + One(a.class_, Downstream),
           t.firstBytes + (if a.firstByteMs > 0 then [a.firstByteMs] else []), t.ttfts + (if a.ttftMs > 0 then [a.ttftMs] else []),
           Later(t.lastUsed, s.at), if a.success then Later(t.lastSuccess, s.at) else t.lastSuccess,
           if CountsAsFailed(a.class_) then Later(t.lastFailure, s.at) else t.lastFailure)
  }

  function Total(samples: seq<Sample>): Totals {
    if samples == [] then NO_TOTALS else Add(Total(samples[..|samples| - 1]), samples[|samples| - 1])
  }

  /** Failures are exactly the attempts that failed with a server error, in transport, truncated or in
      conversion. */
  lemma {:induction false} FailuresAreTheFour(samples: seq<Sample>)
    ensures var t := Total(samples); t.failures == t.status5xx + t.transport + t.truncated + t.conversionLocal && t.attempts == |samples|
  {
    if samples != [] {
      FailuresAreTheFour(samples[..|samples| - 1]);
    }
  }

  // --- What the counters count ---

  /** How many of the samples are of a kind. */
  function HowMany(samples: seq<Sample>, kind: Sample -> bool): (n: nat)
    ensures n <= |samples|
  {
    if samples == [] then 0
    else HowMany(samples[..|samples| - 1], kind) + if kind(samples[|samples| - 1]) then 1 else 0
  }

  /** The positive values of the samples, in their order. */
  function Positive(samples: seq<Sample>, value: Attempt -> int): seq<int> {
    if samples == [] then []
    else
      var x := value(samples[|samples| - 1].attempt);
      Positive(samples[..|samples| - 1], value) + if x > 0 then [x] else []
  }

  function Classed(c: Class): Sample -> bool {
    (s: Sample) => s.attempt.class_ == c
  }

  /** Each counter is the number of samples of its kind, and the times to the first byte and to the first
      token are those of the samples that have one, in order. */
  lemma {:induction false} CountersCount(samples: seq<Sample>)
    ensures var t := Total(samples);
            && t.attempts == |samples| && t.successes == HowMany(samples, (s: Sample) => s.attempt.success)
            && t.status429 == HowMany(samples, Classed(Status429)) && t.status5xx == HowMany(samples, Classed(Status5xx))
            && t.transport == HowMany(samples, Classed(Transport)) && t.truncated == HowMany(samples, Classed(Truncated))
            && t.conversionLocal == HowMany(samples, Classed(ConversionLocal)) && t.clientAborts == HowMany(samples, Classed(ClientAbort))
            && t.downstream == HowMany(samples, Classed(Downstream))
            && t.firstBytes == Positive(samples, (a: Attempt) => a.firstByteMs) && t.ttfts == Positive(samples, (a: Attempt) => a.ttftMs)
  {
    if samples != [] {
      CountersCount(samples[..|samples| - 1]);
    }
  }

  /** `time` is the latest of the samples that are of a kind, and the zero time when there is none. */
  ghost predicate IsLatest(samples: seq<Sample>, kind: Sample -> bool, time: int) {
    && (forall s :: s in samples && kind(s) ==> s.at <= time)
    && (time == 0 || exists s :: s in samples && kind(s) && s.at == time)
  }

  lemma NothingIsLatest(kind: Sample -> bool)
    ensures IsLatest([], kind, 0)
  {
  }

  lemma AddedTimes(t: Totals, s: Sample)
    ensures var u := Add(t, s);
            && u.lastUsed == Later(t.lastUsed, s.at)
            && u.lastSuccess == (if s.attempt.success then Later(t.lastSuccess, s.at) else t.lastSuccess)
            && u.lastFailure == (if CountsAsFailed(s.attempt.class_) then Later(t.lastFailure, s.at) else t.lastFailure)
  {
  }

  /** The times of the totals are the latest of all samples, of the successes, and of the failures
      that are not the client's own. */
  lemma {:induction false} TimesAreLatest(samples: seq<Sample>)
    requires forall s :: s in samples ==> s.at > 0
    ensures var t := Total(samples);
            && IsLatest(samples, s => true, t.lastUsed) && IsLatest(samples, (s: Sample) => s.attempt.success, t.lastSuccess)
            && IsLatest(samples, (s: Sample) => CountsAsFailed(s.attempt.class_), t.lastFailure)
  {
    hide IsLatest, Add, CountsAsFailed;
    if samples == [] {
      NothingIsLatest(s => true);
      NothingIsLatest((s: Sample) => s.attempt.success);
      NothingIsLatest((s: Sample) => CountsAsFailed(s.attempt.class_));
    } else {
      var init, last := samples[..|samples| - 1], samples[|samples| - 1];
      assert last in samples && forall s :: s in init ==> s in samples;
      TimesAreLatest(init);
      var t := Total(init);
      AddedTimes(t, last);
      OneMoreLatest(init, last, s => true, t.lastUsed);
      OneMoreLatest(init, last, (s: Sample) => s.attempt.success, t.lastSuccess);
      OneMoreLatest(init, last, (s: Sample) => CountsAsFailed(s.attempt.class_), t.lastFailure);
      assert init + [last] == samples;
    }
  }

  lemma OneMoreLatest(samples: seq<Sample>, last: Sample, kind: Sample -> bool, time: int)
    requires IsLatest(samples, kind, time) && last.at > 0
    ensures IsLatest(samples + [last], kind, if kind(last) then Later(time, last.at) else time)
  {
    assert last in samples + [last];
    if time != 0 && exists s :: s in samples && kind(s) && s.at == time {
      var s :| s in samples && kind(s) && s.at == time;
      assert s in samples + [last];
    }
  }

  // --- A window as part of its history ---

  predicate Ordered(history: seq<Sample>) {
    forall i, j :: 0 <= i < j < |history| ==> history[i].at <= history[j].at
  }

  /** The samples kept are the history without its first `n`, and those are too many or too old. */
  predicate Window(samples: seq<Sample>, history: seq<Sample>, n: nat, asOf: int) {
    && n <= |history| && samples == history[n..] && |samples| <= SAMPLES && Ordered(history)
    && (forall i :: 0 <= i < |history| ==> history[i].at <= asOf)
    && (forall i :: 0 <= i < n ==> i < |history| - SAMPLES || history[i].at < asOf - HORIZON)
  }

  lemma {:induction false} SinceAppend(a: seq<Sample>, b: seq<Sample>, cutoff: int)
    ensures Since(a + b, cutoff) == Since(a, cutoff) + Since(b, cutoff)
  {
    if b == [] {
      assert a + b == a;
    } else {
      assert (a + b)[..|a + b| - 1] == a + b[..|b| - 1];
      SinceAppend(a, b[..|b| - 1], cutoff);
    }
  }

  lemma {:induction false} SinceNone(samples: seq<Sample>, cutoff: int)
    requires forall i :: 0 <= i < |samples| ==> samples[i].at < cutoff
    ensures Since(samples, cutoff) == []
  {
    if samples != [] {
      SinceNone(samples[..|samples| - 1], cutoff);
    }
  }

  /** Samples in front that are too old show nothing. */
  lemma FrontIsOld(front: seq<Sample>, samples: seq<Sample>, cutoff: int)
    requires forall i :: 0 <= i < |front| ==> front[i].at < cutoff
    ensures Since(front + samples, cutoff) == Since(samples, cutoff)
  {
    hide Since;
    SinceAppend(front, samples, cutoff);
    SinceNone(front, cutoff);
    assert [] + Since(samples, cutoff) == Since(samples, cutoff);
  }

  /** What is recent in the window is what is recent among the last 64 ever taken. */
  lemma WindowShowsHistory(samples: seq<Sample>, history: seq<Sample>, n: nat, asOf: int, now: int)
    requires Window(samples, history, n, asOf) && asOf <= now
    ensures Since(samples, now - HORIZON) == Since(LastOnes(history), now - HORIZON)
  {
    hide Since;
    var m := if |history| <= SAMPLES then 0 else |history| - SAMPLES;
    assert LastOnes(history) == history[m..];
    assert history[m..] == history[m..n] + samples;
    forall i | 0 <= i < n - m ensures history[m..n][i].at < now - HORIZON {
      assert history[m..n][i] == history[m + i];
    }
    FrontIsOld(history[m..n], samples, now - HORIZON);
  }

  lemma WindowPruned(samples: seq<Sample>, history: seq<Sample>, n: nat, asOf: int, now: int, first: nat)
    requires Window(samples, history, n, asOf) && asOf <= now && first <= |samples|
    requires forall i :: 0 <= i < first ==> samples[i].at < now - HORIZON
    ensures Window(samples[first..], history, n + first, now)
  {
    assert forall i :: n <= i < n + first ==> history[i] == samples[i - n];
  }

  lemma WindowLater(samples: seq<Sample>, history: seq<Sample>, n: nat, asOf: int, now: int)
    requires Window(samples, history, n, asOf) && asOf <= now
    ensures Window(samples, history, n, now)
  {
  }

  /** Append one sample, dropping the oldest of a full window. */
  function Appended(samples: seq<Sample>, s: Sample): seq<Sample> {
    (if |samples| >= SAMPLES then samples[1..] else samples) + [s]
  }

  lemma WindowAppended(samples: seq<Sample>, history: seq<Sample>, n: nat, now: int, a: Attempt)
    requires Window(samples, history, n, now)
    ensures Window(Appended(samples, Sample(now, a)), history + [Sample(now, a)], if |samples| >= SAMPLES then n + 1 else n, now)
  {
    var more := history + [Sample(now, a)];
    if |samples| >= SAMPLES {
      assert more[n + 1..] == samples[1..] + [Sample(now, a)];
    } else {
      assert more[n..] == samples + [Sample(now, a)];
    }
  }

  // --- Which key is evicted ---

  lemma KeyBeforeIsTotal(a: Key, b: Key)
    ensures KeyBefore(a, b) || a == b || KeyBefore(b, a)
    ensures !(KeyBefore(a, b) && KeyBefore(b, a)) && !KeyBefore(a, a)
  {
    hide Before;
    BeforeIsTotal(a.target, b.target);
    BeforeIsTotal(a.inbound, b.inbound);
    BeforeIsTotal(a.upstream, b.upstream);
    BeforeIsTotal(a.upstream, a.upstream);
  }

  lemma KeyBeforeIsTransitive(a: Key, b: Key, c: Key)
    requires KeyBefore(a, b) && KeyBefore(b, c)
    ensures KeyBefore(a, c)
  {
    hide Before;
    if a.target != b.target && b.target != c.target {
      BeforeIsTransitive(a.target, b.target, c.target);
      BeforeIsTotal(a.target, b.target);
    } else if a.target == b.target == c.target {
      if a.inbound != b.inbound && b.inbound != c.inbound {
        BeforeIsTransitive(a.inbound, b.inbound, c.inbound);
        BeforeIsTotal(a.inbound, b.inbound);
      } else if a.inbound == b.inbound == c.inbound {
        BeforeIsTransitive(a.upstream, b.upstream, c.upstream);
      }
    }
  }

  /** Ingested longer ago, or at the same time with a smaller key. */
  predicate Older(routes: map<Key, Route>, a: Key, b: Key)
    requires a in routes && b in routes
  {
    routes[a].lastIngest < routes[b].lastIngest || (routes[a].lastIngest == routes[b].lastIngest && KeyBefore(a, b))
  }

  predicate Oldest(routes: map<Key, Route>, key: Key) {
    key in routes && forall k :: k in routes && k != key ==> Older(routes, key, k)
  }

  /** A key of `routes` that is gone, and older than each of those left. */
  predicate OldestBefore(routes: map<Key, Route>, key: Key, left: set<Key>) {
    key in routes && key !in left && forall k :: k in left ==> k in routes && Older(routes, key, k)
  }

  lemma OldestElsewhere(routes: map<Key, Route>, routes2: map<Key, Route>, key: Key, left: set<Key>)
    requires OldestBefore(routes, key, left) && forall k :: k in routes ==> k in routes2 && routes2[k].lastIngest == routes[k].lastIngest
    ensures OldestBefore(routes2, key, left)
  {
  }

  /** There is only one such key, so it does not depend on the order in which a map is walked. */
  lemma OldestIsUnique(routes: map<Key, Route>, a: Key, b: Key)
    requires Oldest(routes, a) && Oldest(routes, b)
    ensures a == b
  {
    KeyBeforeIsTotal(a, b);
  }

  method FindOldest(routes: map<Key, Route>) returns (key: Key)
    requires routes != map[] && forall k :: k in routes ==> routes[k].lastIngest > 0
    ensures Oldest(routes, key)
  {
    hide KeyBefore;
    var rest, oldest := routes.Keys, 0;
    key := Key("", "", "");
    ghost var done: set<Key> := {};
    assert rest != {} by {
      var k :| k in routes;
      assert k in rest;
    }
    while rest != {}
      invariant rest + done == routes.Keys && rest !! done
      invariant done == {} <==> oldest == 0
      invariant done != {} ==> key in done && oldest == routes[key].lastIngest && forall k :: k in done && k != key ==> Older(routes, key, k)
      decreases rest
    {
      var candidate :| candidate in rest;
      var at := routes[candidate].lastIngest;
      if done != {} {
        KeyBeforeIsTotal(candidate, key);
        forall k | k in done && k != key && KeyBefore(candidate, key) && KeyBefore(key, k) ensures KeyBefore(candidate, k) {
          KeyBeforeIsTransitive(candidate, key, k);
        }
      }
      if oldest == 0 || at < oldest || (at == oldest && KeyBefore(candidate, key)) {
        key, oldest := candidate, at;
      }
      rest, done := rest - {candidate}, done + {candidate};
    }
  }

  lemma {:induction false} SubsetIsSmaller(a: set<Key>, b: set<Key>)
    requires a <= b
    ensures |a| <= |b| && (a != b ==> |a| < |b|)
    decreases |a|
  {
    if a != {} {
      var x :| x in a;
      SubsetIsSmaller(a - {x}, b - {x});
      assert a == (a - {x}) + {x} && b == (b - {x}) + {x};
    } else if b != {} {
      var y :| y in b;
    }
  }

  lemma OneFewer(routes: map<Key, Route>, key: Key)
    requires Oldest(routes, key)
    ensures |routes - {key}| < |routes|
  {
    SubsetIsSmaller((routes - {key}).Keys, routes.Keys);
  }

  // --- The registry ---

  /** What was ever ingested for a key since it was last evicted, and how much of that was dropped. */
  datatype Past = Past(history: seq<Sample>, dropped: nat)

  function RouteAt(routes: map<Key, Route>, key: Key): Route {
    if key in routes then routes[key] else Route([], 0)
  }

  function PastAt(past: map<Key, Past>, key: Key): Past {
    if key in past then past[key] else Past([], 0)
  }

  ghost predicate KeyOk(routes: map<Key, Route>, past: map<Key, Past>, asOf: int, key: Key) {
    && Window(RouteAt(routes, key).samples, PastAt(past, key).history, PastAt(past, key).dropped, asOf)
    && (key in routes ==> routes[key].samples != [] && 0 < routes[key].lastIngest <= asOf)
  }

  ghost predicate AllOk(routes: map<Key, Route>, past: map<Key, Past>, asOf: int) {
    forall key :: KeyOk(routes, past, asOf, key)
  }

  /** What one key's snapshot has to show at `now`: the recent ones of its last 64 attempts. */
  function Recent(past: map<Key, Past>, key: Key, now: int): seq<Sample> {
    Since(LastOnes(PastAt(past, key).history), now - HORIZON)
  }

  lemma SameRoutes(routes: map<Key, Route>, was: map<Key, Route>)
    requires forall k :: k in routes ==> k in was && RouteAt(routes, k) == RouteAt(was, k)
    ensures forall k :: k in routes ==> routes[k] == was[k]
  {
    forall k | k in routes ensures routes[k] == was[k] {
      assert routes[k] == RouteAt(routes, k) == RouteAt(was, k);
    }
  }

  lemma LaterOk(routes: map<Key, Route>, past: map<Key, Past>, asOf: int, now: int)
    requires AllOk(routes, past, asOf) && asOf <= now
    ensures AllOk(routes, past, now)
  {
    hide Window;
    forall key ensures KeyOk(routes, past, now, key) {
      assert KeyOk(routes, past, asOf, key);
      WindowLater(RouteAt(routes, key).samples, PastAt(past, key).history, PastAt(past, key).dropped, asOf, now);
    }
  }

  lemma NewWindow(now: int)
    ensures Window([], [], 0, now)
  {
  }

  /** Changing one key leaves the others in order. */
  lemma OtherKeysOk(routes: map<Key, Route>, past: map<Key, Past>, now: int, key: Key, routes2: map<Key, Route>, past2: map<Key, Past>)
    requires AllOk(routes, past, now) && KeyOk(routes2, past2, now, key)
    requires forall k :: k != key ==> (k in routes2 <==> k in routes) && RouteAt(routes2, k) == RouteAt(routes, k) && PastAt(past2, k) == PastAt(past, k)
    ensures AllOk(routes2, past2, now)
  {
    hide Window;
    forall k ensures KeyOk(routes2, past2, now, k) {
      if k != key {
        assert KeyOk(routes, past, now, k);
      }
    }
  }

  lemma IngestedOnce(routes: map<Key, Route>, past: map<Key, Past>, now: int)
    requires AllOk(routes, past, now)
    ensures forall k :: k in routes ==> routes[k].lastIngest > 0
  {
    hide Window;
    assert forall k :: k in routes ==> KeyOk(routes, past, now, k);
  }

  lemma EvictedOk(routes: map<Key, Route>, past: map<Key, Past>, now: int, key: Key)
    requires AllOk(routes, past, now)
    ensures AllOk(routes - {key}, past - {key}, now)
  {
    hide Window;
    NewWindow(now);
    OtherKeysOk(routes, past, now, key, routes - {key}, past - {key});
  }

  class Registry {
    const capacity: nat
    var routes: map<Key, Route>
    var lastIngest: int
    ghost var past: map<Key, Past>
    /** The latest time at which anything was ingested or looked at. */
    ghost var asOf: int

    ghost predicate Valid()
      reads this
    {
      capacity > 0 && |routes| <= capacity && lastIngest <= asOf && AllOk(routes, past, asOf)
    }

    constructor (capacity: nat)
      requires capacity > 0
      ensures Valid() && this.capacity == capacity && routes == map[] && past == map[] && asOf == lastIngest == 0
    {
      this.capacity := capacity;
      routes, lastIngest, past, asOf := map[], 0, map[], 0;
    }

    /** Drop the leading samples of one key that are past the horizon, and the key when none is left. */
    method PruneKey(key: Key, now: int)
      requires Valid() && asOf <= now
      modifies this`routes, this`past, this`asOf
      ensures Valid() && asOf == now && routes.Keys <= old(routes.Keys)
      ensures key in routes ==> routes[key].lastIngest == old(routes)[key].lastIngest
      ensures forall k :: k != key ==> (k in routes <==> k in old(routes)) && RouteAt(routes, k) == RouteAt(old(routes), k)
      ensures forall k :: PastAt(past, k).history == PastAt(old(past), k).history
    {
      hide Window;
      LaterOk(routes, past, asOf, now);
      asOf := now;
      if key !in routes {
        return;
      }
      var a := routes[key];
      var first := 0;
      while first < |a.samples| && a.samples[first].at < now - HORIZON
        invariant first <= |a.samples|
        invariant forall i :: 0 <= i < first ==> a.samples[i].at < now - HORIZON
      {
        first := first + 1;
      }
      ghost var p := PastAt(past, key);
      assert KeyOk(routes, past, now, key);
      WindowPruned(a.samples, p.history, p.dropped, now, now, first);
      ghost var routes1, past1 := routes, past;
      past := past[key := Past(p.history, p.dropped + first)];
      if first == |a.samples| {
        routes := routes - {key};
        SubsetIsSmaller(routes.Keys, routes1.Keys);
        assert a.samples[first..] == [];
      } else if first > 0 {
        routes := routes[key := Route(a.samples[first..], a.lastIngest)];
        assert routes.Keys == routes1.Keys;
      } else {
        assert a.samples[0..] == a.samples;
      }
      OtherKeysOk(routes1, past1, now, key, routes, past);
    }

    method PruneAll(now: int)
      requires Valid() && asOf <= now
      modifies this`routes, this`past, this`asOf
      ensures Valid() && asOf == now && routes.Keys <= old(routes.Keys)
      ensures forall key :: key in routes ==> routes[key].lastIngest == old(routes)[key].lastIngest
      ensures forall k :: PastAt(past, k).history == PastAt(old(past), k).history
    {
      hide AllOk;
      LaterOk(routes, past, asOf, now);
      asOf := now;
      var rest := routes.Keys;
      while rest != {}
        invariant Valid() && asOf == now && routes.Keys <= old(routes.Keys)
        invariant forall key :: key in routes ==> routes[key].lastIngest == old(routes)[key].lastIngest
        invariant forall k :: PastAt(past, k).history == PastAt(old(past), k).history
        decreases rest
      {
        var key :| key in rest;
        PruneKey(key, now);
        rest := rest - {key};
      }
    }

    /** Forget the one key that was ingested longest ago, the smallest one among equals. */
    method EvictOldest() returns (key: Key)
      requires Valid() && routes != map[]
      modifies this`routes, this`past
      ensures Valid() && Oldest(old(routes), key) && routes == old(routes) - {key} && |routes| < |old(routes)|
      ensures past == old(past) - {key}
    {
      hide AllOk, KeyOk, Oldest, RouteAt, PastAt;
      IngestedOnce(routes, past, asOf);
      key := FindOldest(routes);
      OneFewer(routes, key);
      EvictedOk(routes, past, asOf, key);
      routes := routes - {key};
      past := past - {key};
    }

    /** Make room for a key that has no window. */
    method MakeRoom(key: Key, now: int) returns (evicted: Option<Key>)
      requires Valid() && asOf == now && key !in routes
      modifies this`routes, this`past, this`asOf
      ensures Valid() && asOf == now && key !in routes && |routes| < capacity && routes.Keys <= old(routes.Keys)
      ensures evicted.Some? ==> |old(routes)| == capacity && OldestBefore(old(routes), evicted.value, routes.Keys)
      ensures forall k :: PastAt(past, k).history == if evicted == Some(k) then [] else PastAt(old(past), k).history
    {
      hide AllOk;
      evicted := None;
      if |routes| >= capacity {
        PruneAll(now);
        if |routes| >= capacity {
          assert routes != map[];
          var oldest := EvictOldest();
          evicted := Some(oldest);
        }
      }
    }

    /** Ingest one attempt.  With a clock that has not moved back behind the last look, the attempt
        joins its key's history; a full registry forgets its oldest key first. */
    method Submit(key: Key, attempt: Attempt, clock: int) returns (evicted: Option<Key>)
      requires Valid() && clock > 0 && (asOf <= clock || asOf == lastIngest)
      modifies this
      ensures Valid() && key in routes
      ensures lastIngest == asOf == if clock < old(lastIngest) then old(lastIngest) else clock
      ensures evicted.Some? ==> |old(routes)| == capacity && key !in old(routes) && OldestBefore(old(routes), evicted.value, routes.Keys - {key})
      ensures PastAt(past, key).history == PastAt(old(past), key).history + [Sample(lastIngest, attempt)]
      ensures forall k :: k != key ==> PastAt(past, k).history == if evicted == Some(k) then [] else PastAt(old(past), k).history
    {
      hide Window, AllOk, Older, OldestBefore, RouteAt, KeyOk;
      var now := clock;
      if now < lastIngest {
        now := lastIngest;
      } else {
        LaterOk(routes, past, asOf, now);
        lastIngest, asOf := now, now;
      }
      evicted := None;
      PruneKey(key, now);
      if key !in routes {
        SubsetIsSmaller(routes.Keys, old(routes).Keys);
        ghost var pruned := routes;
        evicted := MakeRoom(key, now);
        if evicted.Some? {
          SameRoutes(pruned, old(routes));
          OldestElsewhere(pruned, old(routes), evicted.value, routes.Keys);
        }
      }
      Ingest(key, attempt, now);
    }

    /** Put the attempt at the end of the key's window. */
    method Ingest(key: Key, attempt: Attempt, now: int)
      requires Valid() && 0 < now == asOf == lastIngest && (key in routes || |routes| < capacity)
      modifies this`routes, this`past
      ensures Valid() && routes.Keys == old(routes.Keys) + {key}
      ensures PastAt(past, key).history == PastAt(old(past), key).history + [Sample(now, attempt)]
      ensures forall k :: k != key ==> PastAt(past, k) == PastAt(old(past), k)
    {
      hide Window;
      assert KeyOk(routes, past, now, key);
      var a := RouteAt(routes, key);
      ghost var p := PastAt(past, key);
      ghost var routes1, past1 := routes, past;
      WindowAppended(a.samples, p.history, p.dropped, now, attempt);
      routes := routes[key := Route(Appended(a.samples, Sample(now, attempt)), now)];
      past := past[key := Past(p.history + [Sample(now, attempt)], if |a.samples| >= SAMPLES then p.dropped + 1 else p.dropped)];
      assert routes.Keys == routes1.Keys + {key};
      OtherKeysOk(routes1, past1, now, key, routes, past);
    }

    /** The totals of a key: exactly those of the last 64 attempts of its history that are within the
        horizon. */
    method RouteSnapshot(key: Key, clock: int) returns (totals: Totals)
      requires Valid() && (asOf <= clock || asOf == lastIngest)
      modifies this`routes, this`past, this`asOf
      ensures Valid() && asOf == if clock < lastIngest then lastIngest else clock
      ensures forall k :: PastAt(past, k).history == PastAt(old(past), k).history
      ensures totals == Total(Recent(past, key, asOf))
    {
      hide Window, AllOk, Add, KeyOk, Since, Total, Recent;
      var now := if clock < lastIngest then lastIngest else clock;
      PruneKey(key, now);
      totals := Summarize(RouteAt(routes, key).samples, now - HORIZON);
      ShownIsRecent(routes, past, now, key);
    }
  }

  /** The loop over the samples of a window. */
  method Summarize(samples: seq<Sample>, cutoff: int) returns (totals: Totals)
    ensures totals == Total(Since(samples, cutoff))
  {
    hide Add, Since, Total;
    totals := NO_TOTALS;
    NothingSince(samples, cutoff);
    for n := 0 to |samples|
      invariant totals == Total(Since(samples[..n], cutoff))
    {
      SinceTurn(samples, n, cutoff);
      if samples[n].at >= cutoff {
        totals := Add(totals, samples[n]);
      }
    }
    assert samples[..|samples|] == samples;
  }

  lemma NothingSince(samples: seq<Sample>, cutoff: int)
    ensures Total(Since(samples[..0], cutoff)) == NO_TOTALS
  {
    assert samples[..0] == [];
  }

  /** One more sample in the totals. */
  lemma SinceTurn(samples: seq<Sample>, n: nat, cutoff: int)
    requires n < |samples|
    ensures var before := Total(Since(samples[..n], cutoff));
            Total(Since(samples[..n + 1], cutoff)) == if samples[n].at >= cutoff then Add(before, samples[n]) else before
  {
    hide Add;
    assert samples[..n + 1][..n] == samples[..n];
    var kept := Since(samples[..n], cutoff);
    if samples[n].at >= cutoff {
      assert (kept + [samples[n]])[..|kept|] == kept;
    } else {
      assert kept + [] == kept;
    }
  }

  lemma ShownIsRecent(routes: map<Key, Route>, past: map<Key, Past>, now: int, key: Key)
    requires AllOk(routes, past, now)
    ensures Since(RouteAt(routes, key).samples, now - HORIZON) == Recent(past, key, now)
  {
    hide Window;
    assert KeyOk(routes, past, now, key);
    WindowShowsHistory(RouteAt(routes, key).samples, PastAt(past, key).history, PastAt(past, key).dropped, now, now);
  }
}
