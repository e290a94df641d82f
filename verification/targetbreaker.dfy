/** The sliding window of failures of one model target. */
module TargetBreaker {

  /** The failures after `cutoff`. */
  function After(times: seq<int>, cutoff: int): seq<int> {
    if times == [] then []
    else After(times[..|times| - 1], cutoff) + if times[|times| - 1] > cutoff then [times[|times| - 1]] else []
  }

  predicate Ordered(times: seq<int>) {
    forall i, j :: 0 <= i < j < |times| ==> times[i] <= times[j]
  }

  lemma {:induction false} AfterAppend(a: seq<int>, b: seq<int>, cutoff: int)
    ensures After(a + b, cutoff) == After(a, cutoff) + After(b, cutoff)
  {
    if b == [] {
      assert a + b == a;
    } else {
      assert (a + b)[..|a + b| - 1] == a + b[..|b| - 1];
      AfterAppend(a, b[..|b| - 1], cutoff);
    }
  }

  lemma {:induction false} AfterNone(times: seq<int>, cutoff: int)
    requires forall i :: 0 <= i < |times| ==> times[i] <= cutoff
    ensures After(times, cutoff) == []
  {
    if times != [] {
      AfterNone(times[..|times| - 1], cutoff);
    }
  }

  lemma {:induction false} AfterAll(times: seq<int>, cutoff: int)
    requires forall i :: 0 <= i < |times| ==> times[i] > cutoff
    ensures After(times, cutoff) == times
  {
    if times != [] {
      AfterAll(times[..|times| - 1], cutoff);
    }
  }

  lemma AfterIsSuffix(times: seq<int>, k: nat, cutoff: int)
    requires k <= |times| && (forall i :: 0 <= i < k ==> times[i] <= cutoff) && forall i :: k <= i < |times| ==> times[i] > cutoff
    ensures After(times, cutoff) == times[k..]
  {
    hide After;
    AfterAppend(times[..k], times[k..], cutoff);
    AfterNone(times[..k], cutoff);
    AfterAll(times[k..], cutoff);
    assert times[..k] + times[k..] == times;
    assert [] + times[k..] == times[k..];
  }

  class Breaker {
    var failures: seq<int>
    var lastSuccess: int
    var lastFailure: int
    var lastReason: string
    /** Every failure ever recorded, how many of them were dropped, and the start of the window. */
    ghost var history: seq<int>
    ghost var dropped: nat
    ghost var start: int

    ghost predicate Valid()
      reads this
    {
      Ordered(history) && dropped <= |history| && failures == history[dropped..] && forall i :: 0 <= i < dropped ==> history[i] <= start
    }

    constructor (start: int)
      ensures Valid() && history == failures == [] && this.start == start
    {
      failures, history, dropped, this.start := [], [], 0, start;
      lastSuccess, lastFailure, lastReason := 0, 0, "";
    }

    method Prune(now: int, window: nat)
      requires Valid() && start <= now - window
      modifies this`failures, this`start, this`dropped
      ensures Valid() && start == now - window
      ensures failures == After(history, now - window)
    {
      hide After;
      var cutoff := now - window;
      var i := 0;
      while i < |failures| && failures[i] <= cutoff
        invariant 0 <= i <= |failures|
        invariant forall k :: dropped <= k < dropped + i ==> history[k] <= cutoff
      {
        i := i + 1;
      }
      assert failures[i..] == history[dropped + i..];
      failures, dropped, start := failures[i..], dropped + i, cutoff;
      AfterIsSuffix(history, dropped, cutoff);
    }

    /** As long as the start of the window never moves back, the target is admitted exactly when fewer
        than `threshold` of all failures ever recorded lie in the window. */
    method Allow(now: int, threshold: nat, window: nat) returns (ok: bool)
      requires Valid() && start <= now - window
      modifies this`failures, this`start, this`dropped
      ensures Valid() && start == now - window
      ensures ok <==> |After(history, now - window)| < threshold
    {
      Prune(now, window);
      ok := |failures| < threshold;
    }

    method RecordFailure(now: int, reason: string, window: nat)
      requires Valid() && start <= now - window && (forall i :: 0 <= i < |history| ==> history[i] <= now)
      modifies this`failures, this`start, this`dropped, this`lastFailure, this`lastReason, this`history
      ensures Valid() && history == old(history) + [now] && start == now - window
      ensures lastFailure == now && lastReason == reason
    {
      Prune(now, window);
      assert (history + [now])[dropped..] == history[dropped..] + [now];
      failures := failures + [now];
      history := history + [now];
      lastFailure, lastReason := now, reason;
    }

    /** A success changes nothing but its own time stamp: failures are forgotten with time only. */
    method RecordSuccess(now: int)
      modifies this`lastSuccess
      ensures lastSuccess == now
    {
      lastSuccess := now;
    }
  }

  /** Without more failures a target is admitted again once the window has passed the failure that
      is `threshold` from the end, and not before. */
  lemma AdmittedAgain(history: seq<int>, threshold: nat, cutoff: int)
    requires Ordered(history) && 0 < threshold <= |history|
    ensures |After(history, cutoff)| < threshold <==> history[|history| - threshold] <= cutoff
  {
    hide After;
    var k := |history| - threshold;
    assert history[..k] + history[k..] == history;
    AfterAppend(history[..k], history[k..], cutoff);
    if history[k] <= cutoff {
      AfterNone(history[..k], cutoff);
      assert [history[k]] + history[k + 1..] == history[k..];
      AfterAppend([history[k]], history[k + 1..], cutoff);
      AfterNone([history[k]], cutoff);
      AfterIsShorter(history[k + 1..], cutoff);
    } else {
      AfterAll(history[k..], cutoff);
    }
  }

  lemma {:induction false} AfterIsShorter(times: seq<int>, cutoff: int)
    ensures |After(times, cutoff)| <= |times|
  {
    if times != [] {
      AfterIsShorter(times[..|times| - 1], cutoff);
    }
  }
}
