/** How a streaming attempt ends, told from what is read, what the client's writer reports and what
    the converted bytes say; and the result each ending has.

    The definitions here look at an exchange alone, read by read; the gate's variables do not occur
    in them.  `TransferEnds` says that the gate does what they tell. */
module AttemptOutcomes {
  import opened Wrappers
  import opened Framing
  import opened Composition
  import opened UsageAccumulator
  import opened EventGate
  import opened Failover
  import opened StreamAttempt
  import opened GateSafety

  // --- The course of an exchange ---

  /** What the first read and `i` more reads convert to. */
  function PassedBy<S>(x: Exchange<S>, i: nat): Passed<S>
    requires x.Body? && i <= |x.body|
  {
    PassAll(x.source, Inputs(x.initial, x.body[..i]))
  }

  /** Read `i` gave bytes. */
  predicate GaveAt<S>(x: Exchange<S>, i: nat)
    requires x.Body? && i <= |x.body|
  {
    if i == 0 then PassedBy(x, 0).out != ""
    else x.body[i - 1].chunk != "" && |PassedBy(x, i).out| > |PassedBy(x, i - 1).out|
  }

  /** At read `i` the bytes so far may go to the client: at once without a gate, and otherwise when they
      open it or are converted and no events. */
  predicate ReleasedAt<S>(decode: Bytes -> Option<Facts>, x: Exchange<S>, i: nat)
    requires x.Body? && i <= |x.body|
  {
    var all := PassedBy(x, i).out;
    GaveAt(x, i) && (x.gated ==>
      (x.source.Converted? && !CouldBeEvents(all)) || (Meaningful(all) && Fed(decode, NEW_STATE, all).tally.producedOutput))
  }

  /** The client has been given bytes by read `i`. */
  ghost predicate SentBy<S>(decode: Bytes -> Option<Facts>, x: Exchange<S>, i: nat)
    requires x.Body? && i <= |x.body|
  {
    exists j: nat :: j <= i && ReleasedAt(decode, x, j)
  }

  datatype Ending = ConversionBroke | CloseBroke | WriterFailed(f: Failure) | StagedError | ReadBroke(f: Failure) | RanOut

  /** What stops the transfer at read `i`, if anything does. */
  ghost function StopAt<S>(decode: Bytes -> Option<Facts>, x: Exchange<S>, i: nat): Option<Ending>
    requires x.Body? && i <= |x.body|
  {
    var all := PassedBy(x, i).out;
    var end := if i == 0 then x.initialEnd else x.body[i - 1].end;
    if PassedBy(x, i).err.Some? then Some(ConversionBroke)
    else if GaveAt(x, i) && SentBy(decode, x, i) && x.down(i) != NoFailure then Some(WriterFailed(x.down(i)))
    else if GaveAt(x, i) && !SentBy(decode, x, i) && Meaningful(all) && Fed(decode, NEW_STATE, all).tally.errored then Some(StagedError)
    else if end.Broken? then Some(ReadBroke(end.f))
    else if i == |x.body| || (i > 0 && end.EndOfBody?) then Some(RanOut)
    else None
  }

  /** The read at which the transfer stops, from read `i` on. */
  ghost function LastRead<S>(decode: Bytes -> Option<Facts>, x: Exchange<S>, i: nat): (n: nat)
    requires x.Body? && i <= |x.body|
    ensures i <= n <= |x.body| && StopAt(decode, x, n).Some? && forall j: nat :: i <= j < n ==> StopAt(decode, x, j).None?
    decreases |x.body| - i
  {
    if StopAt(decode, x, i).Some? then i else LastRead(decode, x, i + 1)
  }

  /** How the exchange ends: a body that runs out closes the converter, which may fail. */
  ghost function EndingOf<S>(decode: Bytes -> Option<Facts>, x: Exchange<S>): Ending
    requires x.Body?
  {
    var n := LastRead(decode, x, 0);
    var end := StopAt(decode, x, n).value;
    var s := PassedBy(x, n).source;
    if end == RanOut && s.Converted? && s.bytes.close(s.state).err.Some? then CloseBroke else end
  }

  /** The bytes the client has been given, and those held back, when the exchange is over. */
  ghost function SentBytes<S>(decode: Bytes -> Option<Facts>, x: Exchange<S>): Bytes
    requires x.Body?
  {
    var n := LastRead(decode, x, 0);
    if SentBy(decode, x, n) then PassedBy(x, n).out else ""
  }

  ghost function HeldBytes<S>(decode: Bytes -> Option<Facts>, x: Exchange<S>): Bytes
    requires x.Body?
  {
    var n := LastRead(decode, x, 0);
    if SentBy(decode, x, n) then "" else PassedBy(x, n).out
  }

  // --- The gate follows ---

  /** The gate has converted `all`; `given` says that it went to the client. */
  ghost predicate Holding<S>(decode: Bytes -> Option<Facts>, gated: bool, g: Gate<S>, given: bool, all: Bytes) {
    if given then g.committed && !g.sseGate && g.sent == all && g.acc == Fed(decode, NEW_STATE, all) && g.pending == ""
    else !g.committed && g.sseGate == gated && g.sent == "" && g.acc == NEW_STATE && g.pending == all && (!gated ==> all == "")
  }

  /** Why a write with output `out` fails, if it does. */
  function WriteFailure(decode: Bytes -> Option<Facts>, given: bool, all: Bytes, out: Bytes, broke: bool, down: Failure): (Failure, Failure) {
    if broke then (OtherError, NoFailure)
    else if out == "" then (NoFailure, NoFailure)
    else if given then (down, NoFailure)
    else if Meaningful(all) && Fed(decode, NEW_STATE, all).tally.errored then (OtherError, OtherError)
    else (NoFailure, NoFailure)
  }

  lemma WrittenHolds<S>(decode: Bytes -> Option<Facts>, gated: bool, g: Gate<S>, given: bool, all: Bytes, input: Bytes, down: Failure)
    requires Holding(decode, gated, g, given, all) && Fine(g)
    ensures var p := Pass(g.source, input);
            var h := Written(decode, g, input, down);
            var more := all + p.out;
            var open := given || (p.out != "" && (gated ==> Released(decode, g.source, more)));
            && h.source == p.source && Holding(decode, gated, h, open, more) && h.conversionFailed == p.err.Some?
            && (h.writeErr, h.streamErr) == WriteFailure(decode, open, more, p.out, p.err.Some?, down)
  {
    hide Fed, Meaningful, Opens, CouldBeEvents;
    var p := Pass(g.source, input);
    assert all + "" == all && "" + (all + p.out) == all + p.out && "" + p.out == p.out;
    FedMore(decode, if given then all else "", if given then p.out else all + p.out);
  }

  lemma FirstPassed<S>(x: Exchange<S>)
    requires x.Body?
    ensures PassedBy(x, 0) == Pass(x.source, x.initial)
  {
    assert x.body[..0] == [];
    assert Inputs(x.initial, []) == [x.initial];
    PassSnoc(x.source, [], x.initial);
    assert [] + [x.initial] == [x.initial];
    var y := Pass(x.source, x.initial);
    assert "" + y.out == y.out;
  }

  lemma NextPassed<S>(x: Exchange<S>, i: nat)
    requires x.Body? && i < |x.body| && PassedBy(x, i).err.None?
    ensures var y := Pass(PassedBy(x, i).source, x.body[i].chunk);
            PassedBy(x, i + 1) == if x.body[i].chunk == "" then PassedBy(x, i)
                                  else Passed(y.source, PassedBy(x, i).out + y.out, y.err)
  {
    hide Pass;
    InputsMore(x.initial, x.body, i);
    var inputs := Inputs(x.initial, x.body[..i]);
    if x.body[i].chunk == "" {
      assert inputs + [] == inputs;
    } else {
      PassSnoc(x.source, inputs, x.body[i].chunk);
    }
  }

  lemma {:induction false} SourceStays<S>(s: Source<S>, inputs: seq<Bytes>)
    ensures PassAll(s, inputs).source.Converted? == s.Converted?
    decreases |inputs|
  {
    if inputs != [] {
      SourceStays(s, inputs[..|inputs| - 1]);
    }
  }

  lemma FirstSent<S>(decode: Bytes -> Option<Facts>, x: Exchange<S>)
    requires x.Body?
    ensures SentBy(decode, x, 0) <==> ReleasedAt(decode, x, 0)
  {
  }

  lemma NextSent<S>(decode: Bytes -> Option<Facts>, x: Exchange<S>, i: nat)
    requires x.Body? && i < |x.body|
    ensures SentBy(decode, x, i + 1) <==> SentBy(decode, x, i) || ReleasedAt(decode, x, i + 1)
  {
    hide ReleasedAt;
  }

  /** The failures of the gate when the transfer stops, or does not stop, as `stop` says. */
  function FailuresOf(stop: Option<Ending>): (bool, Failure, Failure) {
    match stop
    case None => (false, NoFailure, NoFailure)
    case Some(end) =>
      match end
      case ConversionBroke => (true, OtherError, NoFailure)
      case CloseBroke => (true, NoFailure, OtherError)
      case WriterFailed(f) => (false, f, NoFailure)
      case StagedError => (false, OtherError, OtherError)
      case ReadBroke(f) => (false, NoFailure, f)
      case RanOut => (false, NoFailure, NoFailure)
  }

  /** The gate after read `i`. */
  ghost predicate At<S>(decode: Bytes -> Option<Facts>, x: Exchange<S>, g: Gate<S>, i: nat)
    requires x.Body? && i <= |x.body|
  {
    && g.source == PassedBy(x, i).source && Holding(decode, x.gated, g, SentBy(decode, x, i), PassedBy(x, i).out)
    && (g.conversionFailed, g.writeErr, g.streamErr) == FailuresOf(StopAt(decode, x, i))
  }

  /** How one read ends, after the write of its bytes. */
  function AfterEnd<S>(g: Gate<S>, end: ReadEnd): Gate<S> {
    if g.writeErr == NoFailure && end.Broken? then g.(streamErr := end.f) else g
  }

  /** The gate after the write of read `i` has what `StopAt` tells. */
  lemma WriteIsAt<S>(decode: Bytes -> Option<Facts>, x: Exchange<S>, h: Gate<S>, i: nat, out: Bytes)
    requires x.Body? && i <= |x.body| && h.source == PassedBy(x, i).source
    requires Holding(decode, x.gated, h, SentBy(decode, x, i), PassedBy(x, i).out) && h.conversionFailed == PassedBy(x, i).err.Some?
    requires (out != "" <==> GaveAt(x, i))
    requires (h.writeErr, h.streamErr) == WriteFailure(decode, SentBy(decode, x, i), PassedBy(x, i).out, out, PassedBy(x, i).err.Some?, x.down(i))
    ensures At(decode, x, AfterEnd(h, if i == 0 then x.initialEnd else x.body[i - 1].end), i)
  {
    hide PassedBy, SentBy, GaveAt, Meaningful, Fed;
  }

  lemma FirstReadIsAt<S>(decode: Bytes -> Option<Facts>, x: Exchange<S>)
    requires x.Body?
    ensures At(decode, x, FirstRead(decode, Opening(x.source, x.gated), x.initial, x.initialEnd, x.down(0)), 0)
  {
    hide Written, Holding, WriteFailure, At, Released, Pass, StopAt;
    var g := Opening(x.source, x.gated);
    OpeningHolds(decode, x.source, x.gated);
    WrittenHolds(decode, x.gated, g, false, "", x.initial, x.down(0));
    FirstPassed(x);
    FirstSent(decode, x);
    var p := Pass(x.source, x.initial);
    assert "" + p.out == p.out;
    ReleasedSays(decode, x, 0, p.out);
    PassSilent(x.source, x.initial);
    WriteIsAt(decode, x, Written(decode, g, x.initial, x.down(0)), 0, p.out);
  }

  lemma OpeningHolds<S>(decode: Bytes -> Option<Facts>, source: Source<S>, gated: bool)
    ensures Holding(decode, gated, Opening(source, gated), false, "") && Fine(Opening(source, gated)) && Opening(source, gated).source == source
  {
  }

  lemma PassSilent<S>(s: Source<S>, input: Bytes)
    ensures Pass(s, input).err.Some? ==> Pass(s, input).out == ""
  {
  }

  lemma ReleasedSays<S>(decode: Bytes -> Option<Facts>, x: Exchange<S>, i: nat, out: Bytes)
    requires x.Body? && i <= |x.body| && (out != "" <==> GaveAt(x, i))
    ensures ReleasedAt(decode, x, i) <==> out != "" && (x.gated ==> Released(decode, x.source, PassedBy(x, i).out))
  {
    hide GaveAt, PassedBy, Fed, Meaningful, CouldBeEvents;
  }

  lemma LoudRead<S>(decode: Bytes -> Option<Facts>, x: Exchange<S>, g: Gate<S>, i: nat)
    requires x.Body? && i < |x.body| && x.body[i].chunk != "" && Fine(g) && g.source == PassedBy(x, i).source && PassedBy(x, i).err.None?
    requires Holding(decode, x.gated, g, SentBy(decode, x, i), PassedBy(x, i).out)
    ensures At(decode, x, AfterEnd(Written(decode, g, x.body[i].chunk, x.down(i + 1)), x.body[i].end), i + 1)
  {
    NextPassed(x, i);
    NextSent(decode, x, i);
    SourceStays(x.source, Inputs(x.initial, x.body[..i]));
    hide Written, Holding, WriteFailure, At, Released, Pass, StopAt, SentBy;
    var all := PassedBy(x, i).out;
    var p := Pass(g.source, x.body[i].chunk);
    assert |all + p.out| == |all| + |p.out|;
    WrittenHolds(decode, x.gated, g, SentBy(decode, x, i), all, x.body[i].chunk, x.down(i + 1));
    ReleasedSays(decode, x, i + 1, p.out);
    SameRelease(decode, x.source, g.source, all + p.out);
    WriteIsAt(decode, x, Written(decode, g, x.body[i].chunk, x.down(i + 1)), i + 1, p.out);
  }

  lemma NextReadIsAt<S>(decode: Bytes -> Option<Facts>, x: Exchange<S>, g: Gate<S>, i: nat)
    requires x.Body? && i < |x.body| && At(decode, x, g, i) && StopAt(decode, x, i).None?
    ensures var h := if x.body[i].chunk == "" then g else Written(decode, g, x.body[i].chunk, x.down(i + 1));
            At(decode, x, AfterEnd(h, x.body[i].end), i + 1)
  {
    NothingStopped(decode, x, g, i);
    NextPassed(x, i);
    hide Written, Holding, At, Pass, StopAt, SentBy, PassedBy, Fine, AfterEnd;
    if x.body[i].chunk == "" {
      QuietRead(decode, x, g, i);
    } else {
      LoudRead(decode, x, g, i);
    }
  }

  lemma SameRelease<S>(decode: Bytes -> Option<Facts>, s: Source<S>, t: Source<S>, all: Bytes)
    requires s.Converted? == t.Converted?
    ensures Released(decode, s, all) == Released(decode, t, all)
  {
    hide Opens, CouldBeEvents;
  }

  lemma NothingStopped<S>(decode: Bytes -> Option<Facts>, x: Exchange<S>, g: Gate<S>, i: nat)
    requires x.Body? && i <= |x.body| && At(decode, x, g, i) && StopAt(decode, x, i).None?
    ensures Fine(g) && PassedBy(x, i).err.None? && g.source == PassedBy(x, i).source && Holding(decode, x.gated, g, SentBy(decode, x, i), PassedBy(x, i).out)
  {
    hide PassedBy, SentBy, GaveAt, Meaningful, Fed, Holding;
  }

  /** A read without bytes. */
  lemma QuietRead<S>(decode: Bytes -> Option<Facts>, x: Exchange<S>, g: Gate<S>, i: nat)
    requires x.Body? && i < |x.body| && x.body[i].chunk == "" && Fine(g) && g.source == PassedBy(x, i).source
    requires Holding(decode, x.gated, g, SentBy(decode, x, i), PassedBy(x, i).out)
    requires PassedBy(x, i + 1) == PassedBy(x, i) && PassedBy(x, i).err.None?
    ensures At(decode, x, AfterEnd(g, x.body[i].end), i + 1)
  {
    assert !GaveAt(x, i + 1);
    NextSent(decode, x, i);
    assert !ReleasedAt(decode, x, i + 1);
    hide PassedBy, SentBy, GaveAt, ReleasedAt, Holding;
    WriteIsAt(decode, x, g, i + 1, "");
  }

  lemma {:induction false} ReceivedIsAt<S>(decode: Bytes -> Option<Facts>, x: Exchange<S>, g: Gate<S>, i: nat)
    requires x.Body? && i <= |x.body| && At(decode, x, g, i)
    requires StopAt(decode, x, i) == Some(RanOut) ==> i == |x.body|
    ensures At(decode, x, Received(decode, g, x.body, i, x.down), LastRead(decode, x, i))
    decreases |x.body| - i
  {
    hide Written;
    StopsOrGoesOn(decode, x, g, i);
    if StopAt(decode, x, i).None? {
      NextReadIsAt(decode, x, g, i);
      var h := if x.body[i].chunk == "" then g else Written(decode, g, x.body[i].chunk, x.down(i + 1));
      if x.body[i].chunk != "" {
        WrittenErrors(decode, g, x.body[i].chunk, x.down(i + 1));
      }
      ReadEndsIt(decode, x, h, i);
      hide At, StopAt;
      if h.writeErr == NoFailure && x.body[i].end.More? {
        ReceivedIsAt(decode, x, h, i + 1);
      }
    }
  }

  /** A gate with a failure is where the transfer stops. */
  lemma StopsOrGoesOn<S>(decode: Bytes -> Option<Facts>, x: Exchange<S>, g: Gate<S>, i: nat)
    requires x.Body? && i <= |x.body| && At(decode, x, g, i)
    ensures StopAt(decode, x, i).None? ==> i < |x.body| && Fine(g)
    ensures g.writeErr == NoFailure && g.streamErr == NoFailure <==> StopAt(decode, x, i).None? || StopAt(decode, x, i) == Some(RanOut)
  {
    hide PassedBy, SentBy, GaveAt, Meaningful, Fed, Holding;
  }

  /** After read `i + 1`: a failed write or an end stops it; otherwise it goes on, or the body is over. */
  lemma ReadEndsIt<S>(decode: Bytes -> Option<Facts>, x: Exchange<S>, h: Gate<S>, i: nat)
    requires x.Body? && i < |x.body| && At(decode, x, AfterEnd(h, x.body[i].end), i + 1) && (h.streamErr != NoFailure ==> h.writeErr != NoFailure)
    ensures h.writeErr != NoFailure || !x.body[i].end.More? ==> StopAt(decode, x, i + 1).Some?
    ensures h.writeErr == NoFailure && x.body[i].end.More? ==> AfterEnd(h, x.body[i].end) == h
    ensures h.writeErr == NoFailure && x.body[i].end.More? && StopAt(decode, x, i + 1) == Some(RanOut) ==> i + 1 == |x.body|
  {
    hide PassedBy, SentBy, GaveAt, Meaningful, Fed, Holding;
  }

  /** The gate at the end of an exchange is what the reads, the writer's failures and the converted
      bytes tell. */
  lemma TransferEnds<S(!new)>(decode: Bytes -> Option<Facts>, x: Exchange<S>)
    requires x.Body? && DeafOnceClosed(x.source)
    ensures var g := GateAfter(decode, x);
            && (g.conversionFailed, g.writeErr, g.streamErr) == FailuresOf(Some(EndingOf(decode, x)))
            && (g.committed <==> SentBy(decode, x, LastRead(decode, x, 0)))
            && g.sent == SentBytes(decode, x) && g.acc == Fed(decode, NEW_STATE, SentBytes(decode, x)) && g.pending == HeldBytes(decode, x)
  {
    hide Received, FirstRead, Fed, StopAt, SentBy, LastRead, PassedBy;
    var n := LastRead(decode, x, 0);
    FirstReadIsAt(decode, x);
    var g := FirstRead(decode, Opening(x.source, x.gated), x.initial, x.initialEnd, x.down(0));
    FirstGoesOn(decode, x);
    ReceivedIsAt(decode, x, g, 0);
    var k := Received(decode, g, x.body, 0, x.down);
    StopsOrGoesOn(decode, x, k, n);
    FedNothing(decode, NEW_STATE);
    AtSays(decode, x, k, n);
    if k.streamErr == NoFailure && k.writeErr == NoFailure && k.source.Converted? {
      SourceIsAlike(decode, x, n);
      ClosedSendsNothing(decode, x.source, k, x.down(|x.body| + 1));
      ClosedTells(decode, x.source, k, x.down(|x.body| + 1));
    }
  }

  lemma FirstGoesOn<S>(decode: Bytes -> Option<Facts>, x: Exchange<S>)
    requires x.Body?
    ensures StopAt(decode, x, 0) == Some(RanOut) ==> |x.body| == 0
  {
    hide PassedBy, SentBy, GaveAt, Meaningful, Fed;
  }

  lemma AtSays<S>(decode: Bytes -> Option<Facts>, x: Exchange<S>, g: Gate<S>, i: nat)
    requires x.Body? && i <= |x.body| && At(decode, x, g, i)
    ensures g.source == PassedBy(x, i).source && (g.conversionFailed, g.writeErr, g.streamErr) == FailuresOf(StopAt(decode, x, i))
    ensures g.committed <==> SentBy(decode, x, i)
    ensures g.sent == (if g.committed then PassedBy(x, i).out else "") && g.pending == (if g.committed then "" else PassedBy(x, i).out)
    ensures g.acc == (if g.committed then Fed(decode, NEW_STATE, g.sent) else NEW_STATE)
  {
    hide PassedBy, SentBy, StopAt, Fed;
  }

  lemma SourceIsAlike<S>(decode: Bytes -> Option<Facts>, x: Exchange<S>, n: nat)
    requires x.Body? && n <= |x.body|
    ensures Alike(x.source, PassedBy(x, n).source)
  {
    BytesStay(x.source, Inputs(x.initial, x.body[..n]));
  }

  lemma {:induction false} BytesStay<S>(s: Source<S>, inputs: seq<Bytes>)
    ensures Alike(s, PassAll(s, inputs).source)
    decreases |inputs|
  {
    if inputs != [] {
      BytesStay(s, inputs[..|inputs| - 1]);
    }
  }

  lemma ClosedTells<S(!new)>(decode: Bytes -> Option<Facts>, start: Source<S>, g: Gate<S>, down: Failure)
    requires DeafOnceClosed(start) && Alike(start, g.source) && g.source.Converted? && Fine(g)
    ensures var h := Closed(decode, g, down);
            var broke := g.source.bytes.close(g.source.state).err.Some?;
            h.conversionFailed == broke && h.streamErr == (if broke then OtherError else NoFailure) && h.writeErr == NoFailure
  {
    hide Forwarded;
    var x := g.source.bytes.close(g.source.state);
    if x.err.None? {
      assert start.bytes.write(x.state, x.out) == Composition.Call.Call(x.state, "", None);
    }
  }

  // --- The result ---

  lemma {:induction false} OutGrows<S>(x: Exchange<S>, i: nat, j: nat)
    requires x.Body? && i <= j <= |x.body|
    ensures |PassedBy(x, i).out| <= |PassedBy(x, j).out|
    decreases j
  {
    if i < j {
      OutGrows(x, i, j - 1);
      PassedGrows(x, j - 1);
    }
  }

  lemma PassedGrows<S>(x: Exchange<S>, i: nat)
    requires x.Body? && i < |x.body|
    ensures |PassedBy(x, i).out| <= |PassedBy(x, i + 1).out|
  {
    InputsMore(x.initial, x.body, i);
    var inputs := Inputs(x.initial, x.body[..i]);
    var chunk := x.body[i].chunk;
    if chunk == "" {
      assert inputs + [] == inputs;
    } else {
      assert (inputs + [chunk])[..|inputs|] == inputs;
    }
  }

  /** The response is committed exactly when the client has been given bytes. */
  lemma SentIsCommitted<S>(decode: Bytes -> Option<Facts>, x: Exchange<S>)
    requires x.Body?
    ensures SentBytes(decode, x) != "" <==> SentBy(decode, x, LastRead(decode, x, 0))
  {
    var n := LastRead(decode, x, 0);
    hide LastRead, PassedBy, Fed, Meaningful, CouldBeEvents;
    if SentBy(decode, x, n) {
      var j: nat :| j <= n && ReleasedAt(decode, x, j);
      assert GaveAt(x, j);
      OutGrows(x, j, n);
    }
  }

  predicate Disconnects(f: Failure) {
    f == Canceled || f == NetWrite
  }

  /** The body was read to its end, or to a failure that is not the client's leaving. */
  predicate UpstreamStopped(end: Ending) {
    end.RanOut? || (end.ReadBroke? && !Disconnects(end.f))
  }

  /** Every status of an attempt with a body, told from how it ended and from the bytes the client was
      given or that were held back. */
  lemma StatusExactly<S(!new)>(decode: Bytes -> Option<Facts>, x: Exchange<S>)
    requires x.Body? && DeafOnceClosed(x.source)
    ensures var r, end := ResultFor(decode, x), EndingOf(decode, x);
            var given, held := SentBytes(decode, x), HeldBytes(decode, x);
            var t, h := Fed(decode, NEW_STATE, given).tally, Fed(decode, NEW_STATE, held).tally;
            var broke, upright := end.ConversionBroke? || end.CloseBroke?, given != "" && !t.errored;
            var empty := (end.RanOut? || end.ReadBroke?) && Successful(t) && !t.producedOutput;
            var cut := t.errored || (UpstreamStopped(end) && !Successful(t));
            && (r.committed <==> given != "")
            && (r.status == SConversionError <==> broke && (given != "" || end.CloseBroke? || !h.errored))
            && (r.status == SRetryable <==> given == "" && !(broke && (end.CloseBroke? || !h.errored)))
            && (r.status == SDownstreamError <==> upright && end.WriterFailed? && !Disconnects(end.f))
            && (r.status == SClientAbort <==> upright && ((end.WriterFailed? && Disconnects(end.f)) || (end.ReadBroke? && Disconnects(end.f) && !Successful(t))))
            && (r.status == SSuccess <==> upright && (end.RanOut? || end.ReadBroke?) && Successful(t) && t.producedOutput)
            && (r.status == STruncated <==> given != "" && !broke && (cut || empty))
            && (r.partial <==> upright && empty)
  {
    var end := EndingOf(decode, x);
    TransferEnds(decode, x);
    SentIsCommitted(decode, x);
    EndingIsReal(decode, x);
    FedNothing(decode, NEW_STATE);
    hide SentBytes, HeldBytes, EndingOf, Fed, GateAfter, LastRead, SentBy, Successful;
    match end
    case ConversionBroke =>
    case CloseBroke =>
    case WriterFailed(f) =>
    case StagedError =>
    case ReadBroke(f) =>
    case RanOut =>
  }

  /** Failures are failures; only given bytes can fail to be written, and only held ones stop it for
      what they say. */
  lemma EndingIsReal<S>(decode: Bytes -> Option<Facts>, x: Exchange<S>)
    requires x.Body?
    ensures var end := EndingOf(decode, x);
            && (end.WriterFailed? ==> end.f != NoFailure && SentBy(decode, x, LastRead(decode, x, 0)))
            && (end.ReadBroke? ==> end.f != NoFailure)
            && (end.StagedError? ==> !SentBy(decode, x, LastRead(decode, x, 0)))
  {
    hide PassedBy, SentBy, GaveAt, Meaningful, Fed, LastRead;
  }

  /** The status code and the cause of the result. */
  lemma CauseExactly<S(!new)>(decode: Bytes -> Option<Facts>, x: Exchange<S>)
    requires x.Body? && DeafOnceClosed(x.source)
    ensures var r, end := ResultFor(decode, x), EndingOf(decode, x);
            var t, h := Fed(decode, NEW_STATE, SentBytes(decode, x)).tally, Fed(decode, NEW_STATE, HeldBytes(decode, x)).tally;
            && r.statusCode == (if r.status == SClientAbort && end.WriterFailed? then 499 else x.status)
            && (r.status in {SSuccess, SDownstreamError, SConversionError} ==> r.cause == NoFailure)
            && (r.status == SClientAbort ==> r.cause == if end.ReadBroke? then end.f else NoFailure)
            && (r.status == STruncated ==> r.cause == if t.errored then OtherError else if end.ReadBroke? && !Successful(t) then end.f else NoFailure)
            && (r.status == SRetryable ==>
                r.cause == if end.ReadBroke? then end.f
                           else if end.RanOut? && !h.errored && !(Successful(h) && !h.producedOutput) then Truncation
                           else OtherError)
  {
    var end := EndingOf(decode, x);
    TransferEnds(decode, x);
    SentIsCommitted(decode, x);
    EndingIsReal(decode, x);
    FedNothing(decode, NEW_STATE);
    hide SentBytes, HeldBytes, EndingOf, Fed, GateAfter, LastRead, SentBy, Successful;
    match end
    case ConversionBroke =>
    case CloseBroke =>
    case WriterFailed(f) =>
    case StagedError =>
    case ReadBroke(f) =>
    case RanOut =>
  }

  predicate FinalStatus(status: int) {
    status == 405 || status == 406 || status == 413 || status == 414 || status == 415 || status == 422 || status == 501
  }

  /** Every result of an exchange without a body. */
  lemma WithoutBodyExactly<S>(decode: Bytes -> Option<Facts>, x: Exchange<S>)
    requires !x.Body? && (x.ErrorStatus? ==> x.status >= 400)
    ensures var r := ResultFor(decode, x);
            && (r.status == SNonRetryable <==> x.ErrorStatus? && x.readFailure == NoFailure && FinalStatus(x.status))
            && (r.status == SClientAbort <==> (x.NoResponse? || x.NoBody?) && x.f == Canceled)
            && (r.status == SRetryable <==> r.status != SNonRetryable && r.status != SClientAbort)
            && (r.committed <==> r.status == SNonRetryable) && !r.partial
            && r.statusCode == (if x.ErrorStatus? then x.status else if x.NoResponse? && x.f == Canceled then 499 else 0)
            && r.cause == (if x.NoResponse? || x.NoBody? then x.f else if x.ErrorStatus? then x.readFailure else NoFailure)
  {
  }
}
