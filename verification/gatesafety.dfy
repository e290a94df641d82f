/** What the gate of a streaming attempt guarantees, over whole transfers. */
module GateSafety {
  import opened Wrappers
  import opened Framing
  import opened UsageAccumulator
  import opened EventGate
  import opened Failover
  import opened StreamAttempt

  /** Every output of the converter begins like an event. */
  ghost predicate SpeaksEvents<S(!new)>(s: Source<S>) {
    s.Converted? ==> forall st, p :: var x := s.bytes.write(st, p); x.out == "" || StartsEvent(x.out)
  }

  /** A closed converter takes writes without error and gives nothing for them. */
  ghost predicate DeafOnceClosed<S(!new)>(s: Source<S>) {
    s.Converted? ==>
      forall st, p :: var x := s.bytes.close(st); x.err.None? ==> s.bytes.write(x.state, p) == Composition.Call.Call(x.state, "", None)
  }

  /** The bytes handed to the source: the first read, and every later one that gave some. */
  function Inputs(initial: Bytes, body: seq<BodyRead>): seq<Bytes> {
    if body == [] then [initial]
    else Inputs(initial, body[..|body| - 1]) + if body[|body| - 1].chunk == "" then [] else [body[|body| - 1].chunk]
  }

  ghost predicate Alike<S>(start: Source<S>, s: Source<S>) {
    if start.Native? then s.Native? else s.Converted? && s.bytes == start.bytes
  }

  /** What was sent is nothing, or everything converted so far; until then that is staged; and behind
      the gate it is sent exactly when it opens the gate, unless it is no event. */
  ghost predicate Kept<S(!new)>(decode: Bytes -> Option<Facts>, start: Source<S>, gated: bool, g: Gate<S>, all: Bytes) {
    && Alike(start, g.source)
    && (if g.committed then g.sent == all && !g.sseGate else g.sent == "" && (if g.sseGate then g.pending == all else all == ""))
    && g.acc == Fed(decode, NEW_STATE, g.sent)
    && (gated && !g.committed ==> g.sseGate) && (g.sseGate ==> gated && !Opens(decode, g.pending))
    && (gated && SpeaksEvents(start) ==> (if g.committed then Opens(decode, g.sent) else start.Native? || all == "" || StartsEvent(all)))
  }

  lemma OpensMore(decode: Bytes -> Option<Facts>, staged: Bytes, more: Bytes)
    requires Opens(decode, staged)
    ensures Opens(decode, staged + more)
  {
    hide Fed, Meaningful;
    MeaningfulStays(staged, more);
    NewIsBetween();
    FedTwice(decode, NEW_STATE, staged, more);
    OutputStays(decode, Fed(decode, NEW_STATE, staged), more);
  }

  lemma FedMore(decode: Bytes -> Option<Facts>, sent: Bytes, out: Bytes)
    ensures Fed(decode, Fed(decode, NEW_STATE, sent), out) == Fed(decode, NEW_STATE, sent + out)
    ensures Fed(decode, NEW_STATE, "") == NEW_STATE
  {
    NewIsBetween();
    FedTwice(decode, NEW_STATE, sent, out);
    FedNothing(decode, NEW_STATE);
  }

  lemma ReleaseIsEarned<S>(source: Source<S>, decode: Bytes -> Option<Facts>, pending: Bytes, out: Bytes)
    requires source.Native? || ((pending == "" || StartsEvent(pending)) && StartsEvent(out))
    ensures source.Native? || StartsEvent(pending + out)
    ensures Released(decode, source, pending + out) ==> Opens(decode, pending + out)
  {
    hide Opens, CouldBeEvents, StartsEvent;
    if source.Converted? {
      if pending == "" {
        assert pending + out == out;
      } else {
        StartsEventOn(pending, out);
      }
      TaggedCouldBeEvents(pending + out);
    }
  }

  lemma SentKeeps<S(!new)>(decode: Bytes -> Option<Facts>, start: Source<S>, gated: bool, g: Gate<S>, all: Bytes, out: Bytes, down: Failure)
    requires Kept(decode, start, gated, g, all) && !g.sseGate
    ensures Kept(decode, start, gated, Sent(decode, g, out, down), all + out)
  {
    hide Fed, Opens, SpeaksEvents, StartsEvent;
    FedMore(decode, g.sent, out);
    assert "" + out == out;
    if g.committed && gated && SpeaksEvents(start) {
      OpensMore(decode, g.sent, out);
    }
  }

  lemma StagedKeeps<S(!new)>(decode: Bytes -> Option<Facts>, start: Source<S>, gated: bool, g: Gate<S>, all: Bytes, out: Bytes, down: Failure)
    requires Kept(decode, start, gated, g, all) && g.sseGate && out != ""
    requires SpeaksEvents(start) && start.Converted? ==> StartsEvent(out)
    ensures Kept(decode, start, gated, Forwarded(decode, g, out, down), all + out)
  {
    hide Fed, Opens, Meaningful, SpeaksEvents, StartsEvent, CouldBeEvents;
    FedMore(decode, "", g.pending + out);
    assert "" + (g.pending + out) == g.pending + out;
    if SpeaksEvents(start) {
      ReleaseIsEarned(g.source, decode, g.pending, out);
    }
  }

  lemma WrittenKeeps<S(!new)>(decode: Bytes -> Option<Facts>, start: Source<S>, gated: bool, g: Gate<S>, all: Bytes, input: Bytes, down: Failure)
    requires Kept(decode, start, gated, g, all) && Fine(g)
    ensures Kept(decode, start, gated, Written(decode, g, input, down), all + Pass(g.source, input).out)
  {
    hide Fed, Opens, StartsEvent, Forwarded, Sent;
    var x := Pass(g.source, input);
    var h := g.(source := x.source);
    assert all + "" == all;
    assert Kept(decode, start, gated, h, all);
    if x.err.None? && x.out != "" {
      if g.sseGate {
        SpokenStart(start, g.source, input);
        StagedKeeps(decode, start, gated, h, all, x.out, down);
      } else {
        SentKeeps(decode, start, gated, h, all, x.out, down);
        assert Forwarded(decode, h, x.out, down) == Sent(decode, h, x.out, down) by {
          UngatedIsSent(decode, h, x.out, down);
        }
      }
    }
  }

  lemma UngatedIsSent<S>(decode: Bytes -> Option<Facts>, g: Gate<S>, out: Bytes, down: Failure)
    requires !g.sseGate
    ensures Forwarded(decode, g, out, down) == Sent(decode, g, out, down)
  {
  }

  lemma SpokenStart<S(!new)>(start: Source<S>, source: Source<S>, input: Bytes)
    requires Alike(start, source)
    ensures SpeaksEvents(start) && start.Converted? && Pass(source, input).out != "" ==> StartsEvent(Pass(source, input).out)
  {
  }

  /** The source has passed on exactly `inputs`. */
  ghost predicate Ok<S(!new)>(decode: Bytes -> Option<Facts>, start: Source<S>, gated: bool, g: Gate<S>, inputs: seq<Bytes>) {
    var x := PassAll(start, inputs);
    x.source == g.source && x.err.Some? == g.conversionFailed && Kept(decode, start, gated, g, x.out)
  }

  lemma WrittenErrors<S>(decode: Bytes -> Option<Facts>, g: Gate<S>, input: Bytes, down: Failure)
    requires Fine(g)
    ensures var x := Pass(g.source, input);
            var h := Written(decode, g, input, down);
            && h.source == x.source && h.conversionFailed == x.err.Some?
            && (h.conversionFailed ==> h.writeErr != NoFailure) && (h.streamErr != NoFailure ==> h.writeErr != NoFailure)
  {
    hide Released, Meaningful, Fed;
  }

  lemma WrittenOk<S(!new)>(decode: Bytes -> Option<Facts>, start: Source<S>, gated: bool, g: Gate<S>, inputs: seq<Bytes>, input: Bytes, down: Failure)
    requires Ok(decode, start, gated, g, inputs) && Fine(g)
    ensures var h := Written(decode, g, input, down);
            && Ok(decode, start, gated, h, inputs + [input]) && (h.conversionFailed ==> h.writeErr != NoFailure)
            && (h.streamErr != NoFailure ==> h.writeErr != NoFailure)
  {
    hide Kept, Written, Pass;
    PassSnoc(start, inputs, input);
    WrittenErrors(decode, g, input, down);
    WrittenKeeps(decode, start, gated, g, PassAll(start, inputs).out, input, down);
  }

  lemma ErrorKeeps<S(!new)>(decode: Bytes -> Option<Facts>, start: Source<S>, gated: bool, g: Gate<S>, inputs: seq<Bytes>, f: Failure)
    requires Ok(decode, start, gated, g, inputs)
    ensures Ok(decode, start, gated, g.(streamErr := f), inputs)
  {
  }

  predicate Sound<S>(g: Gate<S>) {
    g.conversionFailed ==> g.writeErr != NoFailure || g.streamErr != NoFailure
  }

  lemma InputsMore(initial: Bytes, body: seq<BodyRead>, i: nat)
    requires i < |body|
    ensures Inputs(initial, body[..i + 1]) == Inputs(initial, body[..i]) + if body[i].chunk == "" then [] else [body[i].chunk]
  {
    assert body[..i + 1][..i] == body[..i];
  }

  /** The effect of the chunk of one read. */
  function Chunked<S>(decode: Bytes -> Option<Facts>, g: Gate<S>, chunk: Bytes, down: Failure): Gate<S> {
    if chunk == "" then g else Written(decode, g, chunk, down)
  }

  lemma ChunkOk<S(!new)>(decode: Bytes -> Option<Facts>, start: Source<S>, gated: bool, g: Gate<S>, initial: Bytes, body: seq<BodyRead>, i: nat, down: Failure)
    requires i < |body| && Sound(g) && g.streamErr == g.writeErr == NoFailure && Ok(decode, start, gated, g, Inputs(initial, body[..i]))
    ensures var h := Chunked(decode, g, body[i].chunk, down);
            Sound(h) && Ok(decode, start, gated, h, Inputs(initial, body[..i + 1])) && (h.writeErr == NoFailure ==> h.streamErr == NoFailure)
  {
    hide Ok, Written, Inputs;
    InputsMore(initial, body, i);
    if body[i].chunk == "" {
      assert Inputs(initial, body[..i]) + [] == Inputs(initial, body[..i]);
    } else {
      WrittenOk(decode, start, gated, g, Inputs(initial, body[..i]), body[i].chunk, down);
    }
  }

  lemma {:induction false} ReceivedOk<S(!new)>(decode: Bytes -> Option<Facts>, start: Source<S>, gated: bool, g: Gate<S>, initial: Bytes,
                                               body: seq<BodyRead>, i: nat, down: nat -> Failure) returns (n: nat)
    requires i <= |body| && Sound(g) && Ok(decode, start, gated, g, Inputs(initial, body[..i]))
    ensures var h := Received(decode, g, body, i, down);
            i <= n <= |body| && Sound(h) && Ok(decode, start, gated, h, Inputs(initial, body[..n]))
    decreases |body| - i
  {
    hide Ok, Written, Inputs;
    n := i;
    if i < |body| && g.streamErr == NoFailure && g.writeErr == NoFailure {
      n := i + 1;
      ChunkOk(decode, start, gated, g, initial, body, i, down(i + 1));
      var h := Chunked(decode, g, body[i].chunk, down(i + 1));
      if h.writeErr == NoFailure && body[i].end.More? {
        n := ReceivedOk(decode, start, gated, h, initial, body, i + 1, down);
      } else if h.writeErr == NoFailure && body[i].end.Broken? {
        ErrorKeeps(decode, start, gated, h, Inputs(initial, body[..n]), body[i].end.f);
      }
    }
  }

  /** Closing a converter that is deaf once closed sends nothing more. */
  lemma ClosedSendsNothing<S(!new)>(decode: Bytes -> Option<Facts>, start: Source<S>, g: Gate<S>, down: Failure)
    requires DeafOnceClosed(start) && Alike(start, g.source) && g.source.Converted? && Fine(g)
    ensures var h := Closed(decode, g, down);
            h.sent == g.sent && h.committed == g.committed && h.pending == g.pending && h.acc == g.acc && h.writeErr == NoFailure
  {
    hide Forwarded;
    var x := g.source.bytes.close(g.source.state);
    if x.err.None? {
      assert start.bytes.write(x.state, x.out) == Composition.Call.Call(x.state, "", None);
    }
  }

  lemma OpeningIsOk<S(!new)>(decode: Bytes -> Option<Facts>, start: Source<S>, gated: bool)
    ensures Ok(decode, start, gated, Opening(start, gated), [])
  {
    assert !Opens(decode, "") by {
      assert Events("") == [];
    }
  }

  /** The gate when the body has been read, before the converter is closed. */
  function BeforeClose<S>(decode: Bytes -> Option<Facts>, x: Exchange<S>): Gate<S>
    requires x.Body?
  {
    Received(decode, FirstRead(decode, Opening(x.source, x.gated), x.initial, x.initialEnd, x.down(0)), x.body, 0, x.down)
  }

  lemma BodyIsPassedOn<S(!new)>(decode: Bytes -> Option<Facts>, x: Exchange<S>) returns (n: nat)
    requires x.Body?
    ensures n <= |x.body| && Ok(decode, x.source, x.gated, BeforeClose(decode, x), Inputs(x.initial, x.body[..n])) && Sound(BeforeClose(decode, x))
  {
    hide Ok, Received, Written, Opens, Fed, SpeaksEvents;
    var g0 := Opening(x.source, x.gated);
    OpeningIsOk(decode, x.source, x.gated);
    WrittenOk(decode, x.source, x.gated, g0, [], x.initial, x.down(0));
    assert [] + [x.initial] == [x.initial] == Inputs(x.initial, x.body[..0]);
    var h := FirstRead(decode, g0, x.initial, x.initialEnd, x.down(0));
    if h.streamErr != NoFailure {
      ErrorKeeps(decode, x.source, x.gated, Written(decode, g0, x.initial, x.down(0)), [x.initial], h.streamErr);
    }
    n := ReceivedOk(decode, x.source, x.gated, h, x.initial, x.body, 0, x.down);
  }

  /** At the end of any transfer: what was sent is nothing, or exactly what the chunks read convert to,
      and the accumulator has read exactly that.  Behind the gate, unless a converter writes something
      that is no event, it was committed exactly when what was converted has a complete event with
      data and output. */
  lemma SentExactlyForOutput<S(!new)>(decode: Bytes -> Option<Facts>, x: Exchange<S>) returns (n: nat)
    requires x.Body? && DeafOnceClosed(x.source)
    ensures n <= |x.body|
    ensures var g := GateAfter(decode, x);
            var all := PassAll(x.source, Inputs(x.initial, x.body[..n])).out;
            && g.sent == (if g.committed then all else "") && g.acc == Fed(decode, NEW_STATE, g.sent)
            && (x.gated && SpeaksEvents(x.source) ==> (g.committed <==> Opens(decode, all)))
  {
    hide Ok, Received, Written, Opens, Fed, SpeaksEvents;
    n := BodyIsPassedOn(decode, x);
    var k := BeforeClose(decode, x);
    OkMeans(decode, x.source, x.gated, k, Inputs(x.initial, x.body[..n]));
    if k.streamErr == NoFailure && k.writeErr == NoFailure && k.source.Converted? {
      ClosedSendsNothing(decode, x.source, k, x.down(|x.body| + 1));
    }
  }

  lemma OkMeans<S(!new)>(decode: Bytes -> Option<Facts>, start: Source<S>, gated: bool, g: Gate<S>, inputs: seq<Bytes>)
    requires Ok(decode, start, gated, g, inputs)
    ensures var all := PassAll(start, inputs).out;
            && Alike(start, g.source) && g.sent == (if g.committed then all else "") && g.acc == Fed(decode, NEW_STATE, g.sent)
            && (gated && SpeaksEvents(start) ==> (g.committed <==> Opens(decode, all)))
  {
    hide Opens, Fed, SpeaksEvents, StartsEvent;
  }

  /** Behind the gate an attempt never ends as completed without output after something was sent. */
  lemma NeverEmptyOnceCommitted<S(!new)>(decode: Bytes -> Option<Facts>, x: Exchange<S>)
    requires x.Body? && x.gated && DeafOnceClosed(x.source) && SpeaksEvents(x.source)
    ensures !ResultFor(decode, x).partial
  {
    hide Transferred, Fed, Meaningful, SpeaksEvents;
    var n := SentExactlyForOutput(decode, x);
    var g := GateAfter(decode, x);
    if g.committed {
      assert g.acc.tally.producedOutput;
    }
  }

  /** An attempt succeeds exactly when its response was committed, nothing failed on the way to the
      client, and the bytes sent end a stream well and contain output. */
  lemma SuccessExactly<S(!new)>(decode: Bytes -> Option<Facts>, x: Exchange<S>)
    requires x.Body? ==> DeafOnceClosed(x.source)
    ensures ResultFor(decode, x).status == SSuccess <==>
            x.Body? && (var g := GateAfter(decode, x);
                        var t := Fed(decode, NEW_STATE, g.sent).tally;
                        g.committed && !g.conversionFailed && g.writeErr == NoFailure && !t.errored && Successful(t) && t.producedOutput)
  {
    hide Transferred, Fed, Successful;
    if x.Body? {
      var n := SentExactlyForOutput(decode, x);
    }
  }

  /** The bytes are those of the response exactly when one was committed from the body. */
  lemma CommittedExactlyWhenSent<S(!new)>(decode: Bytes -> Option<Facts>, x: Exchange<S>)
    requires x.Body?
    ensures ResultFor(decode, x).committed == GateAfter(decode, x).committed
  {
    hide Transferred;
  }
}
