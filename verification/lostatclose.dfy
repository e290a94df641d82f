/** What the client loses because a converter's last output is written to the closed converter. */
module LostAtClose {
  import opened Wrappers
  import opened Framing
  import opened Frames
  import opened EventMachine
  import opened StreamEvents
  import opened Composition
  import opened UsageAccumulator
  import opened Failover
  import opened StreamAttempt
  import opened GateSafety
  import opened ConvertersAtGate
  import MR = MessagesToResponses

  /** After a transfer without failure: the client has what the writes gave, which is the whole
      conversion of the bytes read exactly when closing the converter gives no bytes. */
  lemma NothingLostExactly<S(!new)>(decode: Bytes -> Option<Facts>, x: Exchange<S>, c: ByteConverter<S>, s: S) returns (n: nat)
    requires x.Body? && x.source == Converted(c, s) && DeafOnceClosed(x.source)
    requires var g := GateAfter(decode, x); g.committed && !g.conversionFailed && g.streamErr == g.writeErr == NoFailure
    ensures n <= |x.body|
    ensures var inputs := Inputs(x.initial, x.body[..n]);
            var given := Writes(c, s, inputs);
            var whole := Whole(c, s, inputs);
            && whole.err.None? && GateAfter(decode, x).sent == given.out
            && (GateAfter(decode, x).sent == whole.out <==> c.close(given.state).out == "")
  {
    hide Received, FirstRead, Fed, StreamAttempt.Opens, GateSafety.Kept, Ok;
    n := BodyIsPassedOn(decode, x);
    var k := BeforeClose(decode, x);
    var inputs := Inputs(x.initial, x.body[..n]);
    OkSends(decode, x.source, x.gated, k, inputs);
    PassAllIsWrites(c, s, inputs);
    assert k.streamErr == NoFailure && k.writeErr == NoFailure;
    ClosedSendsNothing(decode, x.source, k, x.down(|x.body| + 1));
    var w := Writes(c, s, inputs);
    ClosedReports(decode, k, x.down(|x.body| + 1));
    var z := c.close(w.state);
    assert |w.out + z.out| == |w.out| + |z.out|;
    assert z.out == "" ==> w.out + z.out == w.out;
  }

  lemma OkSends<S(!new)>(decode: Bytes -> Option<Facts>, start: Source<S>, gated: bool, g: Gate<S>, inputs: seq<Bytes>)
    requires Ok(decode, start, gated, g, inputs) && start.Converted?
    ensures var x := PassAll(start, inputs);
            g.source == x.source && g.source.Converted? && x.err.Some? == g.conversionFailed && (g.committed ==> g.sent == x.out)
    ensures Alike(start, g.source)
  {
    hide StreamAttempt.Opens, Fed, SpeaksEvents;
  }

  lemma ClosedReports<S>(decode: Bytes -> Option<Facts>, g: Gate<S>, down: Failure)
    requires g.source.Converted? && !Closed(decode, g, down).conversionFailed
    ensures g.source.bytes.close(g.source.state).err.None?
  {
  }

  // --- Complete and incomplete streams ---

  /** A stream of complete printed events: closing gives no bytes. */
  lemma CompleteStreamsLoseNothing<S(!new), I(!new), O>(v: EventConverter<S, I, O>, core: S, es: seq<Event<I>>, inputs: seq<Bytes>)
    requires Lawful(v.codec) && Carried(es) && Flatten(inputs) == PrintFrames(FramesOf(v.codec, es))
    requires RunEvents(v, core, es).err.None? && v.atClose(RunEvents(v, core, es).core, None).1.None?
    ensures var c := Single(MachineOf(v));
            var w := Writes(c, Fresh(core), inputs);
            && w.err.None? && w.out == PrintAll(v.show, RunEvents(v, core, es).out)
            && c.close(w.state).err.None? && c.close(w.state).out == ""
  {
    hide MachineOf, PrintAll, Feed, Finish, Carried;
    var m := MachineOf(v);
    FeedEvents(v, core, es);
    WritesAreFeeds(m, Fresh(core), inputs);
    ChunkingIsInvisible(m, Fresh(core), inputs);
    FinishIsSilent(v, Feed(m, Fresh(core), Flatten(inputs)).conv);
  }

  /** A printed event without the empty line that ends it. */
  function Unfinished(f: Frame): Bytes {
    EVENT_TAG + " " + f.event + "\n" + (DATA_TAG + " " + f.data + "\n" + "")
  }

  lemma UnfinishedIsKept<S>(m: Machine<S>, c: Conv<S>, f: Frame)
    requires Plain(f.event) && Plain(f.data) && c.lines == "" && !c.closed
    ensures Feed(m, c, Unfinished(f)) == Run(c.(event := f.event, data := Join(c.data, f.data)), "", None)
  {
    hide ProcessLine, DrainLines, Join;
    var line, data := EVENT_TAG + " " + f.event, DATA_TAG + " " + f.data;
    var tail := data + "\n" + "";
    var c0 := c.(lines := Unfinished(f));
    assert c.lines + Unfinished(f) == Unfinished(f) == line + "\n" + tail;
    TaggedLine(m, c.(lines := tail), f.event);
    DrainLine(m, c0, line, tail);
    var c1 := c.(lines := tail, event := f.event);
    TaggedLine(m, c1.(lines := ""), f.data);
    DrainLine(m, c1, data, "");
    var c2 := c1.(lines := "", data := Join(c1.data, f.data));
    DrainedAlready(m, c2);
    assert "" + "" == "";
  }

  /** When the last event is not ended by an empty line, what it converts to is lost, and nothing else. */
  lemma UnfinishedEventIsLost<S(!new), I(!new), O>(v: EventConverter<S, I, O>, core: S, es: seq<Event<I>>, e: Event<I>, inputs: seq<Bytes>)
    requires Lawful(v.codec) && Carried(es) && Carried([e]) && e.name != ""
    requires Flatten(inputs) == PrintFrames(FramesOf(v.codec, es)) + Unfinished(FrameOf(v.codec, e))
    requires var x := RunEvents(v, core, es); x.err.None? && !v.resting(x.core)
    requires var y := React(v, RunEvents(v, core, es).core, e); y.err.None? && v.atClose(y.core, None).1.None?
    ensures var c := Single(MachineOf(v));
            var x := RunEvents(v, core, es);
            var w := Writes(c, Fresh(core), inputs);
            && w.err.None? && w.out == PrintAll(v.show, x.out)
            && c.close(w.state).err.None? && c.close(w.state).out == PrintAll(v.show, React(v, x.core, e).out)
  {
    hide MachineOf, PrintAll, Feed, Finish, Carried, FrameOf;
    var m, f := MachineOf(v), FrameOf(v.codec, e);
    var b := PrintFrames(FramesOf(v.codec, es));
    FeedEvents(v, core, es);
    WritesAreFeeds(m, Fresh(core), inputs);
    ChunkingIsInvisible(m, Fresh(core), inputs);
    FeedTwice(m, Fresh(core), b, Unfinished(f));
    var c := Feed(m, Fresh(core), b).conv;
    assert [e][0] == e;
    EventIsPlain(v.codec, e);
    UnfinishedIsKept(m, c, f);
    assert Feed(m, Fresh(core), b).out + "" == Feed(m, Fresh(core), b).out;
    FinishReacts(v, c, e);
  }

  lemma EventIsPlain<I(!new)>(codec: Codec<I>, e: Event<I>)
    requires Lawful(codec) && Carried([e])
    ensures var f := FrameOf(codec, e); Plain(f.event) && Plain(f.data) && f.event == e.name && (e.input.Payload? || e.input.DoneMark?)
  {
    assert [e][0] == e;
    CarriedFramesArePlain(codec, [e]);
    assert FramesOf(codec, [e])[0] == FrameOf(codec, e);
  }

  lemma FinishReacts<S, I(!new), O>(v: EventConverter<S, I, O>, c: Conv<S>, e: Event<I>)
    requires Lawful(v.codec) && (e.input.Payload? || e.input.DoneMark?) && e.name != ""
    requires c.lines == c.event == c.data == "" && !c.closed && !v.resting(c.core)
    requires var y := React(v, c.core, e); y.err.None? && v.atClose(y.core, None).1.None?
    ensures var d := c.(event := FrameOf(v.codec, e).event, data := Join("", FrameOf(v.codec, e).data));
            var r := Finish(MachineOf(v), d);
            r.err.None? && r.out == PrintAll(v.show, React(v, c.core, e).out)
  {
    hide PrintAll, DrainLines;
    var m, f := MachineOf(v), FrameOf(v.codec, e);
    CarriedIsRead(v.codec, e);
    var d := c.(event := f.event, data := Join("", f.data), closed := true);
    DrainedAlready(m, d);
    var r := ProcessEvent(m, d);
    assert r.err.None? && r.out == PrintAll(v.show, React(v, c.core, e).out);
    assert "" + ("" + r.out) == r.out && ("" + "") + r.out == r.out;
  }

  /** A Messages stream whose last event lacks its empty line: the client of a Responses conversion
      is never told that the response is complete. */
  lemma CompletionLost(messages: Codec<MPayload>, responses: Codec<RPayload>, id: string)
    requires Lawful(messages) && Lawful(responses)
    ensures var v := MR.Converter(messages, responses);
            var start, stop := Event(MName(MMessageStart), Payload(Plainly(MMessageStart))), Event(MName(MMessageStop), Payload(Plainly(MMessageStop)));
            var c := Single(MachineOf(v));
            var w := Writes(c, Fresh(MR.Init(id)), [PrintFrames(FramesOf(messages, [start])) + Unfinished(FrameOf(messages, stop))]);
            && w.err.None? && c.close(w.state).err.None?
            && exists completed :: c.close(w.state).out == PrintAll(v.show, [completed]) && completed.typ == RCompleted && c.close(w.state).out != ""
  {
    hide MachineOf, Writes, Lawful, RunEvents, PrintFrames, Unfinished, PrintAll, Flatten;
    var v := MR.Converter(messages, responses);
    var start, stop := Event(MName(MMessageStart), Payload(Plainly(MMessageStart))), Event(MName(MMessageStop), Payload(Plainly(MMessageStop)));
    var all := PrintFrames(FramesOf(messages, [start])) + Unfinished(FrameOf(messages, stop));
    OneChunk(all);
    MessageNamesArePlain(MMessageStart);
    MessageNamesArePlain(MMessageStop);
    RunOne(v, MR.Init(id), start);
    var s := RunEvents(v, MR.Init(id), [start]).core;
    UnfinishedEventIsLost(v, MR.Init(id), [start], stop, [all]);
    assert React(v, s, stop).out == [MR.Completed(s)];
    OnePrinted(v, MR.Completed(s));
  }

  lemma OnePrinted<S, I, O>(v: EventConverter<S, I, O>, o: O)
    ensures PrintAll(v.show, [o]) != ""
  {
    assert Shown(v.show, [o])[0] == v.show(o);
    assert PrintFrame(v.show(o)) != "" by {
      FrameSpeaks(v.show(o));
    }
  }
}
