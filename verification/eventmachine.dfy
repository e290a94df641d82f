/** A converter described by what it does with one event, and the machine it gives on bytes. */
module EventMachine {
  import opened Wrappers
  import opened Framing
  import opened Frames

  /** The data of one event as a converter sees it. */
  datatype Input<+I> = NoData | DoneMark | Malformed | Payload(p: I)

  /** An event with its name and its data. */
  datatype Event<+I> = Event(name: Bytes, input: Input<I>)

  /** The result of one event: the new core, the events emitted, and the error. */
  datatype Emit<+S, +O> = Emit(core: S, out: seq<O>, err: Option<Error>)

  /** `resting` says when a converter ignores an event and leaves it pending. */
  datatype EventConverter<!S, !I, !O> = EventConverter(
    codec: Codec<I>,
    resting: S -> bool,
    step: (S, Event<I>) -> Emit<S, O>,
    show: O -> Frame,
    atClose: (S, Option<Error>) -> (S, Option<Error>))

  function InputOf<I>(codec: Codec<I>, data: Bytes): Input<I> {
    if data == "" then NoData
    else if data == DONE_MARK then DoneMark
    else match codec.decode(data)
      case None => Malformed
      case Some(p) => Payload(p)
  }

  function Shown<O>(show: O -> Frame, out: seq<O>): (fs: seq<Frame>)
    ensures |fs| == |out| && forall i :: 0 <= i < |out| ==> fs[i] == show(out[i])
  {
    seq(|out|, i requires 0 <= i < |out| => show(out[i]))
  }

  function PrintAll<O>(show: O -> Frame, out: seq<O>): Bytes {
    PrintFrames(Shown(show, out))
  }

  function Process<S, I, O>(v: EventConverter<S, I, O>, core: S, event: Bytes, data: Bytes): Reaction<S> {
    if v.resting(core) then Reaction(core, event, data, "", None)
    else
      var x := v.step(core, Event(event, InputOf(v.codec, data)));
      Reaction(x.core, "", "", PrintAll(v.show, x.out), x.err)
  }

  function MachineOf<S, I, O>(v: EventConverter<S, I, O>): Machine<S> {
    Machine((core, event, data) => Process(v, core, event, data), v.atClose)
  }

  // --- Runs over events ---

  function React<S, I, O>(v: EventConverter<S, I, O>, core: S, e: Event<I>): Emit<S, O> {
    if v.resting(core) then Emit(core, [], None) else v.step(core, e)
  }

  function RunEvents<S, I, O>(v: EventConverter<S, I, O>, core: S, es: seq<Event<I>>): Emit<S, O>
    decreases |es|
  {
    if es == [] then Emit(core, [], None)
    else
      var x := React(v, core, es[0]);
      if x.err.Some? then Emit(x.core, [], x.err)
      else
        var y := RunEvents(v, x.core, es[1..]);
        Emit(y.core, x.out + y.out, y.err)
  }

  lemma {:induction false} RunEventsAppend<S, I, O>(v: EventConverter<S, I, O>, core: S, a: seq<Event<I>>, b: seq<Event<I>>)
    ensures var x := RunEvents(v, core, a);
            RunEvents(v, core, a + b) ==
            if x.err.Some? then x
            else var y := RunEvents(v, x.core, b); Emit(y.core, x.out + y.out, y.err)
    decreases |a|
  {
    if a == [] {
      assert a + b == b;
      var y := RunEvents(v, core, b);
      assert [] + y.out == y.out;
    } else {
      assert (a + b)[1..] == a[1..] + b;
      var x := React(v, core, a[0]);
      if x.err.None? {
        RunEventsAppend(v, x.core, a[1..], b);
        var z := RunEvents(v, x.core, a[1..]);
        if z.err.None? {
          var y := RunEvents(v, z.core, b);
          assert x.out + (z.out + y.out) == (x.out + z.out) + y.out;
        }
      }
    }
  }

  lemma RunOne<S, I, O>(v: EventConverter<S, I, O>, core: S, e: Event<I>)
    ensures var x := React(v, core, e);
            RunEvents(v, core, [e]) == if x.err.Some? then Emit(x.core, [], x.err) else x
  {
    var x := React(v, core, e);
    assert RunEvents(v, x.core, [e][1..]) == Emit(x.core, [], None);
    assert x.out + [] == x.out;
  }

  lemma RunTwo<S, I, O>(v: EventConverter<S, I, O>, core: S, e: Event<I>, f: Event<I>)
    ensures var x := React(v, core, e);
            var y := React(v, x.core, f);
            RunEvents(v, core, [e, f]) ==
            if x.err.Some? then Emit(x.core, [], x.err)
            else if y.err.Some? then Emit(y.core, x.out, y.err)
            else Emit(y.core, x.out + y.out, None)
  {
    var x := React(v, core, e);
    assert [e, f][1..] == [f];
    RunOne(v, x.core, f);
    assert x.out + [] == x.out;
  }

  /** A run gives the output of the events before its first error. */
  lemma {:induction false} OutputBeforeError<S, I, O>(v: EventConverter<S, I, O>, core: S, es: seq<Event<I>>) returns (n: nat)
    ensures n <= |es|
    ensures var before := RunEvents(v, core, es[..n]);
            before.err.None? && before.out == RunEvents(v, core, es).out
    ensures RunEvents(v, core, es).err.None? <==> n == |es|
    decreases |es|
  {
    n := 0;
    if es != [] {
      var x := React(v, core, es[0]);
      if x.err.None? {
        var k := OutputBeforeError(v, x.core, es[1..]);
        n := k + 1;
        assert es[..n][1..] == es[1..][..k];
      }
    }
  }

  // --- Bytes and events ---

  /** The frame that carries an event. */
  function FrameOf<I>(codec: Codec<I>, e: Event<I>): Frame {
    Frame(e.name, if e.input.Payload? then codec.encode(e.input.p) else DONE_MARK)
  }

  predicate Carried<I>(es: seq<Event<I>>) {
    forall i :: 0 <= i < |es| ==> Plain(es[i].name) && (es[i].input.Payload? || es[i].input.DoneMark?)
  }

  function FramesOf<I>(codec: Codec<I>, es: seq<Event<I>>): (fs: seq<Frame>)
    ensures |fs| == |es| && forall i :: 0 <= i < |es| ==> fs[i] == FrameOf(codec, es[i])
  {
    seq(|es|, i requires 0 <= i < |es| => FrameOf(codec, es[i]))
  }

  lemma CarriedFramesArePlain<I(!new)>(codec: Codec<I>, es: seq<Event<I>>)
    requires Lawful(codec) && Carried(es)
    ensures PlainFrames(FramesOf(codec, es))
  {
    forall i | 0 <= i < |es|
      ensures Plain(FrameOf(codec, es[i]).event) && Plain(FrameOf(codec, es[i]).data)
    {
      if es[i].input.Payload? {
        assert Plain(codec.encode(es[i].input.p));
      }
    }
  }

  lemma CarriedIsRead<I(!new)>(codec: Codec<I>, e: Event<I>)
    requires Lawful(codec) && (e.input.Payload? || e.input.DoneMark?)
    ensures InputOf(codec, FrameOf(codec, e).data) == e.input
  {
    if e.input.Payload? {
      var d := codec.encode(e.input.p);
      assert d != "" && d != DONE_MARK && codec.decode(d) == Some(e.input.p);
    }
  }

  lemma PrintNothing<O>(show: O -> Frame)
    ensures PrintAll(show, []) == ""
  {
  }

  lemma {:induction false} PrintAllAppend<O>(show: O -> Frame, a: seq<O>, b: seq<O>)
    ensures PrintAll(show, a + b) == PrintAll(show, a) + PrintAll(show, b)
  {
    assert Shown(show, a + b) == Shown(show, a) + Shown(show, b);
    PrintAppend(Shown(show, a), Shown(show, b));
  }

  lemma {:induction false} AbsorbEvent<S, I(!new), O>(v: EventConverter<S, I, O>, c: Conv<S>, e: Event<I>)
    requires Lawful(v.codec) && (e.input.Payload? || e.input.DoneMark?)
    requires v.resting(c.core) || c.event == c.data == ""
    ensures var x := React(v, c.core, e);
            var r := Absorb(MachineOf(v), c, FrameOf(v.codec, e));
            && r.conv.core == x.core && r.err == x.err && r.conv.lines == c.lines && r.conv.closed == c.closed
            && r.out == (if x.err.Some? then "" else PrintAll(v.show, x.out))
            && (v.resting(x.core) || r.conv.event == r.conv.data == "")
  {
    CarriedIsRead(v.codec, e);
    PrintNothing(v.show);
  }

  /** Running a machine on frames that carry events is running its converter on the events. */
  lemma {:induction false} FramesAreEvents<S, I(!new), O>(v: EventConverter<S, I, O>, c: Conv<S>, es: seq<Event<I>>)
    requires Lawful(v.codec) && Carried(es)
    requires v.resting(c.core) || c.event == c.data == ""
    ensures var x := RunEvents(v, c.core, es);
            var r := RunFrames(MachineOf(v), c, FramesOf(v.codec, es));
            && r.out == PrintAll(v.show, x.out) && r.err == x.err && r.conv.core == x.core
            && r.conv.lines == c.lines && r.conv.closed == c.closed
            && (x.err.None? ==> v.resting(x.core) || r.conv.event == r.conv.data == "")
    decreases |es|
  {
    hide Absorb, PrintAll, FrameOf, Lawful, MachineOf;
    PrintNothing(v.show);
    if es != [] {
      AbsorbEvent(v, c, es[0]);
      assert FramesOf(v.codec, es)[1..] == FramesOf(v.codec, es[1..]);
      var x := React(v, c.core, es[0]);
      var r := Absorb(MachineOf(v), c, FrameOf(v.codec, es[0]));
      if x.err.None? {
        FramesAreEvents(v, r.conv, es[1..]);
        PrintAllAppend(v.show, x.out, RunEvents(v, x.core, es[1..]).out);
      }
    }
  }

  /** Writing printed events to a fresh converter is running it on the events. */
  lemma FeedEvents<S, I(!new), O>(v: EventConverter<S, I, O>, core: S, es: seq<Event<I>>)
    requires Lawful(v.codec) && Carried(es)
    ensures var x := RunEvents(v, core, es);
            var r := Feed(MachineOf(v), Fresh(core), PrintFrames(FramesOf(v.codec, es)));
            && r.out == PrintAll(v.show, x.out) && r.err == x.err
            && (x.err.None? ==> r.conv.core == x.core && r.conv.lines == "" && !r.conv.closed && (v.resting(x.core) || r.conv.event == r.conv.data == ""))
  {
    hide MachineOf, PrintAll, RunFrames, Carried;
    var m, fs := MachineOf(v), FramesOf(v.codec, es);
    CarriedFramesArePlain(v.codec, es);
    DrainFrames(m, Fresh(core), fs);
    FramesAreEvents(v, Fresh(core), es);
    assert DrainLines(m, Fresh(core)) == Run(Fresh(core), "", None);
    assert Fresh(core).lines + PrintFrames(fs) == PrintFrames(fs);
  }

  lemma FinishIsSilent<S, I, O>(v: EventConverter<S, I, O>, c: Conv<S>)
    requires c.lines == "" && !c.closed && (v.resting(c.core) || c.event == c.data == "")
    ensures Finish(MachineOf(v), c).out == "" && Finish(MachineOf(v), c).err == v.atClose(c.core, None).1
  {
    hide PrintAll;
    var m := MachineOf(v);
    var d := c.(closed := true);
    assert DrainLines(m, d) == Run(d, "", None);
    assert DrainTail(m, d) == Run(d, "", None);
    assert DrainEvent(m, d).out == "" && DrainEvent(m, d).err == None && DrainEvent(m, d).conv.core == d.core;
  }

  /** A whole stream of printed events, however it is cut into chunks: the converter prints what
      it emits for the events, and `Close` adds no output. */
  lemma ConvertEvents<S, I(!new), O>(v: EventConverter<S, I, O>, core: S, es: seq<Event<I>>, chunks: seq<Bytes>)
    requires Lawful(v.codec) && Carried(es)
    requires Flatten(chunks) == PrintFrames(FramesOf(v.codec, es))
    ensures var x := RunEvents(v, core, es);
            var r := Convert(MachineOf(v), Fresh(core), chunks);
            r.out == PrintAll(v.show, x.out) && r.err == (if x.err.Some? then x.err else v.atClose(x.core, None).1)
  {
    hide MachineOf, PrintAll, Convert, Finish, RunFrames, Carried;
    var m := MachineOf(v);
    ConversionIgnoresChunking(m, Fresh(core), chunks);
    CarriedFramesArePlain(v.codec, es);
    ConvertFrames(m, core, FramesOf(v.codec, es));
    FramesAreEvents(v, Fresh(core), es);
    var x := RunFrames(m, Fresh(core), FramesOf(v.codec, es));
    assert x.out + "" == x.out;
    if x.err.None? {
      FinishIsSilent(v, x.conv);
    }
  }

  // --- Any bytes ---

  /** A run on bytes, and events that account for it. */
  ghost predicate Explains<S, I, O>(v: EventConverter<S, I, O>, core: S, es: seq<Event<I>>, r: Run<S>) {
    var x := RunEvents(v, core, es);
    r.conv.core == x.core && r.err == x.err && r.out == PrintAll(v.show, x.out)
  }

  lemma ExplainNothing<S, I, O>(v: EventConverter<S, I, O>, c: Conv<S>)
    ensures Explains(v, c.core, [], Run(c, "", None))
  {
    PrintNothing(v.show);
  }

  lemma ExplainLine<S, I, O>(v: EventConverter<S, I, O>, c: Conv<S>, line: Bytes) returns (es: seq<Event<I>>)
    ensures Explains(v, c.core, es, ProcessLine(MachineOf(v), c, line))
  {
    hide PrintAll;
    PrintNothing(v.show);
    if line == "" {
      es := ExplainEvent(v, c);
    } else {
      es := [];
    }
  }

  lemma ExplainEvent<S, I, O>(v: EventConverter<S, I, O>, c: Conv<S>) returns (es: seq<Event<I>>)
    ensures Explains(v, c.core, es, ProcessEvent(MachineOf(v), c))
  {
    hide PrintAll;
    PrintNothing(v.show);
    es := [Event(c.event, InputOf(v.codec, c.data))];
    var x := React(v, c.core, es[0]);
    assert RunEvents(v, x.core, es[1..]) == Emit(x.core, [], None);
    assert x.out + [] == x.out;
  }

  lemma ExplainThen<S, I, O>(v: EventConverter<S, I, O>, core: S, a: seq<Event<I>>, x: Run<S>, b: seq<Event<I>>, y: Run<S>)
    requires Explains(v, core, a, x) && x.err.None? && Explains(v, x.conv.core, b, y)
    ensures Explains(v, core, a + b, Run(y.conv, x.out + y.out, y.err))
  {
    hide PrintAll;
    RunEventsAppend(v, core, a, b);
    PrintAllAppend(v.show, RunEvents(v, core, a).out, RunEvents(v, x.conv.core, b).out);
  }

  lemma DrainedAlready<S>(m: Machine<S>, c: Conv<S>)
    requires Quiet(c)
    ensures DrainLines(m, c) == Run(c, "", None)
  {
  }

  lemma {:induction false} ExplainDrain<S, I, O>(v: EventConverter<S, I, O>, c: Conv<S>) returns (es: seq<Event<I>>)
    ensures Explains(v, c.core, es, DrainLines(MachineOf(v), c))
    decreases |c.lines|
  {
    hide Explains, ProcessLine, MachineOf, DrainLines, LineEnd, TrimCR;
    var m := MachineOf(v);
    ExplainNothing(v, c);
    es := [];
    var n := LineEnd(c.lines);
    if n == |c.lines| {
      DrainedAlready(m, c);
    } else {
      DrainFirst(m, c);
      var d := c.(lines := c.lines[n + 1..]);
      var x := ProcessLine(m, d, TrimCR(c.lines[..n]));
      es := ExplainLine(v, d, TrimCR(c.lines[..n]));
      if x.err.None? {
        var rest := ExplainDrain(v, x.conv);
        ExplainThen(v, c.core, es, x, rest, DrainLines(m, x.conv));
        es := es + rest;
      }
    }
  }

  lemma {:induction false} ExplainFeeds<S, I, O>(v: EventConverter<S, I, O>, c: Conv<S>, chunks: seq<Bytes>) returns (es: seq<Event<I>>)
    ensures Explains(v, c.core, es, FeedAll(MachineOf(v), c, chunks))
    decreases |chunks|
  {
    hide Explains, MachineOf, DrainLines;
    var m := MachineOf(v);
    ExplainNothing(v, c);
    es := [];
    if chunks != [] {
      var x := Feed(m, c, chunks[0]);
      if !(c.closed || chunks[0] == "") {
        es := ExplainDrain(v, c.(lines := c.lines + chunks[0]));
      }
      if x.err.None? {
        var rest := ExplainFeeds(v, x.conv, chunks[1..]);
        ExplainThen(v, c.core, es, x, rest, FeedAll(m, x.conv, chunks[1..]));
        es := es + rest;
      }
    }
  }

  lemma ExplainEof<S, I, O>(v: EventConverter<S, I, O>, c: Conv<S>) returns (es: seq<Event<I>>)
    ensures Explains(v, c.core, es, DrainEof(MachineOf(v), c))
  {
    hide Explains, MachineOf, DrainLines, ProcessLine, ProcessEvent;
    var m := MachineOf(v);
    es := ExplainDrain(v, c);
    var x := DrainLines(m, c);
    if x.err.None? {
      var tail := DrainTail(m, x.conv);
      var more := [];
      ExplainNothing(v, x.conv);
      if x.conv.lines != "" {
        more := ExplainLine(v, x.conv.(lines := ""), TrimCR(x.conv.lines));
      }
      ExplainThen(v, c.core, es, x, more, tail);
      es := es + more;
      var y := Then(DrainLines(m, c), d => DrainTail(m, d));
      assert y == Run(tail.conv, x.out + tail.out, tail.err);
      if y.err.None? {
        ExplainNothing(v, y.conv);
        var last := [];
        if !(y.conv.data == "" && y.conv.event == "") {
          last := ExplainEvent(v, y.conv);
        }
        ExplainThen(v, c.core, es, y, last, DrainEvent(m, y.conv));
        es := es + last;
      }
    }
  }

  /** Whatever bytes a converter is given, and in whatever chunks, its output, error and final core
      are those of some sequence of events: as they stand when a write fails, and otherwise as
      `Close` leaves them. */
  lemma BytesAreEvents<S, I, O>(v: EventConverter<S, I, O>, core: S, chunks: seq<Bytes>) returns (es: seq<Event<I>>)
    ensures var r := Convert(MachineOf(v), Fresh(core), chunks);
            var x := RunEvents(v, core, es);
            && r.out == PrintAll(v.show, x.out)
            && ((x.err.Some? && r.conv.core == x.core && r.err == x.err) || (r.conv.core, r.err) == v.atClose(x.core, x.err))
  {
    hide MachineOf, FeedAll, PrintAll, DrainEof;
    var m := MachineOf(v);
    var c := Fresh(core);
    es := ExplainFeeds(v, c, chunks);
    var x := FeedAll(m, c, chunks);
    if x.err.None? {
      StaysOpen(m, c, chunks);
      var d := x.conv.(closed := true);
      var rest := ExplainEof(v, d);
      ExplainThen(v, core, es, x, rest, DrainEof(m, d));
      es := es + rest;
      assert m.atClose == v.atClose by { CloseIsGiven(v); }
    }
  }

  lemma CloseIsGiven<S, I, O>(v: EventConverter<S, I, O>)
    ensures MachineOf(v).atClose == v.atClose
  {
  }

  lemma {:induction false} StaysOpen<S>(m: Machine<S>, c: Conv<S>, chunks: seq<Bytes>)
    ensures FeedAll(m, c, chunks).conv.closed == c.closed
    decreases |chunks|
  {
    hide DrainLines;
    if chunks != [] {
      StaysOpen(m, Feed(m, c, chunks[0]).conv, chunks[1..]);
    }
  }
}
