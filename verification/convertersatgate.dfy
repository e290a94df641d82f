/** The gateway's converters in front of the gate: what they write always begins like an event, and
    once closed they write nothing. */
module ConvertersAtGate {
  import opened Wrappers
  import opened Framing
  import opened Frames
  import opened EventMachine
  import opened Composition
  import opened EventGate
  import opened StreamAttempt
  import opened GateSafety

  predicate Speaks(out: Bytes) {
    out == "" || StartsEvent(out)
  }

  lemma FrameSpeaks(f: Frame)
    ensures StartsEvent(PrintFrame(f))
  {
    var rest := DATA_TAG + " " + f.data + "\n\n";
    if f.event == "" {
      assert PrintFrame(f) == DATA_TAG + (" " + f.data + "\n\n");
    } else {
      var name := " " + f.event + "\n";
      assert EVENT_TAG + " " + f.event + "\n" == EVENT_TAG + name;
      assert PrintFrame(f)[..|EVENT_TAG|] == EVENT_TAG;
    }
  }

  lemma FramesSpeak(fs: seq<Frame>)
    ensures Speaks(PrintFrames(fs))
  {
    if fs != [] {
      hide PrintFrame, StartsEvent;
      FrameSpeaks(fs[0]);
      StartsEventOn(PrintFrame(fs[0]), PrintFrames(fs[1..]));
    }
  }

  lemma {:induction false} DrainSpeaks<S, I, O>(v: EventConverter<S, I, O>, c: Conv<S>)
    ensures Speaks(DrainLines(MachineOf(v), c).out)
    decreases |c.lines|
  {
    hide Speaks, MachineOf, ProcessLine, TrimCR, LineEnd;
    var m := MachineOf(v);
    var n := LineEnd(c.lines);
    if n == |c.lines| {
      SilenceSpeaks();
    } else {
      var d := c.(lines := c.lines[n + 1..]);
      var line := TrimCR(c.lines[..n]);
      LineSpeaks(v, d, line);
      var x := ProcessLine(m, d, line);
      if x.err.None? {
        DrainSpeaks(v, x.conv);
        TwoSpeak(x.out, DrainLines(m, x.conv).out);
      }
    }
  }

  lemma SilenceSpeaks()
    ensures Speaks("")
  {
  }

  lemma TwoSpeak(a: Bytes, b: Bytes)
    requires Speaks(a) && Speaks(b)
    ensures Speaks(a + b)
  {
    if a == "" {
      assert a + b == b;
    } else {
      StartsEventOn(a, b);
    }
  }

  lemma LineSpeaks<S, I, O>(v: EventConverter<S, I, O>, c: Conv<S>, line: Bytes)
    ensures Speaks(ProcessLine(MachineOf(v), c, line).out)
  {
    if line == "" && !v.resting(c.core) {
      FramesSpeak(Shown(v.show, v.step(c.core, Event(c.event, InputOf(v.codec, c.data))).out));
    }
  }

  lemma ConverterSpeaks<S(!new), I, O>(v: EventConverter<S, I, O>, c: Conv<S>)
    ensures SpeaksEvents(Converted(Single(MachineOf(v)), c))
  {
    var m := MachineOf(v);
    forall d: Conv<S>, p ensures var x := Single(m).write(d, p); x.out == "" || StartsEvent(x.out) {
      if !d.closed && p != "" {
        DrainSpeaks(v, d.(lines := d.lines + p));
      }
    }
  }

  lemma ChainSpeaks<S(!new), T(!new)>(a: ByteConverter<S>, b: ByteConverter<T>, s: S, t: T)
    requires SpeaksEvents(Converted(b, t))
    ensures SpeaksEvents(Converted(Compose(a, b), (s, t)))
  {
    forall st: (S, T), p ensures var x := Compose(a, b).write(st, p); x.out == "" || StartsEvent(x.out) {
      hide StartsEvent;
      var x := a.write(st.0, p);
      var y := b.write(st.1, x.out);
      assert y.out == "" || StartsEvent(y.out);
    }
  }

  lemma ConverterIsDeaf<S(!new)>(m: Machine<S>, c: Conv<S>)
    ensures DeafOnceClosed(Converted(Single(m), c))
  {
    forall d: Conv<S>, p ensures var x := Single(m).close(d); x.err.None? ==> Single(m).write(x.state, p) == Composition.Call.Call(x.state, "", None) {
      CloseCloses(m, d);
      hide Finish;
    }
  }

  lemma CloseCloses<S>(m: Machine<S>, c: Conv<S>)
    ensures Finish(m, c).conv.closed
  {
    hide DrainLines, ProcessLine, ProcessEvent;
  }

  lemma ChainIsDeaf<S(!new), T(!new)>(a: ByteConverter<S>, b: ByteConverter<T>, s: S, t: T)
    requires DeafOnceClosed(Converted(a, s)) && DeafOnceClosed(Converted(b, t))
    ensures DeafOnceClosed(Converted(Compose(a, b), (s, t)))
  {
    forall st: (S, T), p ensures var x := Compose(a, b).close(st); x.err.None? ==> Compose(a, b).write(x.state, p) == Composition.Call.Call(x.state, "", None) {
      var x := a.close(st.0);
      if x.err.None? {
        assert a.write(x.state, p) == Composition.Call.Call(x.state, "", None);
        var y := if x.out == "" then Composition.Call.Call(st.1, "", None) else b.write(st.1, x.out);
        var z := b.close(y.state);
        if z.err.None? {
          assert b.write(z.state, "") == Composition.Call.Call(z.state, "", None);
        }
      }
    }
  }

  /** A chain of two of the gateway's converters behind the gate: what it commits, it commits for
      output, and what its `Close` gives never reaches the client. */
  lemma ChainAtGate<S(!new), T(!new), I, J, O, P>(v: EventConverter<S, I, O>, w: EventConverter<T, J, P>, c: Conv<S>, d: Conv<T>)
    ensures var source := Converted(Compose(Single(MachineOf(v)), Single(MachineOf(w))), (c, d));
            SpeaksEvents(source) && DeafOnceClosed(source)
  {
    ConverterSpeaks(w, d);
    ChainSpeaks(Single(MachineOf(v)), Single(MachineOf(w)), c, d);
    ConverterIsDeaf(MachineOf(v), c);
    ConverterIsDeaf(MachineOf(w), d);
    ChainIsDeaf(Single(MachineOf(v)), Single(MachineOf(w)), c, d);
  }

  // --- What was sent ---

  lemma {:induction false} WritesSnoc<S>(c: ByteConverter<S>, s: S, inputs: seq<Bytes>, input: Bytes)
    ensures var w := Writes(c, s, inputs);
            Writes(c, s, inputs + [input]) ==
            if w.err.Some? then w
            else
              var x := c.write(w.state, input);
              if x.err.Some? then Composition.Call.Call(x.state, w.out, x.err) else Composition.Call.Call(x.state, w.out + x.out, None)
    decreases |inputs|
  {
    if inputs == [] {
      assert [] + [input] == [input] && [input][1..] == [];
      var x := c.write(s, input);
      assert x.out + "" == x.out && "" + x.out == x.out;
    } else {
      assert (inputs + [input])[1..] == inputs[1..] + [input];
      var x := c.write(s, inputs[0]);
      if x.err.None? {
        WritesSnoc(c, x.state, inputs[1..], input);
        var w := Writes(c, x.state, inputs[1..]);
        if w.err.None? {
          var y := c.write(w.state, input);
          assert x.out + (w.out + y.out) == (x.out + w.out) + y.out;
        }
      }
    }
  }

  lemma {:induction false} PassAllIsWrites<S>(c: ByteConverter<S>, s: S, inputs: seq<Bytes>)
    ensures var x := PassAll(Converted(c, s), inputs);
            var w := Writes(c, s, inputs);
            x.source == Converted(c, w.state) && x.out == w.out && x.err == w.err
    decreases |inputs|
  {
    if inputs != [] {
      var init, last := inputs[..|inputs| - 1], inputs[|inputs| - 1];
      assert init + [last] == inputs;
      PassAllIsWrites(c, s, init);
      WritesSnoc(c, s, init, last);
      var w := Writes(c, s, init);
      assert w.out + "" == w.out;
    }
  }

  /** What a converter passes on does not depend on how the body was read: it is what the converter
      gives for all of it at once. */
  lemma SentIgnoresReads<S(!new)>(c: ByteConverter<S>, inv: S -> bool, s: S, inputs: seq<Bytes>)
    requires ChunkLaw(c, inv) && inv(s) && PassAll(Converted(c, s), inputs).err.None?
    ensures var x := c.write(s, Flatten(inputs));
            x.err.None? && PassAll(Converted(c, s), inputs).out == x.out
  {
    PassAllIsWrites(c, s, inputs);
    WritesAreOne(c, inv, s, inputs);
  }

  /** Without a converter the bytes read are passed on unchanged. */
  lemma {:induction false} NativePassesAll<S>(s: Source<S>, inputs: seq<Bytes>)
    requires s.Native?
    ensures PassAll(s, inputs) == Passed(s, Flatten(inputs), None)
    decreases |inputs|
  {
    if inputs != [] {
      var init, last := inputs[..|inputs| - 1], inputs[|inputs| - 1];
      NativePassesAll(s, init);
      FlattenSnoc(init, last);
      assert init + [last] == inputs;
    }
  }

  lemma {:induction false} FlattenSnoc(inputs: seq<Bytes>, last: Bytes)
    ensures Flatten(inputs + [last]) == Flatten(inputs) + last
    decreases |inputs|
  {
    if inputs == [] {
      assert [] + [last] == [last] && [last][1..] == [];
      assert last + "" == last && "" + last == last;
    } else {
      assert (inputs + [last])[1..] == inputs[1..] + [last];
      FlattenSnoc(inputs[1..], last);
      assert inputs[0] + (Flatten(inputs[1..]) + last) == (inputs[0] + Flatten(inputs[1..])) + last;
    }
  }
}
