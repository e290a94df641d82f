/** What the gateway's own printers write, and that the framing reads it back.

    JSON is a pair of functions, `Codec`: an encoding of a payload that is free of line breaks,
    and the decoding that undoes it.  Nothing else about JSON is used. */
module Frames {
  import opened Wrappers
  import opened Framing

  /** One printed event: an optional event name and one data line. */
  datatype Frame = Frame(event: Bytes, data: Bytes)

  datatype Codec<!P> = Codec(encode: P -> Bytes, decode: Bytes -> Option<P>)

  predicate Plain(b: Bytes) {
    forall i :: 0 <= i < |b| ==> b[i] != '\n' && b[i] != '\r'
  }

  ghost predicate Lawful<P(!new)>(c: Codec<P>) {
    forall p :: Plain(c.encode(p)) && c.encode(p) != "" && c.encode(p) != DONE_MARK && c.decode(c.encode(p)) == Some(p)
  }

  function Strokes(n: nat): Bytes {
    seq(n + 1, i => 'x')
  }

  /** A payload as its number in strokes: every countable type has a lawful codec. */
  function Tally<P>(number: P -> nat, back: nat -> Option<P>): Codec<P> {
    Codec(p => Strokes(number(p)), (b: Bytes) => if b == "" then None else back(|b| - 1))
  }

  lemma CountableTypesHaveCodecs<P(!new)>(number: P -> nat, back: nat -> Option<P>)
    requires forall p :: back(number(p)) == Some(p)
    ensures Lawful(Tally(number, back))
  {
    var c := Tally(number, back);
    forall p ensures Plain(c.encode(p)) && c.encode(p) != "" && c.encode(p) != DONE_MARK && c.decode(c.encode(p)) == Some(p) {
      assert c.encode(p)[0] == 'x' && DONE_MARK[0] == '[';
    }
  }

  function PrintFrame(f: Frame): Bytes {
    (if f.event == "" then "" else EVENT_TAG + " " + f.event + "\n") + DATA_TAG + " " + f.data + "\n\n"
  }

  function PrintFrames(fs: seq<Frame>): Bytes {
    if fs == [] then "" else PrintFrame(fs[0]) + PrintFrames(fs[1..])
  }

  predicate PlainFrames(fs: seq<Frame>) {
    forall i :: 0 <= i < |fs| ==> Plain(fs[i].event) && Plain(fs[i].data)
  }

  /** The effect of one frame on a converter that is between two events. */
  function Absorb<S>(m: Machine<S>, c: Conv<S>, f: Frame): Run<S> {
    ProcessEvent(m, c.(event := if f.event == "" then c.event else f.event, data := Join(c.data, f.data)))
  }

  function RunFrames<S>(m: Machine<S>, c: Conv<S>, fs: seq<Frame>): (r: Run<S>)
    ensures r.conv.closed == c.closed
    decreases |fs|
  {
    if fs == [] then Run(c, "", None)
    else
      var x := Absorb(m, c, fs[0]);
      if x.err.Some? then x
      else
        var y := RunFrames(m, x.conv, fs[1..]);
        Run(y.conv, x.out + y.out, y.err)
  }

  lemma PrintAppend(a: seq<Frame>, b: seq<Frame>)
    ensures PrintFrames(a + b) == PrintFrames(a) + PrintFrames(b)
  {
    if a == [] {
      assert a + b == b;
    } else {
      assert (a + b)[1..] == a[1..] + b;
      PrintAppend(a[1..], b);
      var x, y, z := PrintFrame(a[0]), PrintFrames(a[1..]), PrintFrames(b);
      assert x + (y + z) == (x + y) + z;
    }
  }

  // --- Reading a printed line ---

  lemma {:induction false} LineEndOfLine(line: Bytes, rest: Bytes)
    requires Plain(line)
    ensures LineEnd(line + "\n" + rest) == |line|
  {
    var b := line + "\n" + rest;
    if line == "" {
      assert b[0] == '\n';
    } else {
      assert b[0] == line[0];
      assert b[1..] == line[1..] + "\n" + rest;
      LineEndOfLine(line[1..], rest);
    }
  }

  function Follow<S>(m: Machine<S>, x: Run<S>): Run<S> {
    if x.err.Some? then x
    else
      var y := DrainLines(m, x.conv);
      Run(y.conv, x.out + y.out, y.err)
  }

  lemma DrainLine<S>(m: Machine<S>, c: Conv<S>, line: Bytes, rest: Bytes)
    requires Plain(line) && c.lines == line + "\n" + rest
    ensures DrainLines(m, c) == Follow(m, ProcessLine(m, c.(lines := rest), line))
  {
    hide ProcessLine;
    LineEndOfLine(line, rest);
    var n := |line|;
    assert c.lines[..n] == line;
    assert c.lines[n + 1..] == rest;
    assert TrimCR(line) == line by {
      if line != "" {
        assert line[|line| - 1] != '\r';
      }
    }
  }

  lemma TaggedLine<S>(m: Machine<S>, c: Conv<S>, value: Bytes)
    requires Plain(value)
    ensures Plain(EVENT_TAG + " " + value) && Plain(DATA_TAG + " " + value)
    ensures ProcessLine(m, c, EVENT_TAG + " " + value) == Run(c.(event := value), "", None)
    ensures ProcessLine(m, c, DATA_TAG + " " + value) == Run(c.(data := Join(c.data, value)), "", None)
  {
    var e, d := EVENT_TAG + " " + value, DATA_TAG + " " + value;
    assert EVENT_TAG <= e && DATA_TAG <= d;
    assert e[|EVENT_TAG|..] == " " + value && d[|DATA_TAG|..] == " " + value;
    assert (" " + value)[1..] == value;
    assert d[0] == 'd';
    assert !(EVENT_TAG <= d) by { assert EVENT_TAG[0] == 'e'; }
  }

  lemma {:induction false} EmptyLine<S>(m: Machine<S>, c: Conv<S>)
    ensures ProcessLine(m, c, "") == ProcessEvent(m, c)
  {
  }

  /** A printed frame is read back as the same name and data, whatever follows it. */
  lemma {:induction false} DrainFrame<S>(m: Machine<S>, c: Conv<S>, f: Frame, rest: Bytes)
    requires Plain(f.event) && Plain(f.data) && c.lines == PrintFrame(f) + rest
    ensures DrainLines(m, c) == Follow(m, Absorb(m, c.(lines := rest), f))
  {
    hide ProcessLine, ProcessEvent, DrainLines, Join;
    var dataLine := DATA_TAG + " " + f.data;
    var tail := dataLine + "\n" + ("\n" + rest);
    var c1 := c.(lines := tail);
    if f.event != "" {
      var line := EVENT_TAG + " " + f.event;
      assert c.lines == line + "\n" + tail;
      TaggedLine(m, c.(lines := tail), f.event);
      DrainLine(m, c, line, tail);
      c1 := c.(lines := tail, event := f.event);
      assert DrainLines(m, c) == DrainLines(m, c1) by {
        var y := DrainLines(m, c1);
        assert "" + y.out == y.out;
      }
    } else {
      assert c.lines == tail;
    }
    var c2 := c1.(lines := "\n" + rest, data := Join(c1.data, f.data));
    assert DrainLines(m, c1) == DrainLines(m, c2) by {
      TaggedLine(m, c1.(lines := "\n" + rest), f.data);
      DrainLine(m, c1, dataLine, "\n" + rest);
      var y := DrainLines(m, c2);
      assert "" + y.out == y.out;
    }
    assert c2.lines == "" + "\n" + rest;
    DrainLine(m, c2, "", rest);
    EmptyLine(m, c2.(lines := rest));
  }

  lemma FrameIgnoresBuffer<S>(m: Machine<S>, c: Conv<S>, f: Frame, lines: Bytes)
    ensures Absorb(m, c.(lines := lines), f).out == Absorb(m, c, f).out
    ensures Absorb(m, c.(lines := lines), f).err == Absorb(m, c, f).err
    ensures Absorb(m, c.(lines := lines), f).conv == Absorb(m, c, f).conv.(lines := lines)
    ensures Absorb(m, c, f).conv.lines == c.lines
  {
  }

  /** Reading printed frames is running the machine on the frames. */
  lemma {:induction false} DrainFrames<S>(m: Machine<S>, c: Conv<S>, fs: seq<Frame>)
    requires c.lines == "" && PlainFrames(fs)
    ensures var r := DrainLines(m, c.(lines := PrintFrames(fs)));
            var x := RunFrames(m, c, fs);
            r.out == x.out && r.err == x.err && (x.err.None? ==> r.conv == x.conv && x.conv.lines == "")
    decreases |fs|
  {
    if fs != [] {
      hide Absorb, DrainLines, PrintFrame, Plain;
      var rest := PrintFrames(fs[1..]);
      assert Plain(fs[0].event) && Plain(fs[0].data);
      assert PlainFrames(fs[1..]);
      DrainFrame(m, c.(lines := PrintFrame(fs[0]) + rest), fs[0], rest);
      FrameIgnoresBuffer(m, c, fs[0], rest);
      var x := Absorb(m, c, fs[0]);
      if x.err.None? {
        DrainFrames(m, x.conv, fs[1..]);
      }
    } else {
      assert DrainLines(m, c.(lines := "")) == Run(c, "", None);
    }
  }

  /** A whole printed stream: `Close` finds nothing left to read. */
  lemma ConvertFrames<S>(m: Machine<S>, core: S, fs: seq<Frame>)
    requires PlainFrames(fs)
    ensures var x := RunFrames(m, Fresh(core), fs);
            var r := Convert(m, Fresh(core), [PrintFrames(fs)]);
            && r.out == x.out + (if x.err.None? then Finish(m, x.conv).out else "")
            && r.err == (if x.err.None? then Finish(m, x.conv).err else x.err)
            && (x.err.None? ==> r.conv == Finish(m, x.conv).conv)
  {
    var c := Fresh(core);
    var all := PrintFrames(fs);
    DrainFrames(m, c, fs);
    var x := RunFrames(m, c, fs);
    assert [all][1..] == [] && "" + all == all;
    var r := Feed(m, c, all);
    assert r.out + "" == r.out;
    assert FeedAll(m, c, [all]) == r;
    if all == "" {
      assert DrainLines(m, c) == Run(c, "", None);
    }
    assert x.out + "" == x.out;
  }
}
