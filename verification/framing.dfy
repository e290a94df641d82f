/** The line and event framing every stream converter carries.

    The four converters of the gateway own the same `Write`, `Close`, `drain` and `processLine`;
    they differ only in what one completed event does.  `Machine` is that difference: how an event
    is processed, and what `Close` adds after draining.  Everything here holds for every machine.

    A byte is written as the character with the same code, so that ASCII tags can be spelled as
    string literals. */
module Framing {
  import opened Wrappers

  type Bytes = string

  const EVENT_TAG: Bytes := "event:"
  const DATA_TAG: Bytes := "data:"
  const DONE_MARK: Bytes := "[DONE]"

  datatype Error = Error(message: string)

  /** What one event does: the new converter core, the pending event and data it leaves behind
      (a finished converter leaves them as they are), the bytes it emits, and its error. */
  datatype Reaction<+S> = Reaction(core: S, event: Bytes, data: Bytes, out: Bytes, err: Option<Error>)

  datatype Machine<!S> = Machine(
    process: (S, Bytes, Bytes) -> Reaction<S>,
    atClose: (S, Option<Error>) -> (S, Option<Error>))

  /** A converter between two calls: unread bytes, the event being assembled, its core. */
  datatype Conv<+S> = Conv(lines: Bytes, event: Bytes, data: Bytes, core: S, closed: bool)

  datatype Run<+S> = Run(conv: Conv<S>, out: Bytes, err: Option<Error>)

  function Fresh<S>(core: S): Conv<S> {
    Conv("", "", "", core, false)
  }

  /** The position of the first line feed, or the length when there is none. */
  function LineEnd(b: Bytes): (n: nat)
    ensures n <= |b|
    ensures forall i :: 0 <= i < n ==> b[i] != '\n'
    ensures n < |b| ==> b[n] == '\n'
  {
    if b == "" || b[0] == '\n' then 0 else 1 + LineEnd(b[1..])
  }

  function TrimCR(line: Bytes): Bytes {
    if line != "" && line[|line| - 1] == '\r' then line[..|line| - 1] else line
  }

  function DropSpace(value: Bytes): Bytes {
    if value != "" && value[0] == ' ' then value[1..] else value
  }

  function Join(data: Bytes, value: Bytes): Bytes {
    if data != "" then data + "\n" + value else value
  }

  function ProcessEvent<S>(m: Machine<S>, c: Conv<S>): (r: Run<S>)
    ensures r.conv.lines == c.lines && r.conv.closed == c.closed
  {
    var x := m.process(c.core, c.event, c.data);
    Run(c.(core := x.core, event := x.event, data := x.data), if x.err.Some? then "" else x.out, x.err)
  }

  function ProcessLine<S>(m: Machine<S>, c: Conv<S>, line: Bytes): (r: Run<S>)
    ensures r.conv.lines == c.lines && r.conv.closed == c.closed
  {
    if line == "" then ProcessEvent(m, c)
    else if EVENT_TAG <= line then Run(c.(event := DropSpace(line[|EVENT_TAG|..])), "", None)
    else if DATA_TAG <= line then Run(c.(data := Join(c.data, DropSpace(line[|DATA_TAG|..]))), "", None)
    else Run(c, "", None)
  }

  /** Process every complete line of the buffer, up to the first error. */
  function DrainLines<S>(m: Machine<S>, c: Conv<S>): (r: Run<S>)
    ensures r.conv.closed == c.closed
    decreases |c.lines|
  {
    var n := LineEnd(c.lines);
    if n == |c.lines| then Run(c, "", None)
    else
      var x := ProcessLine(m, c.(lines := c.lines[n + 1..]), TrimCR(c.lines[..n]));
      if x.err.Some? then x
      else
        var y := DrainLines(m, x.conv);
        Run(y.conv, x.out + y.out, y.err)
  }

  /** A call of `Write`. */
  function Feed<S>(m: Machine<S>, c: Conv<S>, p: Bytes): Run<S> {
    if c.closed || p == "" then Run(c, "", None) else DrainLines(m, c.(lines := c.lines + p))
  }

  /** The unterminated last line, at the end of the input. */
  function DrainTail<S>(m: Machine<S>, c: Conv<S>): Run<S> {
    if c.lines == "" then Run(c, "", None) else ProcessLine(m, c.(lines := ""), TrimCR(c.lines))
  }

  /** The event that no empty line ended, at the end of the input. */
  function DrainEvent<S>(m: Machine<S>, c: Conv<S>): Run<S> {
    if c.data == "" && c.event == "" then Run(c, "", None) else ProcessEvent(m, c)
  }

  function Then<S>(r: Run<S>, next: Conv<S> -> Run<S>): Run<S> {
    if r.err.Some? then r
    else
      var x := next(r.conv);
      Run(x.conv, r.out + x.out, x.err)
  }

  function DrainEof<S>(m: Machine<S>, c: Conv<S>): Run<S> {
    Then(Then(DrainLines(m, c), d => DrainTail(m, d)), d => DrainEvent(m, d))
  }

  /** A call of `Close`. */
  function Finish<S>(m: Machine<S>, c: Conv<S>): Run<S> {
    if c.closed then Run(c, "", None)
    else
      var r := DrainEof(m, c.(closed := true));
      var z := m.atClose(r.conv.core, r.err);
      Run(r.conv.(core := z.0), r.out, z.1)
  }

  // --- Any chunking gives the same run ---

  /** Successive calls of `Write`, up to the first error. */
  function FeedAll<S>(m: Machine<S>, c: Conv<S>, chunks: seq<Bytes>): Run<S>
    decreases |chunks|
  {
    if chunks == [] then Run(c, "", None)
    else Then(Feed(m, c, chunks[0]), d => FeedAll(m, d, chunks[1..]))
  }

  /** A whole stream: the chunks, and `Close` unless a `Write` failed. */
  function Convert<S>(m: Machine<S>, c: Conv<S>, chunks: seq<Bytes>): Run<S> {
    Then(FeedAll(m, c, chunks), d => Finish(m, d))
  }

  function Flatten(chunks: seq<Bytes>): Bytes {
    if chunks == [] then "" else chunks[0] + Flatten(chunks[1..])
  }

  /** Between calls an error-free converter holds at most one unterminated line. */
  ghost predicate Quiet<S>(c: Conv<S>) {
    LineEnd(c.lines) == |c.lines|
  }

  lemma {:induction false} LineEndOfPrefix(a: Bytes, b: Bytes)
    requires LineEnd(a) < |a|
    ensures LineEnd(a + b) == LineEnd(a)
  {
    if a[0] != '\n' {
      assert (a + b)[1..] == a[1..] + b;
      LineEndOfPrefix(a[1..], b);
    }
  }

  lemma {:induction false} DrainLeavesQuiet<S>(m: Machine<S>, c: Conv<S>)
    ensures DrainLines(m, c).err.None? ==> Quiet(DrainLines(m, c).conv)
    decreases |c.lines|
  {
    var n := LineEnd(c.lines);
    if n < |c.lines| {
      var x := ProcessLine(m, c.(lines := c.lines[n + 1..]), TrimCR(c.lines[..n]));
      DrainLeavesQuiet(m, x.conv);
    }
  }

  /** More bytes arriving after a run of `DrainLines`; after an error they stay unread. */
  function DrainMore<S>(m: Machine<S>, r: Run<S>, q: Bytes): Run<S> {
    var c := r.conv.(lines := r.conv.lines + q);
    if r.err.Some? then r.(conv := c)
    else
      var x := DrainLines(m, c);
      Run(x.conv, r.out + x.out, x.err)
  }

  lemma LineIgnoresBuffer<S>(m: Machine<S>, c: Conv<S>, line: Bytes, lines: Bytes)
    ensures var x := ProcessLine(m, c, line);
            ProcessLine(m, c.(lines := lines), line) == x.(conv := x.conv.(lines := lines))
  {
  }

  lemma DrainFirst<S>(m: Machine<S>, c: Conv<S>)
    requires LineEnd(c.lines) < |c.lines|
    ensures var n := LineEnd(c.lines);
            var x := ProcessLine(m, c.(lines := c.lines[n + 1..]), TrimCR(c.lines[..n]));
            DrainLines(m, c) == if x.err.Some? then x else (var y := DrainLines(m, x.conv); Run(y.conv, x.out + y.out, y.err))
  {
    hide ProcessLine, TrimCR, LineEnd;
  }

  lemma DrainNothing<S>(m: Machine<S>, c: Conv<S>, q: Bytes)
    requires Quiet(c)
    ensures DrainMore(m, DrainLines(m, c), q) == DrainLines(m, c.(lines := c.lines + q))
  {
    assert DrainLines(m, c) == Run(c, "", None);
    hide DrainLines;
    var r := DrainLines(m, c.(lines := c.lines + q));
    assert "" + r.out == r.out;
  }

  /** Draining a buffer and then what is left of it followed by more bytes, is draining it all. */
  lemma {:induction false} DrainAppend<S>(m: Machine<S>, c: Conv<S>, q: Bytes)
    ensures DrainLines(m, c.(lines := c.lines + q)) == DrainMore(m, DrainLines(m, c), q)
    decreases |c.lines|
  {
    hide ProcessLine, TrimCR, LineEnd, DrainLines;
    var n := LineEnd(c.lines);
    if n == |c.lines| {
      DrainNothing(m, c, q);
    } else {
      var whole := c.(lines := c.lines + q);
      LineEndOfPrefix(c.lines, q);
      DrainFirst(m, c);
      DrainFirst(m, whole);
      var line := TrimCR(c.lines[..n]);
      assert whole.lines[..n] == c.lines[..n];
      assert whole.lines[n + 1..] == c.lines[n + 1..] + q;
      var x := ProcessLine(m, c.(lines := c.lines[n + 1..]), line);
      LineIgnoresBuffer(m, c.(lines := c.lines[n + 1..]), line, whole.lines[n + 1..]);
      if x.err.None? {
        DrainAppend(m, x.conv, q);
        var y := DrainLines(m, x.conv);
        if y.err.None? {
          var w := DrainLines(m, y.conv.(lines := y.conv.lines + q));
          assert x.out + (y.out + w.out) == (x.out + y.out) + w.out;
        }
      }
    }
  }

  lemma FeedTwice<S>(m: Machine<S>, c: Conv<S>, p: Bytes, q: Bytes)
    requires Quiet(c) && !c.closed
    ensures var r := Feed(m, c, p);
            && !r.conv.closed
            && (r.err.None? ==> Quiet(r.conv) && Feed(m, c, p + q) == (var z := Feed(m, r.conv, q); Run(z.conv, r.out + z.out, z.err)))
            && (r.err.Some? ==> Feed(m, c, p + q) == r.(conv := r.conv.(lines := r.conv.lines + q)))
  {
    hide DrainLines, LineEnd;
    assert c.lines + (p + q) == (c.lines + p) + q;
    if p == "" {
      assert p + q == q;
      var z := Feed(m, c, q);
      assert "" + z.out == z.out;
    } else {
      var b := c.(lines := c.lines + p);
      DrainAppend(m, b, q);
      DrainLeavesQuiet(m, b);
      var r := Feed(m, c, p);
      if q == "" {
        assert p + q == p && r.out + "" == r.out && r.conv.lines + "" == r.conv.lines;
      }
    }
  }

  /** How a byte stream is cut into `Write` calls never shows: same output, same first error,
      and the same converter state while there is no error. */
  lemma {:induction false} ChunkingIsInvisible<S>(m: Machine<S>, c: Conv<S>, chunks: seq<Bytes>)
    requires Quiet(c) && !c.closed
    ensures var one := Feed(m, c, Flatten(chunks));
            var many := FeedAll(m, c, chunks);
            && many.out == one.out && many.err == one.err
            && (one.err.None? ==> many.conv == one.conv && Quiet(one.conv) && !one.conv.closed)
    decreases |chunks|
  {
    if chunks != [] {
      var p, q := chunks[0], Flatten(chunks[1..]);
      FeedTwice(m, c, p, q);
      var r := Feed(m, c, p);
      if r.err.None? {
        ChunkingIsInvisible(m, r.conv, chunks[1..]);
      }
    }
  }

  lemma ConversionIgnoresChunking<S>(m: Machine<S>, c: Conv<S>, chunks: seq<Bytes>)
    requires Quiet(c) && !c.closed
    ensures var one := Convert(m, c, [Flatten(chunks)]);
            var many := Convert(m, c, chunks);
            many.out == one.out && many.err == one.err && (one.err.None? ==> many.conv == one.conv)
  {
    ChunkingIsInvisible(m, c, chunks);
    var all := Flatten(chunks);
    var r := Feed(m, c, all);
    assert r.out + "" == r.out;
    assert [all][1..] == [];
    assert FeedAll(m, c, [all]) == r;
  }
}
