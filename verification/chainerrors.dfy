/** Which error a chain of converters reports.

    A failing call drops its output, so how the input is cut decides what reaches the later
    converters before an earlier one fails.  `Deliver` keeps the outputs of the calls apart; with it
    the error of a chain is given exactly, for any chunks and any number of steps, and so is the
    case in which it depends on the chunks. */
module ChainErrors {
  import opened Wrappers
  import opened Framing
  import opened Composition
  import opened Chain
  import opened Frames
  import opened EventMachine
  import opened StreamEvents
  import opened Pipeline
  import MR = MessagesToResponses
  import RC = ResponsesToChat

  // --- What the calls give one by one ---

  datatype Delivery<+S> = Delivery(state: S, outs: seq<Bytes>, err: Option<Error>)

  /** The outputs of the successful calls: a `write` for each chunk, and the `close` if asked for. */
  function Deliver<S>(c: ByteConverter<S>, s: S, chunks: seq<Bytes>, closing: bool): Delivery<S>
    decreases |chunks|
  {
    if chunks == [] && !closing then Delivery(s, [], None)
    else
      var x := if chunks == [] then c.close(s) else c.write(s, chunks[0]);
      if x.err.Some? then Delivery(x.state, [], x.err)
      else if chunks == [] then Delivery(x.state, [x.out], None)
      else
        var y := Deliver(c, x.state, chunks[1..], closing);
        y.(outs := [x.out] + y.outs)
  }

  lemma FlattenMore(x: Bytes, outs: seq<Bytes>)
    ensures Flatten([x] + outs) == x + Flatten(outs)
  {
    assert ([x] + outs)[1..] == outs;
  }

  /** Together the deliveries are the stream's output. */
  lemma {:induction false} DeliveredTogether<S>(c: ByteConverter<S>, s: S, chunks: seq<Bytes>)
    ensures var d := Deliver(c, s, chunks, false); Writes(c, s, chunks) == Call(d.state, Flatten(d.outs), d.err)
    ensures var d := Deliver(c, s, chunks, true); Whole(c, s, chunks) == Call(d.state, Flatten(d.outs), d.err)
    decreases |chunks|
  {
    if chunks == [] {
      OneChunk(c.close(s).out);
    } else {
      var x := c.write(s, chunks[0]);
      if x.err.None? {
        DeliveredTogether(c, x.state, chunks[1..]);
        FlattenMore(x.out, Deliver(c, x.state, chunks[1..], false).outs);
        FlattenMore(x.out, Deliver(c, x.state, chunks[1..], true).outs);
        var w := Writes(c, x.state, chunks[1..]);
        var z := c.close(w.state);
        assert x.out + (w.out + z.out) == (x.out + w.out) + z.out;
      }
    }
  }

  // --- The error of a chain ---

  /** Two converters in a row: the second runs on what the first delivers, and its error comes
      first; the first one's error ends the chain otherwise. */
  lemma {:induction false} ComposedDelivers<S, T(!new)>(a: ByteConverter<S>, b: ByteConverter<T>, ib: T -> bool, s: S, t: T, chunks: seq<Bytes>, closing: bool)
    requires ChunkLaw(b, ib) && ib(t)
    ensures var chained := Deliver(Compose(a, b), (s, t), chunks, closing);
            var first := Deliver(a, s, chunks, closing);
            var second := Deliver(b, t, first.outs, closing && first.err.None?);
            && chained.err == (if second.err.Some? then second.err else first.err)
            && (!closing ==> chained.outs == second.outs)
    decreases |chunks|
  {
    if chunks == [] {
      assert closing ==> b.write(t, "") == Call(t, "", None);
    } else {
      var x := a.write(s, chunks[0]);
      if x.err.None? {
        var y := b.write(t, x.out);
        assert Splits(b, ib, t, x.out, "");
        var rest := Deliver(a, x.state, chunks[1..], closing);
        assert ([x.out] + rest.outs)[1..] == rest.outs;
        if y.err.None? {
          ComposedDelivers(a, b, ib, x.state, y.state, chunks[1..], closing);
        }
      }
    }
  }

  /** The error of the last step that fails, when every step is run on what the one before delivers
      and is closed only if that one was. */
  function LastError<S>(steps: seq<ByteConverter<S>>, states: seq<S>, chunks: seq<Bytes>, closing: bool): Option<Error>
    requires |states| == |steps|
    decreases |steps|
  {
    if steps == [] then None
    else
      var x := Deliver(steps[0], states[0], chunks, closing);
      var later := LastError(steps[1..], states[1..], x.outs, closing && x.err.None?);
      if later.Some? then later else x.err
  }

  lemma {:induction false} NestedDelivers<S>(steps: seq<ByteConverter<S>>, states: seq<S>, chunks: seq<Bytes>, closing: bool)
    requires steps != [] && |states| == |steps|
    ensures Deliver(ChainOf(steps), states, chunks, closing).err == Deliver(Compose(steps[0], ChainOf(steps[1..])), (states[0], states[1..]), chunks, closing).err
    decreases |chunks|
  {
    hide ChainWrite, ChainClose;
    if chunks == [] {
      ChainIsNested(steps, states, "");
    } else {
      ChainIsNested(steps, states, chunks[0]);
      var x := ChainOf(steps).write(states, chunks[0]);
      var y := Compose(steps[0], ChainOf(steps[1..])).write((states[0], states[1..]), chunks[0]);
      assert x.state[1..] == y.state.1;
      WriteKeepsCount(steps, states, chunks[0]);
      if x.err.None? {
        NestedDelivers(steps, x.state, chunks[1..], closing);
      }
    }
  }

  lemma WriteKeepsCount<S>(steps: seq<ByteConverter<S>>, states: seq<S>, p: Bytes)
    requires |states| == |steps|
    ensures |ChainOf(steps).write(states, p).state| == |steps|
  {
    hide ChainWrite;
  }

  /** A chain of any number of steps, for any chunks, reports exactly that error. */
  lemma {:induction false} ChainReports<S(!new)>(steps: seq<ByteConverter<S>>, inv: S -> bool, states: seq<S>, chunks: seq<Bytes>, closing: bool)
    requires (forall i :: 0 <= i < |steps| ==> ChunkLaw(steps[i], inv)) && StatesOk(steps, inv, states)
    ensures Deliver(ChainOf(steps), states, chunks, closing).err == LastError(steps, states, chunks, closing)
    decreases |steps|
  {
    hide ChainWrite, ChainClose, ChunkLaw;
    if steps == [] {
      EmptyDelivers<S>(chunks, closing);
    } else {
      NestedDelivers(steps, states, chunks, closing);
      ChainHasLaw(steps[1..], inv);
      ComposedDelivers(steps[0], ChainOf(steps[1..]), ChainInv(steps[1..], inv), states[0], states[1..], chunks, closing);
      var x := Deliver(steps[0], states[0], chunks, closing);
      ChainReports(steps[1..], inv, states[1..], x.outs, closing && x.err.None?);
    }
  }

  lemma {:induction false} EmptyDelivers<S>(chunks: seq<Bytes>, closing: bool)
    ensures var none: seq<ByteConverter<S>> := []; Deliver(ChainOf(none), [], chunks, closing).err == None
    decreases |chunks|
  {
    if chunks != [] {
      EmptyChain<S>(chunks[0]);
      EmptyDelivers<S>(chunks[1..], closing);
    }
  }

  // --- Converters whose error no chunking changes ---

  ghost predicate SameError<S(!new)>(c: ByteConverter<S>, s: S, p: Bytes, q: Bytes) {
    var x := c.write(s, p);
    c.write(s, p + q).err == if x.err.Some? then x.err else c.write(x.state, q).err
  }

  /** The chunk law with the error: it holds of one converter, not of a chain. */
  ghost predicate ExactLaw<S(!new)>(c: ByteConverter<S>, inv: S -> bool) {
    ChunkLaw(c, inv) && forall s, p, q :: inv(s) ==> SameError(c, s, p, q)
  }

  lemma SingleIsExact<S(!new)>(m: Machine<S>)
    ensures ExactLaw(Single(m), (c: Conv<S>) => Open(c))
  {
    hide DrainLines, LineEnd, Splits, Feed;
    var inv := (c: Conv<S>) => Open(c);
    SingleHasLaw(m);
    forall c: Conv<S>, p, q | inv(c) ensures SameError(Single(m), c, p, q) {
      assert Quiet(c);
      FeedTwice(m, c, p, q);
    }
  }

  lemma {:induction false} ExactWrites<S(!new)>(c: ByteConverter<S>, inv: S -> bool, s: S, chunks: seq<Bytes>)
    requires ExactLaw(c, inv) && inv(s)
    ensures Writes(c, s, chunks).err == c.write(s, Flatten(chunks)).err
    decreases |chunks|
  {
    if chunks != [] {
      var q := Flatten(chunks[1..]);
      var x := c.write(s, chunks[0]);
      assert SameError(c, s, chunks[0], q) && Splits(c, inv, s, chunks[0], q);
      if x.err.None? {
        ExactWrites(c, inv, x.state, chunks[1..]);
      }
    } else {
      assert c.write(s, "") == Call(s, "", None);
    }
  }

  lemma ExactWhole<S(!new)>(c: ByteConverter<S>, inv: S -> bool, s: S, chunks: seq<Bytes>)
    requires ExactLaw(c, inv) && inv(s)
    ensures Whole(c, s, chunks).err == Whole(c, s, [Flatten(chunks)]).err
  {
    ExactWrites(c, inv, s, chunks);
    WritesAreOne(c, inv, s, chunks);
    WholeOfOne(c, s, Flatten(chunks));
  }

  /** What two conversions in a row report: when the first fails, the error of the second on what it
      was given before, or else that of the first; when the first does not fail, the error of the
      second on the whole output of the first. */
  function Reported<S, T>(a: ByteConverter<S>, b: ByteConverter<T>, s: S, t: T, chunks: seq<Bytes>): Option<Error> {
    var first := Whole(a, s, chunks);
    var given := b.write(t, first.out);
    if first.err.None? then Whole(b, t, [first.out]).err
    else if given.err.Some? then given.err
    else first.err
  }

  lemma ComposedReports<S, T(!new)>(a: ByteConverter<S>, b: ByteConverter<T>, ib: T -> bool, s: S, t: T, chunks: seq<Bytes>)
    requires ExactLaw(b, ib) && ib(t)
    ensures Whole(Compose(a, b), (s, t), chunks).err == Reported(a, b, s, t, chunks)
  {
    ComposedDelivers(a, b, ib, s, t, chunks, true);
    DeliveredTogether(Compose(a, b), (s, t), chunks);
    DeliveredTogether(a, s, chunks);
    var first := Deliver(a, s, chunks, true);
    DeliveredTogether(b, t, first.outs);
    ExactWrites(b, ib, t, first.outs);
    ExactWhole(b, ib, t, first.outs);
  }

  /** When no step before the last fails on the whole stream, a chain of any length reports the error
      of the last on what the others make of the stream, whatever the chunks. */
  lemma {:induction false} LastReports<S(!new)>(steps: seq<ByteConverter<S>>, inv: S -> bool, states: seq<S>, chunks: seq<Bytes>)
    requires (forall i :: 0 <= i < |steps| ==> ExactLaw(steps[i], inv)) && StatesOk(steps, inv, states) && steps != []
    requires Successive(steps[..|steps| - 1], states[..|steps| - 1], Flatten(chunks)).Some?
    ensures var n := |steps| - 1;
            var given := Successive(steps[..n], states[..n], Flatten(chunks)).value;
            Whole(ChainOf(steps), states, chunks).err == Whole(steps[n], states[n], [given]).err
  {
    hide ChainWrite, ChainClose, ExactLaw, ChunkLaw;
    forall i | 0 <= i < |steps| ensures ChunkLaw(steps[i], inv) {
      ExactIsLaw(steps[i], inv);
    }
    ChainReports(steps, inv, states, chunks, true);
    DeliveredTogether(ChainOf(steps), states, chunks);
    LastIsLast(steps, inv, states, chunks);
  }

  lemma ExactIsLaw<S(!new)>(c: ByteConverter<S>, inv: S -> bool)
    requires ExactLaw(c, inv)
    ensures ChunkLaw(c, inv)
  {
  }

  lemma {:induction false} LastIsLast<S(!new)>(steps: seq<ByteConverter<S>>, inv: S -> bool, states: seq<S>, chunks: seq<Bytes>)
    requires (forall i :: 0 <= i < |steps| ==> ExactLaw(steps[i], inv)) && StatesOk(steps, inv, states) && steps != []
    requires Successive(steps[..|steps| - 1], states[..|steps| - 1], Flatten(chunks)).Some?
    ensures var n := |steps| - 1;
            var given := Successive(steps[..n], states[..n], Flatten(chunks)).value;
            LastError(steps, states, chunks, true) == Whole(steps[n], states[n], [given]).err
    decreases |steps|
  {
    hide ExactLaw, ChunkLaw, Whole;
    var n := |steps| - 1;
    var x := Deliver(steps[0], states[0], chunks, true);
    ExactIsLaw(steps[0], inv);
    ExactWhole(steps[0], inv, states[0], chunks);
    WholeIgnoresChunking(steps[0], inv, states[0], chunks);
    DeliveredTogether(steps[0], states[0], chunks);
    if n == 0 {
      assert LastError(steps[1..], states[1..], x.outs, x.err.None?) == None;
    } else {
      assert steps[..n][0] == steps[0] && states[..n][0] == states[0];
      assert steps[..n][1..] == steps[1..][..n - 1] && states[..n][1..] == states[1..][..n - 1];
      LastIsLast(steps[1..], inv, states[1..], x.outs);
    }
  }

  // --- When the chunks decide ---

  function Bytewise(b: Bytes): (chunks: seq<Bytes>)
    ensures Flatten(chunks) == b
  {
    if b == "" then []
    else
      FlattenMore([b[0]], Bytewise(b[1..]));
      [[b[0]]] + Bytewise(b[1..])
  }

  /** A single byte ends at most one line, so a failing call has nothing to drop. */
  lemma OneByteFails<S>(m: Machine<S>, c: Conv<S>, byte: char)
    requires Open(c)
    ensures Feed(m, c, [byte]).err.Some? ==> Feed(m, c, [byte]).out == ""
  {
    hide ProcessLine;
    var d := c.(lines := c.lines + [byte]);
    LineEndOfLast(c.lines, byte);
    if byte == '\n' {
      DrainFirst(m, d);
      FailsSilently(m, d.(lines := ""), TrimCR(c.lines));
      assert d.lines[|c.lines| + 1..] == "" && d.lines[..|c.lines|] == c.lines;
    }
  }

  lemma FailsSilently<S>(m: Machine<S>, c: Conv<S>, line: Bytes)
    ensures ProcessLine(m, c, line).err.Some? ==> ProcessLine(m, c, line).out == ""
  {
  }

  lemma {:induction false} LineEndOfLast(b: Bytes, byte: char)
    requires LineEnd(b) == |b|
    ensures LineEnd(b + [byte]) == if byte == '\n' then |b| else |b| + 1
  {
    if b != "" {
      assert (b + [byte])[1..] == b[1..] + [byte];
      LineEndOfLast(b[1..], byte);
    }
  }

  /** Written byte by byte, a stream delivers everything that comes before its error. */
  lemma {:induction false} BytewiseDeliversAll<S>(m: Machine<S>, c: Conv<S>, b: Bytes)
    requires Open(c)
    ensures Writes(Single(m), c, Bytewise(b)).out == Feed(m, c, b).out
    decreases |b|
  {
    hide Feed, LineEnd;
    if b == "" {
      FeedNothing(m, c);
    } else {
      assert [b[0]] + b[1..] == b;
      assert Bytewise(b)[1..] == Bytewise(b[1..]);
      FeedTwice(m, c, [b[0]], b[1..]);
      OneByteFails(m, c, b[0]);
      var r := Feed(m, c, [b[0]]);
      if r.err.None? {
        BytewiseDeliversAll(m, r.conv, b[1..]);
      }
    }
  }

  lemma FeedNothing<S>(m: Machine<S>, c: Conv<S>)
    ensures Feed(m, c, "") == Run(c, "", None)
  {
  }

  /** Other chunks deliver the beginning of it. */
  lemma {:induction false} ChunksDeliverPrefix<S>(m: Machine<S>, c: Conv<S>, chunks: seq<Bytes>)
    requires Open(c)
    ensures Writes(Single(m), c, chunks).out <= Feed(m, c, Flatten(chunks)).out
    ensures Writes(Single(m), c, chunks).err == Feed(m, c, Flatten(chunks)).err
    decreases |chunks|
  {
    hide Feed, LineEnd;
    if chunks == [] {
      FeedNothing(m, c);
    } else {
      FeedTwice(m, c, chunks[0], Flatten(chunks[1..]));
      var r := Feed(m, c, chunks[0]);
      if r.err.None? {
        ChunksDeliverPrefix(m, r.conv, chunks[1..]);
      }
    }
  }

  /** An error on a beginning is the error on the whole. */
  lemma EarlyErrorStays<T(!new)>(b: ByteConverter<T>, ib: T -> bool, t: T, given: Bytes, all: Bytes)
    requires ExactLaw(b, ib) && ib(t) && given <= all && b.write(t, given).err.Some?
    ensures b.write(t, all).err == b.write(t, given).err
  {
    assert SameError(b, t, given, all[|given|..]);
    assert given + all[|given|..] == all;
  }

  /** A stream that fails in one converter: the chain reports that error, or one of the second
      converter's that comes before it, which is then the error on everything before the failure. */
  lemma FailedReports<S(!new), T(!new)>(m: Machine<S>, b: ByteConverter<T>, ib: T -> bool, c: Conv<S>, t: T, chunks: seq<Bytes>)
    requires ExactLaw(b, ib) && ib(t) && Open(c) && Feed(m, c, Flatten(chunks)).err.Some?
    ensures var run := Feed(m, c, Flatten(chunks));
            var err := Whole(Compose(Single(m), b), (c, t), chunks).err;
            err == run.err || (err.Some? && err == b.write(t, run.out).err)
  {
    hide Feed, ExactLaw, Open, Writes, Single, Compose;
    ComposedReports(Single(m), b, ib, c, t, chunks);
    ChunksDeliverPrefix(m, c, chunks);
    var given := Writes(Single(m), c, chunks).out;
    if b.write(t, given).err.Some? {
      EarlyErrorStays(b, ib, t, given, Feed(m, c, Flatten(chunks)).out);
    }
  }

  lemma OneChunkReports<S(!new), T(!new)>(m: Machine<S>, b: ByteConverter<T>, ib: T -> bool, c: Conv<S>, t: T, all: Bytes)
    requires ExactLaw(b, ib) && ib(t) && Open(c) && Feed(m, c, all).err.Some?
    ensures Whole(Compose(Single(m), b), (c, t), [all]).err == Feed(m, c, all).err
  {
    hide Feed;
    ComposedReports(Single(m), b, ib, c, t, [all]);
    WholeOfOne(Single(m), c, all);
    assert b.write(t, "") == Call(t, "", None);
  }

  lemma BytewiseReports<S(!new), T(!new)>(m: Machine<S>, b: ByteConverter<T>, ib: T -> bool, c: Conv<S>, t: T, all: Bytes)
    requires ExactLaw(b, ib) && ib(t) && Open(c) && Feed(m, c, all).err.Some?
    ensures var run := Feed(m, c, all);
            var given := b.write(t, run.out).err;
            Whole(Compose(Single(m), b), (c, t), Bytewise(all)).err == if given.Some? then given else run.err
  {
    hide Feed;
    ComposedReports(Single(m), b, ib, c, t, Bytewise(all));
    BytewiseDeliversAll(m, c, all);
    ChunksDeliverPrefix(m, c, Bytewise(all));
  }

  /** The first converter's writes succeed: the chunks make no difference, at `close` either. */
  lemma SteadyReports<S(!new), T(!new)>(m: Machine<S>, b: ByteConverter<T>, ib: T -> bool, c: Conv<S>, t: T, chunks: seq<Bytes>)
    requires ExactLaw(b, ib) && ib(t) && Open(c) && Feed(m, c, Flatten(chunks)).err.None?
    ensures Whole(Compose(Single(m), b), (c, t), chunks).err == Whole(Compose(Single(m), b), (c, t), [Flatten(chunks)]).err
  {
    hide Feed, LineEnd;
    var all := Flatten(chunks);
    SingleHasLaw(m);
    WritesAreOne(Single(m), (d: Conv<S>) => Open(d), c, chunks);
    WholeOfOne(Single(m), c, all);
    ComposedReports(Single(m), b, ib, c, t, chunks);
    ComposedReports(Single(m), b, ib, c, t, [all]);
  }

  /** The error of two converters in a row is the same for every way to cut the stream exactly when
      the first does not fail while it is written, or the second has no other error on what the
      first gives before failing. */
  lemma ErrorIgnoresChunksExactly<S(!new), T(!new)>(m: Machine<S>, b: ByteConverter<T>, ib: T -> bool, c: Conv<S>, t: T, all: Bytes)
    requires ExactLaw(b, ib) && ib(t) && Open(c)
    ensures var chain := Compose(Single(m), b);
            var run := Feed(m, c, all);
            var given := b.write(t, run.out).err;
            (forall chunks :: Flatten(chunks) == all ==> Whole(chain, (c, t), chunks).err == Whole(chain, (c, t), [all]).err)
            <==> (run.err.None? || given.None? || given == run.err)
  {
    hide Feed, Whole, ExactLaw, LineEnd;
    var chain := Compose(Single(m), b);
    var run := Feed(m, c, all);
    var given := b.write(t, run.out).err;
    if run.err.None? {
      forall chunks | Flatten(chunks) == all ensures Whole(chain, (c, t), chunks).err == Whole(chain, (c, t), [all]).err {
        SteadyReports(m, b, ib, c, t, chunks);
      }
    } else {
      OneChunkReports(m, b, ib, c, t, all);
      BytewiseReports(m, b, ib, c, t, all);
      assert Flatten(Bytewise(all)) == all;
      if given.None? || given == run.err {
        forall chunks | Flatten(chunks) == all ensures Whole(chain, (c, t), chunks).err == Whole(chain, (c, t), [all]).err {
          FailedReports(m, b, ib, c, t, chunks);
        }
      }
    }
  }

  // --- A stream whose error depends on its chunks ---

  function BlockOf(kind: BlockKind): MPart {
    NO_PART.(kind := kind, id := "toolu_1", name := "search")
  }

  /** A text block, a tool call and a thinking block begin. */
  function ThreeBlocks(): seq<Event<MPayload>> {
    [BlockEvent(BText), BlockEvent(BToolUse), BlockEvent(BOther("thinking"))]
  }

  function BlockEvent(kind: BlockKind): Event<MPayload> {
    Event("content_block_start", Payload(Plainly(MBlockStart).(block := Some(BlockOf(kind)))))
  }

  const THINKING := Some(Error("unsupported stream content block type"))
  const MIXED := Some(Error("message and function_call output items cannot be mixed"))

  lemma ThreeBlocksRun(v: EventConverter<MR.State, MPayload, RPayload>, id: string)
    requires v.step == MR.Step && v.resting == ((s: MR.State) => s.terminal)
    ensures var x := RunEvents(v, MR.Init(id), ThreeBlocks());
            && x.err == THINKING && |x.out| == 3
            && x.out[0] == MR.ItemAdded(0, Item(KMessage, Numbered("msg_", 0), "", ""))
            && x.out[1] == Bare(RPartAdded).(outputIndex := 0, part := Part(POutputText, false))
            && x.out[2] == MR.ItemAdded(1, Item(KFunctionCall, "toolu_1", "toolu_1", "search"))
  {
    hide Numbered;
    var es, s := ThreeBlocks(), MR.Init(id);
    assert es[1..] == [es[1], es[2]];
    var x := React(v, s, es[0]);
    RunTwo(v, x.core, es[1], es[2]);
  }

  /** A message and then a call: the second converter refuses the call. */
  lemma MixRefused(w: EventConverter<RC.State, RPayload, ChatOut>, ps: seq<RPayload>)
    requires w.step == RC.Step && w.resting == ((s: RC.State) => s.terminal)
    requires |ps| == 3 && ps[0].typ == RItemAdded && ps[0].item.kind == KMessage
    requires ps[1] == Bare(RPartAdded).(outputIndex := 0, part := Part(POutputText, false))
    requires ps[2].typ == RItemAdded && ps[2].item.kind == KFunctionCall
    ensures RunEvents(w, RC.Init(), ResponsesEvents(ps)).err == MIXED
  {
    hide RTypeOf, RName;
    NamesAreRead(RItemAdded);
    NamesAreRead(RPartAdded);
    assert RName(RItemAdded) != "" && RName(RPartAdded) != "" by {
      NotEmpty();
    }
    var es, s := ResponsesEvents(ps), RC.Init();
    assert es == [es[0], es[1], es[2]];
    assert es[1..] == [es[1], es[2]];
    var x := React(w, s, es[0]);
    RunTwo(w, x.core, es[1], es[2]);
  }

  lemma NotEmpty()
    ensures RName(RItemAdded) != "" && RName(RPartAdded) != ""
  {
  }

  /** Messages to Chat: written at once the stream fails for its thinking block, written byte by byte
      for mixing text and calls. */
  lemma ChunksDecideTheError(messages: Codec<MPayload>, responses: Codec<RPayload>, chat: Codec<ChatPayload>, id: string)
    requires Lawful(messages) && Lawful(responses)
    ensures var a, b := MachineOf(MR.Converter(messages, responses)), MachineOf(RC.Converter(responses, chat));
            var chain, start := Compose(Single(a), Single(b)), (Fresh(MR.Init(id)), Fresh(RC.Init()));
            var all := PrintFrames(FramesOf(messages, ThreeBlocks()));
            && Whole(chain, start, [all]).err == THINKING
            && Whole(chain, start, Bytewise(all)).err == MIXED
            && THINKING != MIXED
  {
    hide MachineOf, Whole, ExactLaw, Feed, Lawful, RunEvents, PrintFrames, Writes;
    var v, w := MR.Converter(messages, responses), RC.Converter(responses, chat);
    var a, b := MachineOf(v), MachineOf(w);
    var all := PrintFrames(FramesOf(messages, ThreeBlocks()));
    ThreeBlocksRun(v, id);
    assert Carried(ThreeBlocks()) by {
      MessageNamesArePlain(MBlockStart);
    }
    FeedEvents(v, MR.Init(id), ThreeBlocks());
    var out := RunEvents(v, MR.Init(id), ThreeBlocks()).out;
    MixRefused(w, out);
    ResponsesArePrinted(v, w, out);
    FeedEvents(w, RC.Init(), ResponsesEvents(out));
    SingleIsExact(b);
    OneChunkReports(a, Single(b), (c: Conv<RC.State>) => Open(c), Fresh(MR.Init(id)), Fresh(RC.Init()), all);
    BytewiseReports(a, Single(b), (c: Conv<RC.State>) => Open(c), Fresh(MR.Init(id)), Fresh(RC.Init()), all);
  }

  /** So the law that keeps the error, which every single converter obeys, is not kept by chaining. */
  lemma ChainsAreNotExact(messages: Codec<MPayload>, responses: Codec<RPayload>, chat: Codec<ChatPayload>, id: string,
                          inv: ((Conv<MR.State>, Conv<RC.State>)) -> bool)
    requires Lawful(messages) && Lawful(responses) && inv((Fresh(MR.Init(id)), Fresh(RC.Init())))
    ensures !ExactLaw(Compose(Single(MachineOf(MR.Converter(messages, responses))), Single(MachineOf(RC.Converter(responses, chat)))), inv)
  {
    hide Whole, ExactLaw, Lawful;
    var chain := Compose(Single(MachineOf(MR.Converter(messages, responses))), Single(MachineOf(RC.Converter(responses, chat))));
    ChunksDecideTheError(messages, responses, chat, id);
    if ExactLaw(chain, inv) {
      ExactWhole(chain, inv, (Fresh(MR.Init(id)), Fresh(RC.Init())), Bytewise(PrintFrames(FramesOf(messages, ThreeBlocks()))));
    }
  }

  lemma ResponsesArePrinted(v: EventConverter<MR.State, MPayload, RPayload>, w: EventConverter<RC.State, RPayload, ChatOut>, out: seq<RPayload>)
    requires (forall p :: v.show(p) == ShowResponses(w.codec, p)) && forall p :: p in out ==> p.typ == RItemAdded || p.typ == RPartAdded
    ensures PrintFrames(FramesOf(w.codec, ResponsesEvents(out))) == PrintAll(v.show, out) && Carried(ResponsesEvents(out))
  {
    hide RName;
    forall i | 0 <= i < |out| ensures FramesOf(w.codec, ResponsesEvents(out))[i] == Shown(v.show, out)[i] {
      assert v.show(out[i]) == ShowResponses(w.codec, out[i]);
    }
    assert FramesOf(w.codec, ResponsesEvents(out)) == Shown(v.show, out);
    forall i | 0 <= i < |out| ensures Plain(RName(out[i].typ)) {
      assert out[i] in out;
      NamesArePlain(out[i].typ);
    }
  }
}
