/** What the Messages to Responses converter keeps over any events at all: which streams it accepts,
    and that its items, done events and end say what the stream said. */
module MessagesOutputs {
  import opened Wrappers
  import opened Framing
  import opened Frames
  import opened EventMachine
  import opened StreamEvents
  import MR = MessagesToResponses

  // --- Which streams are accepted ---

  /** The type of an event: the `type` field, or the name when it is missing. */
  function TypeOf(e: Event<MPayload>): MType {
    if !e.input.Payload? then MNone else if e.input.p.typ == MNone then MTypeOf(e.name) else e.input.p.typ
  }

  /** The content block of a start event; a delta stands in for a missing one. */
  function BlockIn(p: MPayload): MPart {
    if p.block.Some? then p.block.value else p.delta
  }

  predicate Ignored(e: Event<MPayload>) {
    e.name == "ping" || e.input.NoData? || e.input.DoneMark?
  }

  /** What has been seen: the message's start, the kind of the last block, the end. */
  datatype Seen = Seen(created: bool, kind: BlockKind, ended: bool)

  const UNSEEN := Seen(false, BNone, false)

  function See(seen: Seen, e: Event<MPayload>): Seen {
    if seen.ended || Ignored(e) || !e.input.Payload? then seen
    else
      Seen(seen.created || TypeOf(e) == MMessageStart, if TypeOf(e) == MBlockStart then BlockIn(e.input.p).kind else seen.kind,
           TypeOf(e) == MMessageStop)
  }

  /** One start, blocks and deltas of known kinds, and a stop after some block; anything may follow the
      end. */
  predicate EventOk(seen: Seen, e: Event<MPayload>) {
    seen.ended || Ignored(e) || (e.input.Payload? &&
      match TypeOf(e)
      case MMessageStart => !seen.created
      case MBlockStart => BlockIn(e.input.p).kind == BText || BlockIn(e.input.p).kind == BToolUse
      case MBlockDelta => e.input.p.delta.kind == BTextDelta || e.input.p.delta.kind == BJsonDelta
      case MBlockStop => seen.kind == BText || seen.kind == BToolUse
      case MMessageDelta => true
      case MMessageStop => true
      case MPing => true
      case _ => false)
  }

  predicate StreamOk(seen: Seen, es: seq<Event<MPayload>>)
    decreases |es|
  {
    es == [] || (EventOk(seen, es[0]) && StreamOk(See(seen, es[0]), es[1..]))
  }

  predicate SeenBy(s: MR.State, seen: Seen) {
    s.created == seen.created && s.itemType == seen.kind && s.terminal == seen.ended
  }

  /** Blocks change neither the message's counts nor its ends. */
  ghost predicate SameMessage(s: MR.State, t: MR.State) {
    && t.created == s.created && t.terminal == s.terminal && t.responseId == s.responseId
    && t.inputTokens == s.inputTokens && t.outputTokens == s.outputTokens && t.stopReason == s.stopReason
  }

  lemma StartsBlock(s: MR.State, block: MPart)
    ensures var x := MR.StartBlock(s, block);
            SameMessage(s, x.core) && !AnyCompleted(x.out) && x.core.itemType == block.kind && (x.err.None? <==> block.kind == BText || block.kind == BToolUse)
  {
    hide Numbered;
  }

  lemma AddsDelta(s: MR.State, d: MPart)
    ensures var x := MR.BlockDelta(s, d);
            SameMessage(s, x.core) && !AnyCompleted(x.out) && x.core.itemType == s.itemType && (x.err.None? <==> d.kind == BTextDelta || d.kind == BJsonDelta)
  {
  }

  lemma StopsBlock(s: MR.State)
    ensures var x := MR.StopBlock(s);
            x.core == s && !AnyCompleted(x.out) && (x.err.None? <==> s.itemType == BText || s.itemType == BToolUse)
  {
  }

  predicate AnyCompleted(out: seq<RPayload>) {
    exists i :: 0 <= i < |out| && out[i].typ == RCompleted
  }

  lemma StepAccepts(s: MR.State, seen: Seen, e: Event<MPayload>)
    requires SeenBy(s, seen) && !seen.ended
    ensures var x := MR.Step(s, e);
            (x.err.None? <==> EventOk(seen, e)) && (x.err.None? ==> SeenBy(x.core, See(seen, e)))
  {
    hide MTypeOf, MR.StartBlock, MR.BlockDelta, MR.StopBlock, MR.Created, MR.Completed, AnyCompleted;
    if e.input.Payload? {
      StartsBlock(s, BlockIn(e.input.p));
      AddsDelta(s, e.input.p.delta);
      StopsBlock(s);
    }
  }

  ghost predicate IsConverter(v: EventConverter<MR.State, MPayload, RPayload>) {
    v.step == MR.Step && v.resting == ((s: MR.State) => s.terminal)
  }

  lemma {:induction false} RunAccepts(v: EventConverter<MR.State, MPayload, RPayload>, s: MR.State, seen: Seen, es: seq<Event<MPayload>>)
    requires IsConverter(v) && SeenBy(s, seen)
    ensures RunEvents(v, s, es).err.None? <==> StreamOk(seen, es)
    decreases |es|
  {
    hide MR.Step, EventOk;
    if es != [] {
      if s.terminal {
        EndedIsOk(seen, es[0]);
        RunAccepts(v, s, seen, es[1..]);
      } else {
        StepAccepts(s, seen, es[0]);
        if EventOk(seen, es[0]) {
          RunAccepts(v, MR.Step(s, es[0]).core, See(seen, es[0]), es[1..]);
        }
      }
    }
  }

  lemma EndedIsOk(seen: Seen, e: Event<MPayload>)
    requires seen.ended
    ensures EventOk(seen, e) && See(seen, e) == seen
  {
  }

  /** For any events: exactly these streams convert without error. */
  lemma AcceptedExactly(messages: Codec<MPayload>, responses: Codec<RPayload>, id: string, es: seq<Event<MPayload>>)
    ensures RunEvents(MR.Converter(messages, responses), MR.Init(id), es).err.None? <==> StreamOk(UNSEEN, es)
  {
    RunAccepts(MR.Converter(messages, responses), MR.Init(id), UNSEEN, es);
  }

  // --- Items and done events ---

  function TextDeltas(out: seq<RPayload>, index: int): string {
    if out == [] then ""
    else TextDeltas(out[..|out| - 1], index) + if out[|out| - 1].typ == RTextDelta && out[|out| - 1].outputIndex == index then out[|out| - 1].delta else ""
  }

  function ArgumentDeltas(out: seq<RPayload>, index: int): string {
    if out == [] then ""
    else ArgumentDeltas(out[..|out| - 1], index) + if out[|out| - 1].typ == RArgsDelta && out[|out| - 1].outputIndex == index then out[|out| - 1].delta else ""
  }

  function Items(out: seq<RPayload>): nat {
    if out == [] then 0 else Items(out[..|out| - 1]) + if out[|out| - 1].typ == RItemAdded then 1 else 0
  }

  /** The items are numbered 0, 1, 2, …; every delta and every done event is at the last item; and a done
      event carries exactly the text or the arguments passed on for its item so far. */
  ghost predicate EventSound(before: seq<RPayload>, p: RPayload) {
    && (p.typ == RItemAdded ==> p.outputIndex == Items(before))
    && (p.typ == RTextDelta || p.typ == RArgsDelta || p.typ == RPartAdded || p.typ == RTextDone || p.typ == RArgsDone || p.typ == RPartDone || p.typ == RItemDone ==>
        p.outputIndex == Items(before) - 1)
    && (p.typ == RTextDone ==> p.text == TextDeltas(before, p.outputIndex))
    && (p.typ == RArgsDone ==> p.text == ArgumentDeltas(before, p.outputIndex))
  }

  ghost predicate SoundOutput(out: seq<RPayload>) {
    forall i :: 0 <= i < |out| ==> EventSound(out[..i], out[i])
  }

  /** The state knows the items and the text or arguments of the last. */
  ghost predicate Knows(s: MR.State, out: seq<RPayload>) {
    && SoundOutput(out) && s.itemIndex == Items(out) - 1
    && (forall k :: k >= Items(out) ==> TextDeltas(out, k) == "" && ArgumentDeltas(out, k) == "")
    && (s.itemType == BText ==> s.text == TextDeltas(out, s.itemIndex))
    && (s.itemType == BToolUse ==> s.toolArgs == ArgumentDeltas(out, s.itemIndex))
  }

  /** One more event. */
  lemma OneMore(out: seq<RPayload>, p: RPayload)
    ensures SoundOutput(out) && EventSound(out, p) ==> SoundOutput(out + [p])
    ensures Items(out + [p]) == Items(out) + if p.typ == RItemAdded then 1 else 0
    ensures forall k :: TextDeltas(out + [p], k) == TextDeltas(out, k) + if p.typ == RTextDelta && p.outputIndex == k then p.delta else ""
    ensures forall k :: ArgumentDeltas(out + [p], k) == ArgumentDeltas(out, k) + if p.typ == RArgsDelta && p.outputIndex == k then p.delta else ""
  {
    var more := out + [p];
    assert more[..|out|] == out;
    hide EventSound;
    if SoundOutput(out) && EventSound(out, p) {
      forall i | 0 <= i < |more| ensures EventSound(more[..i], more[i]) {
        if i < |out| {
          assert more[..i] == out[..i];
        }
      }
    }
  }

  lemma ItemKnows(s: MR.State, t: MR.State, out: seq<RPayload>, p: RPayload)
    requires Knows(s, out) && p.typ == RItemAdded && p.outputIndex == s.itemIndex + 1
    requires t.itemIndex == s.itemIndex + 1 && (t.itemType == BText ==> t.text == "") && (t.itemType == BToolUse ==> t.toolArgs == "")
    ensures Knows(t, out + [p])
  {
    hide SoundOutput, TextDeltas, ArgumentDeltas, Items;
    OneMore(out, p);
    assert "" + "" == "";
  }

  lemma PartKnows(s: MR.State, out: seq<RPayload>, p: RPayload)
    requires Knows(s, out) && p.typ == RPartAdded && p.outputIndex == s.itemIndex
    ensures Knows(s, out + [p])
  {
    hide SoundOutput, TextDeltas, ArgumentDeltas, Items;
    OneMore(out, p);
    assert forall k :: TextDeltas(out, k) + "" == TextDeltas(out, k) && ArgumentDeltas(out, k) + "" == ArgumentDeltas(out, k);
  }

  lemma InnerKnows(s: MR.State, out: seq<RPayload>, p: RPayload)
    requires Knows(s, out) && s.itemType == BText && p.typ == RTextDelta && p.outputIndex == s.itemIndex && s.itemIndex >= 0
    ensures Knows(s.(text := s.text + p.delta), out + [p])
  {
    hide SoundOutput, TextDeltas, ArgumentDeltas, Items;
    OneMore(out, p);
  }

  /** What a text block prints: its item, its part, and the text it begins with. */
  lemma TextStarts(s: MR.State, block: MPart)
    requires block.kind == BText
    ensures var x := MR.StartBlock(s, block);
            && |x.out| == (if block.inner == "" then 2 else 3) && x.core.itemType == BText && x.core.itemIndex == s.itemIndex + 1
            && x.core.text == block.inner
            && x.out[0].typ == RItemAdded && x.out[0].outputIndex == x.core.itemIndex
            && x.out[1].typ == RPartAdded && x.out[1].outputIndex == x.core.itemIndex
            && (block.inner != "" ==> x.out[2].typ == RTextDelta && x.out[2].outputIndex == x.core.itemIndex && x.out[2].delta == block.inner)
  {
    hide Numbered;
  }

  lemma InPieces(out: seq<RPayload>, more: seq<RPayload>)
    ensures |more| == 2 ==> out + more == out + [more[0]] + [more[1]]
    ensures |more| == 3 ==> out + more == out + [more[0]] + [more[1]] + [more[2]]
  {
  }

  lemma TextStartKnows(s: MR.State, block: MPart, out: seq<RPayload>)
    requires Knows(s, out) && block.kind == BText
    ensures var x := MR.StartBlock(s, block); Knows(x.core, out + x.out)
  {
    hide *;
    IndexFloor(s, out);
    TextStarts(s, block);
    var x := MR.StartBlock(s, block);
    var first := x.core.(text := "");
    InPieces(out, x.out);
    ItemKnows(s, first, out, x.out[0]);
    PartKnows(first, out + [x.out[0]], x.out[1]);
    if block.inner != "" {
      InnerKnows(first, out + [x.out[0]] + [x.out[1]], x.out[2]);
      SameText(first, x.core, block.inner);
    }
  }

  lemma SameText(s: MR.State, t: MR.State, inner: string)
    requires s == t.(text := "") && t.text == inner
    ensures s.(text := s.text + inner) == t
  {
    assert "" + inner == inner;
  }

  lemma ToolStartKnows(s: MR.State, block: MPart, out: seq<RPayload>)
    requires Knows(s, out) && block.kind == BToolUse
    ensures var x := MR.StartBlock(s, block); Knows(x.core, out + x.out)
  {
    hide Numbered, Knows;
    var x := MR.StartBlock(s, block);
    assert x.out == [x.out[0]];
    ItemKnows(s, x.core, out, x.out[0]);
  }

  lemma StartKnows(s: MR.State, block: MPart, out: seq<RPayload>)
    requires Knows(s, out) && MR.StartBlock(s, block).err.None?
    ensures var x := MR.StartBlock(s, block); Knows(x.core, out + x.out)
  {
    StartsBlock(s, block);
    hide Knows, MR.StartBlock;
    if block.kind == BText {
      TextStartKnows(s, block, out);
    } else {
      ToolStartKnows(s, block, out);
    }
  }

  lemma IndexFloor(s: MR.State, out: seq<RPayload>)
    requires Knows(s, out)
    ensures s.itemIndex >= -1
  {
  }

  lemma DeltaKnows(s: MR.State, d: MPart, out: seq<RPayload>)
    requires Knows(s, out) && MR.BlockDelta(s, d).err.None?
    ensures var x := MR.BlockDelta(s, d); Knows(x.core, out + x.out)
  {
    hide SoundOutput, TextDeltas, ArgumentDeltas, Items;
    var x := MR.BlockDelta(s, d);
    OneMore(out, x.out[0]);
    assert out + x.out == out + [x.out[0]];
  }

  lemma StopKnows(s: MR.State, out: seq<RPayload>)
    requires Knows(s, out) && MR.StopBlock(s).err.None?
    ensures var x := MR.StopBlock(s); Knows(x.core, out + x.out)
  {
    hide SoundOutput, TextDeltas, ArgumentDeltas, Items;
    var x := MR.StopBlock(s);
    OneMore(out, x.out[0]);
    var out1 := out + [x.out[0]];
    OneMore(out1, x.out[1]);
    var out2 := out1 + [x.out[1]];
    if s.itemType == BText {
      OneMore(out2, x.out[2]);
      assert out + x.out == out2 + [x.out[2]];
    } else {
      assert out + x.out == out2;
    }
  }

  predicate Quiet(p: RPayload) {
    p.typ == RCreated || p.typ == RInProgress || p.typ == RCompleted
  }

  lemma QuietKnows(s: MR.State, t: MR.State, out: seq<RPayload>, more: seq<RPayload>)
    requires Knows(s, out) && |more| <= 2 && (forall i :: 0 <= i < |more| ==> Quiet(more[i]))
    requires t.itemIndex == s.itemIndex && t.itemType == s.itemType && t.text == s.text && t.toolArgs == s.toolArgs
    ensures Knows(t, out + more)
  {
    hide SoundOutput, TextDeltas, ArgumentDeltas, Items;
    if |more| == 0 {
      assert out + more == out;
    } else {
      OneMore(out, more[0]);
      var out1 := out + [more[0]];
      assert forall k :: TextDeltas(out, k) + "" == TextDeltas(out, k) && ArgumentDeltas(out, k) + "" == ArgumentDeltas(out, k);
      if |more| == 1 {
        assert out + more == out1;
      } else {
        OneMore(out1, more[1]);
        assert out + more == out1 + [more[1]];
      }
    }
  }

  lemma StepKnows(s: MR.State, e: Event<MPayload>, out: seq<RPayload>)
    requires Knows(s, out) && MR.Step(s, e).err.None?
    ensures var x := MR.Step(s, e); Knows(x.core, out + x.out)
  {
    hide MTypeOf, Knows, MR.StartBlock, MR.BlockDelta, MR.StopBlock;
    var x := MR.Step(s, e);
    if !Ignored(e) && TypeOf(e) == MBlockStart {
      StartKnows(s, BlockIn(e.input.p), out);
    } else if !Ignored(e) && TypeOf(e) == MBlockDelta {
      DeltaKnows(s, e.input.p.delta, out);
    } else if !Ignored(e) && TypeOf(e) == MBlockStop {
      StopKnows(s, out);
    } else {
      QuietKnows(s, x.core, out, x.out);
    }
  }

  lemma {:induction false} RunKnows(v: EventConverter<MR.State, MPayload, RPayload>, s: MR.State, es: seq<Event<MPayload>>, out: seq<RPayload>)
    requires IsConverter(v) && Knows(s, out)
    ensures SoundOutput(out + RunEvents(v, s, es).out)
    decreases |es|
  {
    hide MR.Step, Knows, SoundOutput;
    KnowsSound(s, out);
    assert out + [] == out;
    if es != [] {
      var x := React(v, s, es[0]);
      if x.err.None? {
        if !v.resting(s) {
          StepKnows(s, es[0], out);
        }
        RunKnows(v, x.core, es[1..], out + x.out);
        assert out + (x.out + RunEvents(v, x.core, es[1..]).out) == out + x.out + RunEvents(v, x.core, es[1..]).out;
      }
    }
  }

  lemma KnowsSound(s: MR.State, out: seq<RPayload>)
    requires Knows(s, out)
    ensures SoundOutput(out)
  {
  }

  /** For any events, up to the first error: the items are numbered in order, deltas and done events are
      at the last item, and a done event carries exactly what was passed on for it. */
  lemma AnyEventsSound(messages: Codec<MPayload>, responses: Codec<RPayload>, id: string, es: seq<Event<MPayload>>)
    ensures SoundOutput(RunEvents(MR.Converter(messages, responses), MR.Init(id), es).out)
  {
    hide SoundOutput;
    StartKnowing(id);
    var x := RunEvents(MR.Converter(messages, responses), MR.Init(id), es);
    RunKnows(MR.Converter(messages, responses), MR.Init(id), es, []);
    assert [] + x.out == x.out;
  }

  lemma StartKnowing(id: string)
    ensures Knows(MR.Init(id), [])
  {
  }

  /** The same on the output of any bytes. */
  lemma AnyBytesSound(messages: Codec<MPayload>, responses: Codec<RPayload>, id: string, chunks: seq<Bytes>) returns (out: seq<RPayload>)
    ensures Convert(MachineOf(MR.Converter(messages, responses)), Fresh(MR.Init(id)), chunks).out == PrintAll(p => ShowResponses(responses, p), out)
    ensures SoundOutput(out)
  {
    hide SoundOutput;
    var es := BytesAreEvents(MR.Converter(messages, responses), MR.Init(id), chunks);
    out := RunEvents(MR.Converter(messages, responses), MR.Init(id), es).out;
    AnyEventsSound(messages, responses, id, es);
  }

  // --- What the items are ---

  function ItemsIn(out: seq<RPayload>): seq<Item> {
    if out == [] then [] else (if out[0].typ == RItemAdded then [out[0].item] else []) + ItemsIn(out[1..])
  }

  /** The item of block `i`: a call keeps its id and name, a text is a message. */
  function ItemOf(i: int, b: MPart): Item {
    if b.kind == BToolUse then Item(KFunctionCall, b.id, b.id, b.name) else Item(KMessage, Numbered("msg_", i), "", "")
  }

  /** The items of the blocks that start, up to the end of the message. */
  function ItemsOfBlocks(seen: Seen, i: int, es: seq<Event<MPayload>>): seq<Item>
    decreases |es|
  {
    if es == [] then []
    else if !seen.ended && !Ignored(es[0]) && TypeOf(es[0]) == MBlockStart then
      [ItemOf(i, BlockIn(es[0].input.p))] + ItemsOfBlocks(See(seen, es[0]), i + 1, es[1..])
    else ItemsOfBlocks(See(seen, es[0]), i, es[1..])
  }

  lemma {:induction false} ItemsTogether(a: seq<RPayload>, b: seq<RPayload>)
    ensures ItemsIn(a + b) == ItemsIn(a) + ItemsIn(b)
    decreases |a|
  {
    if a == [] {
      assert a + b == b;
    } else {
      assert (a + b)[1..] == a[1..] + b;
      ItemsTogether(a[1..], b);
    }
  }

  lemma OneItem(p: RPayload)
    ensures ItemsIn([p]) == (if p.typ == RItemAdded then [p.item] else []) && ItemsIn([]) == []
  {
    assert [p][1..] == [];
  }

  lemma StartItem(s: MR.State, block: MPart)
    requires MR.StartBlock(s, block).err.None?
    ensures ItemsIn(MR.StartBlock(s, block).out) == [ItemOf(s.itemIndex + 1, block)] && MR.StartBlock(s, block).core.itemIndex == s.itemIndex + 1
  {
    hide Numbered, ItemsIn;
    var out := MR.StartBlock(s, block).out;
    OneItem(out[0]);
    if |out| > 1 {
      OneItem(out[1]);
      ItemsTogether([out[0]], [out[1]]);
      if |out| > 2 {
        OneItem(out[2]);
        ItemsTogether([out[0]] + [out[1]], [out[2]]);
        assert out == [out[0]] + [out[1]] + [out[2]];
      } else {
        assert out == [out[0]] + [out[1]];
      }
    } else {
      assert out == [out[0]];
    }
  }

  predicate NoItems(out: seq<RPayload>) {
    forall i :: 0 <= i < |out| ==> out[i].typ != RItemAdded
  }

  lemma {:induction false} NoItemsIn(out: seq<RPayload>)
    requires NoItems(out)
    ensures ItemsIn(out) == []
    decreases |out|
  {
    if out != [] {
      NoItemsIn(out[1..]);
    }
  }

  lemma OtherAddsNone(s: MR.State, d: MPart)
    ensures NoItems(MR.BlockDelta(s, d).out) && MR.BlockDelta(s, d).core.itemIndex == s.itemIndex
    ensures NoItems(MR.StopBlock(s).out) && MR.StopBlock(s).core.itemIndex == s.itemIndex
  {
  }

  lemma StepItems(s: MR.State, e: Event<MPayload>)
    requires MR.Step(s, e).err.None?
    ensures var x := MR.Step(s, e);
            if !Ignored(e) && TypeOf(e) == MBlockStart
            then ItemsIn(x.out) == [ItemOf(s.itemIndex + 1, BlockIn(e.input.p))] && x.core.itemIndex == s.itemIndex + 1
            else NoItems(x.out) && x.core.itemIndex == s.itemIndex
  {
    hide MTypeOf, ItemsIn, MR.StartBlock, MR.BlockDelta, MR.StopBlock, NoItems;
    NoneAreItems();
    if !Ignored(e) && TypeOf(e) == MBlockStart {
      StartItem(s, BlockIn(e.input.p));
    } else if e.input.Payload? {
      OtherAddsNone(s, e.input.p.delta);
      MessageEventsAreNone(s);
      MessageEventsAreNone(s.(inputTokens := e.input.p.message.inputTokens, created := true));
    }
  }

  lemma NoneAreItems()
    ensures NoItems([])
  {
  }

  lemma MessageEventsAreNone(s: MR.State)
    ensures NoItems(MR.Created(s)) && NoItems([MR.Completed(s)])
  {
  }

  lemma {:induction false} RunItems(v: EventConverter<MR.State, MPayload, RPayload>, s: MR.State, seen: Seen, es: seq<Event<MPayload>>)
    requires IsConverter(v) && SeenBy(s, seen) && StreamOk(seen, es)
    ensures ItemsIn(RunEvents(v, s, es).out) == ItemsOfBlocks(seen, s.itemIndex + 1, es)
    decreases |es|
  {
    hide MR.Step, EventOk, ItemsIn, ItemOf;
    OneItem(Bare(RCreated));
    if es != [] {
      var x := React(v, s, es[0]);
      if seen.ended {
        EndedIsOk(seen, es[0]);
        RunItems(v, s, seen, es[1..]);
        assert x.out + RunEvents(v, s, es[1..]).out == RunEvents(v, s, es[1..]).out;
      } else {
        StepAccepts(s, seen, es[0]);
        StepItems(s, es[0]);
        RunItems(v, x.core, See(seen, es[0]), es[1..]);
        ItemsTogether(x.out, RunEvents(v, x.core, es[1..]).out);
        if NoItems(x.out) {
          NoItemsIn(x.out);
          assert [] + ItemsIn(RunEvents(v, x.core, es[1..]).out) == ItemsIn(RunEvents(v, x.core, es[1..]).out);
        }
      }
    }
  }

  /** In the output of an accepted stream the items are those of its blocks, in order. */
  lemma ItemsAreTheBlocks(messages: Codec<MPayload>, responses: Codec<RPayload>, id: string, es: seq<Event<MPayload>>)
    requires StreamOk(UNSEEN, es)
    ensures ItemsIn(RunEvents(MR.Converter(messages, responses), MR.Init(id), es).out) == ItemsOfBlocks(UNSEEN, 0, es)
  {
    hide StreamOk, ItemsIn, ItemsOfBlocks, RunEvents;
    RunItems(MR.Converter(messages, responses), MR.Init(id), UNSEEN, es);
  }

  // --- The end ---

  /** What a stream says of the whole message: its input tokens, the last positive output tokens, and the
      last stop reason. */
  datatype Told = Told(input: int, output: int, stopReason: string)

  const UNTOLD := Told(0, 0, "")

  function Tell(told: Told, e: Event<MPayload>): Told {
    if Ignored(e) || !e.input.Payload? then told
    else if TypeOf(e) == MMessageStart then told.(input := e.input.p.message.inputTokens)
    else if TypeOf(e) == MMessageDelta then
      told.(stopReason := e.input.p.delta.stopReason, output := if e.input.p.outputTokens > 0 then e.input.p.outputTokens else told.output)
    else told
  }

  function TellAll(told: Told, es: seq<Event<MPayload>>): Told
    decreases |es|
  {
    if es == [] then told else TellAll(Tell(told, es[0]), es[1..])
  }

  predicate Stops(e: Event<MPayload>) {
    !Ignored(e) && e.input.Payload? && TypeOf(e) == MMessageStop
  }

  /** The last event: the response is complete, with everything told. */
  predicate CompletesWith(out: seq<RPayload>, id: string, told: Told) {
    out != [] &&
    var r := out[|out| - 1].response;
    && out[|out| - 1].typ == RCompleted && r.id == id && r.status == "completed" && r.stopReason == told.stopReason
    && r.usage == NO_USAGE.(input := told.input, output := told.output)
  }

  ghost predicate Has(s: MR.State, told: Told) {
    s.inputTokens == told.input && s.outputTokens == told.output && s.stopReason == told.stopReason && !s.terminal
  }

  lemma StepTells(s: MR.State, e: Event<MPayload>, told: Told)
    requires Has(s, told) && MR.Step(s, e).err.None?
    ensures var x := MR.Step(s, e);
            && x.core.responseId == s.responseId
            && (!Stops(e) ==> Has(x.core, Tell(told, e)) && !AnyCompleted(x.out))
            && (Stops(e) ==> x.core.terminal && CompletesWith(x.out, s.responseId, told))
  {
    hide MTypeOf, MR.StartBlock, MR.BlockDelta, MR.StopBlock, AnyCompleted;
    NothingCompleted();
    CreatedIsNotCompleted(s.(inputTokens := if e.input.Payload? then e.input.p.message.inputTokens else s.inputTokens));
    if e.input.Payload? {
      StartsBlock(s, BlockIn(e.input.p));
      AddsDelta(s, e.input.p.delta);
      StopsBlock(s);
    }
  }

  lemma CreatedIsNotCompleted(s: MR.State)
    ensures !AnyCompleted(MR.Created(s))
  {
  }

  lemma CompletedAppend(a: seq<RPayload>, b: seq<RPayload>)
    ensures AnyCompleted(a + b) <==> AnyCompleted(a) || AnyCompleted(b)
  {
    if AnyCompleted(a) {
      var i :| 0 <= i < |a| && a[i].typ == RCompleted;
      assert (a + b)[i] == a[i];
    }
    if AnyCompleted(b) {
      var i :| 0 <= i < |b| && b[i].typ == RCompleted;
      assert (a + b)[|a| + i] == b[i];
    }
  }

  lemma {:induction false} RestsAfter(v: EventConverter<MR.State, MPayload, RPayload>, s: MR.State, es: seq<Event<MPayload>>)
    requires IsConverter(v) && s.terminal
    ensures RunEvents(v, s, es) == Emit(s, [], None)
    decreases |es|
  {
    if es != [] {
      RestsAfter(v, s, es[1..]);
    }
  }

  lemma {:induction false} RunCompletes(v: EventConverter<MR.State, MPayload, RPayload>, s: MR.State, es: seq<Event<MPayload>>, told: Told, i: nat)
    requires IsConverter(v) && Has(s, told) && RunEvents(v, s, es).err.None?
    requires i < |es| && Stops(es[i]) && forall j :: 0 <= j < i ==> !Stops(es[j])
    ensures CompletesWith(RunEvents(v, s, es).out, s.responseId, TellAll(told, es[..i]))
    decreases |es|
  {
    hide MR.Step, Stops, Tell, CompletesWith, AnyCompleted;
    StepTells(s, es[0], told);
    var x := MR.Step(s, es[0]);
    if i == 0 {
      RestsAfter(v, x.core, es[1..]);
      assert x.out + [] == x.out && es[..0] == [];
    } else {
      assert es[..i][1..] == es[1..][..i - 1];
      RunCompletes(v, x.core, es[1..], Tell(told, es[0]), i - 1);
      CompletesAfter(x.out, RunEvents(v, x.core, es[1..]).out, s.responseId, TellAll(told, es[..i]));
    }
  }

  lemma CompletesAfter(before: seq<RPayload>, out: seq<RPayload>, id: string, told: Told)
    requires CompletesWith(out, id, told)
    ensures CompletesWith(before + out, id, told)
  {
  }

  lemma {:induction false} RunGoesOn(v: EventConverter<MR.State, MPayload, RPayload>, s: MR.State, es: seq<Event<MPayload>>, told: Told)
    requires IsConverter(v) && Has(s, told) && RunEvents(v, s, es).err.None? && forall j :: 0 <= j < |es| ==> !Stops(es[j])
    ensures !AnyCompleted(RunEvents(v, s, es).out)
    decreases |es|
  {
    hide MR.Step, Stops, Tell, AnyCompleted;
    if es != [] {
      StepTells(s, es[0], told);
      var x := MR.Step(s, es[0]);
      RunGoesOn(v, x.core, es[1..], Tell(told, es[0]));
      CompletedAppend(x.out, RunEvents(v, x.core, es[1..]).out);
    } else {
      NothingCompleted();
    }
  }

  lemma NothingCompleted()
    ensures !AnyCompleted([])
  {
  }

  /** An accepted stream completes the response at its first `message_stop`, with everything told before
      that, as the last event; and without one it never does. */
  lemma CompletedExactly(messages: Codec<MPayload>, responses: Codec<RPayload>, id: string, es: seq<Event<MPayload>>, i: nat)
    requires StreamOk(UNSEEN, es) && i <= |es| && (i < |es| ==> Stops(es[i])) && forall j :: 0 <= j < i ==> !Stops(es[j])
    ensures var out := RunEvents(MR.Converter(messages, responses), MR.Init(id), es).out;
            if i < |es| then CompletesWith(out, id, TellAll(UNTOLD, es[..i])) else !AnyCompleted(out)
  {
    hide StreamOk, Stops, CompletesWith, AnyCompleted, RunEvents;
    AcceptedExactly(messages, responses, id, es);
    if i < |es| {
      RunCompletes(MR.Converter(messages, responses), MR.Init(id), es, UNTOLD, i);
    } else {
      RunGoesOn(MR.Converter(messages, responses), MR.Init(id), es, UNTOLD);
    }
  }
}
