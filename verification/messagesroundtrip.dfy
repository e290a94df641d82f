/** Messages to Responses and back returns the message. */
module MessagesRoundTrip {
  import opened Wrappers
  import opened Framing
  import opened Frames
  import opened EventMachine
  import opened Pipeline
  import opened StreamEvents
  import MR = MessagesToResponses
  import RM = ResponsesToMessages

  /** A content block with its fragments as they were streamed. */
  datatype Block = TextBlock(fragments: seq<string>) | ToolBlock(id: string, name: string, fragments: seq<string>)

  datatype Message = Message(id: string, model: string, inputTokens: int, blocks: seq<Block>, stopReason: string, outputTokens: int)

  // --- The stream of a message ---

  function StartOf(i: int, b: Block): MPayload {
    Plainly(MBlockStart).(index := i, block := Some(match b
      case TextBlock(_) => NO_PART.(kind := BText)
      case ToolBlock(id, name, _) => NO_PART.(kind := BToolUse, id := id, name := name)))
  }

  function DeltaOf(i: int, b: Block, fragment: string): MPayload {
    Plainly(MBlockDelta).(index := i, delta := match b
      case TextBlock(_) => NO_PART.(kind := BTextDelta, text := fragment)
      case ToolBlock(_, _, _) => NO_PART.(kind := BJsonDelta, partialJson := fragment))
  }

  function DeltasOf(i: int, b: Block, fragments: seq<string>): seq<MPayload> {
    if fragments == [] then [] else [DeltaOf(i, b, fragments[0])] + DeltasOf(i, b, fragments[1..])
  }

  function StopOf(i: int): MPayload {
    Plainly(MBlockStop).(index := i)
  }

  function BlockStream(i: int, b: Block): seq<MPayload> {
    [StartOf(i, b)] + DeltasOf(i, b, b.fragments) + [StopOf(i)]
  }

  function BlocksStream(i: int, blocks: seq<Block>): seq<MPayload>
    decreases |blocks|
  {
    if blocks == [] then [] else BlockStream(i, blocks[0]) + BlocksStream(i + 1, blocks[1..])
  }

  function Opening(m: Message): seq<MPayload> {
    [Plainly(MMessageStart).(message := MMessage(m.id, m.model, m.inputTokens))]
  }

  function Ending(m: Message): seq<MPayload> {
    [Plainly(MMessageDelta).(delta := NO_PART.(stopReason := m.stopReason), outputTokens := m.outputTokens), Plainly(MMessageStop)]
  }

  /** The event stream of a message: its blocks one after the other, with indices 0, 1, 2, … */
  function Stream(m: Message): seq<MPayload> {
    Opening(m) + BlocksStream(0, m.blocks) + Ending(m)
  }

  /** Keepalives may stand anywhere in a stream. */
  function WithoutPings(ps: seq<MPayload>): seq<MPayload> {
    if ps == [] then [] else (if ps[0].typ == MPing then [] else [ps[0]]) + WithoutPings(ps[1..])
  }

  // --- Both converters in a row ---

  function MessagesEvents(ps: seq<MPayload>): seq<Event<MPayload>> {
    seq(|ps|, i requires 0 <= i < |ps| => Event(MName(ps[i].typ), Payload(ps[i])))
  }

  datatype Codecs = Codecs(messages: Codec<MPayload>, responses: Codec<RPayload>)

  /** The converters in a row on Messages payloads. */
  function Convert2(k: Codecs, s: MR.State, t: RM.State, ps: seq<MPayload>): Piped<MR.State, RM.State, MPayload> {
    Pipe(MR.Converter(k.messages, k.responses), RM.Converter(k.responses, k.messages), s, t, MessagesEvents(ps))
  }

  lemma Convert2Append(k: Codecs, s: MR.State, t: RM.State, a: seq<MPayload>, b: seq<MPayload>)
    requires Convert2(k, s, t, a).err.None?
    ensures var x := Convert2(k, s, t, a);
            var y := Convert2(k, x.first, x.second, b);
            Convert2(k, s, t, a + b) == Piped(y.first, y.second, x.out + y.out, y.err)
  {
    hide MR.Converter, RM.Converter, Pipe;
    assert MessagesEvents(a + b) == MessagesEvents(a) + MessagesEvents(b);
    PipeAppend(MR.Converter(k.messages, k.responses), RM.Converter(k.responses, k.messages), s, t, MessagesEvents(a), MessagesEvents(b));
  }

  /** One Messages event through both, when the first converter emits at most three events. */
  lemma Convert2One(k: Codecs, s: MR.State, t: RM.State, p: MPayload)
    requires !s.terminal
    ensures var x := MR.Step(s, Event(MName(p.typ), Payload(p)));
            var y := RunEvents(RM.Converter(k.responses, k.messages), t, ResponsesEvents(x.out));
            x.err.None? ==> Convert2(k, s, t, [p]) == Piped(x.core, y.core, y.out, y.err)
  {
    hide MR.Step, RM.Converter, Pipe;
    assert MessagesEvents([p]) == [Event(MName(p.typ), Payload(p))];
    var x := MR.Step(s, Event(MName(p.typ), Payload(p)));
    if x.err.None? {
      PipeOne(MR.Converter(k.messages, k.responses), RM.Converter(k.responses, k.messages), s, t, Event(MName(p.typ), Payload(p)));
    }
  }

  /** Between blocks: both converters are live and no block is open. */
  ghost predicate Between(s: MR.State, t: RM.State, i: int) {
    !s.terminal && !t.terminal && !t.blockOpen && s.created && t.started && s.itemIndex == t.blockIndex == i - 1
  }

  /** Inside block `i`. */
  ghost predicate Inside(s: MR.State, t: RM.State, i: int, b: Block) {
    && !s.terminal && !t.terminal && t.blockOpen && !t.blockStopped && s.created && t.started
    && s.itemIndex == t.blockIndex == i
    && s.itemType == (if b.TextBlock? then BText else BToolUse)
    && t.blockType == (if b.TextBlock? then KMessage else KFunctionCall)
  }

  ghost predicate SameCounts(s: MR.State, s': MR.State, t: RM.State, t': RM.State) {
    s'.inputTokens == s.inputTokens && s'.outputTokens == s.outputTokens && s'.responseId == s.responseId
    && t'.outputTokens == t.outputTokens
  }

  lemma StartConverts(k: Codecs, s: MR.State, t: RM.State, i: int, b: Block)
    requires Between(s, t, i)
    ensures var x := Convert2(k, s, t, [StartOf(i, b)]);
            x.err.None? && x.out == [StartOf(i, b)] && Inside(x.first, x.second, i, b) && SameCounts(s, x.first, t, x.second)
  {
    hide RTypeOf, MTypeOf, Numbered, RunEvents;
    var w := RM.Converter(k.responses, k.messages);
    Convert2One(k, s, t, StartOf(i, b));
    var out := MR.Step(s, Event(MName(MBlockStart), Payload(StartOf(i, b)))).out;
    if b.TextBlock? {
      assert ResponsesEvents(out) == [Event(RName(RItemAdded), Payload(out[0])), Event(RName(RPartAdded), Payload(out[1]))];
      RunTwo(w, t, Event(RName(RItemAdded), Payload(out[0])), Event(RName(RPartAdded), Payload(out[1])));
    } else {
      assert ResponsesEvents(out) == [Event(RName(RItemAdded), Payload(out[0]))];
      RunOne(w, t, Event(RName(RItemAdded), Payload(out[0])));
    }
  }

  lemma DeltaConverts(k: Codecs, s: MR.State, t: RM.State, i: int, b: Block, fragment: string)
    requires Inside(s, t, i, b)
    ensures var x := Convert2(k, s, t, [DeltaOf(i, b, fragment)]);
            x.err.None? && x.out == [DeltaOf(i, b, fragment)] && Inside(x.first, x.second, i, b) && SameCounts(s, x.first, t, x.second)
  {
    hide RTypeOf, MTypeOf, RunEvents;
    var w := RM.Converter(k.responses, k.messages);
    Convert2One(k, s, t, DeltaOf(i, b, fragment));
    var out := MR.Step(s, Event(MName(MBlockDelta), Payload(DeltaOf(i, b, fragment)))).out;
    assert ResponsesEvents(out) == [Event(RName(out[0].typ), Payload(out[0]))];
    RunOne(w, t, Event(RName(out[0].typ), Payload(out[0])));
  }

  lemma StopTextConverts(k: Codecs, s: MR.State, t: RM.State, i: int, b: Block)
    requires Inside(s, t, i, b) && b.TextBlock?
    ensures var x := Convert2(k, s, t, [StopOf(i)]);
            x.err.None? && x.out == [StopOf(i)] && Between(x.first, x.second, i + 1) && SameCounts(s, x.first, t, x.second)
  {
    hide RTypeOf, MTypeOf, RunEvents;
    var w := RM.Converter(k.responses, k.messages);
    Convert2One(k, s, t, StopOf(i));
    var out := MR.Step(s, Event(MName(MBlockStop), Payload(StopOf(i)))).out;
    var e, f, g := Event(RName(out[0].typ), Payload(out[0])), Event(RName(out[1].typ), Payload(out[1])), Event(RName(out[2].typ), Payload(out[2]));
    RunTwo(w, t, e, f);
    assert ResponsesEvents(out) == [e, f] + [g];
    RunEventsAppend(w, t, [e, f], [g]);
    RunOne(w, RunEvents(w, t, [e, f]).core, g);
  }

  lemma StopToolConverts(k: Codecs, s: MR.State, t: RM.State, i: int, b: Block)
    requires Inside(s, t, i, b) && !b.TextBlock?
    ensures var x := Convert2(k, s, t, [StopOf(i)]);
            x.err.None? && x.out == [StopOf(i)] && Between(x.first, x.second, i + 1) && SameCounts(s, x.first, t, x.second)
  {
    hide RTypeOf, MTypeOf, RunEvents;
    var w := RM.Converter(k.responses, k.messages);
    Convert2One(k, s, t, StopOf(i));
    var out := MR.Step(s, Event(MName(MBlockStop), Payload(StopOf(i)))).out;
    var e, f := Event(RName(out[0].typ), Payload(out[0])), Event(RName(out[1].typ), Payload(out[1]));
    RunTwo(w, t, e, f);
    assert ResponsesEvents(out) == [e, f];
  }

  lemma StopConverts(k: Codecs, s: MR.State, t: RM.State, i: int, b: Block)
    requires Inside(s, t, i, b)
    ensures var x := Convert2(k, s, t, [StopOf(i)]);
            x.err.None? && x.out == [StopOf(i)] && Between(x.first, x.second, i + 1) && SameCounts(s, x.first, t, x.second)
  {
    hide Convert2, Inside, Between, SameCounts;
    if b.TextBlock? {
      StopTextConverts(k, s, t, i, b);
    } else {
      StopToolConverts(k, s, t, i, b);
    }
  }

  lemma {:induction false} DeltasConvert(k: Codecs, s: MR.State, t: RM.State, i: int, b: Block, fragments: seq<string>)
    requires Inside(s, t, i, b)
    ensures var x := Convert2(k, s, t, DeltasOf(i, b, fragments));
            x.err.None? && x.out == DeltasOf(i, b, fragments) && Inside(x.first, x.second, i, b) && SameCounts(s, x.first, t, x.second)
    decreases |fragments|
  {
    if fragments == [] {
      Nothing(k, s, t);
    } else {
      hide Convert2, DeltaOf;
      DeltaConverts(k, s, t, i, b, fragments[0]);
      var x := Convert2(k, s, t, [DeltaOf(i, b, fragments[0])]);
      Convert2Append(k, s, t, [DeltaOf(i, b, fragments[0])], DeltasOf(i, b, fragments[1..]));
      DeltasConvert(k, x.first, x.second, i, b, fragments[1..]);
    }
  }

  lemma Nothing(k: Codecs, s: MR.State, t: RM.State)
    ensures Convert2(k, s, t, []) == Piped(s, t, [], None)
  {
    assert MessagesEvents([]) == [];
    PipeNothing(MR.Converter(k.messages, k.responses), RM.Converter(k.responses, k.messages), s, t);
  }

  lemma BlockConverts(k: Codecs, s: MR.State, t: RM.State, i: int, b: Block)
    requires Between(s, t, i)
    ensures var x := Convert2(k, s, t, BlockStream(i, b));
            x.err.None? && x.out == BlockStream(i, b) && Between(x.first, x.second, i + 1) && SameCounts(s, x.first, t, x.second)
  {
    hide Convert2, StartOf, StopOf, DeltasOf;
    var first, middle, last := [StartOf(i, b)], DeltasOf(i, b, b.fragments), [StopOf(i)];
    StartConverts(k, s, t, i, b);
    var x := Convert2(k, s, t, first);
    Convert2Append(k, s, t, first, middle);
    DeltasConvert(k, x.first, x.second, i, b, b.fragments);
    var y := Convert2(k, s, t, first + middle);
    Convert2Append(k, s, t, first + middle, last);
    StopConverts(k, y.first, y.second, i, b);
  }

  lemma {:induction false} BlocksConvert(k: Codecs, s: MR.State, t: RM.State, i: int, blocks: seq<Block>)
    requires Between(s, t, i)
    ensures var x := Convert2(k, s, t, BlocksStream(i, blocks));
            x.err.None? && x.out == BlocksStream(i, blocks) && Between(x.first, x.second, i + |blocks|) && SameCounts(s, x.first, t, x.second)
    decreases |blocks|
  {
    if blocks == [] {
      Nothing(k, s, t);
    } else {
      hide Convert2, BlockStream;
      BlockConverts(k, s, t, i, blocks[0]);
      var x := Convert2(k, s, t, BlockStream(i, blocks[0]));
      Convert2Append(k, s, t, BlockStream(i, blocks[0]), BlocksStream(i + 1, blocks[1..]));
      BlocksConvert(k, x.first, x.second, i + 1, blocks[1..]);
    }
  }

  lemma OpeningConverts(k: Codecs, id: string, m: Message)
    ensures var x := Convert2(k, MR.Init(id), RM.Init(), Opening(m));
            && x.err.None? && x.out == Opening(m.(id := id, model := ""))
            && Between(x.first, x.second, 0) && x.first.inputTokens == m.inputTokens
            && x.first.responseId == id && x.first.outputTokens == x.second.outputTokens == 0
  {
    hide RTypeOf, MTypeOf, RunEvents;
    var w := RM.Converter(k.responses, k.messages);
    Convert2One(k, MR.Init(id), RM.Init(), Opening(m)[0]);
    var out := MR.Step(MR.Init(id), Event(MName(MMessageStart), Payload(Opening(m)[0]))).out;
    var e := Event(RName(out[0].typ), Payload(out[0]));
    var f := Event(RName(out[1].typ), Payload(out[1]));
    assert ResponsesEvents(out) == [e, f];
    RunTwo(w, RM.Init(), e, f);
  }

  /** The message that comes back: the identity of the response, no model name, and a stop reason
      and an output count that are filled in when they are missing. */
  function Returned(id: string, m: Message): Message {
    m.(id := id, model := "",
       stopReason := if m.stopReason == "" then "end_turn" else m.stopReason,
       outputTokens := if m.outputTokens > 0 then m.outputTokens else 0)
  }

  lemma EndingConverts(k: Codecs, s: MR.State, t: RM.State, i: int, m: Message)
    requires Between(s, t, i) && s.outputTokens == t.outputTokens == 0
    ensures var x := Convert2(k, s, t, Ending(m));
            x.err.None? && x.out == Ending(Returned(s.responseId, m)) && x.first.terminal && x.second.terminal
  {
    hide RTypeOf, MTypeOf, RunEvents, Convert2;
    var w := RM.Converter(k.responses, k.messages);
    var a, b := Ending(m)[0], Ending(m)[1];
    assert Ending(m) == [a] + [b];
    Convert2One(k, s, t, a);
    assert ResponsesEvents([]) == [];
    RunEventsNothing(w, t);
    var x := Convert2(k, s, t, [a]);
    Convert2Append(k, s, t, [a], [b]);
    Convert2One(k, x.first, t, b);
    var out := MR.Step(x.first, Event(MName(MMessageStop), Payload(b))).out;
    assert ResponsesEvents(out) == [Event(RName(out[0].typ), Payload(out[0]))];
    RunOne(w, t, Event(RName(out[0].typ), Payload(out[0])));
  }

  lemma RunEventsNothing<S, I, O>(v: EventConverter<S, I, O>, core: S)
    ensures RunEvents(v, core, []) == Emit(core, [], None)
  {
  }

  /** The round trip on a stream without keepalives. */
  lemma StreamReturns(k: Codecs, id: string, m: Message)
    ensures var x := Convert2(k, MR.Init(id), RM.Init(), Stream(m));
            x.err.None? && x.out == Stream(Returned(id, m)) && x.first.terminal && x.second.terminal
  {
    hide Convert2, Opening, Ending, BlocksStream, Returned;
    var opening, middle := Opening(m), BlocksStream(0, m.blocks);
    OpeningConverts(k, id, m);
    var x := Convert2(k, MR.Init(id), RM.Init(), opening);
    Convert2Append(k, MR.Init(id), RM.Init(), opening, middle);
    BlocksConvert(k, x.first, x.second, 0, m.blocks);
    var y := Convert2(k, MR.Init(id), RM.Init(), opening + middle);
    Convert2Append(k, MR.Init(id), RM.Init(), opening + middle, Ending(m));
    EndingConverts(k, y.first, y.second, |m.blocks|, m);
    ReturnedParts(id, m);
  }

  lemma ReturnedParts(id: string, m: Message)
    ensures Opening(Returned(id, m)) == Opening(m.(id := id, model := "")) && Returned(id, m).blocks == m.blocks
  {
  }

  // --- Keepalives ---

  lemma PingConverts(k: Codecs, s: MR.State, t: RM.State, p: MPayload)
    requires p.typ == MPing
    ensures Convert2(k, s, t, [p]) == Piped(s, t, [], None)
  {
    hide MTypeOf, Pipe, RunEvents;
    assert MessagesEvents([p]) == [Event(MName(p.typ), Payload(p))];
    PipeOne(MR.Converter(k.messages, k.responses), RM.Converter(k.responses, k.messages), s, t, Event(MName(p.typ), Payload(p)));
    assert ResponsesEvents([]) == [];
    RunEventsNothing(RM.Converter(k.responses, k.messages), t);
  }

  lemma {:induction false} PingsAreInvisible(k: Codecs, s: MR.State, t: RM.State, ps: seq<MPayload>)
    requires Convert2(k, s, t, WithoutPings(ps)).err.None?
    ensures Convert2(k, s, t, ps) == Convert2(k, s, t, WithoutPings(ps))
    decreases |ps|
  {
    if ps != [] {
      hide Convert2;
      var head, rest := [ps[0]], ps[1..];
      assert ps == head + rest;
      if ps[0].typ == MPing {
        assert WithoutPings(ps) == WithoutPings(rest);
        PingConverts(k, s, t, ps[0]);
        Convert2Append(k, s, t, head, rest);
        PingsAreInvisible(k, s, t, rest);
        assert [] + Convert2(k, s, t, rest).out == Convert2(k, s, t, rest).out;
      } else {
        Convert2First(k, s, t, head, WithoutPings(rest));
        Convert2Append(k, s, t, head, rest);
        Convert2Append(k, s, t, head, WithoutPings(rest));
        var x := Convert2(k, s, t, head);
        PingsAreInvisible(k, x.first, x.second, rest);
      }
    }
  }

  lemma Convert2First(k: Codecs, s: MR.State, t: RM.State, a: seq<MPayload>, b: seq<MPayload>)
    requires Convert2(k, s, t, a + b).err.None?
    ensures Convert2(k, s, t, a).err.None?
  {
    hide Pipe;
    assert MessagesEvents(a + b) == MessagesEvents(a) + MessagesEvents(b);
    PipeFirst(MR.Converter(k.messages, k.responses), RM.Converter(k.responses, k.messages), s, t, MessagesEvents(a), MessagesEvents(b));
  }

  // --- On bytes ---

  lemma {:induction false} StreamNames(m: Message, ps: seq<MPayload>, i: nat)
    requires WithoutPings(ps) == Stream(m) && i < |ps|
    ensures !ps[i].typ.MOther?
  {
    if ps[i].typ != MPing {
      KeptInStream(ps, i);
      BlockNames(0, m.blocks);
    }
  }

  lemma {:induction false} KeptInStream(ps: seq<MPayload>, i: nat)
    requires i < |ps| && ps[i].typ != MPing
    ensures ps[i] in WithoutPings(ps)
    decreases |ps|
  {
    if i > 0 {
      KeptInStream(ps[1..], i - 1);
    }
  }

  lemma {:induction false} BlockNames(i: int, blocks: seq<Block>)
    ensures forall p :: p in BlocksStream(i, blocks) ==> !p.typ.MOther?
    decreases |blocks|
  {
    if blocks != [] {
      DeltaNames(i, blocks[0], blocks[0].fragments);
      BlockNames(i + 1, blocks[1..]);
    }
  }

  lemma {:induction false} DeltaNames(i: int, b: Block, fragments: seq<string>)
    ensures forall p :: p in DeltasOf(i, b, fragments) ==> !p.typ.MOther?
    decreases |fragments|
  {
    if fragments != [] {
      DeltaNames(i, b, fragments[1..]);
    }
  }

  lemma {:induction false} EmittedNames(v: EventConverter<MR.State, MPayload, RPayload>, s: MR.State, es: seq<Event<MPayload>>)
    requires v.step == MR.Step
    ensures forall i :: 0 <= i < |RunEvents(v, s, es).out| ==> !RunEvents(v, s, es).out[i].typ.ROther?
    decreases |es|
  {
    if es != [] {
      hide MTypeOf, Numbered;
      EmittedNames(v, React(v, s, es[0]).core, es[1..]);
    }
  }

  /** The bytes of a message stream. */
  function MessagesBytes(k: Codecs, ps: seq<MPayload>): Bytes {
    PrintAll(p => ShowMessages(k.messages, p), ps)
  }

  /** For every message, whatever keepalives its stream carries, however its bytes are chunked and
      however the bytes between the two converters are: Messages to Responses to Messages succeeds
      and prints the stream of the same message. */
  lemma MessageComesBack(k: Codecs, id: string, m: Message, ps: seq<MPayload>, chunks: seq<Bytes>, between: seq<Bytes>)
    requires Lawful(k.messages) && Lawful(k.responses)
    requires WithoutPings(ps) == Stream(m)
    requires Flatten(chunks) == MessagesBytes(k, ps)
    requires Flatten(between) == Convert(MachineOf(MR.Converter(k.messages, k.responses)), Fresh(MR.Init(id)), chunks).out
    ensures Convert(MachineOf(MR.Converter(k.messages, k.responses)), Fresh(MR.Init(id)), chunks).err.None?
    ensures var r := Convert(MachineOf(RM.Converter(k.responses, k.messages)), Fresh(RM.Init()), between);
            r.err.None? && r.out == MessagesBytes(k, Stream(Returned(id, m)))
  {
    hide MachineOf, Convert, Stream, Returned, RunEvents, Flatten, Lawful, MName, RName, MR.Step, RM.Step, Pipe;
    var v, w := MR.Converter(k.messages, k.responses), RM.Converter(k.responses, k.messages);
    StreamReturns(k, id, m);
    PingsAreInvisible(k, MR.Init(id), RM.Init(), ps);
    var es := MessagesEvents(ps);
    forall i | 0 <= i < |es| ensures Plain(es[i].name) {
      StreamNames(m, ps, i);
      MessageNamesArePlain(ps[i].typ);
    }
    assert FramesOf(k.messages, es) == Shown(p => ShowMessages(k.messages, p), ps);
    EmittedNames(v, MR.Init(id), es);
    PipeOnBytes(v, w, MR.Init(id), RM.Init(), es, chunks, between);
  }
}
