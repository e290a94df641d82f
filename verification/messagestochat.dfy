/** Messages streams for a Chat client: Messages to Responses and then to Chat. */
module MessagesToChat {
  import opened Wrappers
  import opened Framing
  import opened Frames
  import opened EventMachine
  import opened Pipeline
  import opened StreamEvents
  import opened ChatStreams
  import opened MessagesRoundTrip
  import MR = MessagesToResponses
  import RC = ResponsesToChat
  import CT = ChatRoundTrip

  datatype Three = Three(messages: Codec<MPayload>, responses: Codec<RPayload>, chat: Codec<ChatPayload>)

  function Later(k: Three): CT.Codecs {
    CT.Codecs(k.chat, k.responses)
  }

  /** The converters in a row on Messages payloads. */
  function Both(k: Three, s: MR.State, t: RC.State, ps: seq<MPayload>): Piped<MR.State, RC.State, ChatOut> {
    Pipe(MR.Converter(k.messages, k.responses), CT.Second(Later(k)), s, t, MessagesEvents(ps))
  }

  // --- What a message means to a Chat client ---

  function Joined(fragments: seq<string>): string {
    if fragments == [] then "" else fragments[0] + Joined(fragments[1..])
  }

  /** Block `i`: its text, or a call with its arguments. */
  function Meant(m: Meaning, i: int, b: Block): Meaning {
    match b
    case TextBlock(fragments) => m.(text := m.text + Joined(fragments))
    case ToolBlock(id, name, fragments) => m.(order := m.order + [i], calls := m.calls[i := Call(id, name, Joined(fragments))])
  }

  function MeantAll(m: Meaning, i: int, blocks: seq<Block>): Meaning
    decreases |blocks|
  {
    if blocks == [] then m else MeantAll(Meant(m, i, blocks[0]), i + 1, blocks[1..])
  }

  function AnyTool(blocks: seq<Block>): bool {
    exists i :: 0 <= i < |blocks| && blocks[i].ToolBlock?
  }

  function AnyText(blocks: seq<Block>): bool {
    exists i :: 0 <= i < |blocks| && blocks[i].TextBlock?
  }

  /** A Chat message is one text or any number of named calls. */
  predicate Chattable(text: bool, call: bool, blocks: seq<Block>)
    decreases |blocks|
  {
    blocks == [] ||
    match blocks[0]
    case TextBlock(_) => !text && !call && Chattable(true, call, blocks[1..])
    case ToolBlock(id, name, _) => !text && id != "" && name != "" && Chattable(text, true, blocks[1..])
  }

  // --- Piece by piece ---

  lemma BothNothing(k: Three, s: MR.State, t: RC.State)
    ensures Both(k, s, t, []) == Piped(s, t, [], None)
  {
    assert MessagesEvents([]) == [];
    PipeNothing(MR.Converter(k.messages, k.responses), CT.Second(Later(k)), s, t);
  }

  lemma BothAppend(k: Three, s: MR.State, t: RC.State, a: seq<MPayload>, b: seq<MPayload>)
    ensures var x := Both(k, s, t, a);
            x.err.None? ==>
              var y := Both(k, x.first, x.second, b);
              Both(k, s, t, a + b) == Piped(y.first, y.second, x.out + y.out, y.err)
    ensures Both(k, s, t, a).err.Some? ==> Both(k, s, t, a + b).err.Some?
  {
    hide MR.Converter, CT.Second, Pipe;
    assert MessagesEvents(a + b) == MessagesEvents(a) + MessagesEvents(b);
    var v, w := MR.Converter(k.messages, k.responses), CT.Second(Later(k));
    if Both(k, s, t, a).err.None? {
      PipeAppend(v, w, s, t, MessagesEvents(a), MessagesEvents(b));
    } else if Both(k, s, t, a + b).err.None? {
      PipeFirst(v, w, s, t, MessagesEvents(a), MessagesEvents(b));
    }
  }

  lemma BothOne(k: Three, s: MR.State, t: RC.State, p: MPayload)
    requires !s.terminal && MR.Step(s, Event(MName(p.typ), Payload(p))).err.None?
    ensures var x := MR.Step(s, Event(MName(p.typ), Payload(p)));
            var y := CT.Pass(Later(k), t, x.out);
            Both(k, s, t, [p]) == Piped(x.core, y.core, y.out, y.err)
  {
    hide MR.Step, CT.Second, Pipe;
    assert MessagesEvents([p]) == [Event(MName(p.typ), Payload(p))];
    PipeOne(MR.Converter(k.messages, k.responses), CT.Second(Later(k)), s, t, Event(MName(p.typ), Payload(p)));
  }

  /** Between two blocks, `i` of them converted; `n` is the meaning printed so far. */
  ghost predicate Mid(s: MR.State, t: RC.State, n: Meaning, i: int, text: bool, call: bool, input: int) {
    && s.created && !s.terminal && s.itemIndex == i - 1 && s.inputTokens == input && s.outputTokens == 0 && s.stopReason == ""
    && !t.terminal && t.err.None? && t.usage == NO_USAGE.(input := Max0(input))
    && t.messageCount == (if text then 1 else 0) && t.functionCallSeen == call && (|t.calls| > 0 <==> call)
    && !n.ended && n.finish == "" && n.reports == [] && n.proper && i >= 0
    && (forall j :: j in n.calls ==> 0 <= j < i)
  }

  /** Inside block `i`, whose fragments so far are in `n`. */
  ghost predicate In(s: MR.State, t: RC.State, n: Meaning, i: int, text: bool, call: bool, input: int, b: Block) {
    && Mid(s.(itemIndex := i - 1), t, n.(calls := n.calls - {i}), i, text, call, input) && s.itemIndex == i
    && s.itemType == (if b.TextBlock? then BText else BToolUse) && (b.ToolBlock? ==> i in n.calls)
  }

  lemma RefusedItem(k: Three, t: RC.State, p: RPayload)
    requires !t.terminal && t.err.None? && p.typ == RItemAdded && RC.AddItem(t, p).err.Some?
    ensures CT.Pass(Later(k), t, [p]).err.Some?
  {
    hide RTypeOf, RName, RC.AddItem;
    NamesAreRead(RItemAdded);
    CT.EmptyName(RItemAdded);
    var e := Event(RName(RItemAdded), Payload(p));
    assert ResponsesEvents([p]) == [e];
    RunOne(CT.Second(Later(k)), t, e);
  }

  lemma PassFirst(k: Three, t: RC.State, a: seq<RPayload>, b: seq<RPayload>)
    requires CT.Pass(Later(k), t, a).err.Some?
    ensures CT.Pass(Later(k), t, a + b).err.Some?
  {
    if CT.Pass(Later(k), t, a + b).err.None? {
      CT.PassPrefix(Later(k), t, a, b);
    }
  }

  lemma TextStarts(k: Three, s: MR.State, t: RC.State, n: Meaning, i: int, text: bool, call: bool, input: int, b: Block)
    requires Mid(s, t, n, i, text, call, input) && b.TextBlock?
    ensures var x := Both(k, s, t, [StartOf(i, b)]);
            && (x.err.None? <==> !text && !call)
            && (x.err.None? ==> x.out == [] && In(x.first, x.second, n, i, true, call, input, b))
  {
    hide MTypeOf, Numbered, CT.Pass, Both;
    var p := StartOf(i, b);
    BothOne(k, s, t, p);
    var out := MR.Step(s, Event(MName(p.typ), Payload(p))).out;
    var y := CT.Pass(Later(k), t, [out[0]]);
    assert out == [out[0]] + [out[1]];
    if !text && !call {
      CT.PassOne(Later(k), t, out[0]);
      CT.PassOne(Later(k), y.core, out[1]);
      CT.PassAppend(Later(k), t, [out[0]], [out[1]]);
      assert n.calls - {i} == n.calls;
    } else {
      RefusedItem(k, t, out[0]);
      PassFirst(k, t, [out[0]], [out[1]]);
    }
  }

  lemma ToolStarts(k: Three, s: MR.State, t: RC.State, n: Meaning, i: int, text: bool, call: bool, input: int, b: Block)
    requires Mid(s, t, n, i, text, call, input) && b.ToolBlock?
    ensures var x := Both(k, s, t, [StartOf(i, b)]);
            && (x.err.None? <==> !text && b.id != "" && b.name != "")
            && (x.err.None? ==> ReadOut(n, x.out) == Meant(n, i, ToolBlock(b.id, b.name, [])) && In(x.first, x.second, ReadOut(n, x.out), i, text, true, input, b))
  {
    hide MTypeOf, Numbered, CT.Pass, Both, ReadOut;
    var p := StartOf(i, b);
    BothOne(k, s, t, p);
    var out := MR.Step(s, Event(MName(p.typ), Payload(p))).out;
    assert out == [out[0]];
    if !text && b.id != "" && b.name != "" {
      CT.PassOne(Later(k), t, out[0]);
      var delta := ToolDelta(i, b.id, "function", b.name, "");
      CT.ToolChunkRead(n, t, delta);
      assert i !in n.calls;
      var m := AddTool(n, delta);
      assert m.calls - {i} == n.calls;
      assert Joined([]) == "";
    } else {
      RefusedItem(k, t, out[0]);
    }
  }

  /** One more fragment of block `i`. */
  function More(m: Meaning, i: int, b: Block, fragment: string): Meaning
    requires b.ToolBlock? ==> i in m.calls
  {
    if b.TextBlock? then m.(text := m.text + fragment) else CT.AddArguments(m, i, fragment)
  }

  lemma TextPasses(k: Three, s: MR.State, t: RC.State, n: Meaning, i: int, text: bool, call: bool, input: int, b: Block, fragment: string)
    requires In(s, t, n, i, text, call, input, b) && b.TextBlock?
    ensures var x := Both(k, s, t, [DeltaOf(i, b, fragment)]);
            x.err.None? && ReadOut(n, x.out) == n.(text := n.text + fragment) && In(x.first, x.second, ReadOut(n, x.out), i, text, call, input, b)
  {
    hide MTypeOf, CT.Pass, Both, ReadOut;
    var p := DeltaOf(i, b, fragment);
    BothOne(k, s, t, p);
    var out := MR.Step(s, Event(MName(p.typ), Payload(p))).out;
    assert out == [out[0]];
    CT.TextPasses(Later(k), t, n, i, fragment);
    CT.PassOne(Later(k), t, out[0]);
    CT.PassOne(Later(k), t, Bare(RTextDelta).(outputIndex := i, delta := fragment));
  }

  lemma ArgumentsPass(k: Three, s: MR.State, t: RC.State, n: Meaning, i: int, text: bool, call: bool, input: int, b: Block, fragment: string)
    requires In(s, t, n, i, text, call, input, b) && b.ToolBlock?
    ensures var x := Both(k, s, t, [DeltaOf(i, b, fragment)]);
            x.err.None? && ReadOut(n, x.out) == CT.AddArguments(n, i, fragment) && In(x.first, x.second, ReadOut(n, x.out), i, text, call, input, b)
  {
    hide MTypeOf, CT.Pass, Both, ReadOut;
    var p := DeltaOf(i, b, fragment);
    BothOne(k, s, t, p);
    var out := MR.Step(s, Event(MName(p.typ), Payload(p))).out;
    assert out == [out[0]];
    CT.PassOne(Later(k), t, out[0]);
    CT.ToolChunkRead(n, t, ToolDelta(i, "", "", "", fragment));
    assert AddTool(n, ToolDelta(i, "", "", "", fragment)) == CT.AddArguments(n, i, fragment);
    assert CT.AddArguments(n, i, fragment).calls - {i} == n.calls - {i};
  }

  lemma FragmentPasses(k: Three, s: MR.State, t: RC.State, n: Meaning, i: int, text: bool, call: bool, input: int, b: Block, fragment: string)
    requires In(s, t, n, i, text, call, input, b)
    ensures b.ToolBlock? ==> i in n.calls
    ensures var x := Both(k, s, t, [DeltaOf(i, b, fragment)]);
            x.err.None? && ReadOut(n, x.out) == More(n, i, b, fragment) && In(x.first, x.second, ReadOut(n, x.out), i, text, call, input, b)
  {
    InHasCall(s, t, n, i, text, call, input, b);
    hide Both, ReadOut, In, DeltaOf;
    if b.TextBlock? {
      TextPasses(k, s, t, n, i, text, call, input, b, fragment);
    } else {
      ArgumentsPass(k, s, t, n, i, text, call, input, b, fragment);
    }
  }

  /** All fragments of block `i`. */
  function Fragments(m: Meaning, i: int, b: Block, fragments: seq<string>): Meaning
    requires b.ToolBlock? ==> i in m.calls
    decreases |fragments|
  {
    if fragments == [] then m else Fragments(More(m, i, b, fragments[0]), i, b, fragments[1..])
  }

  lemma {:induction false} FragmentsPass(k: Three, s: MR.State, t: RC.State, n: Meaning, i: int, text: bool, call: bool, input: int, b: Block, fragments: seq<string>)
    requires In(s, t, n, i, text, call, input, b)
    ensures var x := Both(k, s, t, DeltasOf(i, b, fragments));
            x.err.None? && ReadOut(n, x.out) == Fragments(n, i, b, fragments) && In(x.first, x.second, ReadOut(n, x.out), i, text, call, input, b)
    decreases |fragments|
  {
    hide Both, ReadOut, In, More, DeltaOf;
    InHasCall(s, t, n, i, text, call, input, b);
    if fragments == [] {
      BothNothing(k, s, t);
      CT.ReadNothing(n);
    } else {
      FragmentPasses(k, s, t, n, i, text, call, input, b, fragments[0]);
      var x := Both(k, s, t, [DeltaOf(i, b, fragments[0])]);
      var n1 := ReadOut(n, x.out);
      FragmentsPass(k, x.first, x.second, n1, i, text, call, input, b, fragments[1..]);
      BothAppend(k, s, t, [DeltaOf(i, b, fragments[0])], DeltasOf(i, b, fragments[1..]));
      ReadAppend(n, x.out, Both(k, x.first, x.second, DeltasOf(i, b, fragments[1..])).out);
    }
  }

  lemma InHasCall(s: MR.State, t: RC.State, n: Meaning, i: int, text: bool, call: bool, input: int, b: Block)
    requires In(s, t, n, i, text, call, input, b)
    ensures b.ToolBlock? ==> i in n.calls
  {
  }

  lemma {:induction false} FragmentsJoin(m: Meaning, i: int, b: Block, fragments: seq<string>)
    requires b.ToolBlock? ==> i in m.calls
    ensures Fragments(m, i, b, fragments) ==
            if b.TextBlock? then m.(text := m.text + Joined(fragments)) else CT.AddArguments(m, i, Joined(fragments))
    decreases |fragments|
  {
    if fragments == [] {
      assert m.text + "" == m.text;
      if b.ToolBlock? {
        assert m.calls[i].arguments + "" == m.calls[i].arguments;
        assert CT.AddArguments(m, i, "").calls == m.calls;
      }
    } else {
      FragmentsJoin(More(m, i, b, fragments[0]), i, b, fragments[1..]);
      var a, rest := fragments[0], Joined(fragments[1..]);
      if b.TextBlock? {
        assert (m.text + a) + rest == m.text + (a + rest);
      } else {
        var c := m.calls[i];
        assert (c.arguments + a) + rest == c.arguments + (a + rest);
        assert m.calls[i := c.(arguments := c.arguments + a)][i := c.(arguments := c.arguments + a + rest)] == m.calls[i := c.(arguments := c.arguments + (a + rest))];
      }
    }
  }

  lemma BlockStops(k: Three, s: MR.State, t: RC.State, n: Meaning, i: int, text: bool, call: bool, input: int, b: Block)
    requires In(s, t, n, i, text, call, input, b)
    ensures var x := Both(k, s, t, [StopOf(i)]);
            x.err.None? && x.out == [] && Mid(x.first, x.second, n, i + 1, text, call, input)
  {
    hide MTypeOf, CT.Pass, Both;
    var p := StopOf(i);
    BothOne(k, s, t, p);
    var out := MR.Step(s, Event(MName(p.typ), Payload(p))).out;
    CT.IgnoredPass(Later(k), t, out);
    forall j | j in n.calls ensures 0 <= j < i + 1 {
      assert j != i ==> j in n.calls - {i};
    }
  }

  lemma BlockPasses(k: Three, s: MR.State, t: RC.State, n: Meaning, i: int, text: bool, call: bool, input: int, b: Block)
    requires Mid(s, t, n, i, text, call, input)
    ensures var x := Both(k, s, t, BlockStream(i, b));
            var ok := if b.TextBlock? then !text && !call else !text && b.id != "" && b.name != "";
            && (x.err.None? <==> ok)
            && (ok ==> ReadOut(n, x.out) == Meant(n, i, b) && Mid(x.first, x.second, ReadOut(n, x.out), i + 1, text || b.TextBlock?, call || b.ToolBlock?, input))
  {
    var first, middle, last := [StartOf(i, b)], DeltasOf(i, b, b.fragments), [StopOf(i)];
    hide Both, ReadOut, Mid, In, StartOf, StopOf, DeltasOf;
    var x := Both(k, s, t, first);
    BothAppend(k, s, t, first, middle);
    BothAppend(k, s, t, first + middle, last);
    var text', call' := text || b.TextBlock?, call || b.ToolBlock?;
    CT.ReadNothing(n);
    if b.TextBlock? {
      TextStarts(k, s, t, n, i, text, call, input, b);
    } else {
      ToolStarts(k, s, t, n, i, text, call, input, b);
    }
    if x.err.None? {
      var n1 := ReadOut(n, x.out);
      InHasCall(x.first, x.second, n1, i, text', call', input, b);
      FragmentsPass(k, x.first, x.second, n1, i, text', call', input, b, b.fragments);
      FragmentsJoin(n1, i, b, b.fragments);
      var y := Both(k, x.first, x.second, middle);
      var n2 := ReadOut(n1, y.out);
      BlockStops(k, y.first, y.second, n2, i, text', call', input, b);
      ReadAppend(n, x.out, y.out);
      assert (x.out + y.out) + [] == x.out + y.out;
      MeantWhole(n, i, b);
    }
  }

  /** A call that begins without arguments and gets them all. */
  lemma MeantWhole(n: Meaning, i: int, b: Block)
    ensures b.ToolBlock? ==>
      var started := Meant(n, i, ToolBlock(b.id, b.name, []));
      i in started.calls && CT.AddArguments(started, i, Joined(b.fragments)) == Meant(n, i, b)
  {
    if b.ToolBlock? {
      var joined := Joined(b.fragments);
      assert "" + joined == joined;
      assert n.calls[i := Call(b.id, b.name, "")][i := Call(b.id, b.name, joined)] == n.calls[i := Call(b.id, b.name, joined)];
    }
  }

  lemma {:induction false} BlocksPass(k: Three, s: MR.State, t: RC.State, n: Meaning, i: int, text: bool, call: bool, input: int, blocks: seq<Block>)
    requires Mid(s, t, n, i, text, call, input)
    ensures var x := Both(k, s, t, BlocksStream(i, blocks));
            && (x.err.None? <==> Chattable(text, call, blocks))
            && (x.err.None? ==> ReadOut(n, x.out) == MeantAll(n, i, blocks) && Mid(x.first, x.second, ReadOut(n, x.out), i + |blocks|, text || AnyText(blocks), call || AnyTool(blocks), input))
    decreases |blocks|
  {
    hide Both, ReadOut, Mid, BlockStream, Meant;
    if blocks == [] {
      BothNothing(k, s, t);
      CT.ReadNothing(n);
      assert Mid(s, t, n, i + 0, text, call, input);
    } else {
      var b := blocks[0];
      BlockPasses(k, s, t, n, i, text, call, input, b);
      BothAppend(k, s, t, BlockStream(i, b), BlocksStream(i + 1, blocks[1..]));
      AnyFront(blocks);
      var x := Both(k, s, t, BlockStream(i, b));
      if x.err.None? {
        var n1 := ReadOut(n, x.out);
        BlocksPass(k, x.first, x.second, n1, i + 1, text || b.TextBlock?, call || b.ToolBlock?, input, blocks[1..]);
        ReadAppend(n, x.out, Both(k, x.first, x.second, BlocksStream(i + 1, blocks[1..])).out);
      }
    }
  }

  lemma AnyFront(blocks: seq<Block>)
    requires blocks != []
    ensures AnyTool(blocks) <==> blocks[0].ToolBlock? || AnyTool(blocks[1..])
    ensures AnyText(blocks) <==> blocks[0].TextBlock? || AnyText(blocks[1..])
  {
    if AnyText(blocks[1..]) {
      var i :| 0 <= i < |blocks[1..]| && blocks[1..][i].TextBlock?;
      assert blocks[i + 1] == blocks[1..][i];
    }
    if AnyTool(blocks[1..]) {
      var i :| 0 <= i < |blocks[1..]| && blocks[1..][i].ToolBlock?;
      assert blocks[i + 1] == blocks[1..][i];
    }
  }

  lemma OpeningPasses(k: Three, id: string, m: Message)
    ensures var x := Both(k, MR.Init(id), RC.Init(), Opening(m));
            x.err.None? && ReadOut(NOTHING, x.out) == NOTHING && Mid(x.first, x.second, NOTHING, 0, false, false, m.inputTokens)
  {
    hide MTypeOf, CT.Pass, Both, ReadOut;
    var p := Opening(m)[0];
    BothOne(k, MR.Init(id), RC.Init(), p);
    var out := MR.Step(MR.Init(id), Event(MName(p.typ), Payload(p))).out;
    assert out == [out[0]] + [out[1]];
    CT.PassOne(Later(k), RC.Init(), out[0]);
    var y := CT.Pass(Later(k), RC.Init(), [out[0]]);
    CT.PassOne(Later(k), y.core, out[1]);
    CT.PassAppend(Later(k), RC.Init(), [out[0]], [out[1]]);
    CT.RoleMeansNothing(NOTHING, y.core);
    assert y.out + [] == y.out;
  }

  /** The finish reason for a stop reason. */
  function FinishOf(stopReason: string, call: bool): string {
    if stopReason == "max_tokens" then "length" else if stopReason == "tool_use" || call then "tool_calls" else "stop"
  }

  lemma EndingPasses(k: Three, s: MR.State, t: RC.State, n: Meaning, i: int, text: bool, call: bool, m: Message)
    requires Mid(s, t, n, i, text, call, m.inputTokens)
    ensures var x := Both(k, s, t, Ending(m));
            && x.err.None? && x.first.terminal && x.second.terminal && x.second.err.None?
            && ReadOut(n, x.out) == n.(finish := FinishOf(m.stopReason, call), reports := [NO_USAGE.(input := Max0(m.inputTokens), output := Max0(m.outputTokens))], ended := true)
  {
    hide MTypeOf, CT.Pass, Both, ReadOut;
    var a, b := Ending(m)[0], Ending(m)[1];
    assert Ending(m) == [a] + [b];
    BothOne(k, s, t, a);
    CT.PassNothing(Later(k), t);
    var x := Both(k, s, t, [a]);
    BothAppend(k, s, t, [a], [b]);
    BothOne(k, x.first, t, b);
    var out := MR.Step(x.first, Event(MName(MMessageStop), Payload(b))).out;
    assert out == [out[0]];
    CT.PassOne(Later(k), t, out[0]);
    var u := t.(usage := RC.ApplyUsage(t.usage, out[0].response.usage));
    CT.ClosingRead(n, u, RC.FinishReason(u, m.stopReason));
    var y := CT.Pass(Later(k), t, out);
    assert [] + y.out == y.out;
    assert [] + [u.usage] == [u.usage];
  }

  /** Every Messages stream of blocks, for a Chat client: it is accepted exactly when it is one text or
      any number of calls with ids and names; and then the Chat stream means the same, block by block,
      with the tokens and the finish reason for the stop reason. */
  lemma MessageBecomesChat(k: Three, id: string, m: Message)
    ensures var x := Both(k, MR.Init(id), RC.Init(), Stream(m));
            && (x.err.None? <==> Chattable(false, false, m.blocks))
            && (x.err.None? ==>
                x.second.terminal && x.second.err.None?
                && ReadOut(NOTHING, x.out) == MeantAll(NOTHING, 0, m.blocks).(
                     finish := FinishOf(m.stopReason, AnyTool(m.blocks)),
                     reports := [NO_USAGE.(input := Max0(m.inputTokens), output := Max0(m.outputTokens))], ended := true))
  {
    hide Both, ReadOut, Mid, Opening, Ending, BlocksStream, MeantAll, Chattable;
    var opening, middle := Opening(m), BlocksStream(0, m.blocks);
    OpeningPasses(k, id, m);
    var x := Both(k, MR.Init(id), RC.Init(), opening);
    BothAppend(k, MR.Init(id), RC.Init(), opening, middle);
    BothAppend(k, MR.Init(id), RC.Init(), opening + middle, Ending(m));
    BlocksPass(k, x.first, x.second, NOTHING, 0, false, false, m.inputTokens, m.blocks);
    var y := Both(k, x.first, x.second, middle);
    if y.err.None? {
      var n := ReadOut(NOTHING, y.out);
      EndingPasses(k, y.first, y.second, n, |m.blocks|, AnyText(m.blocks), AnyTool(m.blocks), m);
      var z := Both(k, y.first, y.second, Ending(m));
      ReadAppend(NOTHING, x.out, y.out);
      ReadAppend(NOTHING, x.out + y.out, z.out);
    }
  }
}
