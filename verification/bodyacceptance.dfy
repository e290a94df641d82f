/** Which bodies the Chat and Responses converters accept, told field by field, and what an accepted
    body becomes. */
module BodyAcceptance {
  import opened Wrappers
  import opened ChatInput
  import CM = ChatMessages
  import RB = ResponseBodies

  // --- Text ---

  predicate PlainBlock(b: Block) {
    (b.typ == "text" || b.typ == "input_text" || b.typ == "output_text") && b.text.Some? && !b.metadata
  }

  predicate PlainBlocks(blocks: seq<Block>) {
    forall i :: 0 <= i < |blocks| ==> PlainBlock(blocks[i])
  }

  function Glued(blocks: seq<Block>): string
    requires PlainBlocks(blocks)
  {
    if blocks == [] then "" else blocks[0].text.value + Glued(blocks[1..])
  }

  lemma {:induction false} GluedMore(blocks: seq<Block>, b: Block)
    requires PlainBlocks(blocks + [b])
    ensures PlainBlocks(blocks) && PlainBlock(b) && Glued(blocks + [b]) == Glued(blocks) + b.text.value
  {
    var more := blocks + [b];
    assert more[|blocks|] == b;
    assert forall i :: 0 <= i < |blocks| ==> more[i] == blocks[i];
    if blocks == [] {
      assert more == [b] && more[1..] == [];
    } else {
      assert more[1..] == blocks[1..] + [b];
      GluedMore(blocks[1..], b);
    }
  }

  /** Blocks have a text exactly when each is a text block without metadata, and it is all of theirs. */
  lemma {:induction false} JoinedExactly(blocks: seq<Block>)
    ensures JoinBlocks(blocks).Some? <==> PlainBlocks(blocks)
    ensures PlainBlocks(blocks) ==> JoinBlocks(blocks) == Some(Glued(blocks))
  {
    if blocks != [] {
      var init, last := blocks[..|blocks| - 1], blocks[|blocks| - 1];
      assert init + [last] == blocks;
      JoinedExactly(init);
      if PlainBlocks(init) && PlainBlock(last) {
        GluedMore(init, last);
      }
    }
  }

  predicate Textual(c: Content) {
    c == Null || c.Text? || (c.Blocks? && PlainBlocks(c.blocks))
  }

  function TextIn(c: Content): string {
    if c.Text? then c.text else if c.Blocks? && PlainBlocks(c.blocks) then Glued(c.blocks) else ""
  }

  lemma TextExactly(c: Content)
    ensures TextOf(c).Some? <==> Textual(c)
    ensures Textual(c) ==> TextOf(c) == Some(TextIn(c))
  {
    if c.Blocks? {
      JoinedExactly(c.blocks);
    }
  }

  // --- Calls ---

  predicate GoodCall(isObject: string -> bool, call: ToolCall) {
    call.typ == "function" && call.id != "" && call.name != "" && call.arguments.Some? && isObject(call.arguments.value)
  }

  predicate DifferentIds(calls: seq<ToolCall>) {
    forall i, j :: 0 <= i < j < |calls| ==> calls[i].id != calls[j].id
  }

  predicate GoodCalls(isObject: string -> bool, calls: seq<ToolCall>) {
    (forall i :: 0 <= i < |calls| ==> GoodCall(isObject, calls[i])) && DifferentIds(calls)
  }

  lemma GoodCallsMore(isObject: string -> bool, calls: seq<ToolCall>, call: ToolCall)
    ensures GoodCalls(isObject, calls + [call]) <==>
            GoodCalls(isObject, calls) && GoodCall(isObject, call) && forall i :: 0 <= i < |calls| ==> calls[i].id != call.id
  {
    hide GoodCall;
    var more := calls + [call];
    assert more[|calls|] == call && forall i :: 0 <= i < |calls| ==> more[i] == calls[i];
    if GoodCalls(isObject, more) {
      assert forall i :: 0 <= i < |calls| ==> GoodCall(isObject, calls[i]) by {
        forall i | 0 <= i < |calls| ensures GoodCall(isObject, calls[i]) {
          assert more[i] == calls[i];
        }
      }
    }
  }

  /** The items of calls: one for each, in order. */
  ghost predicate ItemsOfCalls(items: seq<RB.OutputItem>, calls: seq<ToolCall>) {
    |items| == |calls| && forall i :: 0 <= i < |calls| ==>
      calls[i].arguments.Some? && items[i] == RB.OutputCall(calls[i].id, calls[i].name, calls[i].arguments.value)
  }

  lemma {:induction false} CallsExactly(isObject: string -> bool, calls: seq<ToolCall>)
    ensures RB.CallOutputs(isObject, calls).Some? <==> GoodCalls(isObject, calls)
    ensures GoodCalls(isObject, calls) ==> ItemsOfCalls(RB.CallOutputs(isObject, calls).value, calls)
  {
    if calls != [] {
      var init, last := calls[..|calls| - 1], calls[|calls| - 1];
      assert init + [last] == calls;
      CallsExactly(isObject, init);
      GoodCallsMore(isObject, init, last);
      assert RB.GoodToolCall(isObject, RB.CallIds(init), last) <==> GoodCall(isObject, last) && forall i :: 0 <= i < |init| ==> init[i].id != last.id;
      hide GoodCall, GoodCalls;
    }
  }

  // --- Usage ---

  predicate ReadableDetails(d: RB.Details) {
    d.NoDetails? || (d.Details? && !d.unknown && d.known != Some(RB.NotInt))
  }

  predicate ReadableUsage(u: RB.Usage) {
    u.NoUsage? || (u.Usage? && !u.input.NotInt? && !u.output.NotInt? && !u.total.NotInt? && ReadableDetails(u.inputDetails) && ReadableDetails(u.outputDetails))
  }

  lemma UsageExactly(u: RB.Usage)
    ensures RB.ConvertUsage(u).Some? <==> ReadableUsage(u)
  {
  }

  // --- Chat to Responses ---

  predicate GoodChoice(isObject: string -> bool, c: RB.Choice) {
    && c.index == Some(0) && c.role == "assistant" && !c.extra && GoodCalls(isObject, c.toolCalls)
    && (if c.content == Absent || c.content == Null then c.toolCalls != [] else Textual(c.content))
    && (c.finish == "stop" || c.finish == "length" || c.finish == "content_filter" || (c.finish == "tool_calls" && c.toolCalls != []))
  }

  /** A Chat response converts exactly when it has one good choice and readable usage and no unknown
      fields; then its text, if any, is the one message, its calls follow, and only `length` and
      `content_filter` are incomplete. */
  lemma ChatBodyAccepted(isObject: string -> bool, r: RB.ChatResponse, model: string)
    ensures var x := RB.ToResponsesBody(isObject, r, model);
            && (x.Some? <==> r.wire && |r.choices| == 1 && GoodChoice(isObject, r.choices[0]) && ReadableUsage(r.usage))
            && (x.Some? ==>
                var c, b := r.choices[0], x.value;
                var text := TextIn(c.content);
                var spoken := if text == "" then 0 else 1;
                && b.id == r.id && b.model == model && RB.Counts(b.usage) == RB.Counts(r.usage)
                && (b.status == "completed" <==> c.finish == "stop" || c.finish == "tool_calls")
                && (b.status == "incomplete" <==> c.finish == "length" || c.finish == "content_filter")
                && (b.status == "incomplete" ==> b.reason == if c.finish == "length" then "max_output_tokens" else "content_filter")
                && |b.output| >= spoken && ItemsOfCalls(b.output[spoken..], c.toolCalls)
                && (text != "" ==> b.output[0].OutputMessage? && b.output[0].role == "assistant" && PlainBlocks(b.output[0].blocks) && Glued(b.output[0].blocks) == text))
  {
    if |r.choices| == 1 {
      var c := r.choices[0];
      TextExactly(c.content);
      CallsExactly(isObject, c.toolCalls);
      UsageExactly(r.usage);
      hide TextOf, RB.CallOutputs, RB.ConvertUsage, GoodCalls, Textual, TextIn, ItemsOfCalls, ReadableUsage, Glued, RB.Counts;
      if RB.ToResponsesBody(isObject, r, model).Some? {
        RB.UsageIsKept(r.usage);
        var text := TextIn(c.content);
        AbsentText(c.content);
        var calls := RB.CallOutputs(isObject, c.toolCalls).value;
        assert (RB.TextOutput(text) + calls)[|RB.TextOutput(text)|..] == calls;
        OneBlock(text);
      }
    }
  }

  lemma AbsentText(c: Content)
    ensures c == Absent || c == Null ==> TextIn(c) == ""
  {
  }

  lemma OneBlock(text: string)
    ensures var blocks := [Block("output_text", Some(text), false)]; PlainBlocks(blocks) && Glued(blocks) == text
  {
    var blocks := [Block("output_text", Some(text), false)];
    assert blocks[1..] == [];
    assert text + "" == text;
  }

  // --- Responses to Chat ---

  predicate GoodItem(isObject: string -> bool, item: RB.OutputItem) {
    match item
    case OutputMessage(role, blocks) => role == "assistant" && PlainBlocks(blocks)
    case OutputCall(callId, name, arguments) => callId != "" && name != "" && isObject(arguments)
    case OtherOutput(_) => false
  }

  /** Two items that do not go together: two messages, or two calls of one id. */
  predicate Clash(a: RB.OutputItem, b: RB.OutputItem) {
    (a.OutputMessage? && b.OutputMessage?) || (a.OutputCall? && b.OutputCall? && a.callId == b.callId)
  }

  predicate GoodOutput(isObject: string -> bool, output: seq<RB.OutputItem>) {
    && (forall i :: 0 <= i < |output| ==> GoodItem(isObject, output[i]))
    && (forall i, j :: 0 <= i < j < |output| ==> !Clash(output[i], output[j]))
  }

  function TextAmong(output: seq<RB.OutputItem>): string {
    if output == [] then ""
    else
      var last := output[|output| - 1];
      TextAmong(output[..|output| - 1]) + if last.OutputMessage? && PlainBlocks(last.blocks) then Glued(last.blocks) else ""
  }

  function CallsAmong(output: seq<RB.OutputItem>): seq<ToolCall> {
    if output == [] then []
    else
      var last := output[|output| - 1];
      CallsAmong(output[..|output| - 1]) + if last.OutputCall? then [ToolCall(last.callId, "function", last.name, Some(last.arguments))] else []
  }

  predicate AnyMessage(output: seq<RB.OutputItem>) {
    exists i :: 0 <= i < |output| && output[i].OutputMessage?
  }

  lemma GoodOutputMore(isObject: string -> bool, output: seq<RB.OutputItem>, item: RB.OutputItem)
    ensures GoodOutput(isObject, output + [item]) <==>
            GoodOutput(isObject, output) && GoodItem(isObject, item) && Fits(output, item)
  {
    hide GoodItem, Clash;
    var more := output + [item];
    assert more[|output|] == item && forall i :: 0 <= i < |output| ==> more[i] == output[i];
    if GoodOutput(isObject, more) {
      forall i | 0 <= i < |output| ensures GoodItem(isObject, output[i]) {
        assert GoodItem(isObject, more[i]);
      }
      forall i, j | 0 <= i < j < |output| ensures !Clash(output[i], output[j]) {
        assert !Clash(more[i], more[j]);
      }
      forall i | 0 <= i < |output| ensures !Clash(output[i], item) {
        assert !Clash(more[i], more[|output|]);
      }
    }
  }

  predicate CallsFor(output: seq<RB.OutputItem>, id: string) {
    exists i :: 0 <= i < |output| && output[i].OutputCall? && output[i].callId == id
  }

  lemma CallsForMore(output: seq<RB.OutputItem>, item: RB.OutputItem, id: string)
    ensures CallsFor(output + [item], id) <==> CallsFor(output, id) || (item.OutputCall? && item.callId == id)
  {
    var more := output + [item];
    assert more[|output|] == item;
    if CallsFor(output, id) {
      var i :| 0 <= i < |output| && output[i].OutputCall? && output[i].callId == id;
      assert more[i] == output[i];
    }
    if CallsFor(more, id) {
      var i :| 0 <= i < |more| && more[i].OutputCall? && more[i].callId == id;
      assert i < |output| ==> output[i] == more[i];
    }
  }

  /** The calls among items are known by their ids. */
  lemma {:induction false} IdsAmong(output: seq<RB.OutputItem>, id: string)
    ensures id in RB.CallIds(CallsAmong(output)) <==> CallsFor(output, id)
    decreases |output|
  {
    if output != [] {
      var init, last := output[..|output| - 1], output[|output| - 1];
      assert init + [last] == output;
      IdsAmong(init, id);
      CallsForMore(init, last, id);
      if last.OutputCall? {
        RB.CallIdsMore(CallsAmong(init), ToolCall(last.callId, "function", last.name, Some(last.arguments)));
      } else {
        assert CallsAmong(output) == CallsAmong(init);
      }
      hide CallsFor, RB.CallIds;
    }
  }

  lemma AmongMore(output: seq<RB.OutputItem>, item: RB.OutputItem)
    ensures var more := output + [item];
            && TextAmong(more) == TextAmong(output) + (if item.OutputMessage? && PlainBlocks(item.blocks) then Glued(item.blocks) else "")
            && CallsAmong(more) == CallsAmong(output) + (if item.OutputCall? then [ToolCall(item.callId, "function", item.name, Some(item.arguments))] else [])
            && (AnyMessage(more) <==> AnyMessage(output) || item.OutputMessage?)
  {
    var more := output + [item];
    assert more[..|output|] == output && more[|output|] == item;
    hide Glued, PlainBlocks;
    if AnyMessage(output) {
      var i :| 0 <= i < |output| && output[i].OutputMessage?;
      assert more[i].OutputMessage?;
    }
  }

  ghost predicate Holds(g: RB.Gathered, output: seq<RB.OutputItem>) {
    g.text == TextAmong(output) && g.calls == CallsAmong(output) && (g.messages > 0 <==> AnyMessage(output))
  }

  predicate Fits(output: seq<RB.OutputItem>, item: RB.OutputItem) {
    forall i :: 0 <= i < |output| ==> !Clash(output[i], item)
  }

  lemma MessageItemExactly(isObject: string -> bool, output: seq<RB.OutputItem>, item: RB.OutputItem, g: RB.Gathered)
    requires Holds(g, output) && item.OutputMessage?
    ensures RB.Gather(isObject, g, item).Some? <==> GoodItem(isObject, item) && Fits(output, item)
    ensures RB.Gather(isObject, g, item).Some? ==> Holds(RB.Gather(isObject, g, item).value, output + [item])
  {
    AmongMore(output, item);
    JoinedExactly(item.blocks);
    assert Fits(output, item) <==> !AnyMessage(output) by {
      if AnyMessage(output) {
        var i :| 0 <= i < |output| && output[i].OutputMessage?;
        assert Clash(output[i], item);
      }
    }
    hide JoinBlocks, Glued, PlainBlocks, TextAmong, CallsAmong, AnyMessage, Fits;
    assert g.calls + [] == g.calls;
  }

  lemma CallItemExactly(isObject: string -> bool, output: seq<RB.OutputItem>, item: RB.OutputItem, g: RB.Gathered)
    requires Holds(g, output) && item.OutputCall?
    ensures RB.Gather(isObject, g, item).Some? <==> GoodItem(isObject, item) && Fits(output, item)
    ensures RB.Gather(isObject, g, item).Some? ==> Holds(RB.Gather(isObject, g, item).value, output + [item])
  {
    AmongMore(output, item);
    IdsAmong(output, item.callId);
    assert Fits(output, item) <==> item.callId !in RB.CallIds(g.calls) by {
      hide RB.CallIds, CallsAmong;
      if CallsFor(output, item.callId) {
        var i :| 0 <= i < |output| && output[i].OutputCall? && output[i].callId == item.callId;
        assert Clash(output[i], item);
      }
    }
    hide TextAmong, CallsAmong, AnyMessage, Fits, RB.CallIds;
    assert g.text + "" == g.text;
  }

  lemma ItemExactly(isObject: string -> bool, output: seq<RB.OutputItem>, item: RB.OutputItem, g: RB.Gathered)
    requires Holds(g, output)
    ensures RB.Gather(isObject, g, item).Some? <==> GoodItem(isObject, item) && Fits(output, item)
    ensures RB.Gather(isObject, g, item).Some? ==> Holds(RB.Gather(isObject, g, item).value, output + [item])
  {
    match item
    case OutputMessage(_, _) => MessageItemExactly(isObject, output, item, g);
    case OutputCall(_, _, _) => CallItemExactly(isObject, output, item, g);
    case OtherOutput(_) =>
  }

  lemma {:induction false} OutputExactly(isObject: string -> bool, output: seq<RB.OutputItem>)
    ensures RB.GatherAll(isObject, output).Some? <==> GoodOutput(isObject, output)
    ensures GoodOutput(isObject, output) ==> Holds(RB.GatherAll(isObject, output).value, output)
    decreases |output|
  {
    if output != [] {
      var init, last := output[..|output| - 1], output[|output| - 1];
      assert init + [last] == output;
      OutputExactly(isObject, init);
      GoodOutputMore(isObject, init, last);
      hide GoodOutput, RB.Gather, Holds, Fits, GoodItem;
      if RB.GatherAll(isObject, init).Some? {
        ItemExactly(isObject, init, last, RB.GatherAll(isObject, init).value);
      }
    }
  }

  predicate GoodStatus(status: string, reason: string) {
    status == "completed" || (status == "incomplete" && (reason == "max_output_tokens" || reason == "content_filter"))
  }

  /** A Responses response converts exactly when it is completed or incomplete for a known reason, has at
      most one message and calls of distinct ids, all good, readable usage and no unknown fields; then
      the text and the calls are in the one choice, finished as status, reason and calls say. */
  lemma ResponsesBodyAccepted(isObject: string -> bool, r: RB.ResponsesResponse, model: string)
    ensures var x := RB.ToChatBody(isObject, r, model);
            && (x.Some? <==> r.wire && GoodStatus(r.status, r.reason) && GoodOutput(isObject, r.output) && ReadableUsage(r.usage))
            && (x.Some? ==>
                && x.value.id == r.id && x.value.model == model && |x.value.choices| == 1 && RB.Counts(x.value.usage) == RB.Counts(r.usage)
                && var c := x.value.choices[0];
                && c.index == Some(0) && c.role == "assistant" && c.toolCalls == CallsAmong(r.output)
                && c.content == (if TextAmong(r.output) == "" then Absent else Text(TextAmong(r.output)))
                && (c.finish == "length" <==> r.status == "incomplete" && r.reason == "max_output_tokens")
                && (c.finish == "content_filter" <==> r.status == "incomplete" && r.reason == "content_filter")
                && (c.finish == "tool_calls" <==> r.status == "completed" && c.toolCalls != [])
                && (c.finish == "stop" <==> r.status == "completed" && c.toolCalls == []))
  {
    OutputExactly(isObject, r.output);
    UsageExactly(r.usage);
    hide RB.GatherAll, RB.ConvertUsage, GoodOutput, ReadableUsage, TextAmong, CallsAmong, AnyMessage, RB.Counts;
    if RB.ConvertUsage(r.usage).Some? {
      RB.UsageIsKept(r.usage);
    }
  }

  // --- Chat messages ---

  /** All calls of the messages that may speak, in order. */
  function CallsMade(messages: seq<ChatMessage>): seq<ToolCall> {
    if messages == [] then []
    else
      var m := messages[|messages| - 1];
      CallsMade(messages[..|messages| - 1]) + if m.role in ROLES && m.toolCalls.Calls? then m.toolCalls.calls else []
  }

  /** The calls that the tool messages answer, in order. */
  function Answered(messages: seq<ChatMessage>): seq<string> {
    if messages == [] then []
    else
      var m := messages[|messages| - 1];
      Answered(messages[..|messages| - 1]) + if m.role == "tool" then [m.toolCallId] else []
  }

  predicate Called(calls: seq<ToolCall>, id: string) {
    exists k :: 0 <= k < |calls| && calls[k].id == id
  }

  predicate GoodMessageAfter(isObject: string -> bool, before: seq<ChatMessage>, m: ChatMessage) {
    if m.role in ROLES then
      (m.content == Absent || Textual(m.content)) && !m.toolCalls.BadCalls?
      && (m.toolCalls.Calls? ==> GoodOnes(isObject, m.toolCalls.calls))
    else m.role == "tool" && m.toolCallId != "" && Textual(m.content) && Called(CallsMade(before), m.toolCallId)
  }

  predicate AllDifferent(ids: seq<string>) {
    forall i, j :: 0 <= i < j < |ids| ==> ids[i] != ids[j]
  }

  predicate GoodMessages(isObject: string -> bool, messages: seq<ChatMessage>) {
    EachGood(isObject, messages) && DifferentIds(CallsMade(messages)) && AllDifferent(Answered(messages))
  }

  /** The items of a message that is no tool's. */
  function ItemsSpoken(m: ChatMessage): seq<Item> {
    (if TextIn(m.content) == "" then [] else [CM.TextItem(m.role, TextIn(m.content))])
    + if m.toolCalls.Calls? then CM.CallItems(m.toolCalls.calls) else []
  }

  /** What one message becomes, whatever came before. */
  function ItemsOf(m: ChatMessage): seq<Item> {
    if m.role == "tool" then [Output(m.toolCallId, Some(TextIn(m.content)))] else ItemsSpoken(m)
  }

  function AllItems(messages: seq<ChatMessage>): seq<Item> {
    if messages == [] then [] else AllItems(messages[..|messages| - 1]) + ItemsOf(messages[|messages| - 1])
  }

  ghost predicate Matches(t: CM.Turn, messages: seq<ChatMessage>) {
    && t.out == AllItems(messages)
    && (forall id :: id in t.seen <==> Called(CallsMade(messages), id))
    && (forall id :: id in t.results <==> id in Answered(messages))
  }

  lemma CalledMore(calls: seq<ToolCall>, more: seq<ToolCall>, id: string)
    ensures Called(calls + more, id) <==> Called(calls, id) || Called(more, id)
  {
    var all := calls + more;
    if Called(calls, id) {
      var k :| 0 <= k < |calls| && calls[k].id == id;
      assert all[k].id == id;
    }
    if Called(more, id) {
      var k :| 0 <= k < |more| && more[k].id == id;
      assert all[|calls| + k].id == id;
    }
    if Called(all, id) {
      var k :| 0 <= k < |all| && all[k].id == id;
      assert if k < |calls| then calls[k].id == id else more[k - |calls|].id == id;
    }
  }

  lemma DifferentMore(calls: seq<ToolCall>, call: ToolCall)
    ensures DifferentIds(calls + [call]) <==> DifferentIds(calls) && !Called(calls, call.id)
  {
    var more := calls + [call];
    assert more[|calls|] == call && forall i :: 0 <= i < |calls| ==> more[i] == calls[i];
    if DifferentIds(more) {
      forall i, j | 0 <= i < j < |calls| ensures calls[i].id != calls[j].id {
        assert more[i].id != more[j].id;
      }
    }
  }

  lemma DifferentPrefix(calls: seq<ToolCall>, more: seq<ToolCall>)
    requires DifferentIds(calls + more)
    ensures DifferentIds(calls)
  {
    forall i, j | 0 <= i < j < |calls| ensures calls[i].id != calls[j].id {
      assert (calls + more)[i].id != (calls + more)[j].id;
    }
  }

  predicate GoodOnes(isObject: string -> bool, calls: seq<ToolCall>) {
    forall k :: 0 <= k < |calls| ==> GoodCall(isObject, calls[k])
  }

  /** Adding the calls of one message to calls made before. */
  lemma {:induction false} AddedExactly(isObject: string -> bool, t: CM.Turn, made: seq<ToolCall>, calls: seq<ToolCall>)
    requires DifferentIds(made) && forall id :: id in t.seen <==> Called(made, id)
    ensures var x := CM.AddCalls(isObject, t, calls);
            && (x.Some? <==> GoodOnes(isObject, calls) && DifferentIds(made + calls))
            && (x.Some? ==> x.value.out == t.out + CM.CallItems(calls) && x.value.results == t.results && forall id :: id in x.value.seen <==> Called(made + calls, id))
    decreases |calls|
  {
    if calls == [] {
      assert made + calls == made && t.out + CM.CallItems(calls) == t.out;
    } else {
      var init, last := calls[..|calls| - 1], calls[|calls| - 1];
      assert init + [last] == calls && made + calls == (made + init) + [last];
      AddedExactly(isObject, t, made, init);
      DifferentMore(made + init, last);
      CM.CallIdsSnoc(init, last);
      assert CM.CallOk(isObject, last) <==> GoodCall(isObject, last);
      hide DifferentIds, GoodCall, CM.CallOk, Called;
      assert GoodOnes(isObject, calls) <==> GoodOnes(isObject, init) && GoodCall(isObject, last);
      var x := CM.AddCalls(isObject, t, calls);
      if x.Some? {
        var y := CM.AddCalls(isObject, t, init).value;
        assert t.out + CM.CallItems(calls) == t.out + CM.CallItems(init) + [Call(last.id, last.name, last.arguments)];
        forall id ensures id in x.value.seen <==> Called(made + calls, id) {
          CalledMore(made + init, [last], id);
          OneCalled(last, id);
        }
      }
    }
  }

  lemma OneCalled(call: ToolCall, id: string)
    ensures Called([call], id) <==> id == call.id
  {
    assert [call][0] == call;
  }

  lemma SpokenExactly(c: Content)
    ensures CM.SpokenText(c).Some? <==> c == Absent || Textual(c)
    ensures CM.SpokenText(c).Some? ==> CM.SpokenText(c).value == TextIn(c)
  {
    TextExactly(c);
  }

  /** One more message, in each of the folds. */
  lemma FoldsMore(messages: seq<ChatMessage>, m: ChatMessage)
    ensures CallsMade(messages + [m]) == CallsMade(messages) + if m.role in ROLES && m.toolCalls.Calls? then m.toolCalls.calls else []
    ensures Answered(messages + [m]) == Answered(messages) + if m.role == "tool" then [m.toolCallId] else []
    ensures AllItems(messages + [m]) == AllItems(messages) + ItemsOf(m)
  {
    var more := messages + [m];
    assert more[..|messages|] == messages && more[|messages|] == m;
    hide ItemsOf;
  }

  /** After the text of a message: its item, if it says something. */
  function Spoken(t: CM.Turn, m: ChatMessage): CM.Turn {
    t.(out := t.out + if TextIn(m.content) == "" then [] else [CM.TextItem(m.role, TextIn(m.content))])
  }

  lemma SpeakerTurn(isObject: string -> bool, t: CM.Turn, m: ChatMessage)
    requires m.role in ROLES
    ensures CM.TurnMessage(isObject, t, m) ==
            if m.content != Absent && !Textual(m.content) then None
            else match m.toolCalls {
              case NoCalls => Some(Spoken(t, m))
              case Calls(calls) => CM.AddCalls(isObject, Spoken(t, m), calls)
              case BadCalls => None
            }
  {
    SpokenExactly(m.content);
    hide CM.AddCalls, CM.SpokenText, TextIn, Textual, CM.TextItem;
    assert t.out + [] == t.out;
  }

  lemma SilentCaller(isObject: string -> bool, t: CM.Turn, messages: seq<ChatMessage>, m: ChatMessage)
    requires Matches(t, messages) && m.role in ROLES && !m.toolCalls.Calls?
    ensures Matches(Spoken(t, m), messages + [m]) && CallsMade(messages + [m]) == CallsMade(messages)
  {
    FoldsMore(messages, m);
    assert m.role != "tool";
    var spoken := if TextIn(m.content) == "" then [] else [CM.TextItem(m.role, TextIn(m.content))];
    assert spoken + [] == spoken && ItemsOf(m) == spoken;
    hide CallsMade, Answered, AllItems, ItemsOf, TextIn, CM.TextItem, Called;
    assert Answered(messages) + [] == Answered(messages) && CallsMade(messages) + [] == CallsMade(messages);
  }

  lemma CallerAdds(isObject: string -> bool, t: CM.Turn, messages: seq<ChatMessage>, m: ChatMessage)
    requires Matches(t, messages) && DifferentIds(CallsMade(messages)) && m.role in ROLES && m.toolCalls.Calls?
    ensures var x := CM.AddCalls(isObject, Spoken(t, m), m.toolCalls.calls);
            && (x.Some? <==> GoodOnes(isObject, m.toolCalls.calls) && DifferentIds(CallsMade(messages + [m])))
            && (x.Some? ==> Matches(x.value, messages + [m]))
  {
    FoldsMore(messages, m);
    assert m.role != "tool";
    CallerItems(t, m);
    hide AllItems, ItemsOf, TextIn, CM.TextItem, CM.AddCalls, CM.CallItems, DifferentIds, GoodOnes, CallsMade, Answered, Called, Spoken;
    AddedExactly(isObject, Spoken(t, m), CallsMade(messages), m.toolCalls.calls);
    assert Answered(messages) + [] == Answered(messages);
  }

  lemma CallerItems(t: CM.Turn, m: ChatMessage)
    requires m.role != "tool" && m.toolCalls.Calls?
    ensures Spoken(t, m).out + CM.CallItems(m.toolCalls.calls) == t.out + ItemsOf(m)
    ensures Spoken(t, m).seen == t.seen && Spoken(t, m).results == t.results
  {
    hide TextIn, CM.TextItem, CM.CallItems;
    var spoken := if TextIn(m.content) == "" then [] else [CM.TextItem(m.role, TextIn(m.content))];
    var items := CM.CallItems(m.toolCalls.calls);
    assert t.out + (spoken + items) == (t.out + spoken) + items;
  }

  lemma SpeakerExactly(isObject: string -> bool, t: CM.Turn, messages: seq<ChatMessage>, m: ChatMessage)
    requires Matches(t, messages) && DifferentIds(CallsMade(messages)) && m.role in ROLES
    ensures var x := CM.TurnMessage(isObject, t, m);
            && (x.Some? <==> GoodMessageAfter(isObject, messages, m) && DifferentIds(CallsMade(messages + [m])))
            && (x.Some? ==> Matches(x.value, messages + [m]))
  {
    SpeakerTurn(isObject, t, m);
    hide CM.TurnMessage, CallsMade, Matches, Spoken, Textual, DifferentIds, CM.AddCalls, GoodOnes;
    if m.toolCalls.Calls? {
      CallerAdds(isObject, t, messages, m);
    } else {
      SilentCaller(isObject, t, messages, m);
    }
  }

  lemma ToolTurn(isObject: string -> bool, t: CM.Turn, m: ChatMessage)
    requires m.role == "tool" && m.role !in ROLES
    ensures CM.TurnMessage(isObject, t, m) ==
            if m.toolCallId == "" || m.toolCallId !in t.seen || m.toolCallId in t.results || !Textual(m.content) then None
            else Some(t.(results := t.results + {m.toolCallId}, out := t.out + ItemsOf(m)))
  {
    TextExactly(m.content);
    NothingSaid(m.content);
    hide TextOf, TextIn, Textual;
  }

  lemma ToolMatches(t: CM.Turn, messages: seq<ChatMessage>, m: ChatMessage)
    requires Matches(t, messages) && m.role == "tool" && m.role !in ROLES
    ensures Matches(t.(results := t.results + {m.toolCallId}, out := t.out + ItemsOf(m)), messages + [m])
  {
    FoldsMore(messages, m);
    hide CallsMade, Answered, AllItems, ItemsOf, Called;
    assert CallsMade(messages) + [] == CallsMade(messages);
  }

  lemma ToolExactly(isObject: string -> bool, t: CM.Turn, messages: seq<ChatMessage>, m: ChatMessage)
    requires Matches(t, messages) && m.role == "tool" && m.role !in ROLES
    ensures var x := CM.TurnMessage(isObject, t, m);
            && (x.Some? <==> GoodMessageAfter(isObject, messages, m) && m.toolCallId !in Answered(messages))
            && (x.Some? ==> Matches(x.value, messages + [m]))
  {
    ToolTurn(isObject, t, m);
    ToolMatches(t, messages, m);
    assert m.toolCallId in t.seen <==> Called(CallsMade(messages), m.toolCallId);
    assert m.toolCallId in t.results <==> m.toolCallId in Answered(messages);
    hide CM.TurnMessage, Matches, CallsMade, Answered, Called, Textual, ItemsOf;
  }

  lemma NothingSaid(c: Content)
    ensures c == Absent ==> !Textual(c)
  {
  }

  lemma AllDifferentMore(ids: seq<string>, id: string)
    ensures AllDifferent(ids + [id]) <==> AllDifferent(ids) && id !in ids
  {
    var more := ids + [id];
    assert more[|ids|] == id && forall i :: 0 <= i < |ids| ==> more[i] == ids[i];
    if AllDifferent(more) {
      forall i, j | 0 <= i < j < |ids| ensures ids[i] != ids[j] {
        assert more[i] != more[j];
      }
    }
  }

  predicate EachGood(isObject: string -> bool, messages: seq<ChatMessage>) {
    forall i :: 0 <= i < |messages| ==> GoodMessageAfter(isObject, messages[..i], messages[i])
  }

  lemma EachGoodMore(isObject: string -> bool, messages: seq<ChatMessage>, m: ChatMessage)
    ensures EachGood(isObject, messages + [m]) <==> EachGood(isObject, messages) && GoodMessageAfter(isObject, messages, m)
  {
    hide GoodMessageAfter;
    var more := messages + [m];
    assert more[..|messages|] == messages && more[|messages|] == m;
    forall i | 0 <= i < |messages| ensures more[i] == messages[i] && more[..i] == messages[..i] {
    }
    if EachGood(isObject, more) {
      forall i | 0 <= i < |messages| ensures GoodMessageAfter(isObject, messages[..i], messages[i]) {
        assert GoodMessageAfter(isObject, more[..i], more[i]);
      }
      assert GoodMessageAfter(isObject, more[..|messages|], more[|messages|]);
    }
  }

  lemma GoodMessagesMore(isObject: string -> bool, messages: seq<ChatMessage>, m: ChatMessage)
    ensures GoodMessages(isObject, messages + [m]) <==>
            GoodMessages(isObject, messages) && GoodMessageAfter(isObject, messages, m) && DifferentIds(CallsMade(messages + [m])) && AllDifferent(Answered(messages + [m]))
  {
    var more := messages + [m];
    EachGoodMore(isObject, messages, m);
    FoldsMore(messages, m);
    hide EachGood, GoodMessageAfter, CallsMade, Answered, AllItems, ItemsOf;
    var made, added := CallsMade(messages), if m.role in ROLES && m.toolCalls.Calls? then m.toolCalls.calls else [];
    if DifferentIds(made + added) {
      DifferentPrefix(made, added);
    }
    assert Answered(messages) + [] == Answered(messages);
    if m.role == "tool" {
      AllDifferentMore(Answered(messages), m.toolCallId);
    }
  }

  lemma SpeakerStep(isObject: string -> bool, t: CM.Turn, messages: seq<ChatMessage>, m: ChatMessage)
    requires Matches(t, messages) && GoodMessages(isObject, messages) && m.role in ROLES && m.role != "tool"
    ensures var x := CM.TurnMessage(isObject, t, m);
            && (x.Some? <==> GoodMessages(isObject, messages + [m])) && (x.Some? ==> Matches(x.value, messages + [m]))
  {
    assert DifferentIds(CallsMade(messages)) && AllDifferent(Answered(messages));
    SpeakerExactly(isObject, t, messages, m);
    hide *;
    GoodMessagesMore(isObject, messages, m);
    FoldsMore(messages, m);
    assert Answered(messages) + [] == Answered(messages);
  }

  lemma ToolStep(isObject: string -> bool, t: CM.Turn, messages: seq<ChatMessage>, m: ChatMessage)
    requires Matches(t, messages) && GoodMessages(isObject, messages) && m.role !in ROLES && m.role == "tool"
    ensures var x := CM.TurnMessage(isObject, t, m);
            && (x.Some? <==> GoodMessages(isObject, messages + [m])) && (x.Some? ==> Matches(x.value, messages + [m]))
  {
    assert DifferentIds(CallsMade(messages)) && AllDifferent(Answered(messages));
    ToolExactly(isObject, t, messages, m);
    hide *;
    GoodMessagesMore(isObject, messages, m);
    FoldsMore(messages, m);
    assert CallsMade(messages) + [] == CallsMade(messages);
    AllDifferentMore(Answered(messages), m.toolCallId);
  }

  lemma StepExactly(isObject: string -> bool, t: CM.Turn, messages: seq<ChatMessage>, m: ChatMessage)
    requires Matches(t, messages) && GoodMessages(isObject, messages)
    ensures var x := CM.TurnMessage(isObject, t, m);
            && (x.Some? <==> GoodMessages(isObject, messages + [m])) && (x.Some? ==> Matches(x.value, messages + [m]))
  {
    ToolIsNoSpeaker();
    if m.role in ROLES {
      hide *;
      SpeakerStep(isObject, t, messages, m);
    } else if m.role == "tool" {
      hide *;
      ToolStep(isObject, t, messages, m);
    } else {
      StrangerRejected(isObject, t, messages, m);
      GoodMessagesMore(isObject, messages, m);
      hide *;
    }
  }

  lemma ToolIsNoSpeaker()
    ensures "tool" !in ROLES
  {
  }

  lemma StrangerRejected(isObject: string -> bool, t: CM.Turn, messages: seq<ChatMessage>, m: ChatMessage)
    requires m.role !in ROLES && m.role != "tool"
    ensures CM.TurnMessage(isObject, t, m).None? && !GoodMessageAfter(isObject, messages, m)
  {
  }

  /** Chat messages convert exactly when every message is good after those before it, all calls have
      distinct ids and every call is answered at most once; and each message becomes its items. */
  lemma {:induction false} ChatMessagesAccepted(isObject: string -> bool, messages: seq<ChatMessage>)
    ensures CM.TurnAll(isObject, messages).Some? <==> GoodMessages(isObject, messages)
    ensures CM.TurnAll(isObject, messages).Some? ==> Matches(CM.TurnAll(isObject, messages).value, messages)
    ensures CM.ToResponses(isObject, messages) == if GoodMessages(isObject, messages) then Some(AllItems(messages)) else None
    decreases |messages|
  {
    if messages != [] {
      var init, last := messages[..|messages| - 1], messages[|messages| - 1];
      assert init + [last] == messages;
      ChatMessagesAccepted(isObject, init);
      GoodMessagesMore(isObject, init, last);
      hide GoodMessages, CM.TurnMessage, GoodMessageAfter, CallsMade, Answered, AllItems;
      if GoodMessages(isObject, init) {
        StepExactly(isObject, CM.TurnAll(isObject, init).value, init, last);
      }
    }
  }
}
