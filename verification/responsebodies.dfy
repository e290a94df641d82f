/** Conversion of whole responses between Chat and Responses. */
module ResponseBodies {
  import opened Wrappers
  import opened ChatInput

  // --- Usage ---

  /** A JSON number field: missing or null, an integer, or something else. */
  datatype Number = Missing | Int(n: int) | NotInt

  /** A detail object: missing or null, or its known key and whether an unknown key has a value. */
  datatype Details = NoDetails | Details(known: Option<Number>, unknown: bool) | BadDetails

  /** The usage object, whose keys the two dialects name differently. */
  datatype Usage = NoUsage | Usage(input: Number, output: Number, total: Number, inputDetails: Details, outputDetails: Details) | BadUsage

  function NumberField(x: Number): Option<int> {
    match x
    case Missing => Some(0)
    case Int(n) => Some(n)
    case NotInt => None
  }

  /** The known key alone is kept; as a JSON value null reads as zero. */
  function DetailsField(d: Details): Option<Details> {
    match d
    case NoDetails => Some(NoDetails)
    case BadDetails => None
    case Details(known, unknown) =>
      if unknown then None
      else match known
        case None => Some(Details(None, false))
        case Some(x) => if x.NotInt? then None else Some(Details(Some(Int(NumberField(x).value)), false))
  }

  function ConvertUsage(u: Usage): Option<Usage> {
    match u
    case NoUsage => Some(Usage(Int(0), Int(0), Int(0), NoDetails, NoDetails))
    case BadUsage => None
    case Usage(input, output, total, inputDetails, outputDetails) =>
      var i, o, t := NumberField(input), NumberField(output), NumberField(total);
      var id, od := DetailsField(inputDetails), DetailsField(outputDetails);
      if i.None? || o.None? || t.None? || id.None? || od.None? then None
      else Some(Usage(Int(i.value), Int(o.value), Int(t.value), id.value, od.value))
  }

  function Count(x: Number): int {
    if x.Int? then x.n else 0
  }

  /** The counts a usage object reports: totals, and the details when given. */
  function Counts(u: Usage): (int, int, int, Option<int>, Option<int>) {
    if u.Usage? then (Count(u.input), Count(u.output), Count(u.total), DetailCount(u.inputDetails), DetailCount(u.outputDetails))
    else (0, 0, 0, None, None)
  }

  function DetailCount(d: Details): Option<int> {
    if d.Details? && d.known.Some? then Some(Count(d.known.value)) else None
  }

  // --- Chat responses ---

  datatype Choice = Choice(index: Option<int>, role: string, content: Content, extra: bool, toolCalls: seq<ToolCall>, finish: string)

  /** `wire` says that no field beyond the known ones is present. */
  datatype ChatResponse = ChatResponse(id: string, model: string, choices: seq<Choice>, usage: Usage, wire: bool)

  // --- Responses responses ---

  datatype OutputItem =
    | OutputMessage(role: string, blocks: seq<Block>)
    | OutputCall(callId: string, name: string, arguments: string)
    | OtherOutput(typ: string)

  datatype ResponsesResponse = ResponsesResponse(id: string, model: string, status: string, output: seq<OutputItem>, reason: string, usage: Usage, wire: bool)

  // --- Chat to Responses ---

  predicate GoodToolCall(isObject: string -> bool, seen: set<string>, call: ToolCall) {
    call.typ == "function" && call.id != "" && call.name != "" && call.id !in seen && call.arguments.Some? && isObject(call.arguments.value)
  }

  function CallIds(calls: seq<ToolCall>): set<string> {
    set i | 0 <= i < |calls| :: calls[i].id
  }

  function CallOutputs(isObject: string -> bool, calls: seq<ToolCall>): Option<seq<OutputItem>> {
    if calls == [] then Some([])
    else
      var init, call := calls[..|calls| - 1], calls[|calls| - 1];
      match CallOutputs(isObject, init)
      case None => None
      case Some(out) =>
        if GoodToolCall(isObject, CallIds(init), call) then Some(out + [OutputCall(call.id, call.name, call.arguments.value)]) else None
  }

  /** The status and the reason of incompleteness for a finish reason. */
  function StatusOf(finish: string, calls: bool): Option<(string, string)> {
    if finish == "stop" then Some(("completed", ""))
    else if finish == "tool_calls" then (if calls then Some(("completed", "")) else None)
    else if finish == "length" then Some(("incomplete", "max_output_tokens"))
    else if finish == "content_filter" then Some(("incomplete", "content_filter"))
    else None
  }

  function TextOutput(text: string): seq<OutputItem> {
    if text == "" then [] else [OutputMessage("assistant", [Block("output_text", Some(text), false)])]
  }

  function ToResponsesBody(isObject: string -> bool, r: ChatResponse, model: string): Option<ResponsesResponse> {
    if !r.wire || |r.choices| != 1 then None
    else
      var c := r.choices[0];
      var spoken := c.content != Absent && c.content != Null;
      if c.index != Some(0) || c.finish == "" || c.role != "assistant" || c.extra || (!spoken && c.toolCalls == []) then None
      else
        var text := if spoken then TextOf(c.content) else Some("");
        var calls := CallOutputs(isObject, c.toolCalls);
        var status := StatusOf(c.finish, c.toolCalls != []);
        var usage := ConvertUsage(r.usage);
        if text.None? || calls.None? || status.None? || usage.None? then None
        else Some(ResponsesResponse(r.id, model, status.value.0, TextOutput(text.value) + calls.value, status.value.1, usage.value, true))
  }

  method ChatToResponsesResponse(isObject: string -> bool, r: ChatResponse, model: string) returns (body: Option<ResponsesResponse>)
    ensures body == ToResponsesBody(isObject, r, model)
  {
    hide TextOf, ConvertUsage, CallOutputs;
    if !r.wire || |r.choices| != 1 {
      return None;
    }
    var c := r.choices[0];
    if c.index != Some(0) || c.finish == "" || c.role != "assistant" || c.extra {
      return None;
    }
    var output := [];
    if c.content == Absent || c.content == Null {
      if c.toolCalls == [] {
        return None;
      }
    } else {
      var text := TextOf(c.content);
      if text.None? {
        return None;
      }
      output := TextOutput(text.value);
    }
    var calls := ConvertCalls(isObject, c.toolCalls);
    var status := StatusOf(c.finish, c.toolCalls != []);
    var usage := ConvertUsage(r.usage);
    if calls.None? || status.None? || usage.None? {
      return None;
    }
    body := Some(ResponsesResponse(r.id, model, status.value.0, output + calls.value, status.value.1, usage.value, true));
  }

  method ConvertCalls(isObject: string -> bool, calls: seq<ToolCall>) returns (out: Option<seq<OutputItem>>)
    ensures out == CallOutputs(isObject, calls)
  {
    var seen, output := {}, [];
    assert calls[..0] == [];
    for n := 0 to |calls|
      invariant CallOutputs(isObject, calls[..n]) == Some(output) && seen == CallIds(calls[..n])
    {
      assert calls[..n + 1][..n] == calls[..n];
      CallsStayRejected(isObject, calls, n + 1);
      CallIdsMore(calls[..n], calls[n]);
      if !GoodToolCall(isObject, seen, calls[n]) {
        return None;
      }
      assert calls[..n + 1] == calls[..n] + [calls[n]];
      seen, output := seen + {calls[n].id}, output + [OutputCall(calls[n].id, calls[n].name, calls[n].arguments.value)];
    }
    assert calls[..|calls|] == calls;
    out := Some(output);
  }

  lemma {:induction false} CallsStayRejected(isObject: string -> bool, calls: seq<ToolCall>, n: nat)
    requires n <= |calls|
    ensures CallOutputs(isObject, calls[..n]).None? ==> CallOutputs(isObject, calls).None?
    decreases |calls|
  {
    if n == |calls| {
      assert calls[..n] == calls;
    } else {
      assert calls[..|calls| - 1][..n] == calls[..n];
      CallsStayRejected(isObject, calls[..|calls| - 1], n);
    }
  }

  lemma CallIdsMore(calls: seq<ToolCall>, call: ToolCall)
    ensures CallIds(calls + [call]) == CallIds(calls) + {call.id}
  {
    var more := calls + [call];
    assert forall i :: 0 <= i < |calls| ==> more[i] == calls[i];
    assert more[|calls|] == call;
    forall id | id in CallIds(calls) + {call.id} ensures id in CallIds(more) {
      if id == call.id {
        assert more[|calls|].id == id;
      } else {
        var i :| 0 <= i < |calls| && calls[i].id == id;
        assert more[i].id == id;
      }
    }
  }

  // --- Responses to Chat ---

  /** The variables of the output loop. */
  datatype Gathered = Gathered(text: string, calls: seq<ToolCall>, messages: nat)

  function Gather(isObject: string -> bool, g: Gathered, item: OutputItem): Option<Gathered> {
    match item
    case OutputMessage(role, blocks) =>
      if g.messages > 0 || role != "assistant" || JoinBlocks(blocks).None? then None
      else Some(g.(messages := g.messages + 1, text := g.text + JoinBlocks(blocks).value))
    case OutputCall(callId, name, arguments) =>
      var call := ToolCall(callId, "function", name, Some(arguments));
      if GoodToolCall(isObject, CallIds(g.calls), call) then Some(g.(calls := g.calls + [call])) else None
    case OtherOutput(_) => None
  }

  function GatherAll(isObject: string -> bool, output: seq<OutputItem>): Option<Gathered> {
    if output == [] then Some(Gathered("", [], 0))
    else match GatherAll(isObject, output[..|output| - 1])
      case None => None
      case Some(g) => Gather(isObject, g, output[|output| - 1])
  }

  function FinishOf(status: string, reason: string, calls: bool): string {
    if status == "incomplete" then (if reason == "content_filter" then "content_filter" else "length")
    else if calls then "tool_calls"
    else "stop"
  }

  function ToChatBody(isObject: string -> bool, r: ResponsesResponse, model: string): Option<ChatResponse> {
    if !r.wire || r.status !in {"completed", "incomplete"}
       || (r.status == "incomplete" && r.reason !in {"max_output_tokens", "content_filter"}) then None
    else
      var g := GatherAll(isObject, r.output);
      var usage := ConvertUsage(r.usage);
      if g.None? || usage.None? then None
      else
        var content := if g.value.text == "" then Absent else Text(g.value.text);
        var choice := Choice(Some(0), "assistant", content, false, g.value.calls, FinishOf(r.status, r.reason, g.value.calls != []));
        Some(ChatResponse(r.id, model, [choice], usage.value, true))
  }

  method ResponsesToChatResponse(isObject: string -> bool, r: ResponsesResponse, model: string) returns (body: Option<ChatResponse>)
    ensures body == ToChatBody(isObject, r, model)
  {
    hide JoinBlocks, ConvertUsage, GoodToolCall;
    if !r.wire || r.status !in {"completed", "incomplete"} {
      return None;
    }
    if r.status == "incomplete" && r.reason !in {"max_output_tokens", "content_filter"} {
      return None;
    }
    var text, toolCalls, seen, messageCount := "", [], {}, 0;
    assert r.output[..0] == [];
    for n := 0 to |r.output|
      invariant GatherAll(isObject, r.output[..n]) == Some(Gathered(text, toolCalls, messageCount)) && seen == CallIds(toolCalls)
    {
      assert r.output[..n + 1][..n] == r.output[..n];
      OutputStaysRejected(isObject, r.output, n + 1);
      match r.output[n] {
        case OutputMessage(role, blocks) =>
          messageCount := messageCount + 1;
          if messageCount > 1 || role != "assistant" {
            return None;
          }
          var joined := JoinBlocks(blocks);
          if joined.None? {
            return None;
          }
          text := text + joined.value;
        case OutputCall(callId, name, arguments) =>
          var call := ToolCall(callId, "function", name, Some(arguments));
          if !GoodToolCall(isObject, seen, call) {
            return None;
          }
          CallIdsMore(toolCalls, call);
          seen, toolCalls := seen + {callId}, toolCalls + [call];
        case OtherOutput(_) => return None;
      }
    }
    assert r.output[..|r.output|] == r.output;
    var finish := if toolCalls != [] then "tool_calls" else "stop";
    if r.status == "incomplete" {
      finish := if r.reason == "content_filter" then "content_filter" else "length";
    }
    var usage := ConvertUsage(r.usage);
    if usage.None? {
      return None;
    }
    var content := if text == "" then Absent else Text(text);
    body := Some(ChatResponse(r.id, model, [Choice(Some(0), "assistant", content, false, toolCalls, finish)], usage.value, true));
  }

  lemma {:induction false} OutputStaysRejected(isObject: string -> bool, output: seq<OutputItem>, n: nat)
    requires n <= |output|
    ensures GatherAll(isObject, output[..n]).None? ==> GatherAll(isObject, output).None?
    decreases |output|
  {
    if n == |output| {
      assert output[..n] == output;
    } else {
      hide Gather;
      assert output[..|output| - 1][..n] == output[..n];
      OutputStaysRejected(isObject, output[..|output| - 1], n);
    }
  }

  // --- Round trips ---

  lemma UsageIsKept(u: Usage)
    requires ConvertUsage(u).Some?
    ensures Counts(ConvertUsage(u).value) == Counts(u)
    ensures ConvertUsage(ConvertUsage(u).value) == ConvertUsage(u)
  {
  }

  lemma {:induction false} CallsAreGathered(isObject: string -> bool, calls: seq<ToolCall>, before: seq<OutputItem>, text: string, messages: nat)
    requires CallOutputs(isObject, calls).Some? && GatherAll(isObject, before) == Some(Gathered(text, [], messages))
    ensures GatherAll(isObject, before + CallOutputs(isObject, calls).value) == Some(Gathered(text, calls, messages))
    decreases |calls|
  {
    if calls == [] {
      assert before + [] == before;
    } else {
      hide GoodToolCall, Gather, GatherAll;
      var init, call := calls[..|calls| - 1], calls[|calls| - 1];
      CallsAreGathered(isObject, init, before, text, messages);
      var out, item := CallOutputs(isObject, init).value, OutputCall(call.id, call.name, call.arguments.value);
      assert before + CallOutputs(isObject, calls).value == (before + out) + [item];
      GatherSnoc(isObject, before + out, item);
      assert init + [call] == calls;
      CallIsGathered(isObject, Gathered(text, init, messages), call);
    }
  }

  lemma GatherSnoc(isObject: string -> bool, output: seq<OutputItem>, item: OutputItem)
    ensures GatherAll(isObject, output + [item]) == (match GatherAll(isObject, output) case None => None case Some(g) => Gather(isObject, g, item))
  {
    hide Gather;
    assert (output + [item])[..|output|] == output;
  }

  lemma CallIsGathered(isObject: string -> bool, g: Gathered, call: ToolCall)
    requires GoodToolCall(isObject, CallIds(g.calls), call)
    ensures Gather(isObject, g, OutputCall(call.id, call.name, call.arguments.value)) == Some(g.(calls := g.calls + [call]))
  {
    assert ToolCall(call.id, "function", call.name, Some(call.arguments.value)) == call;
  }

  lemma TextIsGathered(isObject: string -> bool, text: string)
    ensures GatherAll(isObject, TextOutput(text)) == Some(Gathered(text, [], if text == "" then 0 else 1))
  {
    var block := Block("output_text", Some(text), false);
    assert [block][..0] == [];
    assert JoinBlocks([block]) == Some("" + text);
    assert "" + text == text;
  }

  /** The text of a choice: absent and null content are no text. */
  function ChoiceText(c: Content): string {
    if c == Absent || c == Null || TextOf(c).None? then "" else TextOf(c).value
  }

  /** What an accepted Chat response is made of. */
  lemma AcceptedChat(isObject: string -> bool, r: ChatResponse, model: string)
    requires ToResponsesBody(isObject, r, model).Some?
    ensures |r.choices| == 1
    ensures var c := r.choices[0];
            var status := StatusOf(c.finish, c.toolCalls != []);
            && CallOutputs(isObject, c.toolCalls).Some? && status.Some? && ConvertUsage(r.usage).Some?
            && ToResponsesBody(isObject, r, model).value ==
               ResponsesResponse(r.id, model, status.value.0, TextOutput(ChoiceText(c.content)) + CallOutputs(isObject, c.toolCalls).value,
                                 status.value.1, ConvertUsage(r.usage).value, true)
  {
    hide TextOf, CallOutputs, ConvertUsage, TextOutput, StatusOf;
  }

  lemma FinishReturns(finish: string, calls: bool)
    requires StatusOf(finish, calls).Some?
    ensures var (status, reason) := StatusOf(finish, calls).value;
            && status in {"completed", "incomplete"} && (status == "incomplete" ==> reason in {"max_output_tokens", "content_filter"})
            && FinishOf(status, reason, calls) == (if finish == "stop" && calls then "tool_calls" else finish)
  {
  }

  /** What an acceptable Responses response converts to. */
  lemma AcceptsResponses(isObject: string -> bool, x: ResponsesResponse, model: string)
    requires x.wire && x.status in {"completed", "incomplete"} && (x.status == "incomplete" ==> x.reason in {"max_output_tokens", "content_filter"})
    requires GatherAll(isObject, x.output).Some? && ConvertUsage(x.usage).Some?
    ensures var g := GatherAll(isObject, x.output).value;
            var content := if g.text == "" then Absent else Text(g.text);
            ToChatBody(isObject, x, model) ==
            Some(ChatResponse(x.id, model, [Choice(Some(0), "assistant", content, false, g.calls, FinishOf(x.status, x.reason, g.calls != []))],
                              ConvertUsage(x.usage).value, true))
  {
    hide GatherAll, ConvertUsage, FinishOf;
  }

  lemma PlainTextReturns(text: string)
    ensures ChoiceText(if text == "" then Absent else Text(text)) == text
  {
  }

  /** A Chat response that converts to Responses converts back, with the same text, the same tool
      calls in the same order, the same token counts and details, and the same finish reason, except
      that `stop` with calls becomes `tool_calls`. */
  lemma ChatResponseComesBack(isObject: string -> bool, r: ChatResponse, model: string, again: string)
    requires ToResponsesBody(isObject, r, model).Some?
    ensures var back := ToChatBody(isObject, ToResponsesBody(isObject, r, model).value, again);
            && back.Some? && |back.value.choices| == 1 && back.value.id == r.id
            && (var c, d := r.choices[0], back.value.choices[0];
                && ChoiceText(d.content) == ChoiceText(c.content) && d.toolCalls == c.toolCalls
                && d.finish == (if c.finish == "stop" && c.toolCalls != [] then "tool_calls" else c.finish)
                && Counts(back.value.usage) == Counts(r.usage))
  {
    AcceptedChat(isObject, r, model);
    hide *;
    var c := r.choices[0];
    var x := ToResponsesBody(isObject, r, model).value;
    var text := ChoiceText(c.content);
    TextIsGathered(isObject, text);
    CallsAreGathered(isObject, c.toolCalls, TextOutput(text), text, if text == "" then 0 else 1);
    UsageIsKept(r.usage);
    FinishReturns(c.finish, c.toolCalls != []);
    AcceptsResponses(isObject, x, again);
    PlainTextReturns(text);
  }

  lemma GatherAddsCall(isObject: string -> bool, g: Gathered, item: OutputItem)
    requires Gather(isObject, g, item).Some?
    ensures var h := Gather(isObject, g, item).value;
            h.calls == g.calls || exists call :: h.calls == g.calls + [call] && GoodToolCall(isObject, CallIds(g.calls), call)
  {
    hide GoodToolCall, JoinBlocks;
  }

  lemma {:induction false} GatheredCallsAreGood(isObject: string -> bool, output: seq<OutputItem>)
    requires GatherAll(isObject, output).Some?
    ensures CallOutputs(isObject, GatherAll(isObject, output).value.calls).Some?
    decreases |output|
  {
    if output != [] {
      hide GoodToolCall, Gather;
      var init := output[..|output| - 1];
      GatheredCallsAreGood(isObject, init);
      var g, h := GatherAll(isObject, init).value, GatherAll(isObject, output).value;
      GatherAddsCall(isObject, g, output[|output| - 1]);
      if h.calls != g.calls {
        assert h.calls[..|h.calls| - 1] == g.calls;
      }
    }
  }

  /** What an accepted Responses response is made of. */
  lemma AcceptedResponses(isObject: string -> bool, r: ResponsesResponse, model: string)
    requires ToChatBody(isObject, r, model).Some?
    ensures r.wire && r.status in {"completed", "incomplete"} && (r.status == "incomplete" ==> r.reason in {"max_output_tokens", "content_filter"})
    ensures GatherAll(isObject, r.output).Some? && ConvertUsage(r.usage).Some?
    ensures var g := GatherAll(isObject, r.output).value;
            var content := if g.text == "" then Absent else Text(g.text);
            ToChatBody(isObject, r, model).value ==
            ChatResponse(r.id, model, [Choice(Some(0), "assistant", content, false, g.calls, FinishOf(r.status, r.reason, g.calls != []))],
                         ConvertUsage(r.usage).value, true)
  {
    hide GatherAll, ConvertUsage, FinishOf;
  }

  lemma StatusReturns(status: string, reason: string, calls: bool)
    requires status in {"completed", "incomplete"} && (status == "incomplete" ==> reason in {"max_output_tokens", "content_filter"})
    ensures FinishOf(status, reason, calls) != "" && StatusOf(FinishOf(status, reason, calls), calls).Some?
    ensures var back := StatusOf(FinishOf(status, reason, calls), calls).value; back.0 == status && (status == "incomplete" ==> back.1 == reason)
  {
  }

  /** A Chat response of one plain choice converts exactly when it has text or a call. */
  lemma ConvertsWithContent(isObject: string -> bool, r: ChatResponse, text: string, calls: seq<ToolCall>, model: string)
    requires r.wire && |r.choices| == 1 && r.choices[0].finish != ""
    requires r.choices[0] == Choice(Some(0), "assistant", if text == "" then Absent else Text(text), false, calls, r.choices[0].finish)
    requires CallOutputs(isObject, calls).Some? && StatusOf(r.choices[0].finish, calls != []).Some? && ConvertUsage(r.usage).Some?
    ensures var back := ToResponsesBody(isObject, r, model);
            var status := StatusOf(r.choices[0].finish, calls != []).value;
            && (back.Some? <==> text != "" || calls != [])
            && (back.Some? ==> back.value == ResponsesResponse(r.id, model, status.0, TextOutput(text) + CallOutputs(isObject, calls).value,
                                                               status.1, ConvertUsage(r.usage).value, true))
  {
    hide CallOutputs, ConvertUsage, TextOutput, StatusOf;
  }

  /** A Responses response that converts to Chat converts back exactly when it has text or a call. */
  lemma ResponsesResponseComesBack(isObject: string -> bool, r: ResponsesResponse, model: string, again: string)
    requires ToChatBody(isObject, r, model).Some?
    ensures var g := GatherAll(isObject, r.output).value;
            var back := ToResponsesBody(isObject, ToChatBody(isObject, r, model).value, again);
            && (back.Some? <==> g.text != "" || g.calls != [])
            && (back.Some? ==> && GatherAll(isObject, back.value.output) == Some(g.(messages := if g.text == "" then 0 else 1))
                               && back.value.status == r.status && (r.status == "incomplete" ==> back.value.reason == r.reason)
                               && Counts(back.value.usage) == Counts(r.usage))
  {
    AcceptedResponses(isObject, r, model);
    hide *;
    var g := GatherAll(isObject, r.output).value;
    var chat := ToChatBody(isObject, r, model).value;
    GatheredCallsAreGood(isObject, r.output);
    UsageIsKept(r.usage);
    StatusReturns(r.status, r.reason, g.calls != []);
    PlainTextReturns(g.text);
    TextIsGathered(isObject, g.text);
    CallsAreGathered(isObject, g.calls, TextOutput(g.text), g.text, if g.text == "" then 0 else 1);
    ConvertsWithContent(isObject, chat, g.text, g.calls, again);
  }
}
