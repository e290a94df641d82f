/** Chat chunks to Responses events. */
module ChatToResponses {
  import opened Wrappers
  import opened Framing
  import opened Frames
  import opened EventMachine
  import opened StreamEvents

  datatype CallState = CallState(id: string, name: string, arguments: string, itemIndex: int, emitted: bool)

  datatype State = State(err: Option<Error>, responseId: string, usage: Usage, started: bool, messageStarted: bool,
                         messageItemIndex: int, nextItemIndex: int, finishReason: string, terminal: bool,
                         calls: map<int, CallState>, callIds: map<string, int>)

  function Init(responseId: string): State {
    State(None, responseId, NO_USAGE, false, false, -1, 0, "", false, map[], map[])
  }

  function Fail(s: State, message: string): Emit<State, RPayload> {
    Emit(s, [], Some(Error(message)))
  }

  /** An error that also stops the converter. */
  function Stop(s: State, err: Option<Error>): Emit<State, RPayload> {
    Emit(s.(err := err), [], err)
  }

  function StartEvents(s: State): seq<RPayload> {
    var r := NO_RESPONSE.(id := s.responseId, status := "in_progress");
    [Bare(RCreated).(response := r.(usage := NO_USAGE.(input := s.usage.input))), Bare(RInProgress).(response := r)]
  }

  function MessageSetup(index: int): seq<RPayload> {
    [Bare(RItemAdded).(outputIndex := index, item := Item(KMessage, "msg_0", "", "")),
     Bare(RPartAdded).(outputIndex := index, part := Part(POutputText, false))]
  }

  // --- Tool call deltas ---

  function Begin(s: State): (x: Emit<State, RPayload>)
    ensures x.core.terminal == s.terminal
  {
    if s.started then Emit(s, [], None) else Emit(s.(started := true), StartEvents(s), None)
  }

  /** The identity checks, and the call's slot and item index at its first delta. */
  function Register(s: State, d: ToolDelta): (x: Emit<State, RPayload>)
    ensures x.core.terminal == s.terminal && (x.err.None? ==> d.index in x.core.calls)
  {
    var seen := d.index in s.calls;
    if seen && d.id != "" && d.id != s.calls[d.index].id then Fail(s, "tool call id changed")
    else if d.id != "" && d.id in s.callIds && s.callIds[d.id] != d.index then Fail(s, "duplicate tool call id")
    else
      var t := if d.id != "" then s.(callIds := s.callIds[d.id := d.index]) else s;
      if seen then Emit(t, [], None)
      else if d.arguments != "" && (d.id == "" || d.name == "") then Fail(t, "function_call_arguments.delta without function_call")
      else Emit(t.(calls := t.calls[d.index := CallState("", "", "", t.nextItemIndex, false)],
                   nextItemIndex := t.nextItemIndex + 1), [], None)
  }

  function Announce(s: State, d: ToolDelta): (x: Emit<State, RPayload>)
    requires d.index in s.calls
    ensures x.core.terminal == s.terminal && d.index in x.core.calls && x.err.None?
  {
    var c := s.calls[d.index];
    if c.emitted || (d.id == "" && d.name == "") then Emit(s, [], None)
    else
      var item := Item(KFunctionCall, Numbered("fc_", d.index), if d.id == "" then Numbered("call_", d.index) else d.id, d.name);
      Emit(s.(calls := s.calls[d.index := c.(emitted := true, id := d.id, name := d.name)]),
           [Bare(RItemAdded).(outputIndex := c.itemIndex, item := item)], None)
  }

  function Argue(s: State, d: ToolDelta): (x: Emit<State, RPayload>)
    requires d.index in s.calls
    ensures x.core.terminal == s.terminal
  {
    var c := s.calls[d.index];
    if d.arguments == "" then Emit(s, [], None)
    else if !c.emitted then Fail(s, "function_call_arguments.delta without function_call")
    else Emit(s.(calls := s.calls[d.index := c.(arguments := c.arguments + d.arguments)]),
              [Bare(RArgsDelta).(outputIndex := c.itemIndex, delta := d.arguments)], None)
  }

  function ToolStep(s: State, d: ToolDelta): (x: Emit<State, RPayload>)
    ensures x.core.terminal == s.terminal
  {
    if d.index < 0 then Fail(s, "invalid Chat stream tool_call index")
    else
      var a := Begin(s);
      if d.typ != "" && d.typ != "function" then Fail(a.core, "unsupported Chat stream tool_call type")
      else
        var b := Register(a.core, d);
        if b.err.Some? then b
        else
          var c := Announce(b.core, d);
          var e := Argue(c.core, d);
          if e.err.Some? then e else Emit(e.core, a.out + c.out + e.out, None)
  }

  function ToolSteps(s: State, ds: seq<ToolDelta>): (x: Emit<State, RPayload>)
    ensures x.core.terminal == s.terminal
    decreases |ds|
  {
    if ds == [] then Emit(s, [], None)
    else
      var x := ToolStep(s, ds[0]);
      if x.err.Some? then x
      else
        var y := ToolSteps(x.core, ds[1..]);
        if y.err.Some? then y else Emit(y.core, x.out + y.out, None)
  }

  // --- The rest of a chunk ---

  function ContentStep(s: State, content: string): Emit<State, RPayload> {
    if content == "" then Emit(s, [], None)
    else
      var t := if s.messageStarted then s
               else s.(messageStarted := true, messageItemIndex := s.nextItemIndex, nextItemIndex := s.nextItemIndex + 1);
      // The start events are printed here whether or not a tool call has printed them.
      Emit(t, (if s.messageStarted then [] else StartEvents(t) + MessageSetup(t.messageItemIndex))
              + [Bare(RTextDelta).(outputIndex := t.messageItemIndex, delta := content)], None)
  }

  function ApplyUsage(before: Usage, u: Usage): Usage {
    u.(cached := if u.cached == NoDetail then before.cached else u.cached,
       reasoning := if u.reasoning == NoDetail then before.reasoning else u.reasoning)
  }

  function ChoiceStep(s: State, choices: seq<Choice>): Emit<State, RPayload>
    requires choices != []
  {
    var choice := choices[0];
    if |choices| > 1 then Fail(s, "multiple Chat stream choices not supported")
    else if choice.index != 0 then Fail(s, "Chat stream choice index must be 0")
    else if !choice.delta.known then Fail(s, "unsupported Chat stream delta field")
    else
      var x := ToolSteps(s, choice.delta.toolCalls);
      if x.err.Some? then x
      else
        var y := ContentStep(x.core, choice.delta.content);
        Emit(y.core.(finishReason := if choice.finish != "" then choice.finish else y.core.finishReason), x.out + y.out, None)
  }

  // --- The end of the stream ---

  function MessageDone(s: State): seq<RPayload> {
    if !s.messageStarted then []
    else [Bare(RTextDone).(outputIndex := s.messageItemIndex),
          Bare(RPartDone).(outputIndex := s.messageItemIndex),
          Bare(RItemDone).(outputIndex := s.messageItemIndex)]
  }

  function CallDone(c: CallState): seq<RPayload> {
    [Bare(RArgsDone).(outputIndex := c.itemIndex, text := c.arguments), Bare(RItemDone).(outputIndex := c.itemIndex)]
  }

  /** The done events of the calls with indices `i` up to the number of calls. */
  function CallsDone(s: State, i: nat): seq<RPayload>
    decreases |s.calls| - i
  {
    if i >= |s.calls| then []
    else (if i in s.calls then CallDone(s.calls[i]) else []) + CallsDone(s, i + 1)
  }

  /** The usage object as printed: a detail map without entries is not printed. */
  function PrintedUsage(u: Usage): Usage {
    u.(cached := if u.cached.Tokens? then u.cached else NoDetail, reasoning := if u.reasoning.Tokens? then u.reasoning else NoDetail)
  }

  function Ending(s: State): Option<RPayload> {
    var r := NO_RESPONSE.(id := s.responseId, usage := PrintedUsage(s.usage));
    match s.finishReason
    case "stop" => Some(Bare(RCompleted).(response := r.(status := "completed", stopReason := "end_turn")))
    case "tool_calls" => Some(Bare(RCompleted).(response := r.(status := "completed", stopReason := "tool_use")))
    case "length" => Some(Bare(RIncomplete).(response := r.(status := "incomplete", incompleteReason := "max_output_tokens")))
    case "content_filter" => Some(Bare(RIncomplete).(response := r.(status := "incomplete", incompleteReason := "content_filter")))
    case _ => None
  }

  function TerminalEvents(s: State): Emit<State, RPayload> {
    match Ending(s)
    case None => Fail(s, "unsupported Chat finish_reason")
    case Some(end) => Emit(s.(terminal := true), MessageDone(s) + CallsDone(s, 0) + [end], None)
  }

  function StepPayload(s: State, p: ChatPayload): Emit<State, RPayload> {
    if p.choices != [] then
      var x := ChoiceStep(s, p.choices);
      if x.err.Some? then Stop(x.core, x.err) else x
    else match p.usage
      case NoUsage => Emit(s, [], None)
      case BadUsage => Stop(s, Some(Error("usage must be an object")))
      case Counts(u) =>
        var t := s.(usage := ApplyUsage(s.usage, u));
        if t.finishReason == "" then Emit(t, [], None)
        else
          var x := TerminalEvents(t);
          if x.err.Some? then Stop(x.core, x.err) else x
  }

  function Step(s: State, e: Event<ChatPayload>): Emit<State, RPayload> {
    match e.input
    case NoData => Emit(s, [], None)
    case DoneMark => TerminalEvents(s)
    case Malformed => Stop(s, Some(Error("malformed event data")))
    case Payload(p) => StepPayload(s, p)
  }

  /** `Close` fails on a stream without terminal event. */
  function AtClose(s: State, err: Option<Error>): (State, Option<Error>) {
    if err.Some? then (s.(err := err), err)
    else if s.err.Some? || s.terminal then (s, s.err)
    else
      var e := Some(Error("chat stream closed without terminal event"));
      (s.(err := e), e)
  }

  function Converter(chat: Codec<ChatPayload>, responses: Codec<RPayload>): EventConverter<State, ChatPayload, RPayload> {
    EventConverter(chat, (s: State) => s.terminal || s.err.Some?, Step, p => ShowResponses(responses, p), AtClose)
  }

  /** The converter object, whose fields one event updates in place. */
  class ChatConverter {
    var failure: Option<Error>
    var responseId: string
    var usage: Usage
    var started: bool
    var messageStarted: bool
    var messageItemIndex: int
    var nextItemIndex: int
    var finishReason: string
    var terminal: bool
    var calls: map<int, CallState>
    var callIds: map<string, int>

    constructor (responseId: string)
      ensures Value() == Init(responseId)
    {
      failure, this.responseId, usage, started, messageStarted := None, responseId, NO_USAGE, false, false;
      messageItemIndex, nextItemIndex, finishReason, terminal := -1, 0, "", false;
      calls, callIds := map[], map[];
    }

    function Value(): State
      reads this
    {
      State(failure, responseId, usage, started, messageStarted, messageItemIndex, nextItemIndex, finishReason, terminal, calls, callIds)
    }

    method ProcessEvent(e: Event<ChatPayload>) returns (out: seq<RPayload>, err: Option<Error>)
      modifies this
      ensures Emit(Value(), out, err) == if old(terminal || failure.Some?) then Emit(old(Value()), [], None) else Step(old(Value()), e)
    {
      hide StepPayload, TerminalEvents;
      out, err := [], None;
      if terminal || failure.Some? {
        return;
      }
      match e.input {
        case DoneMark => out, err := EndStream();
        case NoData =>
        case Malformed =>
          failure := Some(Error("malformed event data"));
          err := failure;
        case Payload(p) => out, err := ProcessPayload(p);
      }
    }

    method ProcessPayload(p: ChatPayload) returns (out: seq<RPayload>, err: Option<Error>)
      modifies this
      ensures Emit(Value(), out, err) == StepPayload(old(Value()), p)
    {
      hide ChoiceStep, TerminalEvents, ApplyUsage;
      out, err := [], None;
      if p.choices != [] {
        out, err := ProcessChoice(p.choices);
        if err.Some? {
          failure, out := err, [];
        }
        return;
      }
      match p.usage {
        case NoUsage =>
        case BadUsage =>
          failure := Some(Error("usage must be an object"));
          err := failure;
        case Counts(u) =>
          usage := ApplyUsage(usage, u);
          if finishReason != "" {
            out, err := EndStream();
            if err.Some? {
              failure, out := err, [];
            }
          }
      }
    }

    method ProcessChoice(choices: seq<Choice>) returns (out: seq<RPayload>, err: Option<Error>)
      requires choices != []
      modifies this
      ensures Emit(Value(), out, err) == ChoiceStep(old(Value()), choices)
    {
      hide ToolSteps;
      out, err := [], None;
      var choice := choices[0];
      if |choices| > 1 {
        return [], Some(Error("multiple Chat stream choices not supported"));
      }
      if choice.index != 0 {
        return [], Some(Error("Chat stream choice index must be 0"));
      }
      if !choice.delta.known {
        return [], Some(Error("unsupported Chat stream delta field"));
      }
      ToolStepsSilent(Value(), choice.delta.toolCalls);
      out, err := ProcessToolCalls(choice.delta.toolCalls);
      if err.Some? {
        return [], err;
      }
      var text := AddContent(choice.delta.content);
      out := out + text;
      if choice.finish != "" {
        finishReason := choice.finish;
      }
    }

    method AddContent(content: string) returns (out: seq<RPayload>)
      modifies this`messageStarted, this`messageItemIndex, this`nextItemIndex
      ensures Emit(Value(), out, None) == ContentStep(old(Value()), content)
    {
      out := [];
      if content == "" {
        return;
      }
      if !messageStarted {
        messageStarted := true;
        messageItemIndex := nextItemIndex;
        nextItemIndex := nextItemIndex + 1;
        out := out + StartEvents(Value());
        out := out + MessageSetup(messageItemIndex);
      }
      out := out + [Bare(RTextDelta).(outputIndex := messageItemIndex, delta := content)];
    }

    method ProcessToolCalls(ds: seq<ToolDelta>) returns (out: seq<RPayload>, err: Option<Error>)
      modifies this`started, this`calls, this`callIds, this`nextItemIndex
      ensures Emit(Value(), out, err) == ToolSteps(old(Value()), ds)
    {
      hide ToolStep, ToolSteps, Joined;
      out, err := [], None;
      ghost var start := Value();
      var n := 0;
      assert ds[0..] == ds;
      JoinedNothing(start, ds);
      while n < |ds|
        invariant n <= |ds| && err == None && ToolSteps(start, ds) == Joined(out, ToolSteps(Value(), ds[n..]))
      {
        ToolTurn(Value(), ds, n, out);
        var b;
        b, err := ProcessToolCallDelta(ds[n]);
        if err.Some? {
          return [], err;
        }
        out := out + b;
        n := n + 1;
      }
      JoinedEnd(Value(), ds[n..], out);
    }

    method ProcessToolCallDelta(d: ToolDelta) returns (out: seq<RPayload>, err: Option<Error>)
      modifies this`started, this`calls, this`callIds, this`nextItemIndex
      ensures Emit(Value(), out, err) == ToolStep(old(Value()), d)
    {
      hide Register, Announce, Argue;
      out, err := [], None;
      if d.index < 0 {
        return [], Some(Error("invalid Chat stream tool_call index"));
      }
      if !started {
        started := true;
        out := StartEvents(Value());
      }
      if d.typ != "" && d.typ != "function" {
        return [], Some(Error("unsupported Chat stream tool_call type"));
      }
      err := Identify(d);
      if err.Some? {
        return [], err;
      }
      var announced := AnnounceCall(d);
      var argued;
      argued, err := ArgueCall(d);
      if err.Some? {
        return [], err;
      }
      out := out + announced + argued;
    }

    method AnnounceCall(d: ToolDelta) returns (out: seq<RPayload>)
      requires d.index in calls
      modifies this`calls
      ensures Emit(Value(), out, None) == Announce(old(Value()), d)
    {
      hide Numbered;
      out := [];
      var c := calls[d.index];
      if !c.emitted && (d.id != "" || d.name != "") {
        c := c.(emitted := true, id := d.id, name := d.name);
        calls := calls[d.index := c];
        var item := Item(KFunctionCall, Numbered("fc_", d.index), if c.id == "" then Numbered("call_", d.index) else c.id, c.name);
        out := [Bare(RItemAdded).(outputIndex := c.itemIndex, item := item)];
      }
    }

    method ArgueCall(d: ToolDelta) returns (out: seq<RPayload>, err: Option<Error>)
      requires d.index in calls
      modifies this`calls
      ensures Emit(Value(), out, err) == Argue(old(Value()), d) && (err.Some? ==> out == [])
    {
      out, err := [], None;
      var c := calls[d.index];
      if d.arguments != "" {
        if !c.emitted {
          return [], Some(Error("function_call_arguments.delta without function_call"));
        }
        calls := calls[d.index := c.(arguments := c.arguments + d.arguments)];
        out := [Bare(RArgsDelta).(outputIndex := c.itemIndex, delta := d.arguments)];
      }
    }

    /** The identity checks, and the call's slot at its first delta. */
    method Identify(d: ToolDelta) returns (err: Option<Error>)
      modifies this`calls, this`callIds, this`nextItemIndex
      ensures Emit(Value(), [], err) == Register(old(Value()), d)
    {
      if d.index in calls && d.id != "" && d.id != calls[d.index].id {
        return Some(Error("tool call id changed"));
      }
      if d.id != "" {
        if d.id in callIds && callIds[d.id] != d.index {
          return Some(Error("duplicate tool call id"));
        }
        callIds := callIds[d.id := d.index];
      }
      if d.index !in calls {
        if d.arguments != "" && (d.id == "" || d.name == "") {
          return Some(Error("function_call_arguments.delta without function_call"));
        }
        calls := calls[d.index := CallState("", "", "", nextItemIndex, false)];
        nextItemIndex := nextItemIndex + 1;
      }
      err := None;
    }

    method EndStream() returns (out: seq<RPayload>, err: Option<Error>)
      modifies this`terminal
      ensures Emit(Value(), out, err) == TerminalEvents(old(Value()))
    {
      out := MessageDone(Value());
      ghost var head := out;
      var i := 0;
      while i < |calls|
        invariant head + CallsDone(Value(), 0) == out + CallsDone(Value(), i)
        decreases |calls| - i
      {
        if i in calls {
          assert out + (CallDone(calls[i]) + CallsDone(Value(), i + 1)) == (out + CallDone(calls[i])) + CallsDone(Value(), i + 1);
          out := out + CallDone(calls[i]);
        } else {
          assert [] + CallsDone(Value(), i + 1) == CallsDone(Value(), i + 1);
        }
        i := i + 1;
      }
      assert out + [] == out;
      var end := Ending(Value());
      if end.None? {
        return [], Some(Error("unsupported Chat finish_reason"));
      }
      out, err := out + [end.value], None;
      DoneIgnoresTerminal(Value(), 0);
      terminal := true;
    }
  }

  lemma {:induction false} DoneIgnoresTerminal(s: State, i: nat)
    ensures CallsDone(s.(terminal := true), i) == CallsDone(s, i)
    decreases |s.calls| - i
  {
    if i < |s.calls| {
      DoneIgnoresTerminal(s, i + 1);
    }
  }

  /** The rest of a run after `out` has been emitted. */
  function Joined(out: seq<RPayload>, y: Emit<State, RPayload>): Emit<State, RPayload> {
    if y.err.Some? then y else Emit(y.core, out + y.out, None)
  }

  lemma JoinedNothing(s: State, ds: seq<ToolDelta>)
    ensures Joined([], ToolSteps(s, ds)) == ToolSteps(s, ds)
  {
    hide ToolSteps;
    assert [] + ToolSteps(s, ds).out == ToolSteps(s, ds).out;
  }

  lemma JoinedEnd(s: State, ds: seq<ToolDelta>, out: seq<RPayload>)
    requires ds == []
    ensures Joined(out, ToolSteps(s, ds)) == Emit(s, out, None)
  {
    assert out + [] == out;
  }

  lemma ToolTurn(s: State, ds: seq<ToolDelta>, n: nat, out: seq<RPayload>)
    requires n < |ds|
    ensures var x := ToolStep(s, ds[n]);
            Joined(out, ToolSteps(s, ds[n..])) ==
            if x.err.Some? then Emit(x.core, [], x.err) else Joined(out + x.out, ToolSteps(x.core, ds[n + 1..]))
  {
    assert ds[n..][0] == ds[n] && ds[n..][1..] == ds[n + 1..];
    ToolStepSilent(s, ds[n]);
    hide ToolStep;
    var x := ToolStep(s, ds[n]);
    if x.err.None? {
      var rest := ToolSteps(x.core, ds[n + 1..]);
      assert out + (x.out + rest.out) == (out + x.out) + rest.out;
    }
  }

  lemma ToolStepSilent(s: State, d: ToolDelta)
    ensures ToolStep(s, d).err.Some? ==> ToolStep(s, d).out == []
  {
  }

  lemma {:induction false} ToolStepsSilent(s: State, ds: seq<ToolDelta>)
    ensures ToolSteps(s, ds).err.Some? ==> ToolSteps(s, ds).out == []
    decreases |ds|
  {
    if ds != [] {
      ToolStepSilent(s, ds[0]);
      hide ToolStep;
      ToolStepsSilent(ToolStep(s, ds[0]).core, ds[1..]);
    }
  }
}
