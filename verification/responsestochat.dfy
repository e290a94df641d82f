/** Responses events to Chat chunks. */
module ResponsesToChat {
  import opened Wrappers
  import opened Framing
  import opened Frames
  import opened EventMachine
  import opened StreamEvents

  datatype CallState = CallState(id: string, name: string)

  datatype State = State(err: Option<Error>, responseId: string, model: string, usage: Usage, started: bool,
                         messageCount: nat, functionCallSeen: bool, terminal: bool, calls: map<int, CallState>)

  function Init(): State {
    State(None, "", "", NO_USAGE, false, 0, false, false, map[])
  }

  function Fail(s: State, message: string): Emit<State, ChatOut> {
    Emit(s, [], Some(Error(message)))
  }

  function ChatChunk(s: State, delta: ChatDelta, finish: string): ChatOut {
    Chunk(ChatPayload(s.responseId, s.model, [Choice(0, delta, finish)], NoUsage))
  }

  function UsageChunk(s: State): ChatOut {
    Chunk(ChatPayload(s.responseId, s.model, [], Counts(s.usage)))
  }

  /** Only positive counts replace what is known. */
  function ApplyUsage(before: Usage, u: Usage): Usage {
    Usage(if u.input > 0 then u.input else before.input,
          if u.output > 0 then u.output else before.output,
          if u.total > 0 then u.total else before.total,
          if u.cached.Tokens? && u.cached.count > 0 then u.cached else before.cached,
          if u.reasoning.Tokens? && u.reasoning.count > 0 then u.reasoning else before.reasoning)
  }

  function AddItem(s: State, p: RPayload): Emit<State, ChatOut> {
    match p.item.kind
    case KMessage =>
      var t := s.(messageCount := s.messageCount + 1);
      if t.messageCount > 1 then Fail(t, "multiple message output items are not supported")
      else if t.functionCallSeen then Fail(t, "message and function_call output items cannot be mixed")
      else Emit(t, [], None)
    case KFunctionCall =>
      var i := if p.outputIndex < 0 then |s.calls| else p.outputIndex;
      if s.messageCount > 0 then Fail(s, "message and function_call output items cannot be mixed")
      else if p.item.callId == "" || p.item.name == "" then Fail(s, "function_call requires call_id and name")
      else
        Emit(s.(functionCallSeen := true, calls := s.calls[i := CallState(p.item.callId, p.item.name)]),
             [ChatChunk(s, NO_DELTA.(toolCalls := [ToolDelta(i, p.item.callId, "function", p.item.name, "")]), "")], None)
    case _ => Fail(s, "unsupported Responses output item type")
  }

  function FinishWith(s: State, finish: string): Emit<State, ChatOut> {
    Emit(s.(terminal := true), [UsageChunk(s), ChatChunk(s, NO_DELTA, finish), DoneChunk], None)
  }

  function FinishReason(s: State, stopReason: string): string {
    var finish := match stopReason
      case "tool_use" => "tool_calls"
      case "max_tokens" => "length"
      case _ => "stop";
    if |s.calls| > 0 && finish == "stop" then "tool_calls" else finish
  }

  function StepPayload(s: State, typ: RType, p: RPayload): Emit<State, ChatOut> {
    match typ
    case RCreated =>
      var t := s.(responseId := p.response.id, model := p.response.model, usage := ApplyUsage(s.usage, p.response.usage), started := true);
      Emit(t, [ChatChunk(t, NO_DELTA.(role := "assistant"), "")], None)
    case RInProgress => Emit(s, [], None)
    case RItemAdded => AddItem(s, p)
    case RPartAdded =>
      if p.part.kind != POutputText && p.part.kind != PText then Fail(s, "unsupported Responses content part type")
      else if p.part.annotated then Fail(s, "unsupported Responses content annotations")
      else Emit(s, [], None)
    case RTextDelta => Emit(s, [ChatChunk(s, NO_DELTA.(content := p.delta), "")], None)
    case RTextDone => Emit(s, [], None)
    case RPartDone => Emit(s, [], None)
    case RItemDone => Emit(s, [], None)
    case RArgsDelta =>
      Emit(s, [ChatChunk(s, NO_DELTA.(toolCalls := [ToolDelta(p.outputIndex, "", "", "", p.delta)]), "")], None)
    case RArgsDone => Emit(s, [], None)
    case RCompleted =>
      var t := s.(usage := ApplyUsage(s.usage, p.response.usage));
      FinishWith(t, FinishReason(t, p.response.stopReason))
    case RIncomplete => FinishWith(s, if p.response.incompleteReason == "content_filter" then "content_filter" else "length")
    case RFailed => Fail(s, "responses stream failed")
    case _ => Fail(s, "unsupported Responses stream event type")
  }

  /** The event name decides; the `type` field only stands in for a missing name. */
  function Step(s: State, e: Event<RPayload>): Emit<State, ChatOut> {
    if e.input.NoData? || e.input.DoneMark? then Emit(s, [], None)
    else if e.input.Malformed? then Fail(s, "malformed event data")
    else StepPayload(s, if e.name == "" then e.input.p.typ else RTypeOf(e.name), e.input.p)
  }

  function AtClose(s: State, err: Option<Error>): (State, Option<Error>) {
    if err.Some? then (s.(err := err), err)
    else if s.err.Some? || s.terminal then (s, s.err)
    else
      var e := Some(Error("responses stream closed without terminal event"));
      (s.(err := e), e)
  }

  function Converter(responses: Codec<RPayload>, chat: Codec<ChatPayload>): EventConverter<State, RPayload, ChatOut> {
    EventConverter(responses, (s: State) => s.terminal, Step, o => ShowChat(chat, o), AtClose)
  }

  /** The converter object, whose fields one event updates in place. */
  class ResponsesChatConverter {
    var failure: Option<Error>
    var responseId: string
    var model: string
    var usage: Usage
    var started: bool
    var messageCount: nat
    var functionCallSeen: bool
    var terminal: bool
    var calls: map<int, CallState>

    constructor ()
      ensures Value() == Init()
    {
      failure, responseId, model, usage, started := None, "", "", NO_USAGE, false;
      messageCount, functionCallSeen, terminal, calls := 0, false, false, map[];
    }

    function Value(): State
      reads this
    {
      State(failure, responseId, model, usage, started, messageCount, functionCallSeen, terminal, calls)
    }

    method ProcessEvent(e: Event<RPayload>) returns (out: seq<ChatOut>, err: Option<Error>)
      modifies this
      ensures Emit(Value(), out, err) == if old(terminal) then Emit(old(Value()), [], None) else Step(old(Value()), e)
    {
      hide StepPayload, RTypeOf;
      out, err := [], None;
      if terminal || e.input.NoData? || e.input.DoneMark? {
        return;
      }
      if e.input.Malformed? {
        return [], Some(Error("malformed event data"));
      }
      out, err := ProcessTyped(if e.name == "" then e.input.p.typ else RTypeOf(e.name), e.input.p);
    }

    method ProcessTyped(typ: RType, p: RPayload) returns (out: seq<ChatOut>, err: Option<Error>)
      requires !terminal
      modifies this
      ensures Emit(Value(), out, err) == StepPayload(old(Value()), typ, p)
    {
      hide AddItem, FinishWith, ApplyUsage, FinishReason;
      out, err := [], None;
      match typ {
        case RCreated =>
          responseId, model := p.response.id, p.response.model;
          usage := ApplyUsage(usage, p.response.usage);
          started := true;
          out := [ChatChunk(Value(), NO_DELTA.(role := "assistant"), "")];
        case RInProgress =>
        case RItemAdded => out, err := AddOutputItem(p);
        case RPartAdded =>
          if p.part.kind != POutputText && p.part.kind != PText {
            err := Some(Error("unsupported Responses content part type"));
          } else if p.part.annotated {
            err := Some(Error("unsupported Responses content annotations"));
          }
        case RTextDelta => out := [ChatChunk(Value(), NO_DELTA.(content := p.delta), "")];
        case RTextDone =>
        case RPartDone =>
        case RItemDone =>
        case RArgsDelta => out := [ChatChunk(Value(), NO_DELTA.(toolCalls := [ToolDelta(p.outputIndex, "", "", "", p.delta)]), "")];
        case RArgsDone =>
        case RCompleted =>
          usage := ApplyUsage(usage, p.response.usage);
          out, err := End(FinishReason(Value(), p.response.stopReason));
        case RIncomplete => out, err := End(if p.response.incompleteReason == "content_filter" then "content_filter" else "length");
        case RFailed => err := Some(Error("responses stream failed"));
        case _ => err := Some(Error("unsupported Responses stream event type"));
      }
    }

    method AddOutputItem(p: RPayload) returns (out: seq<ChatOut>, err: Option<Error>)
      modifies this`messageCount, this`functionCallSeen, this`calls
      ensures Emit(Value(), out, err) == AddItem(old(Value()), p)
    {
      out, err := [], None;
      match p.item.kind {
        case KMessage =>
          messageCount := messageCount + 1;
          if messageCount > 1 {
            err := Some(Error("multiple message output items are not supported"));
          } else if functionCallSeen {
            err := Some(Error("message and function_call output items cannot be mixed"));
          }
        case KFunctionCall =>
          if messageCount > 0 {
            return [], Some(Error("message and function_call output items cannot be mixed"));
          }
          var i := p.outputIndex;
          if i < 0 {
            i := |calls|;
          }
          if p.item.callId == "" || p.item.name == "" {
            return [], Some(Error("function_call requires call_id and name"));
          }
          functionCallSeen := true;
          calls := calls[i := CallState(p.item.callId, p.item.name)];
          out := [ChatChunk(Value(), NO_DELTA.(toolCalls := [ToolDelta(i, p.item.callId, "function", p.item.name, "")]), "")];
        case _ => err := Some(Error("unsupported Responses output item type"));
      }
    }

    method End(finish: string) returns (out: seq<ChatOut>, err: Option<Error>)
      modifies this`terminal
      ensures Emit(Value(), out, err) == FinishWith(old(Value()), finish)
    {
      terminal := true;
      out, err := [UsageChunk(Value())], None;
      out := out + [ChatChunk(Value(), NO_DELTA, finish)];
      out := out + [DoneChunk];
    }
  }
}
