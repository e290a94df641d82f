/** Responses events to Messages events. */
module ResponsesToMessages {
  import opened Wrappers
  import opened Framing
  import opened Frames
  import opened EventMachine
  import opened StreamEvents

  datatype State = State(started: bool, blockType: ItemKind, blockId: string, blockName: string, blockIndex: int,
                         blockOpen: bool, blockStopped: bool, toolArgs: string,
                         inputTokens: int, outputTokens: int, stopReason: string, terminal: bool)

  function Init(): State {
    State(false, KNone, "", "", -1, false, false, "", 0, 0, "", false)
  }

  function BlockStart(s: State): MPayload {
    Plainly(MBlockStart).(index := s.blockIndex,
      block := Some(if s.blockType == KFunctionCall then NO_PART.(kind := BToolUse, id := s.blockId, name := s.blockName)
                    else NO_PART.(kind := BText)))
  }

  function BlockStop(s: State): MPayload {
    Plainly(MBlockStop).(index := s.blockIndex)
  }

  function AddItem(s: State, item: Item): Emit<State, MPayload> {
    if item.kind != KMessage && item.kind != KFunctionCall then
      Emit(s, [], Some(Error("unsupported Responses output item type")))
    else if s.blockOpen then Emit(s, [], None)
    else
      var t := s.(blockOpen := true, blockStopped := false, blockIndex := s.blockIndex + 1, blockType := item.kind,
                  blockId := if item.callId == "" then item.id else item.callId, blockName := item.name, toolArgs := "");
      Emit(t, [BlockStart(t)], None)
  }

  function StopBlock(s: State): Emit<State, MPayload> {
    if !s.blockOpen || s.blockStopped then Emit(s, [], None)
    else Emit(s.(blockStopped := true, blockOpen := false), [BlockStop(s)], None)
  }

  function Complete(s: State, r: Response): Emit<State, MPayload> {
    var t := s.(terminal := true,
                outputTokens := if r.usage.output > 0 then r.usage.output else s.outputTokens,
                stopReason := if r.stopReason != "" then r.stopReason else "end_turn");
    var x := StopBlock(t);
    Emit(x.core, x.out + [Plainly(MMessageDelta).(delta := NO_PART.(stopReason := t.stopReason), outputTokens := t.outputTokens),
                          Plainly(MMessageStop)], None)
  }

  function StepPayload(s: State, typ: RType, p: RPayload): Emit<State, MPayload> {
    match typ
    case RCreated =>
      if s.started then Emit(s, [], None)
      else
        var n := p.response.usage.input;
        Emit(s.(started := true, inputTokens := n),
             [Plainly(MMessageStart).(message := MMessage(p.response.id, p.response.model, n))], None)
    case RInProgress => Emit(s, [], None)
    case RItemAdded => AddItem(s, p.item)
    case RPartAdded =>
      if p.part.kind == POutputText || p.part.kind == PText then Emit(s, [], None)
      else Emit(s, [], Some(Error("unsupported Responses content part type")))
    case RTextDelta =>
      if s.blockType != KMessage || !s.blockOpen then Emit(s, [], None)
      else Emit(s, [Plainly(MBlockDelta).(index := s.blockIndex, delta := NO_PART.(kind := BTextDelta, text := p.delta))], None)
    case RArgsDelta =>
      if s.blockType != KFunctionCall || !s.blockOpen then Emit(s, [], None)
      else Emit(s.(toolArgs := s.toolArgs + p.delta),
                [Plainly(MBlockDelta).(index := s.blockIndex, delta := NO_PART.(kind := BJsonDelta, partialJson := p.delta))], None)
    case RTextDone => StopBlock(s)
    case RPartDone => StopBlock(s)
    case RItemDone => StopBlock(s)
    case RArgsDone => Emit(s, [], None)
    case RCompleted => Complete(s, p.response)
    case RIncomplete => Emit(s.(terminal := true), [], Some(Error("responses stream incomplete")))
    case RFailed => Emit(s.(terminal := true), [], Some(Error("responses stream failed")))
    case _ => Emit(s, [], Some(Error("unsupported Responses stream event type")))
  }

  /** The data is parsed before the terminal state is looked at. */
  function Step(s: State, e: Event<RPayload>): Emit<State, MPayload> {
    if e.input.NoData? || e.input.DoneMark? then Emit(s, [], None)
    else if e.input.Malformed? then Emit(s, [], Some(Error("malformed event data")))
    else if s.terminal then Emit(s, [], None)
    else StepPayload(s, if e.input.p.typ == RNone then RTypeOf(e.name) else e.input.p.typ, e.input.p)
  }

  function Converter(responses: Codec<RPayload>, messages: Codec<MPayload>): EventConverter<State, RPayload, MPayload> {
    EventConverter(responses, (s: State) => false, Step, p => ShowMessages(messages, p), (s, err) => (s, err))
  }

  /** The converter object, whose fields one event updates in place. */
  class ResponsesConverter {
    var started: bool
    var blockType: ItemKind
    var blockId: string
    var blockName: string
    var blockIndex: int
    var blockOpen: bool
    var blockStopped: bool
    var toolArgs: string
    var inputTokens: int
    var outputTokens: int
    var stopReason: string
    var terminal: bool

    constructor ()
      ensures Value() == Init()
    {
      started, blockType, blockId, blockName, blockIndex := false, KNone, "", "", -1;
      blockOpen, blockStopped, toolArgs := false, false, "";
      inputTokens, outputTokens, stopReason, terminal := 0, 0, "", false;
    }

    function Value(): State
      reads this
    {
      State(started, blockType, blockId, blockName, blockIndex, blockOpen, blockStopped, toolArgs, inputTokens, outputTokens, stopReason, terminal)
    }

    method ProcessEvent(e: Event<RPayload>) returns (out: seq<MPayload>, err: Option<Error>)
      modifies this
      ensures Emit(Value(), out, err) == Step(old(Value()), e)
    {
      out, err := [], None;
      if e.input.NoData? || e.input.DoneMark? {
        return;
      }
      if e.input.Malformed? {
        return [], Some(Error("malformed event data"));
      }
      if terminal {
        return;
      }
      hide StepPayload, RTypeOf;
      out, err := ProcessTyped(if e.input.p.typ == RNone then RTypeOf(e.name) else e.input.p.typ, e.input.p);
    }

    method ProcessTyped(typ: RType, p: RPayload) returns (out: seq<MPayload>, err: Option<Error>)
      requires !terminal
      modifies this
      ensures Emit(Value(), out, err) == StepPayload(old(Value()), typ, p)
    {
      hide AddItem, Complete, StopBlock;
      out, err := [], None;
      match typ {
        case RCreated =>
          if !started {
            started := true;
            inputTokens := p.response.usage.input;
            out := [Plainly(MMessageStart).(message := MMessage(p.response.id, p.response.model, inputTokens))];
          }
        case RInProgress =>
        case RItemAdded => out, err := OpenBlock(p.item);
        case RPartAdded =>
          if p.part.kind != POutputText && p.part.kind != PText {
            err := Some(Error("unsupported Responses content part type"));
          }
        case RTextDelta =>
          if blockType == KMessage && blockOpen {
            out := [Plainly(MBlockDelta).(index := blockIndex, delta := NO_PART.(kind := BTextDelta, text := p.delta))];
          }
        case RArgsDelta =>
          if blockType == KFunctionCall && blockOpen {
            toolArgs := toolArgs + p.delta;
            out := [Plainly(MBlockDelta).(index := blockIndex, delta := NO_PART.(kind := BJsonDelta, partialJson := p.delta))];
          }
        case RTextDone => out, err := CloseBlock();
        case RPartDone => out, err := CloseBlock();
        case RItemDone => out, err := CloseBlock();
        case RArgsDone =>
        case RCompleted => out, err := Finish(p.response);
        case RIncomplete =>
          terminal := true;
          err := Some(Error("responses stream incomplete"));
        case RFailed =>
          terminal := true;
          err := Some(Error("responses stream failed"));
        case _ => err := Some(Error("unsupported Responses stream event type"));
      }
    }

    method OpenBlock(item: Item) returns (out: seq<MPayload>, err: Option<Error>)
      modifies this`blockOpen, this`blockStopped, this`blockIndex, this`blockType, this`blockId, this`blockName, this`toolArgs
      ensures Emit(Value(), out, err) == AddItem(old(Value()), item)
    {
      hide BlockStart;
      out, err := [], None;
      if item.kind != KMessage && item.kind != KFunctionCall {
        return [], Some(Error("unsupported Responses output item type"));
      }
      if blockOpen {
        return;
      }
      blockOpen, blockStopped := true, false;
      blockIndex := blockIndex + 1;
      blockType := item.kind;
      blockId := item.callId;
      if blockId == "" {
        blockId := item.id;
      }
      blockName := item.name;
      toolArgs := "";
      out := [BlockStart(Value())];
    }

    method CloseBlock() returns (out: seq<MPayload>, err: Option<Error>)
      modifies this`blockOpen, this`blockStopped
      ensures Emit(Value(), out, err) == StopBlock(old(Value()))
    {
      out, err := [], None;
      if !blockOpen || blockStopped {
        return;
      }
      blockStopped := true;
      blockOpen := false;
      out := [BlockStop(Value())];
    }

    method Finish(r: Response) returns (out: seq<MPayload>, err: Option<Error>)
      requires !terminal
      modifies this
      ensures Emit(Value(), out, err) == Complete(old(Value()), r)
    {
      terminal := true;
      if r.usage.output > 0 {
        outputTokens := r.usage.output;
      }
      stopReason := if r.stopReason != "" then r.stopReason else "end_turn";
      out, err := [], None;
      if blockOpen && !blockStopped {
        blockStopped := true;
        blockOpen := false;
        out := [BlockStop(Value())];
      }
      out := out + [Plainly(MMessageDelta).(delta := NO_PART.(stopReason := stopReason), outputTokens := outputTokens)];
      out := out + [Plainly(MMessageStop)];
    }
  }
}
