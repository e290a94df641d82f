/** Messages events to Responses events. */
module MessagesToResponses {
  import opened Wrappers
  import opened Framing
  import opened Frames
  import opened EventMachine
  import opened StreamEvents

  datatype State = State(created: bool, responseId: string, itemIndex: int, partIndex: int, itemType: BlockKind,
                         toolId: string, toolName: string, toolArgs: string, text: string,
                         inputTokens: int, outputTokens: int, stopReason: string, terminal: bool)

  function Init(responseId: string): State {
    State(false, responseId, -1, 0, BNone, "", "", "", "", 0, 0, "", false)
  }

  function ItemAdded(index: int, item: Item): RPayload {
    Bare(RItemAdded).(outputIndex := index, item := item)
  }

  function TextDelta(index: int, part: int, text: string): RPayload {
    Bare(RTextDelta).(outputIndex := index, contentIndex := part, delta := text)
  }

  function StartBlock(s: State, block: MPart): Emit<State, RPayload> {
    var t := s.(itemIndex := s.itemIndex + 1, partIndex := 0, itemType := block.kind);
    match block.kind
    case BText =>
      Emit(t.(text := block.inner),
           [ItemAdded(t.itemIndex, Item(KMessage, Numbered("msg_", t.itemIndex), "", "")),
            Bare(RPartAdded).(outputIndex := t.itemIndex, part := Part(POutputText, false))]
           + (if block.inner != "" then [TextDelta(t.itemIndex, 0, block.inner)] else []),
           None)
    case BToolUse =>
      Emit(t.(toolId := block.id, toolName := block.name, toolArgs := ""),
           [ItemAdded(t.itemIndex, Item(KFunctionCall, block.id, block.id, block.name))], None)
    case _ => Emit(t, [], Some(Error("unsupported stream content block type")))
  }

  function BlockDelta(s: State, d: MPart): Emit<State, RPayload> {
    match d.kind
    case BTextDelta =>
      Emit(s.(text := s.text + d.text), [TextDelta(s.itemIndex, s.partIndex, d.text)], None)
    case BJsonDelta =>
      Emit(s.(toolArgs := s.toolArgs + d.partialJson),
           [Bare(RArgsDelta).(outputIndex := s.itemIndex, delta := d.partialJson)], None)
    case _ => Emit(s, [], Some(Error("unsupported stream content block delta type")))
  }

  function StopBlock(s: State): Emit<State, RPayload> {
    match s.itemType
    case BText =>
      Emit(s, [Bare(RTextDone).(outputIndex := s.itemIndex, contentIndex := s.partIndex, text := s.text),
               Bare(RPartDone).(outputIndex := s.itemIndex, contentIndex := s.partIndex),
               Bare(RItemDone).(outputIndex := s.itemIndex)], None)
    case BToolUse =>
      Emit(s, [Bare(RArgsDone).(outputIndex := s.itemIndex, text := s.toolArgs),
               Bare(RItemDone).(outputIndex := s.itemIndex)], None)
    case _ => Emit(s, [], Some(Error("unsupported stream content block stop")))
  }

  function Created(s: State): seq<RPayload> {
    var r := NO_RESPONSE.(id := s.responseId, status := "in_progress");
    [Bare(RCreated).(response := r.(usage := NO_USAGE.(input := s.inputTokens))), Bare(RInProgress).(response := r)]
  }

  function Completed(s: State): RPayload {
    Bare(RCompleted).(response := NO_RESPONSE.(
      id := s.responseId, status := "completed", stopReason := s.stopReason,
      usage := NO_USAGE.(input := s.inputTokens, output := s.outputTokens)))
  }

  function StepPayload(s: State, typ: MType, p: MPayload): Emit<State, RPayload> {
    match typ
    case MMessageStart =>
      var t := s.(inputTokens := p.message.inputTokens);
      // A second message_start falls through to the unsupported types.
      if s.created then Emit(t, [], Some(Error("unsupported stream event type")))
      else Emit(t.(created := true), Created(t), None)
    case MBlockStart => StartBlock(s, if p.block.Some? then p.block.value else p.delta)
    case MBlockDelta => BlockDelta(s, p.delta)
    case MBlockStop => StopBlock(s)
    case MMessageDelta =>
      Emit(s.(stopReason := p.delta.stopReason, outputTokens := if p.outputTokens > 0 then p.outputTokens else s.outputTokens), [], None)
    case MMessageStop => Emit(s.(terminal := true), [Completed(s)], None)
    case MPing => Emit(s, [], None)
    case _ => Emit(s, [], Some(Error("unsupported stream event type")))
  }

  function Step(s: State, e: Event<MPayload>): Emit<State, RPayload> {
    if e.name == "ping" || e.input.NoData? || e.input.DoneMark? then Emit(s, [], None)
    else if e.input.Malformed? then Emit(s, [], Some(Error("malformed event data")))
    else StepPayload(s, if e.input.p.typ == MNone then MTypeOf(e.name) else e.input.p.typ, e.input.p)
  }

  function Converter(messages: Codec<MPayload>, responses: Codec<RPayload>): EventConverter<State, MPayload, RPayload> {
    EventConverter(messages, (s: State) => s.terminal, Step, p => ShowResponses(responses, p), (s, err) => (s, err))
  }

  /** The converter object, whose fields one event updates in place. */
  class MessagesConverter {
    var created: bool
    var responseId: string
    var itemIndex: int
    var partIndex: int
    var itemType: BlockKind
    var toolId: string
    var toolName: string
    var toolArgs: string
    var text: string
    var inputTokens: int
    var outputTokens: int
    var stopReason: string
    var terminal: bool

    constructor (responseId: string)
      ensures Value() == Init(responseId)
    {
      created, this.responseId, itemIndex, partIndex, itemType := false, responseId, -1, 0, BNone;
      toolId, toolName, toolArgs, text := "", "", "", "";
      inputTokens, outputTokens, stopReason, terminal := 0, 0, "", false;
    }

    function Value(): State
      reads this
    {
      State(created, responseId, itemIndex, partIndex, itemType, toolId, toolName, toolArgs, text, inputTokens, outputTokens, stopReason, terminal)
    }

    method ProcessEvent(e: Event<MPayload>) returns (out: seq<RPayload>, err: Option<Error>)
      modifies this
      ensures Emit(Value(), out, err) == if old(terminal) then Emit(old(Value()), [], None) else Step(old(Value()), e)
    {
      hide StepPayload, MTypeOf;
      out, err := [], None;
      if terminal || e.name == "ping" || e.input.NoData? || e.input.DoneMark? {
        return;
      }
      if e.input.Malformed? {
        return [], Some(Error("malformed event data"));
      }
      out, err := ProcessTyped(if e.input.p.typ == MNone then MTypeOf(e.name) else e.input.p.typ, e.input.p);
    }

    method ProcessTyped(typ: MType, p: MPayload) returns (out: seq<RPayload>, err: Option<Error>)
      modifies this
      ensures Emit(Value(), out, err) == StepPayload(old(Value()), typ, p)
    {
      hide StartBlock, BlockDelta, StopBlock;
      out, err := [], None;
      if typ == MMessageStart {
        inputTokens := p.message.inputTokens;
        if !created {
          created := true;
          return Created(Value()), None;
        }
      }
      match typ {
        case MBlockStart => out, err := StartOfBlock(if p.block.Some? then p.block.value else p.delta);
        case MBlockDelta => out, err := DeltaOfBlock(p.delta);
        case MBlockStop => out, err := EndOfBlock();
        case MMessageDelta =>
          stopReason := p.delta.stopReason;
          if p.outputTokens > 0 {
            outputTokens := p.outputTokens;
          }
        case MMessageStop =>
          terminal := true;
          out := [Completed(Value())];
        case MPing =>
        case _ => err := Some(Error("unsupported stream event type"));
      }
    }

    method EndOfBlock() returns (out: seq<RPayload>, err: Option<Error>)
      ensures Emit(Value(), out, err) == StopBlock(Value())
    {
      out, err := [], None;
      match itemType {
        case BText =>
          out := [Bare(RTextDone).(outputIndex := itemIndex, contentIndex := partIndex, text := text)];
          out := out + [Bare(RPartDone).(outputIndex := itemIndex, contentIndex := partIndex)];
          out := out + [Bare(RItemDone).(outputIndex := itemIndex)];
        case BToolUse =>
          out := [Bare(RArgsDone).(outputIndex := itemIndex, text := toolArgs)];
          out := out + [Bare(RItemDone).(outputIndex := itemIndex)];
        case _ => err := Some(Error("unsupported stream content block stop"));
      }
    }

    method StartOfBlock(block: MPart) returns (out: seq<RPayload>, err: Option<Error>)
      modifies this`itemIndex, this`partIndex, this`itemType, this`text, this`toolId, this`toolName, this`toolArgs
      ensures Emit(Value(), out, err) == StartBlock(old(Value()), block)
    {
      hide Numbered, ItemAdded, TextDelta;
      itemIndex := itemIndex + 1;
      partIndex := 0;
      itemType := block.kind;
      out, err := [], None;
      if block.kind == BText {
        out := StartOfText(block.inner);
      } else if block.kind == BToolUse {
        toolId := block.id;
        toolName := block.name;
        toolArgs := "";
        out := [ItemAdded(itemIndex, Item(KFunctionCall, toolId, toolId, toolName))];
      } else {
        err := Some(Error("unsupported stream content block type"));
      }
    }

    method StartOfText(inner: string) returns (out: seq<RPayload>)
      requires partIndex == 0
      modifies this`text
      ensures text == inner
      ensures out == [ItemAdded(itemIndex, Item(KMessage, Numbered("msg_", itemIndex), "", "")),
                      Bare(RPartAdded).(outputIndex := itemIndex, part := Part(POutputText, false))]
                     + (if inner != "" then [TextDelta(itemIndex, 0, inner)] else [])
    {
      hide Numbered;
      text := "";
      out := [ItemAdded(itemIndex, Item(KMessage, Numbered("msg_", itemIndex), "", ""))];
      out := out + [Bare(RPartAdded).(outputIndex := itemIndex, contentIndex := partIndex, part := Part(POutputText, false))];
      assert out + [] == out && "" + inner == inner;
      if inner != "" {
        text := text + inner;
        out := out + [TextDelta(itemIndex, partIndex, inner)];
      }
    }

    method DeltaOfBlock(d: MPart) returns (out: seq<RPayload>, err: Option<Error>)
      modifies this`text, this`toolArgs
      ensures Emit(Value(), out, err) == BlockDelta(old(Value()), d)
    {
      out, err := [], None;
      match d.kind {
        case BTextDelta =>
          text := text + d.text;
          out := [TextDelta(itemIndex, partIndex, d.text)];
        case BJsonDelta =>
          toolArgs := toolArgs + d.partialJson;
          out := [Bare(RArgsDelta).(outputIndex := itemIndex, delta := d.partialJson)];
        case _ => err := Some(Error("unsupported stream content block delta type"));
      }
    }
  }
}
