/** The events of the three streaming dialects.

    A payload is the record of the JSON fields the converters read; a missing field has the zero
    value the converters give it.  The `type` field and the event name are enumerated. */
module StreamEvents {
  import opened Wrappers
  import opened Framing
  import opened Frames

  /** A token-detail object: missing, without the known key, or with its count. */
  datatype Detail = NoDetail | EmptyDetail | Tokens(count: int)

  datatype Usage = Usage(input: int, output: int, total: int, cached: Detail, reasoning: Detail)

  const NO_USAGE := Usage(0, 0, 0, NoDetail, NoDetail)

  /** The decimal digits of a number. */
  function Decimal(n: nat): string {
    var digit := ["0123456789"[n % 10]];
    if n < 10 then digit else Decimal(n / 10) + digit
  }

  function Numbered(prefix: string, n: int): string {
    prefix + (if n < 0 then "-" + Decimal(-n) else Decimal(n))
  }

  // --- Responses ---

  datatype RType =
    | RNone | RCreated | RInProgress | RItemAdded | RPartAdded | RTextDelta | RTextDone | RPartDone
    | RItemDone | RArgsDelta | RArgsDone | RCompleted | RIncomplete | RFailed | ROther(name: string)

  datatype ItemKind = KNone | KMessage | KFunctionCall | KOtherItem(name: string)

  datatype Item = Item(kind: ItemKind, id: string, callId: string, name: string)

  datatype PartKind = PNone | POutputText | PText | POtherPart(name: string)

  datatype Part = Part(kind: PartKind, annotated: bool)

  datatype Response = Response(id: string, model: string, status: string, usage: Usage, stopReason: string, incompleteReason: string)

  datatype RPayload = RPayload(typ: RType, outputIndex: int, contentIndex: int, item: Item, part: Part,
                               delta: string, text: string, response: Response)

  const NO_ITEM := Item(KNone, "", "", "")
  const NO_RESPONSE := Response("", "", "", NO_USAGE, "", "")

  /** A Responses event with no field besides its type. */
  function Bare(typ: RType): RPayload {
    RPayload(typ, 0, 0, NO_ITEM, Part(PNone, false), "", "", NO_RESPONSE)
  }

  function RName(t: RType): Bytes {
    match t
    case RNone => ""
    case RCreated => "response.created"
    case RInProgress => "response.in_progress"
    case RItemAdded => "response.output_item.added"
    case RPartAdded => "response.content_part.added"
    case RTextDelta => "response.output_text.delta"
    case RTextDone => "response.output_text.done"
    case RPartDone => "response.content_part.done"
    case RItemDone => "response.output_item.done"
    case RArgsDelta => "response.function_call_arguments.delta"
    case RArgsDone => "response.function_call_arguments.done"
    case RCompleted => "response.completed"
    case RIncomplete => "response.incomplete"
    case RFailed => "response.failed"
    case ROther(name) => name
  }

  function RTypeOf(name: Bytes): RType {
    if name == "" then RNone
    else if name == "response.created" then RCreated
    else if name == "response.in_progress" then RInProgress
    else if name == "response.output_item.added" then RItemAdded
    else if name == "response.content_part.added" then RPartAdded
    else if name == "response.output_text.delta" then RTextDelta
    else if name == "response.output_text.done" then RTextDone
    else if name == "response.content_part.done" then RPartDone
    else if name == "response.output_item.done" then RItemDone
    else if name == "response.function_call_arguments.delta" then RArgsDelta
    else if name == "response.function_call_arguments.done" then RArgsDone
    else if name == "response.completed" then RCompleted
    else if name == "response.incomplete" then RIncomplete
    else if name == "response.failed" then RFailed
    else ROther(name)
  }

  /** The name printed for an event type is read back as that type. */
  lemma NamesAreRead(t: RType)
    requires !t.ROther?
    ensures RTypeOf(RName(t)) == t
  {
    // The names of equal length differ in these places.
    assert "response.output_item.added"[16] == 'i' && "response.output_text.delta"[16] == 't' && "response.content_part.done"[16] == '_';
    assert "response.output_text.done"[16] == 't' && "response.output_item.done"[16] == 'i';
  }

  lemma ArgumentNamesArePlain()
    ensures Plain(RName(RArgsDelta)) && Plain(RName(RArgsDone))
  {
  }

  lemma DoneNamesArePlain()
    ensures Plain(RName(RTextDone)) && Plain(RName(RPartDone)) && Plain(RName(RItemDone)) && Plain(RName(RPartAdded))
  {
  }

  lemma NamesArePlain(t: RType)
    requires !t.ROther?
    ensures Plain(RName(t))
  {
    match t
    case RArgsDelta => ArgumentNamesArePlain();
    case RArgsDone => ArgumentNamesArePlain();
    case RTextDone => DoneNamesArePlain();
    case RPartDone => DoneNamesArePlain();
    case RItemDone => DoneNamesArePlain();
    case RPartAdded => DoneNamesArePlain();
    case _ =>
  }

  function ShowResponses(codec: Codec<RPayload>, p: RPayload): Frame {
    Frame(RName(p.typ), codec.encode(p))
  }

  // --- Messages ---

  datatype MType =
    | MNone | MMessageStart | MBlockStart | MBlockDelta | MBlockStop | MMessageDelta | MMessageStop
    | MPing | MOther(name: string)

  /** The `type` of a content block or of a delta. */
  datatype BlockKind = BNone | BText | BToolUse | BTextDelta | BJsonDelta | BOther(name: string)

  /** A content block or a delta; `inner` is the text of a delta nested in a block. */
  datatype MPart = MPart(kind: BlockKind, id: string, name: string, text: string, partialJson: string, stopReason: string, inner: string)

  datatype MMessage = MMessage(id: string, model: string, inputTokens: int)

  datatype MPayload = MPayload(typ: MType, index: int, block: Option<MPart>, delta: MPart, message: MMessage, outputTokens: int)

  const NO_PART := MPart(BNone, "", "", "", "", "", "")
  const NO_MESSAGE := MMessage("", "", 0)

  function Plainly(typ: MType): MPayload {
    MPayload(typ, 0, None, NO_PART, NO_MESSAGE, 0)
  }

  function MName(t: MType): Bytes {
    match t
    case MNone => ""
    case MMessageStart => "message_start"
    case MBlockStart => "content_block_start"
    case MBlockDelta => "content_block_delta"
    case MBlockStop => "content_block_stop"
    case MMessageDelta => "message_delta"
    case MMessageStop => "message_stop"
    case MPing => "ping"
    case MOther(name) => name
  }

  function MTypeOf(name: Bytes): MType {
    if name == "" then MNone
    else if name == "message_start" then MMessageStart
    else if name == "content_block_start" then MBlockStart
    else if name == "content_block_delta" then MBlockDelta
    else if name == "content_block_stop" then MBlockStop
    else if name == "message_delta" then MMessageDelta
    else if name == "message_stop" then MMessageStop
    else if name == "ping" then MPing
    else MOther(name)
  }

  lemma MessageNamesArePlain(t: MType)
    requires !t.MOther?
    ensures Plain(MName(t)) && MTypeOf(MName(t)) == t
  {
  }

  function ShowMessages(codec: Codec<MPayload>, p: MPayload): Frame {
    Frame(MName(p.typ), codec.encode(p))
  }

  // --- Chat ---

  /** The usage object of a Chat chunk: missing, not a usage object, or read. */
  datatype UsageField = NoUsage | BadUsage | Counts(u: Usage)

  datatype ToolDelta = ToolDelta(index: int, id: string, typ: string, name: string, arguments: string)

  /** `known` says that the delta has only the fields the converter supports. */
  datatype ChatDelta = ChatDelta(role: string, content: string, toolCalls: seq<ToolDelta>, known: bool)

  datatype Choice = Choice(index: int, delta: ChatDelta, finish: string)

  datatype ChatPayload = ChatPayload(id: string, model: string, choices: seq<Choice>, usage: UsageField)

  const NO_DELTA := ChatDelta("", "", [], true)

  /** What a Chat stream prints: chunks and the closing mark. */
  datatype ChatOut = Chunk(p: ChatPayload) | DoneChunk

  function ShowChat(codec: Codec<ChatPayload>, o: ChatOut): Frame {
    Frame("", if o.Chunk? then codec.encode(o.p) else DONE_MARK)
  }
}
