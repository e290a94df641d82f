/** Under which id the converters announce a response: one id from its first event to its last. */
module Identities {
  import opened Wrappers
  import opened Framing
  import opened Frames
  import opened EventMachine
  import opened StreamEvents
  import opened ResponsesReading
  import CA = ChatAcceptance
  import CR = ChatToResponses
  import MO = MessagesOutputs
  import MR = MessagesToResponses
  import RC = ResponsesToChat

  // --- Responses events ---

  /** An event about the whole response has its id and says how it stands. */
  predicate Signed(id: string, p: RPayload) {
    match p.typ
    case RCreated => p.response.id == id && p.response.status == "in_progress"
    case RInProgress => p.response.id == id && p.response.status == "in_progress"
    case RCompleted => p.response.id == id && p.response.status == "completed"
    case RIncomplete => p.response.id == id && p.response.status == "incomplete"
    case RFailed => false
    case _ => true
  }

  predicate AllSigned(id: string, out: seq<RPayload>) {
    forall i :: 0 <= i < |out| ==> Signed(id, out[i])
  }

  lemma SignedTogether(id: string, a: seq<RPayload>, b: seq<RPayload>)
    requires AllSigned(id, a) && AllSigned(id, b)
    ensures AllSigned(id, a + b)
  {
    hide Signed;
  }

  lemma NothingToSign(id: string)
    ensures AllSigned(id, [])
  {
  }

  // --- Chat to Responses ---

  lemma StartsSigned(s: CR.State)
    ensures AllSigned(s.responseId, CR.StartEvents(s))
  {
  }

  lemma ToolSigned(s: CR.State, d: ToolDelta)
    ensures CR.ToolStep(s, d).err.None? ==> CR.ToolStep(s, d).core.responseId == s.responseId && AllSigned(s.responseId, CR.ToolStep(s, d).out)
  {
    StartsSigned(s.(started := true));
    hide CR.StartEvents, Numbered;
    if d.index >= 0 && (d.typ == "" || d.typ == "function") {
      var a := CR.Begin(s);
      var b := CR.Register(a.core, d);
      if b.err.None? {
        RegisterQuiet(a.core, d);
        AnnounceSigned(b.core, d);
        var c := CR.Announce(b.core, d);
        ArgueSigned(c.core, d);
        hide CR.Register, CR.Announce, CR.Argue, AllSigned;
        BeginSigned(s);
        SignedTogether(s.responseId, a.out, c.out);
        SignedTogether(s.responseId, a.out + c.out, CR.Argue(c.core, d).out);
      }
    }
  }

  lemma BeginSigned(s: CR.State)
    ensures AllSigned(s.responseId, CR.Begin(s).out) && CR.Begin(s).core.responseId == s.responseId
  {
  }

  lemma RegisterQuiet(s: CR.State, d: ToolDelta)
    requires CR.Register(s, d).err.None?
    ensures CR.Register(s, d).out == [] && CR.Register(s, d).core.responseId == s.responseId
  {
    CA.RegisterShape(s, d);
  }

  lemma AnnounceSigned(s: CR.State, d: ToolDelta)
    requires d.index in s.calls
    ensures AllSigned(s.responseId, CR.Announce(s, d).out) && CR.Announce(s, d).core.responseId == s.responseId
  {
    hide Numbered;
  }

  lemma ArgueSigned(s: CR.State, d: ToolDelta)
    requires d.index in s.calls
    ensures AllSigned(s.responseId, CR.Argue(s, d).out) && CR.Argue(s, d).core.responseId == s.responseId
  {
  }

  lemma {:induction false} ToolsSigned(s: CR.State, ds: seq<ToolDelta>)
    ensures CR.ToolSteps(s, ds).err.None? ==> CR.ToolSteps(s, ds).core.responseId == s.responseId && AllSigned(s.responseId, CR.ToolSteps(s, ds).out)
    decreases |ds|
  {
    hide CR.ToolStep, AllSigned;
    NothingToSign(s.responseId);
    if ds != [] {
      ToolSigned(s, ds[0]);
      var x := CR.ToolStep(s, ds[0]);
      if x.err.None? {
        ToolsSigned(x.core, ds[1..]);
        if CR.ToolSteps(x.core, ds[1..]).err.None? {
          SignedTogether(s.responseId, x.out, CR.ToolSteps(x.core, ds[1..]).out);
        }
      }
    }
  }

  lemma ContentSigned(s: CR.State, content: string)
    ensures AllSigned(s.responseId, CR.ContentStep(s, content).out) && CR.ContentStep(s, content).core.responseId == s.responseId
  {
  }

  lemma {:induction false} CallsDoneSigned(s: CR.State, i: nat, id: string)
    ensures AllSigned(id, CR.CallsDone(s, i))
    decreases |s.calls| - i
  {
    if i < |s.calls| {
      CallsDoneSigned(s, i + 1, id);
    }
  }

  lemma EndSigned(s: CR.State)
    ensures CR.TerminalEvents(s).core.responseId == s.responseId
    ensures AllSigned(s.responseId, CR.TerminalEvents(s).out)
  {
    hide CR.CallsDone, CR.PrintedUsage;
    CallsDoneSigned(s, 0, s.responseId);
    assert AllSigned(s.responseId, CR.MessageDone(s));
    if CR.Ending(s).Some? {
      var end := CR.Ending(s).value;
      assert Signed(s.responseId, end);
      SignedTogether(s.responseId, CR.MessageDone(s), CR.CallsDone(s, 0));
      SignedTogether(s.responseId, CR.MessageDone(s) + CR.CallsDone(s, 0), [end]);
    }
  }

  lemma ChoiceSigned(s: CR.State, cs: seq<Choice>)
    requires cs != []
    ensures CR.ChoiceStep(s, cs).err.None? ==> CR.ChoiceStep(s, cs).core.responseId == s.responseId && AllSigned(s.responseId, CR.ChoiceStep(s, cs).out)
  {
    hide CR.ToolSteps, CR.ContentStep, AllSigned;
    var d := cs[0].delta;
    ToolsSigned(s, d.toolCalls);
    var x := CR.ToolSteps(s, d.toolCalls);
    ContentSigned(x.core, d.content);
    if x.err.None? {
      SignedTogether(s.responseId, x.out, CR.ContentStep(x.core, d.content).out);
    }
  }

  lemma ChatStepSigned(s: CR.State, e: Event<ChatPayload>)
    ensures CR.Step(s, e).err.None? ==> CR.Step(s, e).core.responseId == s.responseId && AllSigned(s.responseId, CR.Step(s, e).out)
  {
    hide CR.ChoiceStep, CR.TerminalEvents, CR.ApplyUsage, AllSigned;
    NothingToSign(s.responseId);
    EndSigned(s);
    if e.input.Payload? && e.input.p.choices != [] {
      ChoiceSigned(s, e.input.p.choices);
    } else if e.input.Payload? && e.input.p.usage.Counts? {
      EndSigned(s.(usage := CR.ApplyUsage(s.usage, e.input.p.usage.u)));
    }
  }

  lemma {:induction false} ChatRunSigned(v: EventConverter<CR.State, ChatPayload, RPayload>, s: CR.State, es: seq<Event<ChatPayload>>)
    requires CA.IsConverter(v)
    ensures AllSigned(s.responseId, RunEvents(v, s, es).out)
    decreases |es|
  {
    hide CR.Step, AllSigned;
    NothingToSign(s.responseId);
    if es != [] {
      var x := React(v, s, es[0]);
      ChatStepSigned(s, es[0]);
      if x.err.None? {
        ChatRunSigned(v, x.core, es[1..]);
        SignedTogether(s.responseId, x.out, RunEvents(v, x.core, es[1..]).out);
      }
    }
  }

  /** For any Chat events: every event about the response has the converter's id and the status of its
      type, and none says that it failed. */
  lemma ChatResponseIsOne(chat: Codec<ChatPayload>, responses: Codec<RPayload>, id: string, es: seq<Event<ChatPayload>>)
    ensures AllSigned(id, RunEvents(CR.Converter(chat, responses), CR.Init(id), es).out)
  {
    hide AllSigned, RunEvents;
    ChatRunSigned(CR.Converter(chat, responses), CR.Init(id), es);
  }

  // --- Messages to Responses ---

  lemma BlockSigned(s: MR.State, b: MPart)
    ensures MR.StartBlock(s, b).core.responseId == s.responseId && AllSigned(s.responseId, MR.StartBlock(s, b).out)
    ensures MR.BlockDelta(s, b).core.responseId == s.responseId && AllSigned(s.responseId, MR.BlockDelta(s, b).out)
    ensures MR.StopBlock(s).core.responseId == s.responseId && AllSigned(s.responseId, MR.StopBlock(s).out)
  {
    hide Numbered;
  }

  lemma MessageStepSigned(s: MR.State, e: Event<MPayload>)
    ensures MR.Step(s, e).core.responseId == s.responseId && AllSigned(s.responseId, MR.Step(s, e).out)
  {
    hide MTypeOf, MR.StartBlock, MR.BlockDelta, MR.StopBlock;
    forall b: MPart
      ensures MR.StartBlock(s, b).core.responseId == s.responseId && AllSigned(s.responseId, MR.StartBlock(s, b).out)
      ensures MR.BlockDelta(s, b).core.responseId == s.responseId && AllSigned(s.responseId, MR.BlockDelta(s, b).out)
      ensures MR.StopBlock(s).core.responseId == s.responseId && AllSigned(s.responseId, MR.StopBlock(s).out)
    {
      BlockSigned(s, b);
    }
    BlockSigned(s, NO_PART);
  }

  lemma {:induction false} MessageRunSigned(v: EventConverter<MR.State, MPayload, RPayload>, s: MR.State, es: seq<Event<MPayload>>)
    requires MO.IsConverter(v)
    ensures AllSigned(s.responseId, RunEvents(v, s, es).out)
    decreases |es|
  {
    hide MR.Step, AllSigned;
    NothingToSign(s.responseId);
    if es != [] {
      var x := React(v, s, es[0]);
      MessageStepSigned(s, es[0]);
      if x.err.None? {
        MessageRunSigned(v, x.core, es[1..]);
        SignedTogether(s.responseId, x.out, RunEvents(v, x.core, es[1..]).out);
      }
    }
  }

  /** The same for any Messages events. */
  lemma MessageResponseIsOne(messages: Codec<MPayload>, responses: Codec<RPayload>, id: string, es: seq<Event<MPayload>>)
    ensures AllSigned(id, RunEvents(MR.Converter(messages, responses), MR.Init(id), es).out)
  {
    hide AllSigned, RunEvents;
    MessageRunSigned(MR.Converter(messages, responses), MR.Init(id), es);
  }

  // --- Chat chunks ---

  predicate Labelled(id: string, model: string, o: ChatOut) {
    o.Chunk? ==> o.p.id == id && o.p.model == model
  }

  predicate AllLabelled(id: string, model: string, out: seq<ChatOut>) {
    forall i :: 0 <= i < |out| ==> Labelled(id, model, out[i])
  }

  predicate Creates(e: Event<RPayload>) {
    e.input.Payload? && ByName(e.name, e.input.p) == RCreated
  }

  lemma LabelledTogether(id: string, model: string, a: seq<ChatOut>, b: seq<ChatOut>)
    requires AllLabelled(id, model, a) && AllLabelled(id, model, b)
    ensures AllLabelled(id, model, a + b)
  {
    hide Labelled;
  }

  lemma OneLabelled(t: RC.State, delta: ChatDelta)
    ensures AllLabelled(t.responseId, t.model, []) && AllLabelled(t.responseId, t.model, [RC.ChatChunk(t, delta, "")])
  {
  }

  lemma MessageKeepsLabel(t: RC.State, p: RPayload)
    requires p.item.kind == KMessage
    ensures RC.AddItem(t, p).core == t.(messageCount := t.messageCount + 1)
  {
  }

  lemma RefusedKeepsLabel(t: RC.State, p: RPayload)
    requires p.item.kind != KMessage && !(p.item.kind == KFunctionCall && t.messageCount == 0 && p.item.callId != "" && p.item.name != "")
    ensures RC.AddItem(t, p).core == t
  {
  }

  lemma CallKeepsLabel(t: RC.State, p: RPayload)
    requires p.item.kind == KFunctionCall && t.messageCount == 0 && p.item.callId != "" && p.item.name != ""
    ensures RC.AddItem(t, p).core == t.(functionCallSeen := true, calls := RC.AddItem(t, p).core.calls)
  {
    hide RC.ChatChunk;
  }

  lemma ItemKeepsLabel(t: RC.State, p: RPayload)
    ensures RC.AddItem(t, p).core.responseId == t.responseId && RC.AddItem(t, p).core.model == t.model
  {
    hide RC.AddItem;
    if p.item.kind == KMessage {
      MessageKeepsLabel(t, p);
    } else if p.item.kind == KFunctionCall && t.messageCount == 0 && p.item.callId != "" && p.item.name != "" {
      CallKeepsLabel(t, p);
    } else {
      RefusedKeepsLabel(t, p);
    }
  }

  function CallChunk(t: RC.State, p: RPayload): ChatDelta {
    NO_DELTA.(toolCalls := [ToolDelta(if p.outputIndex < 0 then |t.calls| else p.outputIndex, p.item.callId, "function", p.item.name, "")])
  }

  /** An item prints nothing, or the chunk of its call. */
  lemma ItemEmits(t: RC.State, p: RPayload)
    ensures var out := RC.AddItem(t, p).out; out == [] || out == [RC.ChatChunk(t, CallChunk(t, p), "")]
  {
    hide RC.ChatChunk;
  }

  lemma ItemLabels(t: RC.State, p: RPayload)
    ensures var x := RC.AddItem(t, p); x.core.responseId == t.responseId && x.core.model == t.model && AllLabelled(t.responseId, t.model, x.out)
  {
    hide AllLabelled, RC.ChatChunk, RC.AddItem;
    ItemKeepsLabel(t, p);
    ItemEmits(t, p);
    OneLabelled(t, CallChunk(t, p));
  }

  lemma EndLabels(t: RC.State, finish: string)
    ensures var x := RC.FinishWith(t, finish); x.core.responseId == t.responseId && x.core.model == t.model && AllLabelled(t.responseId, t.model, x.out)
  {
  }

  lemma TypedLabels(t: RC.State, typ: RType, p: RPayload)
    ensures var x := RC.StepPayload(t, typ, p);
            && x.core.responseId == (if typ == RCreated then p.response.id else t.responseId)
            && x.core.model == (if typ == RCreated then p.response.model else t.model)
            && AllLabelled(x.core.responseId, x.core.model, x.out)
  {
    hide RC.FinishReason, RC.ApplyUsage, RC.AddItem, RC.FinishWith;
    ItemLabels(t, p);
    forall u: RC.State, finish: string
      ensures var x := RC.FinishWith(u, finish); x.core.responseId == u.responseId && x.core.model == u.model && AllLabelled(u.responseId, u.model, x.out)
    {
      EndLabels(u, finish);
    }
  }

  /** An event labels its chunks like those before it; `response.created` brings the label. */
  lemma StepLabels(t: RC.State, e: Event<RPayload>)
    ensures var x := RC.Step(t, e);
            && (Creates(e) ==> x.core.responseId == e.input.p.response.id && x.core.model == e.input.p.response.model)
            && (!Creates(e) ==> x.core.responseId == t.responseId && x.core.model == t.model)
            && AllLabelled(x.core.responseId, x.core.model, x.out)
  {
    hide RTypeOf, RC.StepPayload, Labelled;
    if e.input.Payload? {
      TypedLabels(t, ByName(e.name, e.input.p), e.input.p);
    }
  }

  lemma {:induction false} RunLabels(v: EventConverter<RC.State, RPayload, ChatOut>, t: RC.State, es: seq<Event<RPayload>>)
    requires v.step == RC.Step && v.resting == ((s: RC.State) => s.terminal) && forall i :: 0 <= i < |es| ==> !Creates(es[i])
    ensures AllLabelled(t.responseId, t.model, RunEvents(v, t, es).out)
    decreases |es|
  {
    hide RC.Step, Labelled, Creates;
    if es != [] {
      var x := React(v, t, es[0]);
      StepLabels(t, es[0]);
      if x.err.None? {
        RunLabels(v, x.core, es[1..]);
        LabelledTogether(t.responseId, t.model, x.out, RunEvents(v, x.core, es[1..]).out);
      }
    }
  }

  /** From a `response.created` on, every chunk has the id and the model that it brought, up to the next
      one. */
  lemma ChunksAreLabelled(responses: Codec<RPayload>, chat: Codec<ChatPayload>, t: RC.State, e: Event<RPayload>, es: seq<Event<RPayload>>)
    requires !t.terminal && Creates(e) && forall i :: 0 <= i < |es| ==> !Creates(es[i])
    ensures AllLabelled(e.input.p.response.id, e.input.p.response.model, RunEvents(RC.Converter(responses, chat), t, [e] + es).out)
  {
    hide RC.Step, AllLabelled, RTypeOf;
    var v := RC.Converter(responses, chat);
    var x := React(v, t, e);
    StepLabels(t, e);
    assert ([e] + es)[0] == e && ([e] + es)[1..] == es;
    NoChunks(e.input.p.response.id, e.input.p.response.model);
    if x.err.None? {
      RunLabels(v, x.core, es);
      LabelledTogether(x.core.responseId, x.core.model, x.out, RunEvents(v, x.core, es).out);
    }
  }

  lemma NoChunks(id: string, model: string)
    ensures AllLabelled(id, model, [])
  {
  }
}
