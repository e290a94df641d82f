/** Which Responses streams the two converters from Responses accept, told from the events alone, and
    what their last events say. */
module ResponsesReading {
  import opened Wrappers
  import opened Framing
  import opened Frames
  import opened EventMachine
  import opened StreamEvents
  import RM = ResponsesToMessages
  import RC = ResponsesToChat

  /** To Messages: the `type` field decides, the name stands in for a missing one. */
  function ByField(name: Bytes, p: RPayload): RType {
    if p.typ == RNone then RTypeOf(name) else p.typ
  }

  /** To Chat: the name decides, the `type` field stands in for a missing one. */
  function ByName(name: Bytes, p: RPayload): RType {
    if name == "" then p.typ else RTypeOf(name)
  }

  /** Events that carry nothing to refuse. */
  predicate Harmless(t: RType) {
    t == RCreated || t == RInProgress || t == RTextDelta || t == RTextDone || t == RPartDone || t == RItemDone || t == RArgsDelta || t == RArgsDone
  }

  // --- To Messages ---

  predicate Completes(e: Event<RPayload>) {
    e.input.Payload? && ByField(e.name, e.input.p) == RCompleted
  }

  /** A readable event of a known type, with a known kind of item or part, and no failure or incomplete
      end.  After the end it need only be readable. */
  predicate EventOk(ended: bool, e: Event<RPayload>) {
    match e.input
    case NoData => true
    case DoneMark => true
    case Malformed => false
    case Payload(p) =>
      var t := ByField(e.name, p);
      || ended || Harmless(t) || t == RCompleted
      || (t == RItemAdded && (p.item.kind == KMessage || p.item.kind == KFunctionCall))
      || (t == RPartAdded && (p.part.kind == POutputText || p.part.kind == PText))
  }

  predicate StreamOk(ended: bool, es: seq<Event<RPayload>>)
    decreases |es|
  {
    es == [] || (EventOk(ended, es[0]) && StreamOk(ended || Completes(es[0]), es[1..]))
  }

  predicate AnyCompletes(es: seq<Event<RPayload>>) {
    exists i :: 0 <= i < |es| && Completes(es[i])
  }

  predicate Stops(out: seq<MPayload>) {
    exists i :: 0 <= i < |out| && out[i].typ == MMessageStop
  }

  lemma MessagesStep(s: RM.State, e: Event<RPayload>)
    ensures var x := RM.Step(s, e);
            && (x.err.None? <==> EventOk(s.terminal, e))
            && (x.err.None? ==> (x.core.terminal <==> s.terminal || Completes(e)))
            && (x.err.None? ==> (Stops(x.out) <==> !s.terminal && Completes(e)))
  {
    hide RM.StepPayload, RTypeOf, Stops;
    NothingStops();
    if e.input.Payload? && !s.terminal {
      PayloadStep(s, ByField(e.name, e.input.p), e.input.p);
      PayloadStops(s, ByField(e.name, e.input.p), e.input.p);
    }
  }

  /** An item, a part or an end may be refused; the rest may not. */
  lemma PayloadStep(s: RM.State, t: RType, p: RPayload)
    requires !s.terminal
    ensures var x := RM.StepPayload(s, t, p);
            && (x.err.None? <==> Harmless(t) || t == RCompleted || (t == RItemAdded && (p.item.kind == KMessage || p.item.kind == KFunctionCall))
                                 || (t == RPartAdded && (p.part.kind == POutputText || p.part.kind == PText)))
            && (x.err.None? ==> (x.core.terminal <==> t == RCompleted))
  {
    hide RM.BlockStart, RM.BlockStop;
  }

  lemma PayloadStops(s: RM.State, t: RType, p: RPayload)
    requires !s.terminal
    ensures Stops(RM.StepPayload(s, t, p).out) <==> t == RCompleted
  {
    if t == RCompleted {
      CompleteStops(s, p.response);
    }
  }

  lemma CompleteStops(s: RM.State, r: Response)
    ensures Stops(RM.Complete(s, r).out)
  {
    var out := RM.Complete(s, r).out;
    assert out[|out| - 1].typ == MMessageStop;
  }

  lemma StopsAppend(a: seq<MPayload>, b: seq<MPayload>)
    ensures Stops(a + b) <==> Stops(a) || Stops(b)
  {
    if Stops(a) {
      var i :| 0 <= i < |a| && a[i].typ == MMessageStop;
      assert (a + b)[i] == a[i];
    }
    if Stops(b) {
      var i :| 0 <= i < |b| && b[i].typ == MMessageStop;
      assert (a + b)[|a| + i] == b[i];
    }
  }

  lemma {:induction false} MessagesRun(v: EventConverter<RM.State, RPayload, MPayload>, s: RM.State, es: seq<Event<RPayload>>)
    requires v.step == RM.Step && v.resting == ((s: RM.State) => false)
    ensures var x := RunEvents(v, s, es);
            && (x.err.None? <==> StreamOk(s.terminal, es))
            && (x.err.None? ==> (x.core.terminal <==> s.terminal || AnyCompletes(es)))
            && (x.err.None? ==> (Stops(x.out) <==> !s.terminal && AnyCompletes(es)))
    decreases |es|
  {
    hide RM.Step, EventOk, Completes, Stops;
    if es != [] {
      MessagesStep(s, es[0]);
      var x := RM.Step(s, es[0]);
      assert AnyCompletes(es) <==> Completes(es[0]) || AnyCompletes(es[1..]) by {
        if AnyCompletes(es[1..]) {
          var i :| 0 <= i < |es[1..]| && Completes(es[1..][i]);
          assert es[i + 1] == es[1..][i];
        }
      }
      if x.err.None? {
        MessagesRun(v, x.core, es[1..]);
        StopsAppend(x.out, RunEvents(v, x.core, es[1..]).out);
      }
    } else {
      NothingStops();
    }
  }

  lemma NothingStops()
    ensures !Stops([])
  {
  }

  /** For any events: there is no error exactly when every event is readable and, before the end, of a
      known type, item kind and part kind, none of them incomplete or failed.  Of the events before an
      error the message is stopped exactly when one is a `response.completed`. */
  lemma MessagesAccepted(responses: Codec<RPayload>, messages: Codec<MPayload>, es: seq<Event<RPayload>>) returns (n: nat)
    ensures var x := RunEvents(RM.Converter(responses, messages), RM.Init(), es);
            && (x.err.None? <==> StreamOk(false, es))
            && n <= |es| && (n == |es| <==> x.err.None?) && StreamOk(false, es[..n])
            && (Stops(x.out) <==> AnyCompletes(es[..n]))
  {
    hide StreamOk, Stops, AnyCompletes;
    var v := RM.Converter(responses, messages);
    n := OutputBeforeError(v, RM.Init(), es);
    MessagesRun(v, RM.Init(), es);
    MessagesRun(v, RM.Init(), es[..n]);
  }

  /** The two events that end the message: the stop reason of the response or `end_turn`, and its
      output tokens. */
  ghost predicate EndsMessage(out: seq<MPayload>, r: Response) {
    |out| >= 2 && out[|out| - 1].typ == MMessageStop
    && out[|out| - 2].typ == MMessageDelta && out[|out| - 2].delta.stopReason == (if r.stopReason == "" then "end_turn" else r.stopReason)
    && out[|out| - 2].outputTokens == (if r.usage.output > 0 then r.usage.output else 0)
  }

  lemma CompletionEnds(s: RM.State, e: Event<RPayload>)
    requires !s.terminal && Completes(e) && s.outputTokens == 0
    ensures EndsMessage(RM.Step(s, e).out, e.input.p.response) && RM.Step(s, e).core.terminal && RM.Step(s, e).err.None?
  {
    hide RTypeOf;
  }

  lemma NoTokensYet(s: RM.State, e: Event<RPayload>)
    requires s.outputTokens == 0 && !Completes(e)
    ensures RM.Step(s, e).core.outputTokens == 0
  {
    hide RTypeOf, RM.BlockStart;
  }

  /** After the end nothing comes. */
  lemma {:induction false} NothingFollows(v: EventConverter<RM.State, RPayload, MPayload>, s: RM.State, es: seq<Event<RPayload>>)
    requires v.step == RM.Step && v.resting == ((s: RM.State) => false) && s.terminal
    ensures RunEvents(v, s, es).out == []
    decreases |es|
  {
    if es != [] {
      NothingFollows(v, s, es[1..]);
    }
  }

  lemma {:induction false} MessageEnds(v: EventConverter<RM.State, RPayload, MPayload>, s: RM.State, es: seq<Event<RPayload>>, i: nat)
    requires v.step == RM.Step && v.resting == ((s: RM.State) => false) && !s.terminal && s.outputTokens == 0
    requires i < |es| && Completes(es[i]) && (forall j :: 0 <= j < i ==> !Completes(es[j])) && RunEvents(v, s, es).err.None?
    ensures EndsMessage(RunEvents(v, s, es).out, es[i].input.p.response)
    decreases |es|
  {
    var r := es[i].input.p.response;
    hide RM.Step, Completes, EndsMessage;
    var x := RM.Step(s, es[0]);
    var rest := RunEvents(v, x.core, es[1..]).out;
    MessagesStep(s, es[0]);
    if i == 0 {
      CompletionEnds(s, es[0]);
      NothingFollows(v, x.core, es[1..]);
      assert x.out + [] == x.out;
    } else {
      NoTokensYet(s, es[0]);
      assert es[1..][i - 1] == es[i] && forall j :: 0 <= j < i - 1 ==> es[1..][j] == es[j + 1];
      MessageEnds(v, x.core, es[1..], i - 1);
      EndsAfter(x.out, rest, r);
    }
  }

  lemma EndsAfter(before: seq<MPayload>, out: seq<MPayload>, r: Response)
    requires EndsMessage(out, r)
    ensures EndsMessage(before + out, r)
  {
  }

  /** An accepted stream that completes ends the message with what its first `response.completed` says. */
  lemma CompletedSays(responses: Codec<RPayload>, messages: Codec<MPayload>, es: seq<Event<RPayload>>, i: nat)
    requires StreamOk(false, es) && i < |es| && Completes(es[i]) && forall j :: 0 <= j < i ==> !Completes(es[j])
    ensures EndsMessage(RunEvents(RM.Converter(responses, messages), RM.Init(), es).out, es[i].input.p.response)
  {
    hide StreamOk, EndsMessage;
    MessagesRun(RM.Converter(responses, messages), RM.Init(), es);
    MessageEnds(RM.Converter(responses, messages), RM.Init(), es, i);
  }

  // --- To Chat ---

  /** What a Chat converter has seen: a message item, a call item, the end. */
  datatype Seen = Seen(message: bool, call: bool, ended: bool)

  const UNSEEN := Seen(false, false, false)

  function See(seen: Seen, e: Event<RPayload>): Seen {
    if seen.ended || !e.input.Payload? then seen
    else
      var p := e.input.p;
      var t := ByName(e.name, p);
      Seen(seen.message || (t == RItemAdded && p.item.kind == KMessage), seen.call || (t == RItemAdded && p.item.kind == KFunctionCall),
           t == RCompleted || t == RIncomplete)
  }

  /** One message or any number of named calls, plain text parts, and no failure. */
  predicate ChatEventOk(seen: Seen, e: Event<RPayload>) {
    seen.ended ||
    match e.input
    case NoData => true
    case DoneMark => true
    case Malformed => false
    case Payload(p) =>
      var t := ByName(e.name, p);
      || Harmless(t) || t == RCompleted || t == RIncomplete
      || (t == RItemAdded && p.item.kind == KMessage && !seen.message && !seen.call)
      || (t == RItemAdded && p.item.kind == KFunctionCall && !seen.message && p.item.callId != "" && p.item.name != "")
      || (t == RPartAdded && (p.part.kind == POutputText || p.part.kind == PText) && !p.part.annotated)
  }

  predicate ChatStreamOk(seen: Seen, es: seq<Event<RPayload>>)
    decreases |es|
  {
    es == [] || (ChatEventOk(seen, es[0]) && ChatStreamOk(See(seen, es[0]), es[1..]))
  }

  function SeeAll(seen: Seen, es: seq<Event<RPayload>>): Seen
    decreases |es|
  {
    if es == [] then seen else SeeAll(See(seen, es[0]), es[1..])
  }

  ghost predicate SeenBy(t: RC.State, seen: Seen) {
    t.err.None? && t.messageCount == (if seen.message then 1 else 0) && t.functionCallSeen == seen.call && t.terminal == seen.ended
    && (|t.calls| > 0 <==> seen.call)
  }

  lemma ItemStep(t: RC.State, seen: Seen, p: RPayload)
    requires SeenBy(t, seen) && !seen.ended
    ensures var x := RC.AddItem(t, p);
            var ok := (p.item.kind == KMessage && !seen.message && !seen.call)
                      || (p.item.kind == KFunctionCall && !seen.message && p.item.callId != "" && p.item.name != "");
            (x.err.None? <==> ok)
            && (ok ==> SeenBy(x.core, Seen(seen.message || p.item.kind == KMessage, seen.call || p.item.kind == KFunctionCall, false)))
  {
    hide RC.ChatChunk;
    if p.item.kind == KFunctionCall {
      var i := if p.outputIndex < 0 then |t.calls| else p.outputIndex;
      assert |t.calls[i := RC.CallState(p.item.callId, p.item.name)]| > 0 by {
        assert i in t.calls[i := RC.CallState(p.item.callId, p.item.name)];
      }
    }
  }

  lemma EndStep(t: RC.State, typ: RType, p: RPayload)
    requires typ == RCompleted || typ == RIncomplete
    ensures var x := RC.StepPayload(t, typ, p);
            x.err.None? && x.core == t.(terminal := true, usage := x.core.usage)
  {
    hide RC.ChatChunk, RC.UsageChunk, RC.FinishReason, RC.ApplyUsage;
  }

  lemma HarmlessStep(t: RC.State, typ: RType, p: RPayload)
    requires Harmless(typ)
    ensures var x := RC.StepPayload(t, typ, p);
            x.err.None? && x.core == t.(usage := x.core.usage, responseId := x.core.responseId, model := x.core.model, started := x.core.started)
  {
    hide RC.ChatChunk, RC.UsageChunk, RC.ApplyUsage, RC.AddItem, RC.FinishWith;
  }

  lemma OtherStep(t: RC.State, typ: RType, p: RPayload)
    requires !Harmless(typ) && typ != RItemAdded && typ != RCompleted && typ != RIncomplete
    ensures var x := RC.StepPayload(t, typ, p);
            x.core == t && (x.err.None? <==> typ == RPartAdded && (p.part.kind == POutputText || p.part.kind == PText) && !p.part.annotated)
  {
    hide RC.ChatChunk, RC.UsageChunk, RC.ApplyUsage, RC.AddItem, RC.FinishWith;
  }

  lemma ChatStep(t: RC.State, seen: Seen, e: Event<RPayload>)
    requires SeenBy(t, seen) && !seen.ended
    ensures var x := RC.Step(t, e);
            (x.err.None? <==> ChatEventOk(seen, e)) && (x.err.None? ==> SeenBy(x.core, See(seen, e)))
  {
    hide RTypeOf, RC.AddItem, RC.StepPayload;
    if e.input.Payload? {
      var typ, p := ByName(e.name, e.input.p), e.input.p;
      if typ == RItemAdded {
        ItemStep(t, seen, p);
        ItemsAreAdded(t, p);
      } else if typ == RCompleted || typ == RIncomplete {
        EndStep(t, typ, p);
      } else if Harmless(typ) {
        HarmlessStep(t, typ, p);
      } else {
        OtherStep(t, typ, p);
      }
    }
  }

  lemma ItemsAreAdded(t: RC.State, p: RPayload)
    ensures RC.StepPayload(t, RItemAdded, p) == RC.AddItem(t, p)
  {
    hide RC.AddItem;
  }

  lemma {:induction false} ChatRun(v: EventConverter<RC.State, RPayload, ChatOut>, t: RC.State, seen: Seen, es: seq<Event<RPayload>>)
    requires v.step == RC.Step && v.resting == ((s: RC.State) => s.terminal) && SeenBy(t, seen)
    ensures var x := RunEvents(v, t, es);
            (x.err.None? <==> ChatStreamOk(seen, es)) && (x.err.None? ==> SeenBy(x.core, SeeAll(seen, es)))
    decreases |es|
  {
    hide RC.Step, SeenBy, ChatEventOk, See;
    if es != [] {
      SeenEnds(t, seen);
      if t.terminal {
        EndedIsOk(seen, es[0]);
        ChatRun(v, t, seen, es[1..]);
      } else {
        ChatStep(t, seen, es[0]);
        if ChatEventOk(seen, es[0]) {
          ChatRun(v, RC.Step(t, es[0]).core, See(seen, es[0]), es[1..]);
        }
      }
    }
  }

  lemma SeenEnds(t: RC.State, seen: Seen)
    requires SeenBy(t, seen)
    ensures t.terminal == seen.ended
  {
  }

  lemma EndedIsOk(seen: Seen, e: Event<RPayload>)
    requires seen.ended
    ensures ChatEventOk(seen, e) && See(seen, e) == seen
  {
  }

  /** For any events: the Chat converter accepts exactly these streams, and reaches its end exactly when
      one of the events is a completed or incomplete end. */
  lemma ChatAccepted(responses: Codec<RPayload>, chat: Codec<ChatPayload>, es: seq<Event<RPayload>>)
    ensures var x := RunEvents(RC.Converter(responses, chat), RC.Init(), es);
            (x.err.None? <==> ChatStreamOk(UNSEEN, es)) && (x.err.None? ==> (x.core.terminal <==> SeeAll(UNSEEN, es).ended))
  {
    hide ChatStreamOk, SeeAll;
    assert SeenBy(RC.Init(), UNSEEN);
    ChatRun(RC.Converter(responses, chat), RC.Init(), UNSEEN, es);
  }

  /** Printed as bytes in any chunks, such a stream converts without error exactly when it is accepted
      and has an end. */
  lemma ChatBytesAccepted(responses: Codec<RPayload>, chat: Codec<ChatPayload>, es: seq<Event<RPayload>>, chunks: seq<Bytes>)
    requires Lawful(responses) && Carried(es) && Flatten(chunks) == PrintFrames(FramesOf(responses, es))
    ensures Convert(MachineOf(RC.Converter(responses, chat)), Fresh(RC.Init()), chunks).err.None? <==> ChatStreamOk(UNSEEN, es) && SeeAll(UNSEEN, es).ended
  {
    hide ChatStreamOk, SeeAll, Convert, MachineOf, RunEvents, Lawful, Carried, FramesOf, PrintFrames, Flatten;
    var v := RC.Converter(responses, chat);
    ChatAccepted(responses, chat, es);
    ConvertEvents(v, RC.Init(), es, chunks);
    NoErrorKept(v, es);
  }

  lemma NoErrorKept(v: EventConverter<RC.State, RPayload, ChatOut>, es: seq<Event<RPayload>>)
    requires v.step == RC.Step && v.resting == ((s: RC.State) => s.terminal)
    ensures RunEvents(v, RC.Init(), es).err.None? ==> RunEvents(v, RC.Init(), es).core.err.None?
  {
    assert SeenBy(RC.Init(), UNSEEN);
    ChatRun(v, RC.Init(), UNSEEN, es);
  }

  // --- What a Chat client is told at the end ---

  /** The finish reason: what the response stopped for, and a plain stop after calls is `tool_calls`. */
  function FinishFor(t: RType, r: Response, call: bool): string {
    if t == RIncomplete then (if r.incompleteReason == "content_filter" then "content_filter" else "length")
    else if r.stopReason == "max_tokens" then "length"
    else if r.stopReason == "tool_use" || call then "tool_calls"
    else "stop"
  }

  function Positive(before: int, n: int): int {
    if n > 0 then n else before
  }

  function PositiveDetail(before: Detail, d: Detail): Detail {
    if d.Tokens? && d.count > 0 then d else before
  }

  /** The last positive report of each count. */
  function Counting(before: Usage, u: Usage): Usage {
    Usage(Positive(before.input, u.input), Positive(before.output, u.output), Positive(before.total, u.total),
          PositiveDetail(before.cached, u.cached), PositiveDetail(before.reasoning, u.reasoning))
  }

  /** Usage comes with `response.created` and `response.completed`; an incomplete end brings none. */
  function UsageAfter(before: Usage, seen: Seen, e: Event<RPayload>): Usage {
    if seen.ended || !e.input.Payload? then before
    else
      var t := ByName(e.name, e.input.p);
      if t == RCreated || t == RCompleted then Counting(before, e.input.p.response.usage) else before
  }

  function UsageOf(before: Usage, seen: Seen, es: seq<Event<RPayload>>): Usage
    decreases |es|
  {
    if es == [] then before else UsageOf(UsageAfter(before, seen, es[0]), See(seen, es[0]), es[1..])
  }

  /** The last three chunks: the usage, the finish reason, and the closing mark. */
  predicate EndsChat(out: seq<ChatOut>, finish: string, usage: Usage) {
    && |out| >= 3 && out[|out| - 1].DoneChunk?
    && out[|out| - 2].Chunk? && |out[|out| - 2].p.choices| == 1 && out[|out| - 2].p.choices[0].finish == finish
    && out[|out| - 3].Chunk? && out[|out| - 3].p.choices == [] && out[|out| - 3].p.usage == Counts(usage)
  }

  lemma EndStepSays(t: RC.State, seen: Seen, e: Event<RPayload>)
    requires SeenBy(t, seen) && !seen.ended && See(seen, e).ended
    ensures EndsChat(RC.Step(t, e).out, FinishFor(ByName(e.name, e.input.p), e.input.p.response, seen.call), UsageAfter(t.usage, seen, e))
  {
    hide RTypeOf;
  }

  lemma TypedCounts(t: RC.State, typ: RType, p: RPayload)
    ensures RC.StepPayload(t, typ, p).core.usage == if typ == RCreated || typ == RCompleted then Counting(t.usage, p.response.usage) else t.usage
  {
    hide RC.ChatChunk, RC.UsageChunk, RC.FinishReason, RC.AddItem, RC.ApplyUsage, Counting;
    CountingIs(t.usage, p.response.usage);
    ItemKeepsUsage(t, p);
  }

  lemma CountingIs(before: Usage, u: Usage)
    ensures Counting(before, u) == RC.ApplyUsage(before, u)
  {
  }

  lemma ItemKeepsUsage(t: RC.State, p: RPayload)
    ensures RC.AddItem(t, p).core.usage == t.usage
  {
    hide RC.ChatChunk;
  }

  lemma StepCounts(t: RC.State, seen: Seen, e: Event<RPayload>)
    requires SeenBy(t, seen) && !seen.ended
    ensures RC.Step(t, e).core.usage == UsageAfter(t.usage, seen, e)
  {
    hide RTypeOf, RC.StepPayload, SeenBy;
    if e.input.Payload? {
      TypedCounts(t, ByName(e.name, e.input.p), e.input.p);
    }
  }

  lemma {:induction false} ChatNothingFollows(v: EventConverter<RC.State, RPayload, ChatOut>, t: RC.State, es: seq<Event<RPayload>>)
    requires v.resting(t)
    ensures RunEvents(v, t, es) == Emit(t, [], None)
    decreases |es|
  {
    if es != [] {
      ChatNothingFollows(v, t, es[1..]);
    }
  }

  lemma {:induction false} ChatRunEnds(v: EventConverter<RC.State, RPayload, ChatOut>, t: RC.State, seen: Seen, es: seq<Event<RPayload>>, i: nat)
    requires v.step == RC.Step && v.resting == ((s: RC.State) => s.terminal) && SeenBy(t, seen) && ChatStreamOk(seen, es)
    requires i < |es| && !SeeAll(seen, es[..i]).ended && See(SeeAll(seen, es[..i]), es[i]).ended
    ensures es[i].input.Payload?
    ensures var p := es[i].input.p;
            EndsChat(RunEvents(v, t, es).out, FinishFor(ByName(es[i].name, p), p.response, SeeAll(seen, es[..i]).call), UsageOf(t.usage, seen, es[..i + 1]))
    decreases |es|
  {
    hide RC.Step, SeenBy, ChatEventOk, EndsChat, FinishFor, UsageAfter;
    var x := RC.Step(t, es[0]);
    SeenEnds(t, seen);
    NotEndedBefore(seen, es, i);
    ChatStep(t, seen, es[0]);
    StepCounts(t, seen, es[0]);
    if i == 0 {
      EndStepSays(t, seen, es[0]);
      SeenEnds(x.core, See(seen, es[0]));
      ChatNothingFollows(v, x.core, es[1..]);
      assert x.out + [] == x.out;
      assert es[..1] == [es[0]] && es[..0] == [] && [es[0]][1..] == [];
    } else {
      assert es[..i][1..] == es[1..][..i - 1] && es[..i + 1][1..] == es[1..][..i];
      ChatRunEnds(v, x.core, See(seen, es[0]), es[1..], i - 1);
      var p := es[i].input.p;
      EndsChatAfter(x.out, RunEvents(v, x.core, es[1..]).out, FinishFor(ByName(es[i].name, p), p.response, SeeAll(seen, es[..i]).call), UsageOf(t.usage, seen, es[..i + 1]));
    }
  }

  lemma EndsChatAfter(before: seq<ChatOut>, out: seq<ChatOut>, finish: string, usage: Usage)
    requires EndsChat(out, finish, usage)
    ensures EndsChat(before + out, finish, usage)
  {
  }

  lemma {:induction false} NotEndedBefore(seen: Seen, es: seq<Event<RPayload>>, i: nat)
    requires i < |es| && !SeeAll(seen, es[..i]).ended
    ensures !seen.ended
    decreases |es|
  {
    if i > 0 {
      assert es[..i][1..] == es[1..][..i - 1];
      NotEndedBefore(See(seen, es[0]), es[1..], i - 1);
    }
  }

  /** An accepted stream with an end, at event `i`, closes with the finish reason that the end calls for
      and with the last positive report of each count. */
  lemma ChatEndSays(responses: Codec<RPayload>, chat: Codec<ChatPayload>, es: seq<Event<RPayload>>, i: nat)
    requires ChatStreamOk(UNSEEN, es) && i < |es| && !SeeAll(UNSEEN, es[..i]).ended && See(SeeAll(UNSEEN, es[..i]), es[i]).ended
    ensures es[i].input.Payload?
    ensures var p := es[i].input.p;
            EndsChat(RunEvents(RC.Converter(responses, chat), RC.Init(), es).out,
                     FinishFor(ByName(es[i].name, p), p.response, SeeAll(UNSEEN, es[..i]).call), UsageOf(NO_USAGE, UNSEEN, es[..i + 1]))
  {
    hide ChatStreamOk, EndsChat, SeeAll, UsageOf, FinishFor;
    assert SeenBy(RC.Init(), UNSEEN);
    ChatRunEnds(RC.Converter(responses, chat), RC.Init(), UNSEEN, es, i);
  }
}
