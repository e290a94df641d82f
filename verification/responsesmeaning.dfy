/** What a Responses stream means to a Chat client and to a Messages client, for any accepted stream. */
module ResponsesMeaning {
  import opened Wrappers
  import opened Framing
  import opened Frames
  import opened EventMachine
  import opened StreamEvents
  import opened ChatStreams
  import opened ResponsesReading
  import CM = ChatToMessages
  import CT = ChatRoundTrip
  import RC = ResponsesToChat
  import RM = ResponsesToMessages

  // --- A Chat client ---

  /** The reply so far, the places of its calls, and the usage told. */
  datatype Reply = Reply(m: Meaning, places: set<int>, usage: Usage)

  const NO_REPLY := Reply(NOTHING, {}, NO_USAGE)

  function Concluded(r: Reply, finish: string): Reply {
    r.(m := r.m.(finish := finish, reports := [r.usage], ended := true))
  }

  /** Text is joined whatever its item; a call is at its output index, or behind the others without one;
      arguments go to the call at their output index. */
  function AnswerTyped(r: Reply, t: RType, p: RPayload): Reply {
    match t
    case RCreated => r.(usage := Counting(r.usage, p.response.usage))
    case RItemAdded =>
      if p.item.kind != KFunctionCall then r
      else
        var i := if p.outputIndex < 0 then |r.places| else p.outputIndex;
        r.(m := AddTool(r.m, ToolDelta(i, p.item.callId, "function", p.item.name, "")), places := r.places + {i})
    case RTextDelta => r.(m := r.m.(text := r.m.text + p.delta))
    case RArgsDelta => r.(m := AddTool(r.m, ToolDelta(p.outputIndex, "", "", "", p.delta)))
    case RCompleted =>
      var u := r.(usage := Counting(r.usage, p.response.usage));
      Concluded(u, FinishFor(t, p.response, r.places != {}))
    case RIncomplete => Concluded(r, FinishFor(t, p.response, r.places != {}))
    case _ => r
  }

  function Answer(r: Reply, e: Event<RPayload>): Reply {
    if r.m.ended || !e.input.Payload? then r else AnswerTyped(r, ByName(e.name, e.input.p), e.input.p)
  }

  function AnswerAll(r: Reply, es: seq<Event<RPayload>>): Reply
    decreases |es|
  {
    if es == [] then r else AnswerAll(Answer(r, es[0]), es[1..])
  }

  ghost predicate Keeps(t: RC.State, r: Reply) {
    && t.terminal == r.m.ended && t.calls.Keys == r.places && t.usage == r.usage
    && (!r.m.ended ==> r.m.finish == "" && r.m.reports == [])
  }

  lemma TextRead(m: Meaning, t: RC.State, content: string)
    requires !m.ended
    ensures ReadOut(m, [RC.ChatChunk(t, NO_DELTA.(content := content), "")]) == m.(text := m.text + content)
  {
    var o := RC.ChatChunk(t, NO_DELTA.(content := content), "");
    ReadOne(m, o);
    assert AddTools(m, []) == m;
  }

  lemma EndRead(t: RC.State, r: Reply, finish: string)
    requires Keeps(t, r) && !r.m.ended && finish != ""
    ensures ReadOut(r.m, RC.FinishWith(t, finish).out) == Concluded(r, finish).m
  {
    CT.ClosingRead(r.m, t, finish);
    assert [] + [t.usage] == [t.usage];
  }

  lemma ReadNothingOf(m: Meaning)
    ensures ReadOut(m, []) == m
  {
  }

  lemma FinishAgrees(t: RC.State, p: RPayload, call: bool)
    requires call <==> |t.calls| > 0
    ensures RC.FinishReason(t, p.response.stopReason) == FinishFor(RCompleted, p.response, call) != ""
    ensures FinishFor(RIncomplete, p.response, call) == (if p.response.incompleteReason == "content_filter" then "content_filter" else "length") != ""
  {
  }

  lemma SomeCalls(t: RC.State, r: Reply)
    requires Keeps(t, r)
    ensures |t.calls| == |r.places| && (r.places != {} <==> |t.calls| > 0)
  {
    assert |t.calls| == |t.calls.Keys|;
  }

  lemma OneMorePlace(calls: map<int, RC.CallState>, i: int, c: RC.CallState)
    ensures calls[i := c].Keys == calls.Keys + {i}
  {
  }

  lemma ToolKeepsRest(m: Meaning, d: ToolDelta)
    ensures var n := AddTool(m, d); n.ended == m.ended && n.finish == m.finish && n.reports == m.reports
  {
  }

  /** What an accepted item prints. */
  lemma ItemPrints(t: RC.State, p: RPayload)
    requires RC.AddItem(t, p).err.None?
    ensures var x, i := RC.AddItem(t, p), if p.outputIndex < 0 then |t.calls| else p.outputIndex;
            if p.item.kind == KFunctionCall then
              x.core == t.(functionCallSeen := true, calls := t.calls[i := RC.CallState(p.item.callId, p.item.name)])
              && x.out == [RC.ChatChunk(t, NO_DELTA.(toolCalls := [ToolDelta(i, p.item.callId, "function", p.item.name, "")]), "")]
            else x.core == t.(messageCount := x.core.messageCount) && x.out == []
  {
    hide RC.ChatChunk;
  }

  lemma CallAnswered(t: RC.State, r: Reply, p: RPayload)
    requires Keeps(t, r) && !r.m.ended && RC.AddItem(t, p).err.None?
    ensures var x := RC.AddItem(t, p); Keeps(x.core, AnswerTyped(r, RItemAdded, p)) && ReadOut(r.m, x.out) == AnswerTyped(r, RItemAdded, p).m
  {
    ItemPrints(t, p);
    SomeCalls(t, r);
    ReadNothingOf(r.m);
    hide ReadOut, RC.ChatChunk, AddTool, RC.AddItem;
    if p.item.kind == KFunctionCall {
      var i := if p.outputIndex < 0 then |r.places| else p.outputIndex;
      var d := ToolDelta(i, p.item.callId, "function", p.item.name, "");
      CT.ToolChunkRead(r.m, t, d);
      ToolKeepsRest(r.m, d);
      OneMorePlace(t.calls, i, RC.CallState(p.item.callId, p.item.name));
    }
  }

  lemma EndAnswered(t: RC.State, r: Reply, typ: RType, p: RPayload)
    requires Keeps(t, r) && !r.m.ended && (typ == RCompleted || typ == RIncomplete)
    ensures var x := RC.StepPayload(t, typ, p); Keeps(x.core, AnswerTyped(r, typ, p)) && ReadOut(r.m, x.out) == AnswerTyped(r, typ, p).m
  {
    SomeCalls(t, r);
    hide ReadOut, RC.FinishReason, FinishFor;
    if typ == RCompleted {
      var u := t.(usage := RC.ApplyUsage(t.usage, p.response.usage));
      FinishAgrees(u, p, r.places != {});
      EndRead(u, r.(usage := u.usage), FinishFor(typ, p.response, r.places != {}));
    } else {
      FinishAgrees(t, p, r.places != {});
      EndRead(t, r, FinishFor(typ, p.response, r.places != {}));
    }
  }

  lemma TypedAnswered(t: RC.State, r: Reply, typ: RType, p: RPayload)
    requires Keeps(t, r) && !r.m.ended && RC.StepPayload(t, typ, p).err.None?
    ensures var x := RC.StepPayload(t, typ, p); Keeps(x.core, AnswerTyped(r, typ, p)) && ReadOut(r.m, x.out) == AnswerTyped(r, typ, p).m
  {
    hide ReadOut, RC.AddItem, RC.FinishWith;
    ReadNothingOf(r.m);
    if typ == RItemAdded {
      CallAnswered(t, r, p);
      ItemsAreAdded(t, p);
    } else if typ == RCompleted || typ == RIncomplete {
      EndAnswered(t, r, typ, p);
    } else if typ == RTextDelta {
      TextRead(r.m, t, p.delta);
    } else if typ == RArgsDelta {
      CT.ToolChunkRead(r.m, t, ToolDelta(p.outputIndex, "", "", "", p.delta));
    } else if typ == RCreated {
      CT.RoleMeansNothing(r.m, RC.StepPayload(t, typ, p).core);
    }
  }

  lemma EventAnswered(t: RC.State, r: Reply, e: Event<RPayload>)
    requires Keeps(t, r) && !r.m.ended && RC.Step(t, e).err.None?
    ensures var x := RC.Step(t, e); Keeps(x.core, Answer(r, e)) && ReadOut(r.m, x.out) == Answer(r, e).m
  {
    hide RTypeOf, RC.StepPayload, ReadOut, Keeps, AnswerTyped;
    ReadNothingOf(r.m);
    if e.input.Payload? {
      TypedAnswered(t, r, ByName(e.name, e.input.p), e.input.p);
    }
  }

  lemma KeepsEnd(t: RC.State, r: Reply)
    requires Keeps(t, r)
    ensures t.terminal == r.m.ended
  {
  }

  lemma {:induction false} RunAnswered(v: EventConverter<RC.State, RPayload, ChatOut>, t: RC.State, r: Reply, es: seq<Event<RPayload>>)
    requires v.step == RC.Step && v.resting == ((s: RC.State) => s.terminal) && Keeps(t, r) && RunEvents(v, t, es).err.None?
    ensures ReadOut(r.m, RunEvents(v, t, es).out) == AnswerAll(r, es).m
    decreases |es|
  {
    hide RC.Step, Keeps, ReadOut, Answer;
    KeepsEnd(t, r);
    ReadNothingOf(r.m);
    if es != [] {
      var x := React(v, t, es[0]);
      if t.terminal {
        EndedAnswers(r, es[0]);
      } else {
        EventAnswered(t, r, es[0]);
      }
      RunAnswered(v, x.core, Answer(r, es[0]), es[1..]);
      ReadAppend(r.m, x.out, RunEvents(v, x.core, es[1..]).out);
    }
  }

  lemma EndedAnswers(r: Reply, e: Event<RPayload>)
    requires r.m.ended
    ensures Answer(r, e) == r
  {
  }

  /** For any accepted Responses stream, the Chat stream that is printed means what the events say. */
  lemma ChatMeansTheSame(responses: Codec<RPayload>, chat: Codec<ChatPayload>, es: seq<Event<RPayload>>)
    requires ChatStreamOk(UNSEEN, es)
    ensures var x := RunEvents(RC.Converter(responses, chat), RC.Init(), es);
            x.err.None? && ReadOut(NOTHING, x.out) == AnswerAll(NO_REPLY, es).m
  {
    hide ChatStreamOk, RunEvents, ReadOut, AnswerAll;
    ChatAccepted(responses, chat, es);
    RunAnswered(RC.Converter(responses, chat), RC.Init(), NO_REPLY, es);
  }

  // --- A Messages client ---

  /** What is heard, and whether its last piece is still open. */
  datatype Sense = Sense(h: CM.Heard, open: bool)

  const NO_SENSE := Sense(CM.SILENCE, false)

  function PieceOf(item: Item): CM.Piece {
    if item.kind == KFunctionCall then CM.ToolPiece(if item.callId == "" then item.id else item.callId, item.name, "") else CM.TextPiece("")
  }

  /** The open piece with more text or more arguments, whichever it is made of. */
  function Grown(h: CM.Heard, text: string, arguments: string): CM.Heard
    requires h.pieces != []
  {
    h.(pieces := h.pieces[..|h.pieces| - 1] +
      [match h.pieces[|h.pieces| - 1]
       case TextPiece(t) => CM.TextPiece(t + text)
       case ToolPiece(id, name, a) => CM.ToolPiece(id, name, a + arguments)])
  }

  /** An item opens a piece unless one is open; what comes for another piece is lost; any done event of
      text, part or item closes it. */
  function SenseTyped(x: Sense, t: RType, p: RPayload): Sense {
    match t
    case RCreated => x.(h := x.h.(started := true))
    case RItemAdded => if x.open then x else Sense(x.h.(pieces := x.h.pieces + [PieceOf(p.item)]), true)
    case RTextDelta => if x.open && x.h.pieces != [] then x.(h := Grown(x.h, p.delta, "")) else x
    case RArgsDelta => if x.open && x.h.pieces != [] then x.(h := Grown(x.h, "", p.delta)) else x
    case RTextDone => x.(open := false)
    case RPartDone => x.(open := false)
    case RItemDone => x.(open := false)
    case RCompleted =>
      Sense(x.h.(stopReason := if p.response.stopReason == "" then "end_turn" else p.response.stopReason,
                 output := if p.response.usage.output > 0 then p.response.usage.output else 0, stopped := true), false)
    case _ => x
  }

  function SenseOne(x: Sense, e: Event<RPayload>): Sense {
    if x.h.stopped || !e.input.Payload? then x else SenseTyped(x, ByField(e.name, e.input.p), e.input.p)
  }

  function SenseAll(x: Sense, es: seq<Event<RPayload>>): Sense
    decreases |es|
  {
    if es == [] then x else SenseAll(SenseOne(x, es[0]), es[1..])
  }

  ghost predicate Sensed(s: RM.State, x: Sense) {
    && s.terminal == x.h.stopped && s.started == x.h.started
    && (!s.terminal ==> s.outputTokens == 0 && s.blockOpen == x.open)
    && (x.open ==> !s.blockStopped && x.h.pieces != [] && (s.blockType == KMessage || s.blockType == KFunctionCall)
                   && (s.blockType == KMessage <==> x.h.pieces[|x.h.pieces| - 1].TextPiece?))
  }

  lemma DeltaSensed(s: RM.State, x: Sense, typ: RType, p: RPayload)
    requires Sensed(s, x) && !s.terminal && (typ == RTextDelta || typ == RArgsDelta)
    ensures var y := RM.StepPayload(s, typ, p); Sensed(y.core, SenseTyped(x, typ, p)) && CM.HearAll(x.h, y.out) == SenseTyped(x, typ, p).h
  {
    hide CM.HearAll;
    var y := RM.StepPayload(s, typ, p);
    HeardNothing(x.h);
    if y.out != [] {
      CM.HearOne(x.h, y.out[0]);
    } else if x.open {
      var last := x.h.pieces[|x.h.pieces| - 1];
      assert match last { case TextPiece(t) => t + "" == t case ToolPiece(_, _, a) => a + "" == a };
      assert x.h.pieces[..|x.h.pieces| - 1] + [last] == x.h.pieces;
    }
  }

  lemma HeardNothing(h: CM.Heard)
    ensures CM.HearAll(h, []) == h
  {
  }

  lemma ItemSensed(s: RM.State, x: Sense, p: RPayload)
    requires Sensed(s, x) && !s.terminal && RM.AddItem(s, p.item).err.None?
    ensures var y := RM.AddItem(s, p.item); Sensed(y.core, SenseTyped(x, RItemAdded, p)) && CM.HearAll(x.h, y.out) == SenseTyped(x, RItemAdded, p).h
  {
    hide CM.HearAll;
    HeardNothing(x.h);
    var y := RM.AddItem(s, p.item);
    if y.out != [] {
      CM.HearOne(x.h, y.out[0]);
    }
  }

  lemma StopSensed(s: RM.State, h: CM.Heard)
    requires s.blockOpen ==> !s.blockStopped
    ensures CM.HearAll(h, RM.StopBlock(s).out) == h && !RM.StopBlock(s).core.blockOpen
  {
    hide CM.HearAll;
    HeardNothing(h);
    var out := RM.StopBlock(s).out;
    if out != [] {
      CM.HearOne(h, out[0]);
    }
  }

  lemma CompleteSensed(s: RM.State, x: Sense, p: RPayload)
    requires Sensed(s, x) && !s.terminal
    ensures var y := RM.Complete(s, p.response); Sensed(y.core, SenseTyped(x, RCompleted, p)) && CM.HearAll(x.h, y.out) == SenseTyped(x, RCompleted, p).h
  {
    hide CM.HearAll;
    var tokens := if p.response.usage.output > 0 then p.response.usage.output else 0;
    var reason := if p.response.stopReason == "" then "end_turn" else p.response.stopReason;
    var t := s.(terminal := true, outputTokens := tokens, stopReason := reason);
    var stops := RM.StopBlock(t).out;
    StopSensed(t, x.h);
    var delta := Plainly(MMessageDelta).(delta := NO_PART.(stopReason := reason), outputTokens := tokens);
    assert RM.Complete(s, p.response).out == stops + ([delta] + [Plainly(MMessageStop)]);
    CM.HearAppend(x.h, stops, [delta] + [Plainly(MMessageStop)]);
    CM.HearAppend(x.h, [delta], [Plainly(MMessageStop)]);
    CM.HearOne(x.h, delta);
    CM.HearOne(CM.Hear(x.h, delta), Plainly(MMessageStop));
  }

  lemma TypedSensed(s: RM.State, x: Sense, typ: RType, p: RPayload)
    requires Sensed(s, x) && !s.terminal && RM.StepPayload(s, typ, p).err.None?
    ensures var y := RM.StepPayload(s, typ, p); Sensed(y.core, SenseTyped(x, typ, p)) && CM.HearAll(x.h, y.out) == SenseTyped(x, typ, p).h
  {
    hide CM.HearAll, RM.AddItem, RM.Complete, RM.BlockStart;
    HeardNothing(x.h);
    if typ == RItemAdded {
      ItemSensed(s, x, p);
    } else if typ == RCompleted {
      CompleteSensed(s, x, p);
    } else if typ == RTextDelta || typ == RArgsDelta {
      DeltaSensed(s, x, typ, p);
    } else if typ == RTextDone || typ == RPartDone || typ == RItemDone {
      StopSensed(s, x.h);
    } else if typ == RCreated && !s.started {
      CM.HearOne(x.h, RM.StepPayload(s, typ, p).out[0]);
    }
  }

  lemma EventSensed(s: RM.State, x: Sense, e: Event<RPayload>)
    requires Sensed(s, x) && RM.Step(s, e).err.None?
    ensures var y := RM.Step(s, e); Sensed(y.core, SenseOne(x, e)) && CM.HearAll(x.h, y.out) == SenseOne(x, e).h
  {
    hide RTypeOf, RM.StepPayload, CM.HearAll, SenseTyped;
    HeardNothing(x.h);
    if e.input.Payload? && !s.terminal {
      TypedSensed(s, x, ByField(e.name, e.input.p), e.input.p);
    }
  }

  lemma {:induction false} RunSensed(v: EventConverter<RM.State, RPayload, MPayload>, s: RM.State, x: Sense, es: seq<Event<RPayload>>)
    requires v.step == RM.Step && v.resting == ((s: RM.State) => false) && Sensed(s, x) && RunEvents(v, s, es).err.None?
    ensures CM.HearAll(x.h, RunEvents(v, s, es).out) == SenseAll(x, es).h
    decreases |es|
  {
    hide RM.Step, Sensed, CM.HearAll, SenseOne;
    HeardNothing(x.h);
    if es != [] {
      var y := React(v, s, es[0]);
      EventSensed(s, x, es[0]);
      RunSensed(v, y.core, SenseOne(x, es[0]), es[1..]);
      CM.HearAppend(x.h, y.out, RunEvents(v, y.core, es[1..]).out);
    }
  }

  /** For any accepted Responses stream, a Messages client hears what the events say, one open item at a
      time. */
  lemma MessagesMeanTheSame(responses: Codec<RPayload>, messages: Codec<MPayload>, es: seq<Event<RPayload>>)
    requires ResponsesReading.StreamOk(false, es)
    ensures var x := RunEvents(RM.Converter(responses, messages), RM.Init(), es);
            x.err.None? && CM.HearAll(CM.SILENCE, x.out) == SenseAll(NO_SENSE, es).h
  {
    hide ResponsesReading.StreamOk, RunEvents, CM.HearAll, SenseAll;
    MessagesRun(RM.Converter(responses, messages), RM.Init(), es);
    RunSensed(RM.Converter(responses, messages), RM.Init(), NO_SENSE, es);
  }
}
