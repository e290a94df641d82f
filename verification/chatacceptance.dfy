/** Which Chat streams the Chat to Responses converter accepts, and what its state knows of them. */
module ChatAcceptance {
  import opened Wrappers
  import opened Framing
  import opened Frames
  import opened EventMachine
  import opened StreamEvents
  import opened ChatStreams
  import CR = ChatToResponses

  /** The state after events that mean `m`. */
  ghost predicate Tracks(s: CR.State, m: Meaning) {
    && s.err.None? && s.terminal == m.ended && s.finishReason == m.finish && s.usage == Merged(m.reports)
    && (forall i :: i in s.calls <==> i in m.calls) && (forall i :: i in s.calls ==> i >= 0)
    && (s.started <==> m.order != []) && (m.order == [] <==> m.calls == map[])
    && (s.messageStarted <==> m.text != "")
  }

  /** When the first delta of each call has brought its id and name, the state knows them all. */
  ghost predicate Ids(s: CR.State, m: Meaning) {
    && (forall i :: i in s.calls ==> i in m.calls && s.calls[i].emitted && s.calls[i].id == m.calls[i].id)
    && (forall i :: i in s.calls ==> s.calls[i].id in s.callIds && s.callIds[s.calls[i].id] == i)
    && (forall x :: x in s.callIds ==> s.callIds[x] in s.calls && s.calls[s.callIds[x]].id == x)
  }

  ghost predicate Known(s: CR.State, m: Meaning) {
    Tracks(s, m) && m.proper && Ids(s, m)
  }

  // --- Tool calls ---

  /** A delta changes the call of its index and nothing of the other calls. */
  lemma ToolShape(s: CR.State, d: ToolDelta)
    requires CR.ToolStep(s, d).err.None?
    ensures var t := CR.ToolStep(s, d).core;
            && d.index >= 0 && d.index in t.calls
            && t == s.(started := true, callIds := t.callIds, calls := s.calls[d.index := t.calls[d.index]], nextItemIndex := t.nextItemIndex)
  {
    hide CR.Register, CR.Announce, CR.Argue, CR.StartEvents;
    var a := CR.Begin(s).core;
    var b := CR.Register(a, d).core;
    RegisterShape(a, d);
    AnnounceShape(b, d);
    ArgueShape(CR.Announce(b, d).core, d);
  }

  lemma RegisterShape(s: CR.State, d: ToolDelta)
    requires CR.Register(s, d).err.None?
    ensures var t := CR.Register(s, d).core;
            d.index in t.calls && t == s.(callIds := t.callIds, calls := s.calls[d.index := t.calls[d.index]], nextItemIndex := t.nextItemIndex)
  {
  }

  lemma AnnounceShape(s: CR.State, d: ToolDelta)
    requires d.index in s.calls
    ensures var t := CR.Announce(s, d).core;
            d.index in t.calls && t == s.(calls := s.calls[d.index := t.calls[d.index]])
  {
    hide Numbered;
  }

  lemma ArgueShape(s: CR.State, d: ToolDelta)
    requires d.index in s.calls
    ensures var t := CR.Argue(s, d).core;
            d.index in t.calls && t == s.(calls := s.calls[d.index := t.calls[d.index]])
  {
    var t := CR.Argue(s, d).core;
    if t == s {
      assert s.calls[d.index := s.calls[d.index]] == s.calls;
    } else {
      var c := s.calls[d.index].(arguments := s.calls[d.index].arguments + d.arguments);
      assert t == s.(calls := s.calls[d.index := c]);
    }
  }

  lemma ToolTracks(s: CR.State, m: Meaning, d: ToolDelta)
    requires Tracks(s, m) && CR.ToolStep(s, d).err.None?
    ensures Tracks(CR.ToolStep(s, d).core, AddTool(m, d))
  {
    hide CR.ToolStep;
    ToolShape(s, d);
  }

  lemma {:induction false} ToolsTrack(s: CR.State, m: Meaning, ds: seq<ToolDelta>)
    requires Tracks(s, m) && CR.ToolSteps(s, ds).err.None?
    ensures Tracks(CR.ToolSteps(s, ds).core, AddTools(m, ds))
    decreases |ds|
  {
    hide CR.ToolStep, Tracks, AddTool;
    if ds != [] {
      ToolTracks(s, m, ds[0]);
      ToolsTrack(CR.ToolStep(s, ds[0]).core, AddTool(m, ds[0]), ds[1..]);
    }
  }

  /** A first delta with id and name is announced at once. */
  lemma FirstDeltaStep(s: CR.State, d: ToolDelta)
    requires d.index !in s.calls && d.index >= 0 && (d.typ == "" || d.typ == "function") && d.id != "" && d.name != ""
    ensures var x := CR.ToolStep(s, d);
            x.err.None? <==> (d.id in s.callIds ==> s.callIds[d.id] == d.index)
    ensures var x := CR.ToolStep(s, d);
            x.err.None? ==> x.core.callIds == s.callIds[d.id := d.index] && x.core.calls == NewCall(s, d)
  {
    hide CR.Register, CR.Announce, CR.Argue, CR.StartEvents;
    var a := CR.Begin(s).core;
    FirstRegistered(a, d);
    if CR.Register(a, d).err.None? {
      var b := CR.Register(a, d).core;
      FirstAnnounced(b, d);
      FirstArgued(CR.Announce(b, d).core, d);
      ThreeUpdates(s.calls, d, s.nextItemIndex);
    }
  }

  lemma ThreeUpdates(calls: map<int, CR.CallState>, d: ToolDelta, index: int)
    ensures var c := CR.CallState("", "", "", index, false);
            var e := c.(emitted := true, id := d.id, name := d.name);
            calls[d.index := c][d.index := e][d.index := e.(arguments := "" + d.arguments)] == calls[d.index := CR.CallState(d.id, d.name, d.arguments, index, true)]
  {
    assert "" + d.arguments == d.arguments;
  }

  lemma FirstRegistered(s: CR.State, d: ToolDelta)
    requires d.index !in s.calls && d.id != "" && d.name != ""
    ensures var x := CR.Register(s, d);
            x.err.None? <==> (d.id in s.callIds ==> s.callIds[d.id] == d.index)
    ensures var x := CR.Register(s, d);
            x.err.None? ==> x.core.callIds == s.callIds[d.id := d.index] && x.core.calls == s.calls[d.index := CR.CallState("", "", "", s.nextItemIndex, false)]
  {
  }

  lemma FirstAnnounced(s: CR.State, d: ToolDelta)
    requires d.index in s.calls && !s.calls[d.index].emitted && d.id != ""
    ensures CR.Announce(s, d).core == s.(calls := s.calls[d.index := s.calls[d.index].(emitted := true, id := d.id, name := d.name)])
  {
    hide Numbered;
  }

  lemma FirstArgued(s: CR.State, d: ToolDelta)
    requires d.index in s.calls && s.calls[d.index].emitted && s.calls[d.index].arguments == ""
    ensures CR.Argue(s, d).err.None? && CR.Argue(s, d).core == s.(calls := s.calls[d.index := s.calls[d.index].(arguments := "" + d.arguments)])
  {
    assert "" + d.arguments == d.arguments;
    if d.arguments == "" {
      assert s.calls[d.index := s.calls[d.index].(arguments := "")] == s.calls;
    }
  }

  function NewCall(s: CR.State, d: ToolDelta): map<int, CR.CallState> {
    s.calls[d.index := CR.CallState(d.id, d.name, d.arguments, s.nextItemIndex, true)]
  }

  lemma NewIds(s: CR.State, t: CR.State, m: Meaning, d: ToolDelta)
    requires Ids(s, m) && d.index !in s.calls && d.index !in m.calls && (d.id !in s.callIds)
    requires t.callIds == s.callIds[d.id := d.index] && t.calls == NewCall(s, d)
    ensures Ids(t, AddTool(m, d))
  {
  }

  /** No other call has the id exactly when it is not registered. */
  lemma FreshId(s: CR.State, m: Meaning, id: string)
    requires Known(s, m)
    ensures id in s.callIds <==> exists i :: i in m.calls && m.calls[i].id == id
  {
    if id in s.callIds {
      var i := s.callIds[id];
      assert i in s.calls && s.calls[i].id == id;
      assert i in m.calls;
    }
    forall i | i in m.calls && m.calls[i].id == id ensures id in s.callIds {
      assert i in s.calls;
    }
  }

  lemma FirstDelta(s: CR.State, m: Meaning, d: ToolDelta)
    requires Known(s, m) && d.index !in s.calls
    ensures (CR.ToolStep(s, d).err.None? && AddTool(m, d).proper) <==> ToolOk(m, d)
    ensures ToolOk(m, d) ==> Ids(CR.ToolStep(s, d).core, AddTool(m, d))
  {
    if d.index >= 0 && (d.typ == "" || d.typ == "function") && d.id != "" && d.name != "" {
      hide CR.ToolStep;
      FirstDeltaStep(s, d);
      FreshId(s, m, d.id);
      if ToolOk(m, d) {
        NewIds(s, CR.ToolStep(s, d).core, m, d);
      } else {
        assert d.id in s.callIds;
        assert s.callIds[d.id] in s.calls;
      }
    } else {
      hide CR.Begin, CR.Register, CR.Announce, CR.Argue, Ids, Tracks;
      SameIndex(s, m, d.index);
    }
  }

  lemma SameIndex(s: CR.State, m: Meaning, index: int)
    requires Tracks(s, m)
    ensures index in s.calls <==> index in m.calls
  {
  }

  /** A later delta adds its arguments and, with an id, registers it again. */
  lemma LaterDeltaStep(s: CR.State, d: ToolDelta)
    requires d.index in s.calls && s.calls[d.index].emitted && d.index >= 0 && (d.typ == "" || d.typ == "function")
    ensures var x := CR.ToolStep(s, d);
            x.err.None? <==> d.id == "" || (d.id == s.calls[d.index].id && (d.id in s.callIds ==> s.callIds[d.id] == d.index))
    ensures var x := CR.ToolStep(s, d);
            x.err.None? ==> x.core.callIds == (if d.id != "" then s.callIds[d.id := d.index] else s.callIds) && x.core.calls == MoreArguments(s, d)
  {
    hide CR.Register, CR.Announce, CR.Argue, CR.StartEvents;
    var a := CR.Begin(s).core;
    LaterRegistered(a, d);
    if CR.Register(a, d).err.None? {
      var b := CR.Register(a, d).core;
      assert CR.Announce(b, d).core == b by { LaterAnnounced(b, d); }
      LaterArgued(b, d);
    }
  }

  function MoreArguments(s: CR.State, d: ToolDelta): map<int, CR.CallState>
    requires d.index in s.calls
  {
    s.calls[d.index := s.calls[d.index].(arguments := s.calls[d.index].arguments + d.arguments)]
  }

  lemma LaterRegistered(s: CR.State, d: ToolDelta)
    requires d.index in s.calls
    ensures var x := CR.Register(s, d);
            x.err.None? <==> d.id == "" || (d.id == s.calls[d.index].id && (d.id in s.callIds ==> s.callIds[d.id] == d.index))
    ensures var x := CR.Register(s, d);
            x.err.None? ==> x.core == s.(callIds := if d.id != "" then s.callIds[d.id := d.index] else s.callIds)
  {
  }

  lemma LaterAnnounced(s: CR.State, d: ToolDelta)
    requires d.index in s.calls && s.calls[d.index].emitted
    ensures CR.Announce(s, d).core == s
  {
    hide Numbered;
  }

  lemma LaterArgued(s: CR.State, d: ToolDelta)
    requires d.index in s.calls && s.calls[d.index].emitted
    ensures CR.Argue(s, d).err.None? && CR.Argue(s, d).core == s.(calls := MoreArguments(s, d))
  {
    var c := s.calls[d.index];
    if d.arguments == "" {
      assert c.arguments + d.arguments == c.arguments;
      assert MoreArguments(s, d) == s.calls;
    }
  }

  lemma SameCallIds(s: CR.State, t: CR.State, m: Meaning, d: ToolDelta)
    requires Ids(s, m) && d.index in s.calls && (d.id == "" || d.id == s.calls[d.index].id)
    requires t.callIds == (if d.id != "" then s.callIds[d.id := d.index] else s.callIds) && t.calls == MoreArguments(s, d)
    ensures Ids(t, AddTool(m, d))
  {
  }

  lemma LaterDelta(s: CR.State, m: Meaning, d: ToolDelta)
    requires Known(s, m) && d.index in s.calls
    ensures (CR.ToolStep(s, d).err.None? && AddTool(m, d).proper) <==> ToolOk(m, d)
    ensures ToolOk(m, d) ==> Ids(CR.ToolStep(s, d).core, AddTool(m, d))
  {
    assert s.calls[d.index].emitted && s.calls[d.index].id == m.calls[d.index].id;
    assert s.calls[d.index].id in s.callIds && s.callIds[s.calls[d.index].id] == d.index;
    if d.index >= 0 && (d.typ == "" || d.typ == "function") {
      hide CR.ToolStep, Tracks;
      LaterDeltaStep(s, d);
      if ToolOk(m, d) {
        SameCallIds(s, CR.ToolStep(s, d).core, m, d);
      }
    } else {
      hide CR.Begin, CR.Register, CR.Announce, CR.Argue, Ids, Tracks;
    }
  }

  lemma ToolAccepts(s: CR.State, m: Meaning, d: ToolDelta)
    requires Known(s, m)
    ensures (CR.ToolStep(s, d).err.None? && AddTool(m, d).proper) <==> ToolOk(m, d)
    ensures ToolOk(m, d) ==> Known(CR.ToolStep(s, d).core, AddTool(m, d))
  {
    hide CR.ToolStep, Tracks, Ids, ToolOk;
    if d.index in s.calls {
      LaterDelta(s, m, d);
    } else {
      FirstDelta(s, m, d);
    }
    if ToolOk(m, d) {
      ToolTracks(s, m, d);
    }
  }

  lemma {:induction false} ToolsAccept(s: CR.State, m: Meaning, ds: seq<ToolDelta>)
    requires Known(s, m)
    ensures (CR.ToolSteps(s, ds).err.None? && AddTools(m, ds).proper) <==> ToolsOk(m, ds)
    ensures ToolsOk(m, ds) ==> Known(CR.ToolSteps(s, ds).core, AddTools(m, ds))
    decreases |ds|
  {
    hide CR.ToolStep, Tracks, Ids, ToolOk, AddTool;
    if ds != [] {
      ToolAccepts(s, m, ds[0]);
      ProperStays(AddTool(m, ds[0]), ds[1..]);
      if ToolOk(m, ds[0]) {
        ToolsAccept(CR.ToolStep(s, ds[0]).core, AddTool(m, ds[0]), ds[1..]);
      }
    }
  }

  // --- Events ---

  lemma EndingExists(s: CR.State)
    ensures CR.Ending(s).Some? <==> s.finishReason in FINISHES
  {
  }

  lemma UsageTracks(us: seq<Usage>, u: Usage)
    ensures CR.ApplyUsage(Merged(us), u) == Merged(us + [u])
  {
    MergedMore(us, u);
  }

  lemma ContentTracks(s: CR.State, m: Meaning, c: Choice)
    requires Tracks(s, m)
    ensures var t := CR.ContentStep(s, c.delta.content).core.(finishReason := if c.finish != "" then c.finish else s.finishReason);
            Tracks(t, m.(text := m.text + c.delta.content, finish := if c.finish != "" then c.finish else m.finish))
  {
  }

  lemma ContentKeepsIds(s: CR.State, m: Meaning, c: Choice)
    requires Ids(s, m)
    ensures var t := CR.ContentStep(s, c.delta.content).core.(finishReason := if c.finish != "" then c.finish else s.finishReason);
            Ids(t, m.(text := m.text + c.delta.content, finish := if c.finish != "" then c.finish else m.finish))
  {
  }

  lemma ContentKeepsFinish(s: CR.State, content: string)
    ensures CR.ContentStep(s, content).core.finishReason == s.finishReason && CR.ContentStep(s, content).err.None?
  {
  }

  lemma ChoiceTracks(s: CR.State, m: Meaning, cs: seq<Choice>)
    requires Tracks(s, m) && cs != [] && CR.ChoiceStep(s, cs).err.None?
    ensures Tracks(CR.ChoiceStep(s, cs).core, AddChoice(m, cs[0]))
  {
    hide CR.ToolSteps, CR.ContentStep, Tracks, AddTools;
    var c := cs[0];
    ToolsTrack(s, m, c.delta.toolCalls);
    var t := CR.ToolSteps(s, c.delta.toolCalls).core;
    ContentTracks(t, AddTools(m, c.delta.toolCalls), c);
    ContentKeepsFinish(t, c.delta.content);
  }

  lemma ChoiceAccepts(s: CR.State, m: Meaning, cs: seq<Choice>)
    requires Known(s, m) && cs != []
    ensures (CR.ChoiceStep(s, cs).err.None? && AddChoice(m, cs[0]).proper) <==>
            |cs| == 1 && cs[0].index == 0 && cs[0].delta.known && ToolsOk(m, cs[0].delta.toolCalls)
    ensures CR.ChoiceStep(s, cs).err.None? && AddChoice(m, cs[0]).proper ==> Known(CR.ChoiceStep(s, cs).core, AddChoice(m, cs[0]))
  {
    hide CR.ToolSteps, CR.ContentStep, Tracks, AddTools, Ids, ToolsOk;
    var c := cs[0];
    ToolsAccept(s, m, c.delta.toolCalls);
    var t := CR.ToolSteps(s, c.delta.toolCalls).core;
    ContentKeepsFinish(t, c.delta.content);
    if CR.ChoiceStep(s, cs).err.None? && AddChoice(m, c).proper {
      ChoiceTracks(s, m, cs);
      ContentKeepsIds(t, AddTools(m, c.delta.toolCalls), c);
    }
  }

  lemma StepTracks(s: CR.State, m: Meaning, e: Event<ChatPayload>)
    requires Tracks(s, m) && !s.terminal && CR.Step(s, e).err.None?
    ensures Tracks(CR.Step(s, e).core, Understand(m, e))
  {
    hide CR.ChoiceStep, AddChoice, CR.ApplyUsage, Merged;
    if e.input.Payload? && e.input.p.choices != [] {
      ChoiceTracks(s, m, e.input.p.choices);
    } else if e.input.Payload? && e.input.p.usage.Counts? {
      UsageTracks(m.reports, e.input.p.usage.u);
    }
  }

  lemma SameIds(s: CR.State, m: Meaning, t: CR.State, n: Meaning)
    requires Ids(s, m) && t.calls == s.calls && t.callIds == s.callIds && n.calls == m.calls
    ensures Ids(t, n)
  {
  }

  lemma EndAccepts(s: CR.State)
    ensures CR.TerminalEvents(s).err.None? <==> s.finishReason in FINISHES
    ensures CR.TerminalEvents(s).core.calls == s.calls && CR.TerminalEvents(s).core.callIds == s.callIds
  {
    hide CR.Ending, CR.CallsDone, CR.MessageDone;
    EndingExists(s);
  }

  /** An event without choices. */
  lemma OtherAccepts(s: CR.State, m: Meaning, e: Event<ChatPayload>)
    requires Known(s, m) && !s.terminal && !(e.input.Payload? && e.input.p.choices != [])
    ensures (CR.Step(s, e).err.None? && Understand(m, e).proper) <==> EventOk(m, e)
    ensures EventOk(m, e) ==> Ids(CR.Step(s, e).core, Understand(m, e))
  {
    hide CR.ApplyUsage, Merged, Ids, CR.TerminalEvents;
    EndAccepts(s);
    if e.input.Payload? && e.input.p.usage.Counts? {
      EndAccepts(s.(usage := CR.ApplyUsage(s.usage, e.input.p.usage.u)));
    }
    if EventOk(m, e) {
      SameIds(s, m, CR.Step(s, e).core, Understand(m, e));
    }
  }

  lemma ChunkAccepts(s: CR.State, m: Meaning, e: Event<ChatPayload>)
    requires Known(s, m) && !s.terminal && e.input.Payload? && e.input.p.choices != []
    ensures (CR.Step(s, e).err.None? && Understand(m, e).proper) <==> EventOk(m, e)
    ensures EventOk(m, e) ==> Ids(CR.Step(s, e).core, Understand(m, e))
  {
    hide CR.ChoiceStep, AddChoice, Merged, Ids, ToolsOk;
    ChoiceAccepts(s, m, e.input.p.choices);
  }

  lemma StepAccepts(s: CR.State, m: Meaning, e: Event<ChatPayload>)
    requires Known(s, m) && !s.terminal
    ensures (CR.Step(s, e).err.None? && Understand(m, e).proper) <==> EventOk(m, e)
    ensures EventOk(m, e) ==> Known(CR.Step(s, e).core, Understand(m, e))
  {
    hide CR.Step, Understand, EventOk, Tracks, Ids;
    if e.input.Payload? && e.input.p.choices != [] {
      ChunkAccepts(s, m, e);
    } else {
      OtherAccepts(s, m, e);
    }
    if EventOk(m, e) {
      StepTracks(s, m, e);
    }
  }

  // --- Whole streams ---

  ghost predicate IsConverter(v: EventConverter<CR.State, ChatPayload, RPayload>) {
    v.step == CR.Step && v.resting == ((s: CR.State) => s.terminal || s.err.Some?)
  }

  lemma TracksFromStart(id: string)
    ensures Known(CR.Init(id), NOTHING)
  {
  }

  lemma {:induction false} RunTracks(v: EventConverter<CR.State, ChatPayload, RPayload>, s: CR.State, m: Meaning, es: seq<Event<ChatPayload>>)
    requires IsConverter(v) && Tracks(s, m) && RunEvents(v, s, es).err.None?
    ensures Tracks(RunEvents(v, s, es).core, UnderstandAll(m, es))
    decreases |es|
  {
    hide CR.Step, Understand;
    if es != [] {
      if s.terminal {
        EndStays(m, es);
        Rests(v, s, es);
      } else {
        StepTracks(s, m, es[0]);
        RunTracks(v, CR.Step(s, es[0]).core, Understand(m, es[0]), es[1..]);
      }
    }
  }

  lemma {:induction false} Rests<S, I, O>(v: EventConverter<S, I, O>, s: S, es: seq<Event<I>>)
    requires v.resting(s)
    ensures RunEvents(v, s, es) == Emit(s, [], None)
    decreases |es|
  {
    if es != [] {
      Rests(v, s, es[1..]);
    }
  }

  lemma {:induction false} RunAccepts(v: EventConverter<CR.State, ChatPayload, RPayload>, s: CR.State, m: Meaning, es: seq<Event<ChatPayload>>)
    requires IsConverter(v) && Known(s, m)
    ensures var x := RunEvents(v, s, es); (x.err.None? && x.core.terminal && UnderstandAll(m, es).proper) <==> StreamOk(m, es)
    ensures StreamOk(m, es) ==> Known(RunEvents(v, s, es).core, UnderstandAll(m, es))
    decreases |es|
  {
    hide CR.Step, Understand, EventOk, Ids;
    if es != [] {
      if s.terminal {
        EndStays(m, es);
        Rests(v, s, es);
      } else {
        StepAccepts(s, m, es[0]);
        var t, n := CR.Step(s, es[0]).core, Understand(m, es[0]);
        if EventOk(m, es[0]) {
          RunAccepts(v, t, n, es[1..]);
        } else if UnderstandAll(m, es).proper {
          StaysProper(n, es[1..]);
        }
      }
    }
  }

  /** Exactly the well-formed streams are accepted to their end with an id and a name at the first
      delta of each call, whether they carry text, calls or both. */
  lemma AcceptedExactly(chat: Codec<ChatPayload>, responses: Codec<RPayload>, id: string, es: seq<Event<ChatPayload>>)
    ensures var x := RunEvents(CR.Converter(chat, responses), CR.Init(id), es);
            (x.err.None? && x.core.terminal && UnderstandAll(NOTHING, es).proper) <==> StreamOk(NOTHING, es)
  {
    TracksFromStart(id);
    RunAccepts(CR.Converter(chat, responses), CR.Init(id), NOTHING, es);
  }

  // --- What the end says ---

  ghost predicate EndSays(out: seq<RPayload>, m: Meaning) {
    out != [] &&
    var end := out[|out| - 1];
    && end.typ == (if Completes(m.finish) then RCompleted else RIncomplete)
    && end.response.usage == CR.PrintedUsage(Merged(m.reports))
  }

  lemma TerminalSays(s: CR.State, m: Meaning)
    requires CR.TerminalEvents(s).err.None? && s.finishReason == m.finish && s.usage == Merged(m.reports)
    ensures CR.TerminalEvents(s).core.terminal && EndSays(CR.TerminalEvents(s).out, m)
  {
    hide CR.CallsDone, CR.MessageDone, CR.PrintedUsage, Merged;
  }

  lemma ToolKeepsLive(s: CR.State, ds: seq<ToolDelta>, content: string)
    ensures CR.ToolSteps(s, ds).core.terminal == s.terminal && CR.ContentStep(s, content).core.terminal == s.terminal
  {
  }

  lemma StepSays(s: CR.State, m: Meaning, e: Event<ChatPayload>)
    requires Tracks(s, m) && !s.terminal && CR.Step(s, e).err.None? && CR.Step(s, e).core.terminal
    ensures EndSays(CR.Step(s, e).out, Understand(m, e))
  {
    hide CR.ToolSteps, CR.ContentStep, CR.TerminalEvents, CR.ApplyUsage, Merged, EndSays, AddChoice;
    if e.input.DoneMark? {
      TerminalSays(s, m.(ended := true));
    } else if e.input.Payload? && e.input.p.choices != [] {
      var d := e.input.p.choices[0].delta;
      ToolKeepsLive(s, d.toolCalls, "");
      ToolKeepsLive(CR.ToolSteps(s, d.toolCalls).core, [], d.content);
    } else if e.input.Payload? && e.input.p.usage.Counts? {
      var u := e.input.p.usage.u;
      UsageTracks(m.reports, u);
      if m.finish != "" {
        TerminalSays(s.(usage := CR.ApplyUsage(s.usage, u)), Understand(m, e));
      }
    }
  }

  lemma {:induction false} RunSays(v: EventConverter<CR.State, ChatPayload, RPayload>, s: CR.State, m: Meaning, es: seq<Event<ChatPayload>>)
    requires IsConverter(v) && Tracks(s, m) && !s.terminal
    requires RunEvents(v, s, es).err.None? && RunEvents(v, s, es).core.terminal
    ensures EndSays(RunEvents(v, s, es).out, UnderstandAll(m, es))
    decreases |es|
  {
    hide CR.Step, Understand;
    var x := CR.Step(s, es[0]);
    StepTracks(s, m, es[0]);
    if x.core.terminal {
      StepSays(s, m, es[0]);
      Rests(v, x.core, es[1..]);
      EndStays(Understand(m, es[0]), es[1..]);
      assert x.out + [] == x.out;
    } else {
      RunSays(v, x.core, Understand(m, es[0]), es[1..]);
    }
  }

  /** Every stream that reaches its end closes with a completed or incomplete event, as its finish
      reason says, that carries all usage reports as one. */
  lemma LastEventSays(chat: Codec<ChatPayload>, responses: Codec<RPayload>, id: string, es: seq<Event<ChatPayload>>)
    requires var x := RunEvents(CR.Converter(chat, responses), CR.Init(id), es); x.err.None? && x.core.terminal
    ensures EndSays(RunEvents(CR.Converter(chat, responses), CR.Init(id), es).out, UnderstandAll(NOTHING, es))
  {
    TracksFromStart(id);
    RunSays(CR.Converter(chat, responses), CR.Init(id), NOTHING, es);
  }
}
