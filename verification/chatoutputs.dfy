/** What the Chat to Responses converter keeps over any chunks at all: item indices and call ids
    are not reused, and the final arguments of a call are the concatenation of its deltas. */
module ChatOutputs {
  import opened Wrappers
  import opened Framing
  import opened Frames
  import opened EventMachine
  import opened StreamEvents
  import opened ChatStreams
  import opened ChatToResponses
  import CA = ChatAcceptance

  // --- Reading the output ---

  /** The argument deltas emitted for an output index, concatenated. */
  function Deltas(out: seq<RPayload>, index: int): string {
    if out == [] then ""
    else (if out[0].typ == RArgsDelta && out[0].outputIndex == index then out[0].delta else "") + Deltas(out[1..], index)
  }

  lemma {:induction false} DeltasAppend(a: seq<RPayload>, b: seq<RPayload>, index: int)
    ensures Deltas(a + b, index) == Deltas(a, index) + Deltas(b, index)
  {
    if a == [] {
      assert a + b == b;
    } else {
      assert (a + b)[1..] == a[1..] + b;
      DeltasAppend(a[1..], b, index);
    }
  }

  lemma {:induction false} NoDeltas(out: seq<RPayload>, index: int)
    requires forall p :: p in out ==> p.typ != RArgsDelta || p.outputIndex != index
    ensures Deltas(out, index) == ""
  {
    if out != [] {
      NoDeltas(out[1..], index);
    }
  }

  /** The output indices of the items are pairwise distinct, and a call's done event carries exactly
      the concatenation of the argument deltas emitted for its index. */
  ghost predicate SoundOutput(out: seq<RPayload>) {
    && (forall i, j :: 0 <= i < j < |out| && out[i].typ == RItemAdded && out[j].typ == RItemAdded ==> out[i].outputIndex != out[j].outputIndex)
    && (forall i :: 0 <= i < |out| && out[i].typ == RArgsDone ==> out[i].text == Deltas(out, out[i].outputIndex))
  }

  // --- The state and what has been emitted so far ---

  ghost predicate DistinctSlots(s: State) {
    && 0 <= s.nextItemIndex
    && (forall i :: i in s.calls ==> 0 <= s.calls[i].itemIndex < s.nextItemIndex)
    && (forall i, j :: i in s.calls && j in s.calls && i != j ==> s.calls[i].itemIndex != s.calls[j].itemIndex)
    && (s.messageStarted ==> 0 <= s.messageItemIndex < s.nextItemIndex)
    && (forall i :: i in s.calls && s.messageStarted ==> s.calls[i].itemIndex != s.messageItemIndex)
  }

  ghost predicate RegisteredIds(s: State) {
    forall i :: i in s.calls && s.calls[i].id != "" ==> s.calls[i].id in s.callIds && s.callIds[s.calls[i].id] == i
  }

  /** The index of an announced call. */
  ghost predicate EmittedAt(s: State, index: int) {
    exists i :: i in s.calls && s.calls[i].emitted && s.calls[i].itemIndex == index
  }

  /** The indices that have been given to an announced item. */
  ghost predicate Given(s: State, index: int) {
    (s.messageStarted && index == s.messageItemIndex) || EmittedAt(s, index)
  }

  ghost predicate Accounted(s: State, out: seq<RPayload>) {
    && (forall i :: i in s.calls ==> s.calls[i].arguments == Deltas(out, s.calls[i].itemIndex))
    && (forall k :: k >= s.nextItemIndex ==> Deltas(out, k) == "")
    && (forall i :: 0 <= i < |out| && out[i].typ == RItemAdded ==> Given(s, out[i].outputIndex))
  }

  predicate EndsStream(p: RPayload) {
    p.typ == RCompleted || p.typ == RIncomplete
  }

  predicate SaysDone(p: RPayload) {
    p.typ == RArgsDone || p.typ == RTextDone || p.typ == RPartDone || p.typ == RItemDone
  }

  /** Before the end no done event has been emitted, nor the last one. */
  ghost predicate Live(s: State, out: seq<RPayload>) {
    && DistinctSlots(s) && RegisteredIds(s) && Accounted(s, out) && SoundOutput(out)
    && (forall i :: 0 <= i < |out| ==> !SaysDone(out[i]) && !EndsStream(out[i]))
  }

  ghost predicate Quiet(p: RPayload) {
    p.typ != RItemAdded && p.typ != RArgsDelta && !SaysDone(p) && !EndsStream(p)
  }

  lemma QuietKeepsLive(s: State, t: State, out: seq<RPayload>, more: seq<RPayload>)
    requires Live(s, out) && (forall p :: p in more ==> Quiet(p))
    requires t.calls == s.calls && t.callIds == s.callIds && t.nextItemIndex == s.nextItemIndex
    requires t.messageStarted == s.messageStarted && t.messageItemIndex == s.messageItemIndex
    ensures Live(t, out + more)
  {
    var all := out + more;
    forall k ensures Deltas(all, k) == Deltas(out, k) {
      DeltasAppend(out, more, k);
      NoDeltas(more, k);
    }
    forall i | 0 <= i < |all| ensures i < |out| || Quiet(all[i]) {
      if i >= |out| {
        assert all[i] in more;
      }
    }
    forall i | 0 <= i < |all| && all[i].typ == RItemAdded ensures Given(t, all[i].outputIndex) {
      assert Given(s, out[i].outputIndex);
    }
  }

  lemma BeginKeepsLive(s: State, out: seq<RPayload>)
    requires Live(s, out)
    ensures Live(Begin(s).core, out + Begin(s).out)
  {
    QuietKeepsLive(s, Begin(s).core, out, Begin(s).out);
  }

  /** Announced calls stay announced. */
  lemma GivenStays(s: State, t: State)
    requires t.messageStarted == s.messageStarted && t.messageItemIndex == s.messageItemIndex
    requires forall i :: i in s.calls && s.calls[i].emitted ==> i in t.calls && t.calls[i].emitted && t.calls[i].itemIndex == s.calls[i].itemIndex
    ensures forall k :: Given(s, k) ==> Given(t, k)
  {
    forall k | Given(s, k) ensures Given(t, k) {
      if !(s.messageStarted && k == s.messageItemIndex) {
        var i :| i in s.calls && s.calls[i].emitted && s.calls[i].itemIndex == k;
        assert i in t.calls && t.calls[i].emitted;
      }
    }
  }

  /** A new call takes the next index. */
  lemma NewSlotKeepsLive(s: State, t: State, index: int, out: seq<RPayload>)
    requires Live(s, out) && index !in s.calls
    requires t == s.(callIds := t.callIds, calls := s.calls[index := CallState("", "", "", s.nextItemIndex, false)], nextItemIndex := s.nextItemIndex + 1)
    requires RegisteredIds(s.(callIds := t.callIds))
    ensures Live(t, out)
  {
    hide Deltas, Given, SoundOutput;
    GivenStays(s, t);
    assert forall i :: i in t.calls && i != index ==> i in s.calls && t.calls[i] == s.calls[i];
    assert t.calls[index].itemIndex == s.nextItemIndex;
    assert DistinctSlots(t) by {
      hide RegisteredIds, Accounted;
    }
    assert RegisteredIds(t) by {
      hide DistinctSlots, Accounted;
    }
  }

  lemma RegisterShape(s: State, d: ToolDelta)
    requires Register(s, d).err.None?
    ensures var t := Register(s, d).core;
            t == if d.index in s.calls then s.(callIds := t.callIds)
                 else s.(callIds := t.callIds, calls := s.calls[d.index := CallState("", "", "", s.nextItemIndex, false)], nextItemIndex := s.nextItemIndex + 1)
  {
  }

  lemma RegisterIds(s: State, d: ToolDelta)
    requires RegisteredIds(s) && Register(s, d).err.None?
    ensures RegisteredIds(s.(callIds := Register(s, d).core.callIds))
  {
  }

  lemma RegisterKeepsLive(s: State, d: ToolDelta, out: seq<RPayload>)
    requires Live(s, out) && Register(s, d).err.None?
    ensures Live(Register(s, d).core, out)
  {
    hide Register, Deltas, Given, SoundOutput, DistinctSlots, RegisteredIds;
    var t := Register(s, d).core;
    RegisterShape(s, d);
    RegisterIds(s, d);
    if d.index in s.calls {
      GivenStays(s, t);
      SameSlots(s, t);
    } else {
      NewSlotKeepsLive(s, t, d.index, out);
    }
  }

  lemma SameSlots(s: State, t: State)
    requires DistinctSlots(s) && t == s.(callIds := t.callIds)
    ensures DistinctSlots(t)
  {
  }

  /** An item is announced at an index that no announced item has. */
  lemma AnnouncementKeepsLive(s: State, t: State, out: seq<RPayload>, p: RPayload)
    requires Live(s, out) && p.typ == RItemAdded && !Given(s, p.outputIndex)
    requires DistinctSlots(t) && RegisteredIds(t) && t.nextItemIndex >= s.nextItemIndex
    requires forall k :: Given(t, k) <==> Given(s, k) || k == p.outputIndex
    requires forall i :: i in t.calls ==> i in s.calls && t.calls[i].itemIndex == s.calls[i].itemIndex && t.calls[i].arguments == s.calls[i].arguments
    ensures Live(t, out + [p])
  {
    hide *;
    LiveParts(s, out);
    forall k ensures Deltas(out + [p], k) == Deltas(out, k) {
      DeltasAppend(out, [p], k);
      NoDeltas([p], k);
      assert Deltas(out, k) + "" == Deltas(out, k);
    }
    AnnouncementAccounts(s, t, out, p);
    AnnouncementIsSound(s, out, p);
    LiveFrom(t, out, p);
  }

  lemma LiveParts(s: State, out: seq<RPayload>)
    requires Live(s, out)
    ensures Accounted(s, out) && SoundOutput(out) && forall i :: 0 <= i < |out| ==> !SaysDone(out[i]) && !EndsStream(out[i])
  {
  }

  lemma LiveFrom(t: State, out: seq<RPayload>, p: RPayload)
    requires DistinctSlots(t) && RegisteredIds(t) && Accounted(t, out + [p]) && SoundOutput(out + [p]) && p.typ == RItemAdded
    requires forall i :: 0 <= i < |out| ==> !SaysDone(out[i]) && !EndsStream(out[i])
    ensures Live(t, out + [p])
  {
    hide DistinctSlots, RegisteredIds, Accounted, SoundOutput;
  }

  lemma AnnouncementAccounts(s: State, t: State, out: seq<RPayload>, p: RPayload)
    requires Accounted(s, out) && p.typ == RItemAdded && t.nextItemIndex >= s.nextItemIndex
    requires forall k :: Given(t, k) <==> Given(s, k) || k == p.outputIndex
    requires forall i :: i in t.calls ==> i in s.calls && t.calls[i].itemIndex == s.calls[i].itemIndex && t.calls[i].arguments == s.calls[i].arguments
    requires forall k :: Deltas(out + [p], k) == Deltas(out, k)
    ensures Accounted(t, out + [p])
  {
    hide Given, Deltas;
  }

  lemma AnnouncementIsSound(s: State, out: seq<RPayload>, p: RPayload)
    requires Accounted(s, out) && SoundOutput(out) && p.typ == RItemAdded && !Given(s, p.outputIndex)
    requires forall k :: Deltas(out + [p], k) == Deltas(out, k)
    ensures SoundOutput(out + [p])
  {
    hide Given, Deltas;
  }

  lemma AnnouncedSlots(s: State, t: State, index: int, id: string, name: string)
    requires DistinctSlots(s) && RegisteredIds(s) && index in s.calls && !s.calls[index].emitted
    requires t == s.(calls := s.calls[index := s.calls[index].(emitted := true, id := id, name := name)])
    requires id != "" ==> id in s.callIds && s.callIds[id] == index
    ensures DistinctSlots(t) && RegisteredIds(t) && !Given(s, s.calls[index].itemIndex)
    ensures forall n :: Given(t, n) <==> Given(s, n) || n == s.calls[index].itemIndex
  {
    assert t.calls[index].emitted;
    forall n ensures EmittedAt(t, n) <==> EmittedAt(s, n) || n == s.calls[index].itemIndex {
      if EmittedAt(s, n) {
        var i :| i in s.calls && s.calls[i].emitted && s.calls[i].itemIndex == n;
        assert i in t.calls && t.calls[i] == s.calls[i];
      }
    }
  }

  lemma AnnounceKeepsLive(s: State, d: ToolDelta, out: seq<RPayload>)
    requires Live(s, out) && d.index in s.calls
    requires d.id != "" ==> d.id in s.callIds && s.callIds[d.id] == d.index
    ensures var x := Announce(s, d); Live(x.core, out + x.out)
  {
    hide DistinctSlots, RegisteredIds, Accounted, SoundOutput, Given, Numbered;
    var x := Announce(s, d);
    if x.out == [] {
      assert out + [] == out;
    } else {
      AnnouncedSlots(s, x.core, d.index, d.id, d.name);
      assert x.out == [x.out[0]];
      AnnouncementKeepsLive(s, x.core, out, x.out[0]);
    }
  }

  lemma ArguedSlots(s: State, t: State, index: int, arguments: string)
    requires DistinctSlots(s) && RegisteredIds(s) && index in s.calls
    requires t == s.(calls := s.calls[index := s.calls[index].(arguments := arguments)])
    ensures DistinctSlots(t) && RegisteredIds(t)
  {
  }

  lemma ArguedAccounts(s: State, t: State, index: int, out: seq<RPayload>, p: RPayload)
    requires DistinctSlots(s) && Accounted(s, out) && index in s.calls && p.typ == RArgsDelta && p.outputIndex == s.calls[index].itemIndex
    requires t == s.(calls := s.calls[index := s.calls[index].(arguments := s.calls[index].arguments + p.delta)])
    ensures Accounted(t, out + [p])
  {
    hide Given, Deltas;
    var all := out + [p];
    forall k ensures Deltas(all, k) == Deltas(out, k) + (if k == p.outputIndex then p.delta else "") {
      DeltasAppend(out, [p], k);
      OneDelta(p, k);
    }
    GivenStays(s, t);
  }

  lemma ArgueKeepsLive(s: State, d: ToolDelta, out: seq<RPayload>)
    requires Live(s, out) && d.index in s.calls && Argue(s, d).err.None?
    ensures var x := Argue(s, d); Live(x.core, out + x.out)
  {
    hide DistinctSlots, RegisteredIds, Accounted, SoundOutput;
    var x := Argue(s, d);
    if x.out == [] {
      assert out + [] == out;
    } else {
      var p := x.out[0];
      ArguedSlots(s, x.core, d.index, s.calls[d.index].arguments + d.arguments);
      ArguedAccounts(s, x.core, d.index, out, p);
      SoundWithDelta(out, p);
    }
  }

  lemma OneDelta(p: RPayload, k: int)
    requires p.typ == RArgsDelta
    ensures Deltas([p], k) == if k == p.outputIndex then p.delta else ""
  {
    assert Deltas([p][1..], k) == "";
  }

  lemma SoundWithDelta(out: seq<RPayload>, p: RPayload)
    requires SoundOutput(out) && p.typ == RArgsDelta && forall i :: 0 <= i < |out| ==> out[i].typ != RArgsDone
    ensures SoundOutput(out + [p])
  {
  }

  lemma ToolStepKeepsLive(s: State, d: ToolDelta, out: seq<RPayload>)
    requires Live(s, out) && ToolStep(s, d).err.None?
    ensures var x := ToolStep(s, d); Live(x.core, out + x.out)
  {
    hide Live, Begin, Register, Announce, Argue;
    var a := Begin(s);
    var b := Register(a.core, d);
    BeginKeepsLive(s, out);
    RegisterKeepsLive(a.core, d, out + a.out);
    RegisterRegisters(a.core, d);
    AnnounceKeepsLive(b.core, d, out + a.out);
    var c := Announce(b.core, d);
    ArgueKeepsLive(c.core, d, out + a.out + c.out);
    var e := Argue(c.core, d);
    assert out + (a.out + c.out + e.out) == out + a.out + c.out + e.out;
  }

  lemma RegisterRegisters(s: State, d: ToolDelta)
    requires Register(s, d).err.None?
    ensures var t := Register(s, d).core;
            d.index in t.calls && (d.id != "" ==> d.id in t.callIds && t.callIds[d.id] == d.index)
  {
  }

  lemma {:induction false} ToolStepsKeepLive(s: State, ds: seq<ToolDelta>, out: seq<RPayload>)
    requires Live(s, out) && ToolSteps(s, ds).err.None?
    ensures var x := ToolSteps(s, ds); Live(x.core, out + x.out)
    decreases |ds|
  {
    hide Live, ToolStep;
    if ds == [] {
      assert out + [] == out;
    } else {
      var x := ToolStep(s, ds[0]);
      ToolStepKeepsLive(s, ds[0], out);
      ToolStepsKeepLive(x.core, ds[1..], out + x.out);
      assert out + (x.out + ToolSteps(x.core, ds[1..]).out) == out + x.out + ToolSteps(x.core, ds[1..]).out;
    }
  }

  /** The first text opens the output and announces the message. */
  lemma OpeningKeepsLive(s: State, t: State, out: seq<RPayload>, text: RPayload)
    requires Live(s, out) && !s.messageStarted && text.typ == RTextDelta
    requires t == s.(messageStarted := true, messageItemIndex := s.nextItemIndex, nextItemIndex := s.nextItemIndex + 1)
    ensures Live(t, out + (StartEvents(t) + MessageSetup(t.messageItemIndex) + [text]))
  {
    hide Live;
    var start, setup := StartEvents(t), MessageSetup(t.messageItemIndex);
    QuietKeepsLive(s, s, out, start);
    MessageIsGiven(s, t, out + start, setup[0]);
    QuietKeepsLive(t, t, out + start + [setup[0]], [setup[1], text]);
    assert out + (start + setup + [text]) == out + start + [setup[0]] + [setup[1], text];
  }

  lemma MessageIsGiven(s: State, t: State, out: seq<RPayload>, p: RPayload)
    requires Live(s, out) && !s.messageStarted && p.typ == RItemAdded && p.outputIndex == s.nextItemIndex
    requires t == s.(messageStarted := true, messageItemIndex := s.nextItemIndex, nextItemIndex := s.nextItemIndex + 1)
    ensures Live(t, out + [p])
  {
    hide SoundOutput, Accounted;
    forall n ensures Given(t, n) <==> Given(s, n) || n == t.messageItemIndex {
      assert EmittedAt(t, n) <==> EmittedAt(s, n);
    }
    AnnouncementKeepsLive(s, t, out, p);
  }

  lemma ContentKeepsLive(s: State, content: string, out: seq<RPayload>)
    requires Live(s, out)
    ensures var x := ContentStep(s, content); Live(x.core, out + x.out)
  {
    hide Live, StartEvents, MessageSetup;
    var x := ContentStep(s, content);
    var t := x.core;
    if content == "" {
      assert out + [] == out;
    } else if s.messageStarted {
      assert x.out == [Bare(RTextDelta).(outputIndex := t.messageItemIndex, delta := content)];
      QuietKeepsLive(s, t, out, x.out);
    } else {
      OpeningKeepsLive(s, t, out, Bare(RTextDelta).(outputIndex := t.messageItemIndex, delta := content));
    }
  }

  // --- The end ---

  lemma {:induction false} CallsDoneCarry(s: State, i: nat, p: RPayload)
    requires p in CallsDone(s, i)
    ensures p.typ == RItemDone || p.typ == RArgsDone
    ensures p.typ == RArgsDone ==> exists j :: i <= j < |s.calls| && j in s.calls && p.outputIndex == s.calls[j].itemIndex && p.text == s.calls[j].arguments
    ensures exists j :: i <= j < |s.calls| && j in s.calls && p.outputIndex == s.calls[j].itemIndex
    decreases |s.calls| - i
  {
    if i < |s.calls| && !(i in s.calls && p in CallDone(s.calls[i])) {
      CallsDoneCarry(s, i + 1, p);
    }
  }

  /** The end announces nothing, and its done events carry the arguments of the calls. */
  lemma EndCarries(s: State, p: RPayload)
    requires p in TerminalEvents(s).out
    ensures p.typ != RItemAdded && p.typ != RArgsDelta
    ensures p.typ == RArgsDone ==> exists j :: j in s.calls && p.outputIndex == s.calls[j].itemIndex && p.text == s.calls[j].arguments
  {
    if p in CallsDone(s, 0) {
      CallsDoneCarry(s, 0, p);
    }
  }

  lemma EndKeepsSound(s: State, out: seq<RPayload>)
    requires Live(s, out) && Ending(s).Some?
    ensures SoundOutput(out + TerminalEvents(s).out)
  {
    hide DistinctSlots, RegisteredIds, TerminalEvents, Ending, Given;
    var more := TerminalEvents(s).out;
    var all := out + more;
    forall p | p in more
      ensures p.typ != RItemAdded && p.typ != RArgsDelta
      ensures p.typ == RArgsDone ==> p.text == Deltas(out, p.outputIndex)
    {
      EndCarries(s, p);
    }
    forall k ensures Deltas(all, k) == Deltas(out, k) {
      DeltasAppend(out, more, k);
      NoDeltas(more, k);
    }
    hide Deltas;
    forall i | 0 <= i < |all| ensures i < |out| || all[i] in more {
    }
  }

  /** What a state promises once the stream is over, or while it is live. */
  ghost predicate Held(s: State, out: seq<RPayload>) {
    DistinctSlots(s) && RegisteredIds(s) && SoundOutput(out) && (s.terminal || Live(s, out))
  }

  lemma ChoiceHolds(s: State, choices: seq<Choice>, out: seq<RPayload>)
    requires Live(s, out) && choices != []
    ensures var x := ChoiceStep(s, choices); x.err.None? ==> Held(x.core, out + x.out)
  {
    hide Live, SoundOutput, ContentStep, ToolSteps;
    var x := ChoiceStep(s, choices);
    if x.err.None? {
      var y := ToolSteps(s, choices[0].delta.toolCalls);
      ToolStepsKeepLive(s, choices[0].delta.toolCalls, out);
      var z := ContentStep(y.core, choices[0].delta.content);
      ContentKeepsLive(y.core, choices[0].delta.content, out + y.out);
      assert out + (y.out + z.out) == out + y.out + z.out;
      WithFinish(z.core, x.core, out + y.out + z.out);
    }
  }

  lemma StepHolds(s: State, e: Event<ChatPayload>, out: seq<RPayload>)
    requires Live(s, out)
    ensures var x := Step(s, e); x.err.None? ==> Held(x.core, out + x.out)
  {
    hide Live, SoundOutput, ContentStep, ToolSteps, TerminalEvents;
    var x := Step(s, e);
    LiveHolds(s, out);
    assert out + [] == out;
    if x.err.None? && e.input.Payload? {
      var p := e.input.p;
      if p.choices != [] {
        ChoiceHolds(s, p.choices, out);
      } else if p.usage.Counts? {
        var t := s.(usage := ChatToResponses.ApplyUsage(s.usage, p.usage.u));
        WithFinish(s, t, out);
        if t.finishReason != "" {
          EndHolds(t, out);
        }
      }
    } else if x.err.None? && e.input.DoneMark? {
      EndHolds(s, out);
    }
  }

  lemma LiveHolds(s: State, out: seq<RPayload>)
    requires Live(s, out)
    ensures Held(s, out)
  {
  }

  lemma WithFinish(s: State, t: State, out: seq<RPayload>)
    requires Live(s, out)
    requires t.calls == s.calls && t.callIds == s.callIds && t.nextItemIndex == s.nextItemIndex
    requires t.messageStarted == s.messageStarted && t.messageItemIndex == s.messageItemIndex
    ensures Live(t, out) && Held(t, out)
  {
    QuietKeepsLive(s, t, out, []);
    assert out + [] == out;
  }

  lemma EndHolds(s: State, out: seq<RPayload>)
    requires Live(s, out)
    ensures var x := TerminalEvents(s); x.err.None? ==> Held(x.core, out + x.out)
  {
    if Ending(s).Some? {
      EndKeepsSound(s, out);
    }
  }

  lemma {:induction false} RunHolds(v: EventConverter<State, ChatPayload, RPayload>, s: State, es: seq<Event<ChatPayload>>, out: seq<RPayload>)
    requires v.step == Step && v.resting == ((s: State) => s.terminal || s.err.Some?)
    requires Held(s, out)
    ensures var x := RunEvents(v, s, es); SoundOutput(out + x.out) && (x.err.None? ==> Held(x.core, out + x.out))
    decreases |es|
  {
    hide Step, Live, SoundOutput;
    assert out + [] == out;
    if es != [] {
      var x := React(v, s, es[0]);
      if !v.resting(s) {
        StepHolds(s, es[0], out);
      }
      if x.err.None? {
        RunHolds(v, x.core, es[1..], out + x.out);
        assert out + (x.out + RunEvents(v, x.core, es[1..]).out) == out + x.out + RunEvents(v, x.core, es[1..]).out;
      }
    }
  }

  /** Distinct indices below the next one for the message and the calls, and no shared call id. */
  ghost predicate SoundState(s: State) {
    DistinctSlots(s) && forall i, j :: i in s.calls && j in s.calls && i != j && s.calls[i].id != "" ==> s.calls[i].id != s.calls[j].id
  }

  /** For any events: distinct item indices and complete arguments in the output, and without an
      error a sound state. */
  lemma AnyChunksSound(chat: Codec<ChatPayload>, responses: Codec<RPayload>, id: string, es: seq<Event<ChatPayload>>)
    ensures var x := RunEvents(Converter(chat, responses), Init(id), es);
            SoundOutput(x.out) && (x.err.None? ==> SoundState(x.core))
  {
    var x := RunEvents(Converter(chat, responses), Init(id), es);
    StartsLive(id);
    LiveHolds(Init(id), []);
    RunHolds(Converter(chat, responses), Init(id), es, []);
    assert [] + x.out == x.out;
    hide Live, RunEvents, SoundOutput, Step;
  }

  /** The same for any bytes in any chunks. */
  lemma AnyBytesSound(chat: Codec<ChatPayload>, responses: Codec<RPayload>, id: string, chunks: seq<Bytes>) returns (out: seq<RPayload>)
    ensures var r := Convert(MachineOf(Converter(chat, responses)), Fresh(Init(id)), chunks);
            && r.out == PrintAll(p => ShowResponses(responses, p), out) && SoundOutput(out)
            && (r.err.None? ==> r.conv.core.terminal && SoundState(r.conv.core))
  {
    hide SoundOutput, SoundState;
    var v := Converter(chat, responses);
    var es := BytesAreEvents(v, Init(id), chunks);
    out := RunEvents(v, Init(id), es).out;
    AnyChunksSound(chat, responses, id, es);
  }

  // --- How often the opening events are printed ---

  function Created(out: seq<RPayload>): nat {
    if out == [] then 0 else (if out[0].typ == RCreated then 1 else 0) + Created(out[1..])
  }

  lemma {:induction false} CreatedAppend(a: seq<RPayload>, b: seq<RPayload>)
    ensures Created(a + b) == Created(a) + Created(b)
  {
    if a == [] {
      assert a + b == b;
    } else {
      assert (a + b)[1..] == a[1..] + b;
      CreatedAppend(a[1..], b);
    }
  }

  lemma {:induction false} NoneCreated(out: seq<RPayload>)
    requires forall p :: p in out ==> p.typ != RCreated
    ensures Created(out) == 0
  {
    if out != [] {
      NoneCreated(out[1..]);
    }
  }

  /** Tool calls and text each open the output for themselves. */
  function Openings(s: State): nat {
    (if s.started then 1 else 0) + (if s.messageStarted then 1 else 0)
  }

  lemma StartCreates(s: State, more: seq<RPayload>)
    requires forall p :: p in more ==> p.typ != RCreated
    ensures Created(StartEvents(s) + more) == 1
  {
    var e := StartEvents(s) + more;
    assert e[1..][1..] == more;
    NoneCreated(more);
  }

  lemma ToolCreates(s: State, d: ToolDelta)
    requires ToolStep(s, d).err.None?
    ensures var x := ToolStep(s, d); Created(x.out) + Openings(s) == Openings(x.core)
  {
    hide Register, Announce, Argue, StartEvents, Created;
    CA.ToolShape(s, d);
    var a := Begin(s);
    var b := Register(a.core, d);
    CallsCreateNothing(b.core, d);
    var c := Announce(b.core, d);
    CallsCreateNothing(c.core, d);
    var e := Argue(c.core, d);
    assert a.out + c.out + e.out == a.out + (c.out + e.out);
    if s.started {
      NoneCreated(a.out + c.out + e.out);
    } else {
      StartCreates(s, c.out + e.out);
    }
  }

  lemma CallsCreateNothing(s: State, d: ToolDelta)
    requires d.index in s.calls
    ensures forall p :: p in Announce(s, d).out || p in Argue(s, d).out ==> p.typ != RCreated
  {
    hide Numbered;
  }

  lemma {:induction false} ToolsCreate(s: State, ds: seq<ToolDelta>)
    requires ToolSteps(s, ds).err.None?
    ensures var x := ToolSteps(s, ds); Created(x.out) + Openings(s) == Openings(x.core)
    decreases |ds|
  {
    hide ToolStep, Openings;
    if ds != [] {
      var x := ToolStep(s, ds[0]);
      ToolCreates(s, ds[0]);
      ToolsCreate(x.core, ds[1..]);
      CreatedAppend(x.out, ToolSteps(x.core, ds[1..]).out);
    }
  }

  lemma ContentCreates(s: State, content: string)
    ensures var x := ContentStep(s, content); Created(x.out) + Openings(s) == Openings(x.core)
  {
    hide StartEvents;
    var x := ContentStep(s, content);
    var t := x.core;
    if content != "" && !s.messageStarted {
      var more := MessageSetup(t.messageItemIndex) + [Bare(RTextDelta).(outputIndex := t.messageItemIndex, delta := content)];
      StartCreates(t, more);
      assert x.out == StartEvents(t) + more;
    } else {
      NoneCreated(x.out);
    }
  }

  lemma EndCreatesNothing(s: State)
    ensures Created(TerminalEvents(s).out) == 0
  {
    forall p | p in TerminalEvents(s).out ensures p.typ != RCreated {
      if p in CallsDone(s, 0) {
        CallsDoneCarry(s, 0, p);
      }
    }
    NoneCreated(TerminalEvents(s).out);
  }

  lemma StepCreates(s: State, e: Event<ChatPayload>)
    requires Step(s, e).err.None?
    ensures var x := Step(s, e); Created(x.out) + Openings(s) == Openings(x.core)
  {
    hide ToolSteps, ContentStep, TerminalEvents, ChatToResponses.ApplyUsage;
    if e.input.DoneMark? {
      EndCreatesNothing(s);
      EndKeepsOpenings(s);
    } else if e.input.Payload? && e.input.p.choices != [] {
      var d := e.input.p.choices[0].delta;
      var x := ToolSteps(s, d.toolCalls);
      ToolsCreate(s, d.toolCalls);
      ContentCreates(x.core, d.content);
      CreatedAppend(x.out, ContentStep(x.core, d.content).out);
    } else if e.input.Payload? && e.input.p.usage.Counts? {
      var t := s.(usage := ChatToResponses.ApplyUsage(s.usage, e.input.p.usage.u));
      EndCreatesNothing(t);
      EndKeepsOpenings(t);
    }
  }

  lemma EndKeepsOpenings(s: State)
    ensures Openings(TerminalEvents(s).core) == Openings(s)
  {
    hide CallsDone, MessageDone;
  }

  lemma {:induction false} RunCreates(v: EventConverter<State, ChatPayload, RPayload>, s: State, es: seq<Event<ChatPayload>>)
    requires CA.IsConverter(v) && RunEvents(v, s, es).err.None?
    ensures var x := RunEvents(v, s, es); Created(x.out) + Openings(s) == Openings(x.core)
    decreases |es|
  {
    hide Step, Openings;
    if es != [] {
      var x := React(v, s, es[0]);
      if !v.resting(s) {
        StepCreates(s, es[0]);
      }
      RunCreates(v, x.core, es[1..]);
      CreatedAppend(x.out, RunEvents(v, x.core, es[1..]).out);
    }
  }

  /** For any events: `response.created` is printed once for the first tool delta and once for the
      first text among the events before an error, so it is printed at most once exactly when they
      do not bring both. */
  lemma OpeningsPrinted(chat: Codec<ChatPayload>, responses: Codec<RPayload>, id: string, es: seq<Event<ChatPayload>>) returns (n: nat)
    ensures n <= |es| && (n == |es| <==> RunEvents(Converter(chat, responses), Init(id), es).err.None?)
    ensures var m := UnderstandAll(NOTHING, es[..n]);
            var printed := Created(RunEvents(Converter(chat, responses), Init(id), es).out);
            && printed == (if m.order != [] then 1 else 0) + (if m.text != "" then 1 else 0)
            && (printed <= 1 <==> !(m.order != [] && m.text != ""))
  {
    var v := Converter(chat, responses);
    n := OutputBeforeError(v, Init(id), es);
    CA.TracksFromStart(id);
    CA.RunTracks(v, Init(id), NOTHING, es[..n]);
    RunCreates(v, Init(id), es[..n]);
  }

  function ChunkOf(delta: ChatDelta, finish: string): Event<ChatPayload> {
    Event("", Payload(ChatPayload("", "", [Choice(0, delta, finish)], NoUsage)))
  }

  /** Text and then a call. */
  function MixedStream(): seq<Event<ChatPayload>> {
    [ChunkOf(NO_DELTA.(content := "hi"), ""),
     ChunkOf(NO_DELTA.(toolCalls := [ToolDelta(0, "a", "function", "f", "{}")]), "tool_calls"),
     Event("", DoneMark)]
  }

  lemma MixedIsAccepted()
    ensures StreamOk(NOTHING, MixedStream()) && UnderstandAll(NOTHING, MixedStream()).order == [0] && UnderstandAll(NOTHING, MixedStream()).text == "hi"
  {
    var es := MixedStream();
    assert AddTools(NOTHING, []) == NOTHING;
    var m1 := Understand(NOTHING, es[0]);
    var d := ToolDelta(0, "a", "function", "f", "{}");
    assert AddTools(m1, [d]) == AddTool(m1, d);
    assert ToolsOk(AddTool(m1, d), [d][1..]) && ToolsOk(m1, [d]);
    var m2 := Understand(m1, es[1]);
    assert es[1..] == [es[1], es[2]] && es[1..][1..] == [es[2]];
    assert UnderstandAll(m2, [es[2]]) == Understand(m2, es[2]);
    assert StreamOk(m2, [es[2]]);
  }

  /** The converter accepts it and prints `response.created` twice. */
  lemma MixedOpensTwice(chat: Codec<ChatPayload>, responses: Codec<RPayload>, id: string)
    ensures var x := RunEvents(Converter(chat, responses), Init(id), MixedStream());
            x.err.None? && x.core.terminal && Created(x.out) == 2
  {
    hide RunEvents, UnderstandAll, StreamOk;
    MixedIsAccepted();
    CA.AcceptedExactly(chat, responses, id, MixedStream());
    var n := OpeningsPrinted(chat, responses, id, MixedStream());
    assert MixedStream()[..n] == MixedStream();
  }

  // --- Which calls are finished ---

  /** The stream's output holds the done events of the item at this index. */
  ghost predicate DoneFor(out: seq<RPayload>, index: int) {
    && (exists p :: p in out && p.typ == RArgsDone && p.outputIndex == index)
    && (exists p :: p in out && p.typ == RItemDone && p.outputIndex == index)
  }

  ghost predicate AnnouncedCall(out: seq<RPayload>, index: int) {
    exists p :: p in out && p.typ == RItemAdded && p.item.kind == KFunctionCall && p.outputIndex == index
  }

  lemma {:induction false} CallsDoneReach(s: State, i: nat, j: int)
    requires i <= j < |s.calls| && j in s.calls
    ensures forall p :: p in CallDone(s.calls[j]) ==> p in CallsDone(s, i)
    decreases |s.calls| - i
  {
    if i < j {
      CallsDoneReach(s, i + 1, j);
    }
  }

  /** The end visits the tool indices below the number of calls. */
  lemma EndFinishes(s: State, out: seq<RPayload>, j: int)
    requires Live(s, out) && Ending(s).Some? && j in s.calls && 0 <= j
    ensures DoneFor(out + TerminalEvents(s).out, s.calls[j].itemIndex) <==> j < |s.calls|
  {
    hide Accounted, SoundOutput, RegisteredIds;
    var k := s.calls[j].itemIndex;
    var more := TerminalEvents(s).out;
    if j < |s.calls| {
      CallsDoneReach(s, 0, j);
      var done := CallDone(s.calls[j]);
      assert done[0] in CallsDone(s, 0) && done[1] in CallsDone(s, 0);
      assert done[0] in more && done[1] in more;
      assert done[0] in out + more && done[1] in out + more;
    } else {
      forall p | p in out + more && p.typ == RArgsDone ensures p.outputIndex != k {
        assert p !in out;
        assert p in CallsDone(s, 0);
        CallsDoneCarry(s, 0, p);
      }
    }
  }

  /** The step that ends a stream. */
  lemma StepEnds(s: State, e: Event<ChatPayload>, out: seq<RPayload>) returns (t: State)
    requires Live(s, out) && !s.terminal && Step(s, e).err.None? && Step(s, e).core.terminal
    ensures Live(t, out) && Ending(t).Some? && Step(s, e) == TerminalEvents(t)
  {
    hide Live, ToolSteps, ContentStep, ChatToResponses.ApplyUsage, CallsDone, MessageDone;
    t := s;
    if e.input.Payload? && e.input.p.choices != [] {
      var d := e.input.p.choices[0].delta;
      CA.ToolKeepsLive(s, d.toolCalls, "");
      CA.ToolKeepsLive(ToolSteps(s, d.toolCalls).core, [], d.content);
    } else if e.input.Payload? && e.input.p.usage.Counts? {
      t := s.(usage := ChatToResponses.ApplyUsage(s.usage, e.input.p.usage.u));
      WithFinish(s, t, out);
    }
  }

  lemma {:induction false} RunEnds(v: EventConverter<State, ChatPayload, RPayload>, s: State, m: Meaning, es: seq<Event<ChatPayload>>, out: seq<RPayload>)
    returns (t: State, before: seq<RPayload>)
    requires CA.IsConverter(v) && Live(s, out) && CA.Tracks(s, m) && !s.terminal
    requires RunEvents(v, s, es).err.None? && RunEvents(v, s, es).core.terminal
    ensures Live(t, before) && Ending(t).Some? && out + RunEvents(v, s, es).out == before + TerminalEvents(t).out
    ensures RunEvents(v, s, es).core == t.(terminal := true)
    decreases |es|
  {
    hide Step, Live, TerminalEvents, Understand;
    var x := Step(s, es[0]);
    CA.StepTracks(s, m, es[0]);
    if x.core.terminal {
      t := StepEnds(s, es[0], out);
      before := out;
      CA.Rests(v, x.core, es[1..]);
      assert x.out + [] == x.out;
      EndState(t);
    } else {
      StepHolds(s, es[0], out);
      t, before := RunEnds(v, x.core, Understand(m, es[0]), es[1..], out + x.out);
      assert out + (x.out + RunEvents(v, x.core, es[1..]).out) == out + x.out + RunEvents(v, x.core, es[1..]).out;
    }
  }

  lemma EndState(t: State)
    requires Ending(t).Some?
    ensures TerminalEvents(t).core == t.(terminal := true) && TerminalEvents(t).err.None?
  {
    hide CallsDone, MessageDone;
  }

  lemma StartsLive(id: string)
    ensures Live(Init(id), [])
  {
  }

  lemma SameCount(s: State, m: Meaning)
    requires CA.Tracks(s, m)
    ensures s.calls.Keys == m.calls.Keys && |s.calls| == |m.calls|
  {
    assert forall i :: i in s.calls.Keys <==> i in m.calls.Keys;
    assert s.calls.Keys == m.calls.Keys;
    assert |s.calls| == |s.calls.Keys| && |m.calls| == |m.calls.Keys|;
  }

  /** On every stream that reaches its end: the call of a tool index is given its done events exactly
      when the index is below the number of tool indices seen. */
  lemma FinishedExactlyBelowCount(chat: Codec<ChatPayload>, responses: Codec<RPayload>, id: string, es: seq<Event<ChatPayload>>, j: int)
    requires var x := RunEvents(Converter(chat, responses), Init(id), es); x.err.None? && x.core.terminal && j in x.core.calls
    ensures var x := RunEvents(Converter(chat, responses), Init(id), es);
            var m := UnderstandAll(NOTHING, es);
            j in m.calls && (DoneFor(x.out, x.core.calls[j].itemIndex) <==> j < |m.calls|)
  {
    hide Live, DoneFor, TerminalEvents;
    var v := Converter(chat, responses);
    var x := RunEvents(v, Init(id), es);
    StartsLive(id);
    CA.TracksFromStart(id);
    CA.RunTracks(v, Init(id), NOTHING, es);
    SameCount(x.core, UnderstandAll(NOTHING, es));
    var t, before := RunEnds(v, Init(id), NOTHING, es, []);
    assert [] + x.out == x.out;
    EndFinishes(t, before, j);
  }

  // --- Announced calls ---

  /** The call items announced so far are those of the calls marked so. */
  ghost predicate Announcing(s: State, out: seq<RPayload>) {
    forall k :: AnnouncedCall(out, k) <==> EmittedAt(s, k)
  }

  lemma AnnouncedMore(a: seq<RPayload>, b: seq<RPayload>, k: int)
    ensures AnnouncedCall(a + b, k) <==> AnnouncedCall(a, k) || AnnouncedCall(b, k)
  {
    forall p | p in a || p in b ensures p in a + b {
    }
  }

  lemma SameAnnounced(s: State, t: State, out: seq<RPayload>, more: seq<RPayload>)
    requires Announcing(s, out) && (forall k :: !AnnouncedCall(more, k))
    requires forall i :: i in s.calls && s.calls[i].emitted ==> i in t.calls && t.calls[i].emitted && t.calls[i].itemIndex == s.calls[i].itemIndex
    requires forall i :: i in t.calls && t.calls[i].emitted ==> i in s.calls && s.calls[i].emitted
    ensures Announcing(t, out + more)
  {
    hide AnnouncedCall;
    forall k ensures AnnouncedCall(out + more, k) <==> AnnouncedCall(out, k) {
      AnnouncedMore(out, more, k);
    }
  }

  lemma RegisterAnnounces(s: State, d: ToolDelta, out: seq<RPayload>)
    requires Announcing(s, out) && Register(s, d).err.None?
    ensures Announcing(Register(s, d).core, out)
  {
    hide Register, AnnouncedCall;
    RegisterShape(s, d);
    NothingAnnounced([]);
    SameAnnounced(s, Register(s, d).core, out, []);
    assert out + [] == out;
  }

  lemma NothingAnnounced(more: seq<RPayload>)
    requires forall p :: p in more ==> p.typ != RItemAdded || p.item.kind != KFunctionCall
    ensures forall k :: !AnnouncedCall(more, k)
  {
  }

  lemma AnnounceAnnounces(s: State, d: ToolDelta, out: seq<RPayload>)
    requires Announcing(s, out) && d.index in s.calls
    ensures Announcing(Announce(s, d).core, out + Announce(s, d).out)
  {
    hide Numbered, AnnouncedCall;
    var x := Announce(s, d);
    if x.out == [] {
      assert out + [] == out;
    } else {
      var p := x.out[0];
      assert x.out == [p];
      forall k ensures AnnouncedCall(out + [p], k) <==> AnnouncedCall(out, k) || k == p.outputIndex {
        AnnouncedMore(out, [p], k);
        OneAnnounced(p, k);
      }
      forall k ensures EmittedAt(x.core, k) <==> EmittedAt(s, k) || k == p.outputIndex {
        assert x.core.calls[d.index].emitted && x.core.calls[d.index].itemIndex == p.outputIndex;
        if i :| i in s.calls && s.calls[i].emitted && s.calls[i].itemIndex == k {
          assert x.core.calls[i] == s.calls[i];
        }
      }
    }
  }

  lemma OneAnnounced(p: RPayload, k: int)
    requires p.typ == RItemAdded && p.item.kind == KFunctionCall
    ensures AnnouncedCall([p], k) <==> k == p.outputIndex
  {
    assert p in [p];
  }

  lemma ToolAnnounces(s: State, d: ToolDelta, out: seq<RPayload>)
    requires Announcing(s, out) && ToolStep(s, d).err.None?
    ensures Announcing(ToolStep(s, d).core, out + ToolStep(s, d).out)
  {
    hide Register, Announce, Announcing, StartEvents;
    var a := Begin(s);
    var b := Register(a.core, d);
    BeginAnnounces(s, out);
    RegisterAnnounces(a.core, d, out + a.out);
    var c := Announce(b.core, d);
    AnnounceAnnounces(b.core, d, out + a.out);
    var e := Argue(c.core, d);
    ArgueAnnounces(c.core, d, out + a.out + c.out);
    assert out + (a.out + c.out + e.out) == out + a.out + c.out + e.out;
  }

  lemma BeginAnnounces(s: State, out: seq<RPayload>)
    requires Announcing(s, out)
    ensures Announcing(Begin(s).core, out + Begin(s).out)
  {
    NothingAnnounced(Begin(s).out);
    SameAnnounced(s, Begin(s).core, out, Begin(s).out);
  }

  lemma ArgueAnnounces(s: State, d: ToolDelta, out: seq<RPayload>)
    requires Announcing(s, out) && d.index in s.calls && Argue(s, d).err.None?
    ensures Announcing(Argue(s, d).core, out + Argue(s, d).out)
  {
    hide Announcing, AnnouncedCall;
    var x := Argue(s, d);
    assert |x.out| <= 1 && (x.out != [] ==> x.out[0].typ == RArgsDelta);
    NothingAnnounced(x.out);
    CA.ArgueShape(s, d);
    assert x.core.calls[d.index].emitted == s.calls[d.index].emitted && x.core.calls[d.index].itemIndex == s.calls[d.index].itemIndex;
    hide Argue;
    SameAnnounced(s, x.core, out, x.out);
  }

  lemma {:induction false} ToolsAnnounce(s: State, ds: seq<ToolDelta>, out: seq<RPayload>)
    requires Announcing(s, out) && ToolSteps(s, ds).err.None?
    ensures Announcing(ToolSteps(s, ds).core, out + ToolSteps(s, ds).out)
    decreases |ds|
  {
    hide Announcing, ToolStep;
    if ds == [] {
      assert out + [] == out;
    } else {
      var x := ToolStep(s, ds[0]);
      ToolAnnounces(s, ds[0], out);
      ToolsAnnounce(x.core, ds[1..], out + x.out);
      assert out + (x.out + ToolSteps(x.core, ds[1..]).out) == out + x.out + ToolSteps(x.core, ds[1..]).out;
    }
  }

  lemma ContentHasNoCalls(s: State, content: string)
    ensures forall p :: p in ContentStep(s, content).out ==> p.item.kind != KFunctionCall
  {
  }

  lemma ContentAnnounces(s: State, content: string, out: seq<RPayload>)
    requires Announcing(s, out)
    ensures Announcing(ContentStep(s, content).core, out + ContentStep(s, content).out)
  {
    hide Announcing, StartEvents, MessageSetup, AnnouncedCall;
    ContentHasNoCalls(s, content);
    NothingAnnounced(ContentStep(s, content).out);
    SameAnnounced(s, ContentStep(s, content).core, out, ContentStep(s, content).out);
  }

  lemma EndAnnounces(s: State, out: seq<RPayload>)
    requires Announcing(s, out) && TerminalEvents(s).err.None?
    ensures Announcing(TerminalEvents(s).core, out + TerminalEvents(s).out)
  {
    hide Announcing;
    var more := TerminalEvents(s).out;
    forall p | p in more ensures p.typ != RItemAdded {
      if p in CallsDone(s, 0) {
        CallsDoneCarry(s, 0, p);
      }
    }
    NothingAnnounced(more);
    SameAnnounced(s, TerminalEvents(s).core, out, more);
  }

  lemma StepAnnounces(s: State, e: Event<ChatPayload>, out: seq<RPayload>)
    requires Announcing(s, out) && Step(s, e).err.None?
    ensures Announcing(Step(s, e).core, out + Step(s, e).out)
  {
    hide Announcing, ToolSteps, ContentStep, TerminalEvents, ChatToResponses.ApplyUsage;
    NothingAnnounced([]);
    if e.input.DoneMark? {
      EndAnnounces(s, out);
    } else if e.input.Payload? && e.input.p.choices != [] {
      var d := e.input.p.choices[0].delta;
      ToolsAnnounce(s, d.toolCalls, out);
      var x := ToolSteps(s, d.toolCalls);
      var y := ContentStep(x.core, d.content);
      ContentAnnounces(x.core, d.content, out + x.out);
      SameAnnounced(y.core, Step(s, e).core, out + x.out + y.out, []);
      assert out + (x.out + y.out) == out + x.out + y.out + [];
    } else if e.input.Payload? && e.input.p.usage.Counts? {
      var t := s.(usage := ChatToResponses.ApplyUsage(s.usage, e.input.p.usage.u));
      SameAnnounced(s, t, out, []);
      assert out + [] == out;
      if t.finishReason != "" {
        EndAnnounces(t, out);
      }
    } else {
      assert out + [] == out;
    }
  }

  lemma {:induction false} RunAnnounces(v: EventConverter<State, ChatPayload, RPayload>, s: State, es: seq<Event<ChatPayload>>, out: seq<RPayload>)
    requires CA.IsConverter(v) && Announcing(s, out) && RunEvents(v, s, es).err.None?
    ensures Announcing(RunEvents(v, s, es).core, out + RunEvents(v, s, es).out)
    decreases |es|
  {
    hide Step, Announcing;
    assert out + [] == out;
    if es != [] {
      var x := React(v, s, es[0]);
      if !v.resting(s) {
        StepAnnounces(s, es[0], out);
      }
      RunAnnounces(v, x.core, es[1..], out + x.out);
      assert out + (x.out + RunEvents(v, x.core, es[1..]).out) == out + x.out + RunEvents(v, x.core, es[1..]).out;
    }
  }

  ghost predicate AnnouncedMessage(out: seq<RPayload>) {
    exists p :: p in out && p.typ == RItemAdded && p.item.kind == KMessage
  }

  lemma {:induction false} ToolsLeaveMessage(s: State, ds: seq<ToolDelta>)
    requires ToolSteps(s, ds).err.None?
    ensures ToolSteps(s, ds).core.messageStarted == s.messageStarted
    decreases |ds|
  {
    if ds != [] {
      CA.ToolShape(s, ds[0]);
      hide ToolStep;
      ToolsLeaveMessage(ToolStep(s, ds[0]).core, ds[1..]);
    }
  }

  lemma ContentAnnouncesMessage(s: State, content: string)
    ensures var x := ContentStep(s, content); x.core.messageStarted ==> s.messageStarted || AnnouncedMessage(x.out)
  {
    hide StartEvents;
    var x := ContentStep(s, content);
    if x.core.messageStarted && !s.messageStarted {
      var setup := MessageSetup(x.core.messageItemIndex);
      assert setup[0] in setup && setup[0] in x.out;
    }
  }

  lemma StepAnnouncesMessage(s: State, e: Event<ChatPayload>)
    requires Step(s, e).err.None?
    ensures Step(s, e).core.messageStarted ==> s.messageStarted || AnnouncedMessage(Step(s, e).out)
  {
    hide ToolSteps, ContentStep, TerminalEvents, ChatToResponses.ApplyUsage;
    if e.input.Payload? && e.input.p.choices != [] {
      var d := e.input.p.choices[0].delta;
      ToolsLeaveMessage(s, d.toolCalls);
      ContentAnnouncesMessage(ToolSteps(s, d.toolCalls).core, d.content);
    } else if e.input.Payload? && e.input.p.usage.Counts? {
      EndLeavesMessage(s.(usage := ChatToResponses.ApplyUsage(s.usage, e.input.p.usage.u)));
    } else {
      EndLeavesMessage(s);
    }
  }

  lemma EndLeavesMessage(s: State)
    ensures TerminalEvents(s).core.messageStarted == s.messageStarted
  {
    hide CallsDone, MessageDone;
  }

  lemma {:induction false} RunAnnouncesMessage(v: EventConverter<State, ChatPayload, RPayload>, s: State, es: seq<Event<ChatPayload>>)
    requires CA.IsConverter(v) && RunEvents(v, s, es).err.None?
    ensures RunEvents(v, s, es).core.messageStarted ==> s.messageStarted || AnnouncedMessage(RunEvents(v, s, es).out)
    decreases |es|
  {
    hide Step;
    if es != [] {
      var x := React(v, s, es[0]);
      if !v.resting(s) {
        StepAnnouncesMessage(s, es[0]);
      }
      RunAnnouncesMessage(v, x.core, es[1..]);
      forall p | p in x.out || p in RunEvents(v, x.core, es[1..]).out ensures p in RunEvents(v, s, es).out {
      }
    }
  }

  // --- When all announced calls are finished ---

  ghost predicate AllFinished(out: seq<RPayload>) {
    forall k :: AnnouncedCall(out, k) ==> DoneFor(out, k)
  }

  function Range(n: nat): (r: set<int>)
    ensures |r| == n && forall i :: i in r <==> 0 <= i < n
  {
    if n == 0 then {} else Range(n - 1) + {n - 1}
  }

  lemma Pigeons(a: set<int>)
    ensures a == Range(|a|) <==> forall i :: i in a ==> 0 <= i < |a|
  {
    if forall i :: i in a ==> 0 <= i < |a| {
      var rest := Range(|a|) - a;
      assert Range(|a|) == a + rest;
      assert |a + rest| == |a| + |rest|;
      assert rest == {};
    }
  }

  /** On a well-formed stream every announced call is given its done events exactly when the tool
      indices seen are 0, 1, and so on without a gap. */
  lemma AllFinishedExactlyDense(chat: Codec<ChatPayload>, responses: Codec<RPayload>, id: string, es: seq<Event<ChatPayload>>)
    requires StreamOk(NOTHING, es)
    ensures var m := UnderstandAll(NOTHING, es);
            AllFinished(RunEvents(Converter(chat, responses), Init(id), es).out) <==> m.calls.Keys == Range(|m.calls|)
  {
    hide DoneFor, Announcing, StreamOk, UnderstandAll, AnnouncedCall;
    var v := Converter(chat, responses);
    var x, m := RunEvents(v, Init(id), es), UnderstandAll(NOTHING, es);
    CA.TracksFromStart(id);
    CA.RunAccepts(v, Init(id), NOTHING, es);
    StartsAnnouncing(id);
    RunAnnounces(v, Init(id), es, []);
    assert [] + x.out == x.out;
    SameCount(x.core, m);
    Pigeons(m.calls.Keys);
    forall j | j in x.core.calls
      ensures DoneFor(x.out, x.core.calls[j].itemIndex) <==> j < |m.calls|
      ensures AnnouncedCall(x.out, x.core.calls[j].itemIndex) && j >= 0
    {
      FinishedExactlyBelowCount(chat, responses, id, es, j);
      AnnouncedOnce(x.core, x.out, j);
    }
    forall k | AnnouncedCall(x.out, k) ensures exists j :: j in x.core.calls && x.core.calls[j].itemIndex == k {
      AnnouncedBy(x.core, x.out, k);
    }
  }

  lemma StartsAnnouncing(id: string)
    ensures Announcing(Init(id), [])
  {
  }

  lemma AnnouncedOnce(s: State, out: seq<RPayload>, j: int)
    requires Announcing(s, out) && j in s.calls && s.calls[j].emitted
    ensures AnnouncedCall(out, s.calls[j].itemIndex)
  {
  }

  lemma AnnouncedBy(s: State, out: seq<RPayload>, k: int)
    requires Announcing(s, out) && AnnouncedCall(out, k)
    ensures exists j :: j in s.calls && s.calls[j].itemIndex == k
  {
  }

  /** One call with index 1. */
  function SparseStream(): seq<Event<ChatPayload>> {
    [ChunkOf(NO_DELTA.(toolCalls := [ToolDelta(1, "a", "function", "f", "{}")]), "tool_calls"), Event("", DoneMark)]
  }

  lemma SparseIsAccepted()
    ensures StreamOk(NOTHING, SparseStream()) && UnderstandAll(NOTHING, SparseStream()).calls == map[1 := Call("a", "f", "{}")]
  {
    var es := SparseStream();
    var d := ToolDelta(1, "a", "function", "f", "{}");
    assert ToolsOk(AddTool(NOTHING, d), [d][1..]) && ToolsOk(NOTHING, [d]);
    var m1 := Understand(NOTHING, es[0]);
    assert es[1..] == [es[1]];
    assert UnderstandAll(m1, [es[1]]) == Understand(m1, es[1]);
    assert StreamOk(m1, [es[1]]);
  }

  /** The converter accepts it to its end, announces the call and never finishes it. */
  lemma SparseCallUnfinished(chat: Codec<ChatPayload>, responses: Codec<RPayload>, id: string)
    ensures var x := RunEvents(Converter(chat, responses), Init(id), SparseStream());
            x.err.None? && x.core.terminal && !AllFinished(x.out)
  {
    hide RunEvents, UnderstandAll, StreamOk, AllFinished;
    SparseIsAccepted();
    CA.AcceptedExactly(chat, responses, id, SparseStream());
    AllFinishedExactlyDense(chat, responses, id, SparseStream());
    var calls := map[1 := Call("a", "f", "{}")];
    assert calls.Keys == {1} && |calls| == |calls.Keys|;
    assert 1 !in Range(1);
  }

  // --- Text and calls together ---

  /** Everything but the last event, which ends the stream. */
  ghost predicate EndsWith(out: seq<RPayload>, body: seq<RPayload>) {
    out != [] && body == out[..|out| - 1] && EndsStream(out[|out| - 1]) && forall p :: p in body ==> !EndsStream(p)
  }

  lemma EndComesLast(s: State, before: seq<RPayload>)
    requires Live(s, before) && Ending(s).Some?
    ensures var out := before + TerminalEvents(s).out; out != [] && EndsWith(out, out[..|out| - 1])
  {
    hide DistinctSlots, RegisteredIds, Accounted, SoundOutput;
    var done := MessageDone(s) + CallsDone(s, 0);
    var out := before + TerminalEvents(s).out;
    assert out[..|out| - 1] == before + done;
    forall p | p in before + done ensures !EndsStream(p) {
      if p in CallsDone(s, 0) {
        CallsDoneCarry(s, 0, p);
      }
    }
  }

  /** A well-formed stream with text and calls announces a message and a call before the end. */
  lemma MixAnnouncesBoth(chat: Codec<ChatPayload>, responses: Codec<RPayload>, id: string, es: seq<Event<ChatPayload>>) returns (body: seq<RPayload>)
    requires StreamOk(NOTHING, es)
    ensures EndsWith(RunEvents(Converter(chat, responses), Init(id), es).out, body)
    ensures UnderstandAll(NOTHING, es).text != "" ==> AnnouncedMessage(body)
    ensures UnderstandAll(NOTHING, es).order != [] ==> exists k :: AnnouncedCall(body, k)
  {
    hide StreamOk, UnderstandAll, Live, TerminalEvents, RunEvents, EndsWith, CA.Known, CA.Tracks, AnnouncedMessage, AnnouncedCall;
    var v := Converter(chat, responses);
    var x, m := RunEvents(v, Init(id), es), UnderstandAll(NOTHING, es);
    CA.TracksFromStart(id);
    StartsLive(id);
    CA.AcceptedExactly(chat, responses, id, es);
    CA.RunAccepts(v, Init(id), NOTHING, es);
    Knows(x.core, m);
    Knows(Init(id), NOTHING);
    var t, before := RunEnds(v, Init(id), NOTHING, es, []);
    assert [] + x.out == x.out;
    EndComesLast(t, before);
    body := x.out[..|x.out| - 1];
    MessageInBody(v, id, es, body);
    CallInBody(v, id, es, body);
  }

  lemma Knows(s: State, m: Meaning)
    requires CA.Known(s, m)
    ensures CA.Tracks(s, m) && (m.text != "" ==> s.messageStarted)
  {
  }

  lemma MessageInBody(v: EventConverter<State, ChatPayload, RPayload>, id: string, es: seq<Event<ChatPayload>>, body: seq<RPayload>)
    requires CA.IsConverter(v) && RunEvents(v, Init(id), es).err.None? && EndsWith(RunEvents(v, Init(id), es).out, body)
    ensures RunEvents(v, Init(id), es).core.messageStarted ==> AnnouncedMessage(body)
  {
    hide RunEvents;
    var out := RunEvents(v, Init(id), es).out;
    RunAnnouncesMessage(v, Init(id), es);
    assert out == body + [out[|out| - 1]];
  }

  lemma CallInBody(v: EventConverter<State, ChatPayload, RPayload>, id: string, es: seq<Event<ChatPayload>>, body: seq<RPayload>)
    requires CA.IsConverter(v) && RunEvents(v, Init(id), es).err.None? && EndsWith(RunEvents(v, Init(id), es).out, body)
    requires CA.Known(RunEvents(v, Init(id), es).core, UnderstandAll(NOTHING, es))
    ensures UnderstandAll(NOTHING, es).order != [] ==> exists k :: AnnouncedCall(body, k)
  {
    hide Announcing, UnderstandAll, RunEvents, CA.Known;
    var x := RunEvents(v, Init(id), es);
    if UnderstandAll(NOTHING, es).order != [] {
      StartsAnnouncing(id);
      RunAnnounces(v, Init(id), es, []);
      assert [] + x.out == x.out;
      CallArrived(x.core, UnderstandAll(NOTHING, es));
      var j :| j in x.core.calls && x.core.calls[j].emitted;
      AnnouncedOnce(x.core, x.out, j);
      CallNotLast(x.out, body, x.core.calls[j].itemIndex);
    }
  }

  lemma CallNotLast(out: seq<RPayload>, body: seq<RPayload>, k: int)
    requires EndsWith(out, body) && AnnouncedCall(out, k)
    ensures AnnouncedCall(body, k)
  {
    assert out == body + [out[|out| - 1]];
  }

  lemma HasKey(calls: map<int, Call>)
    ensures calls == map[] || exists i :: i in calls
  {
    if forall i :: i !in calls {
      assert calls == map[];
    }
  }

  lemma CallArrived(s: State, m: Meaning)
    requires CA.Known(s, m) && m.order != []
    ensures exists j :: j in s.calls && s.calls[j].emitted
  {
    HasKey(m.calls);
    var i :| i in m.calls;
    assert i in s.calls;
  }

  // --- Done events, once each and in order ---

  /** From position `q` on stand the three done events of a message at this index, and nowhere else is
      the message, its part or its text done. */
  ghost predicate MessageDoneAt(out: seq<RPayload>, q: nat, index: int) {
    && q + 3 < |out|
    && out[q].typ == RTextDone && out[q].text == "" && out[q + 1].typ == RPartDone && out[q + 2].typ == RItemDone
    && (forall i :: q <= i < q + 3 ==> out[i].outputIndex == index)
    && (forall i :: 0 <= i < |out| && (out[i].typ == RTextDone || out[i].typ == RPartDone || (out[i].typ == RItemDone && out[i].outputIndex == index)) ==>
        q <= i < q + 3)
  }

  /** The same for the two done events of a call, the first with its arguments. */
  ghost predicate CallDoneAt(out: seq<RPayload>, q: nat, index: int) {
    && q + 2 < |out|
    && out[q].typ == RArgsDone && out[q + 1].typ == RItemDone && out[q].text == Deltas(out, index)
    && out[q].outputIndex == index && out[q + 1].outputIndex == index
    && (forall i :: 0 <= i < |out| && (out[i].typ == RArgsDone || out[i].typ == RItemDone) && out[i].outputIndex == index ==> q <= i < q + 2)
  }

  /** The done events of later tool indices are at other output indices. */
  lemma LaterCallsElsewhere(s: State, i: nat, j: int)
    requires DistinctSlots(s) && j in s.calls && j < i
    ensures forall p :: p in CallsDone(s, i) ==> p.outputIndex != s.calls[j].itemIndex
  {
    forall p | p in CallsDone(s, i) ensures p.outputIndex != s.calls[j].itemIndex {
      CallsDoneCarry(s, i, p);
    }
  }

  lemma CallsDoneNext(s: State, i: nat)
    requires i < |s.calls|
    ensures CallsDone(s, i) == (if i in s.calls then CallDone(s.calls[i]) else []) + CallsDone(s, i + 1)
  {
  }

  /** The two done events of a call among those of all calls. */
  ghost predicate CallAt(out: seq<RPayload>, q: nat, k: int) {
    && q + 2 <= |out| && out[q].typ == RArgsDone && out[q + 1].typ == RItemDone && out[q].outputIndex == k && out[q + 1].outputIndex == k
    && forall n :: 0 <= n < |out| && out[n].outputIndex == k ==> q <= n < q + 2
  }

  lemma CallFirst(c: CallState, rest: seq<RPayload>)
    requires forall p :: p in rest ==> p.outputIndex != c.itemIndex
    ensures CallAt(CallDone(c) + rest, 0, c.itemIndex)
  {
    var out := CallDone(c) + rest;
    forall n | 2 <= n < |out| ensures out[n].outputIndex != c.itemIndex {
      assert out[n] == rest[n - 2] && rest[n - 2] in rest;
    }
  }

  lemma CallAfter(c: CallState, rest: seq<RPayload>, q: nat, k: int)
    requires CallAt(rest, q, k) && c.itemIndex != k
    ensures CallAt(CallDone(c) + rest, q + 2, k)
  {
    var out := CallDone(c) + rest;
    assert forall n :: 2 <= n < |out| ==> out[n] == rest[n - 2];
  }

  lemma {:induction false} CallsDoneAt(s: State, i: nat, j: int) returns (q: nat)
    requires DistinctSlots(s) && i <= j < |s.calls| && j in s.calls
    ensures CallAt(CallsDone(s, i), q, s.calls[j].itemIndex)
    decreases |s.calls| - i
  {
    hide CallDone, CallsDone, CallAt;
    CallsDoneNext(s, i);
    if i == j {
      LaterCallsElsewhere(s, i + 1, j);
      CallFirst(s.calls[j], CallsDone(s, i + 1));
      q := 0;
    } else {
      q := CallsDoneAt(s, i + 1, j);
      if i in s.calls {
        CallAfter(s.calls[i], CallsDone(s, i + 1), q, s.calls[j].itemIndex);
        q := q + 2;
      } else {
        assert [] + CallsDone(s, i + 1) == CallsDone(s, i + 1);
      }
    }
  }

  /** Where the announced message is. */
  lemma MessageIndex(s: State, out: seq<RPayload>, p: RPayload)
    requires Live(s, out) && Announcing(s, out) && p in out && p.typ == RItemAdded && p.item.kind == KMessage
    ensures s.messageStarted && p.outputIndex == s.messageItemIndex
  {
    var i :| 0 <= i < |out| && out[i] == p;
    assert Given(s, p.outputIndex);
    forall q | q in out && q.typ == RItemAdded && q.item.kind == KFunctionCall ensures q.outputIndex != p.outputIndex {
      var j :| 0 <= j < |out| && out[j] == q;
      assert out[i] != out[j];
    }
    assert !AnnouncedCall(out, p.outputIndex);
  }

  /** The parts of the output of a stream that is over. */
  lemma EndParts(s: State, before: seq<RPayload>, i: nat)
    requires Live(s, before) && Ending(s).Some? && i < |before + TerminalEvents(s).out|
    ensures var out, head := before + TerminalEvents(s).out, |MessageDone(s)|;
            && |out| == |before| + head + |CallsDone(s, 0)| + 1
            && (i < |before| ==> !SaysDone(out[i]))
            && (|before| <= i < |before| + head ==> s.messageStarted && out[i].outputIndex == s.messageItemIndex)
            && (|before| + head <= i < |out| - 1 ==> out[i] == CallsDone(s, 0)[i - |before| - head])
            && (i == |out| - 1 ==> !SaysDone(out[i]))
  {
    hide DistinctSlots, RegisteredIds, Accounted, SoundOutput, CallsDone;
  }

  lemma CallsAreNoMessage(s: State, i: nat)
    requires DistinctSlots(s)
    ensures forall p :: p in CallsDone(s, i) ==> p.typ != RTextDone && p.typ != RPartDone && (s.messageStarted ==> p.outputIndex != s.messageItemIndex)
  {
    forall p | p in CallsDone(s, i)
      ensures p.typ != RTextDone && p.typ != RPartDone && (s.messageStarted ==> p.outputIndex != s.messageItemIndex)
    {
      CallsDoneCarry(s, i, p);
    }
  }

  lemma MessageFirst(s: State, before: seq<RPayload>)
    requires s.messageStarted && Ending(s).Some?
    ensures var out, q := before + TerminalEvents(s).out, |before|;
            && |MessageDone(s)| == 3 && q + 3 < |out|
            && out[q].typ == RTextDone && out[q].text == "" && out[q + 1].typ == RPartDone && out[q + 2].typ == RItemDone
            && forall i :: q <= i < q + 3 ==> out[i].outputIndex == s.messageItemIndex
  {
    hide CallsDone;
  }

  /** An event that a message is done, or its part or text, stands where the message ends. */
  lemma OnlyThere(s: State, before: seq<RPayload>, i: nat)
    requires Live(s, before) && Ending(s).Some? && i < |before + TerminalEvents(s).out|
    requires var p := (before + TerminalEvents(s).out)[i];
             p.typ == RTextDone || p.typ == RPartDone || (p.typ == RItemDone && s.messageStarted && p.outputIndex == s.messageItemIndex)
    ensures s.messageStarted && |before| <= i < |before| + |MessageDone(s)|
  {
    EndParts(s, before, i);
    CallsAreNoMessage(s, 0);
    hide *;
    var out := before + TerminalEvents(s).out;
    assert SaysDone(out[i]) by { DoneSays(out[i]); }
    forall n: nat | n < |CallsDone(s, 0)|
      ensures var p := CallsDone(s, 0)[n]; p.typ != RTextDone && p.typ != RPartDone && (s.messageStarted ==> p.outputIndex != s.messageItemIndex)
    {
      assert CallsDone(s, 0)[n] in CallsDone(s, 0);
    }
  }

  lemma DoneSays(p: RPayload)
    requires p.typ == RArgsDone || p.typ == RItemDone || p.typ == RTextDone || p.typ == RPartDone
    ensures SaysDone(p)
  {
  }

  lemma EndOfMessage(s: State, before: seq<RPayload>)
    requires Live(s, before) && Ending(s).Some?
    ensures var out := before + TerminalEvents(s).out;
            if s.messageStarted then MessageDoneAt(out, |before|, s.messageItemIndex)
            else forall p :: p in out ==> p.typ != RTextDone && p.typ != RPartDone
  {
    hide Live, TerminalEvents, MessageDone;
    var out := before + TerminalEvents(s).out;
    forall i: nat | i < |out|
      && (out[i].typ == RTextDone || out[i].typ == RPartDone || (out[i].typ == RItemDone && s.messageStarted && out[i].outputIndex == s.messageItemIndex))
      ensures s.messageStarted && |before| <= i < |before| + |MessageDone(s)|
    {
      OnlyThere(s, before, i);
    }
    if s.messageStarted {
      MessageFirst(s, before);
    }
  }

  /** A done event at a call's index stands where the call ends. */
  lemma OnlyCallThere(s: State, before: seq<RPayload>, p: nat, k: int, i: nat)
    requires Live(s, before) && Ending(s).Some? && i < |before + TerminalEvents(s).out| && CallAt(CallsDone(s, 0), p, k)
    requires s.messageStarted ==> s.messageItemIndex != k
    requires var e := (before + TerminalEvents(s).out)[i]; (e.typ == RArgsDone || e.typ == RItemDone) && e.outputIndex == k
    ensures var q := |before| + |MessageDone(s)| + p; q <= i < q + 2
  {
    EndParts(s, before, i);
    hide Live, Ending, TerminalEvents, CallsDone, MessageDone, SaysDone;
    DoneSays((before + TerminalEvents(s).out)[i]);
  }

  lemma CallPlaced(s: State, before: seq<RPayload>, p: nat, k: int)
    requires Live(s, before) && Ending(s).Some? && CallAt(CallsDone(s, 0), p, k)
    ensures var out, q := before + TerminalEvents(s).out, |before| + |MessageDone(s)| + p;
            q + 2 < |out| && out[q].typ == RArgsDone && out[q + 1].typ == RItemDone && out[q].outputIndex == out[q + 1].outputIndex == k
  {
    var q: nat := |before| + |MessageDone(s)| + p;
    EndParts(s, before, |before + TerminalEvents(s).out| - 1);
    EndParts(s, before, q);
    EndParts(s, before, q + 1);
    hide DistinctSlots, RegisteredIds, Accounted, SoundOutput, CallsDone, TerminalEvents, MessageDone, Ending, Live, SaysDone;
  }

  lemma EndOfCall(s: State, before: seq<RPayload>, j: int)
    requires Live(s, before) && Ending(s).Some? && j in s.calls && 0 <= j < |s.calls|
    ensures exists q: nat :: CallDoneAt(before + TerminalEvents(s).out, q, s.calls[j].itemIndex)
  {
    var out, k := before + TerminalEvents(s).out, s.calls[j].itemIndex;
    EndKeepsSound(s, before);
    assert s.messageStarted ==> s.messageItemIndex != k;
    var p := CallsDoneAt(s, 0, j);
    hide *;
    var q: nat := |before| + |MessageDone(s)| + p;
    CallPlaced(s, before, p, k);
    forall i: nat | i < |out| && (out[i].typ == RArgsDone || out[i].typ == RItemDone) && out[i].outputIndex == k ensures q <= i < q + 2 {
      OnlyCallThere(s, before, p, k, i);
    }
    CallIsDone(out, q, k);
  }

  lemma CallIsDone(out: seq<RPayload>, q: nat, k: int)
    requires SoundOutput(out) && q + 2 < |out| && out[q].typ == RArgsDone && out[q + 1].typ == RItemDone && out[q].outputIndex == out[q + 1].outputIndex == k
    requires forall i :: 0 <= i < |out| && (out[i].typ == RArgsDone || out[i].typ == RItemDone) && out[i].outputIndex == k ==> q <= i < q + 2
    ensures CallDoneAt(out, q, k)
  {
  }

  /** On the output of every stream that reaches its end: an announced message is done exactly once,
      its text, its part and the item in this order and before the last event, all at its index; and
      without an announced message there are no such events. */
  lemma MessageFinishedOnce(chat: Codec<ChatPayload>, responses: Codec<RPayload>, id: string, es: seq<Event<ChatPayload>>)
    requires var x := RunEvents(Converter(chat, responses), Init(id), es); x.err.None? && x.core.terminal
    ensures var out := RunEvents(Converter(chat, responses), Init(id), es).out;
            && (forall p :: p in out && p.typ == RItemAdded && p.item.kind == KMessage ==> exists q: nat :: MessageDoneAt(out, q, p.outputIndex))
            && (!AnnouncedMessage(out) ==> forall p :: p in out ==> p.typ != RTextDone && p.typ != RPartDone)
  {
    hide Live, TerminalEvents, RunEvents, Announcing, MessageDoneAt, CA.Tracks, CA.Known;
    var v := Converter(chat, responses);
    var x := RunEvents(v, Init(id), es);
    StartsLive(id);
    CA.TracksFromStart(id);
    Knows(Init(id), NOTHING);
    var t, before := RunEnds(v, Init(id), NOTHING, es, []);
    assert [] + x.out == x.out;
    EndOfMessage(t, before);
    RunAnnouncesMessage(v, Init(id), es);
    StartsAnnouncing(id);
    RunAnnounces(v, Init(id), es, []);
    AnnouncedBefore(t, before);
    forall p | p in x.out && p.typ == RItemAdded && p.item.kind == KMessage ensures exists q: nat :: MessageDoneAt(x.out, q, p.outputIndex) {
      EndAnnouncesNothing(t, before, p);
      MessageIndex(t, before, p);
    }
  }

  lemma EndAnnouncesNothing(t: State, before: seq<RPayload>, p: RPayload)
    requires p in before + TerminalEvents(t).out && p.typ == RItemAdded
    ensures p in before
  {
    if p in TerminalEvents(t).out {
      EndCarries(t, p);
    }
  }

  /** What is announced when the stream is over was announced before its end. */
  lemma AnnouncedBefore(t: State, before: seq<RPayload>)
    requires Announcing(t.(terminal := true), before + TerminalEvents(t).out)
    ensures Announcing(t, before)
  {
    hide TerminalEvents;
    forall k ensures AnnouncedCall(before, k) <==> AnnouncedCall(before + TerminalEvents(t).out, k) {
      if AnnouncedCall(before + TerminalEvents(t).out, k) {
        var p :| p in before + TerminalEvents(t).out && p.typ == RItemAdded && p.item.kind == KFunctionCall && p.outputIndex == k;
        EndAnnouncesNothing(t, before, p);
      }
    }
    assert forall k :: EmittedAt(t.(terminal := true), k) <==> EmittedAt(t, k);
  }

  /** And the call of a tool index below their number is done exactly once: its arguments, all that were
      passed on, and then the item. */
  lemma CallFinishedOnce(chat: Codec<ChatPayload>, responses: Codec<RPayload>, id: string, es: seq<Event<ChatPayload>>, j: int)
    requires var x := RunEvents(Converter(chat, responses), Init(id), es); x.err.None? && x.core.terminal && j in x.core.calls && j < |x.core.calls|
    ensures var x := RunEvents(Converter(chat, responses), Init(id), es);
            exists q: nat :: CallDoneAt(x.out, q, x.core.calls[j].itemIndex)
  {
    hide Live, TerminalEvents, RunEvents, CallDoneAt, CA.Known;
    var v := Converter(chat, responses);
    var x := RunEvents(v, Init(id), es);
    StartsLive(id);
    CA.TracksFromStart(id);
    Knows(Init(id), NOTHING);
    CA.RunTracks(v, Init(id), NOTHING, es);
    var t, before := RunEnds(v, Init(id), NOTHING, es, []);
    assert [] + x.out == x.out;
    EndOfCall(t, before, j);
  }
}
