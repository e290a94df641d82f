/** What the items announced by Chat to Responses are: one message, and calls under the id and name that
    the stream gave them. */
module ChatItems {
  import opened Wrappers
  import opened Framing
  import opened Frames
  import opened EventMachine
  import opened StreamEvents
  import CR = ChatToResponses
  import CA = ChatAcceptance

  /** The item of the call with tool index `i`: a call without an id is named after its index. */
  function ItemFor(i: int, c: CR.CallState): Item {
    Item(KFunctionCall, Numbered("fc_", i), if c.id == "" then Numbered("call_", i) else c.id, c.name)
  }

  /** The message, or a call that is known to be announced. */
  ghost predicate Announces(s: CR.State, p: RPayload) {
    (s.messageStarted && p.outputIndex == s.messageItemIndex && p.item == Item(KMessage, "msg_0", "", ""))
    || exists i :: i in s.calls && s.calls[i].emitted && p.outputIndex == s.calls[i].itemIndex && p.item == ItemFor(i, s.calls[i])
  }

  ghost predicate ItemsKnown(s: CR.State, out: seq<RPayload>) {
    && (forall p :: p in out && p.typ == RItemAdded ==> Announces(s, p))
    && (forall p :: p in out && p.typ == RPartAdded ==> s.messageStarted && p.outputIndex == s.messageItemIndex && p.part == Part(POutputText, false))
  }

  /** What is announced stays: the message keeps its index, a call its index, id and name. */
  ghost predicate Grows(s: CR.State, t: CR.State) {
    && (s.messageStarted ==> t.messageStarted && t.messageItemIndex == s.messageItemIndex)
    && (forall i :: i in s.calls && s.calls[i].emitted ==>
          i in t.calls && t.calls[i].emitted && t.calls[i].itemIndex == s.calls[i].itemIndex && t.calls[i].id == s.calls[i].id && t.calls[i].name == s.calls[i].name)
  }

  lemma GrowsKeeps(s: CR.State, t: CR.State, out: seq<RPayload>)
    requires Grows(s, t) && ItemsKnown(s, out)
    ensures ItemsKnown(t, out)
  {
    hide Numbered;
    forall p | p in out && p.typ == RItemAdded ensures Announces(t, p) {
      assert Announces(s, p);
      if !(s.messageStarted && p.outputIndex == s.messageItemIndex && p.item == Item(KMessage, "msg_0", "", "")) {
        var i :| i in s.calls && s.calls[i].emitted && p.outputIndex == s.calls[i].itemIndex && p.item == ItemFor(i, s.calls[i]);
        assert i in t.calls && p.item == ItemFor(i, t.calls[i]);
      }
    }
  }

  lemma GrowsOn(s: CR.State, t: CR.State, u: CR.State)
    requires Grows(s, t) && Grows(t, u)
    ensures Grows(s, u)
  {
  }

  lemma KnownTogether(s: CR.State, a: seq<RPayload>, b: seq<RPayload>)
    requires ItemsKnown(s, a) && ItemsKnown(s, b)
    ensures ItemsKnown(s, a + b)
  {
    hide Announces;
  }

  predicate NoItems(out: seq<RPayload>) {
    forall p :: p in out ==> p.typ != RItemAdded && p.typ != RPartAdded
  }

  lemma QuietKnown(s: CR.State, out: seq<RPayload>)
    requires NoItems(out)
    ensures ItemsKnown(s, out)
  {
  }

  // --- Steps ---

  lemma BeginGrows(s: CR.State)
    ensures Grows(s, CR.Begin(s).core) && NoItems(CR.Begin(s).out)
  {
  }

  /** One call changes, and keeps its index, id and name once announced. */
  lemma UpdateGrows(s: CR.State, t: CR.State, i: int, c: CR.CallState)
    requires t.calls == s.calls[i := c] && t.messageStarted == s.messageStarted && t.messageItemIndex == s.messageItemIndex
    requires i in s.calls && s.calls[i].emitted ==> c.emitted && c.itemIndex == s.calls[i].itemIndex && c.id == s.calls[i].id && c.name == s.calls[i].name
    ensures Grows(s, t)
  {
  }

  lemma RegisterGrows(s: CR.State, d: ToolDelta)
    requires CR.Register(s, d).err.None?
    ensures Grows(s, CR.Register(s, d).core) && CR.Register(s, d).out == []
  {
    hide Grows;
    var t := CR.Register(s, d).core;
    if d.index in s.calls {
      assert t.calls == s.calls;
      SameItems(s, t);
    } else {
      UpdateGrows(s, t, d.index, CR.CallState("", "", "", s.nextItemIndex, false));
    }
  }

  lemma AnnounceGrows(s: CR.State, d: ToolDelta)
    requires d.index in s.calls
    ensures Grows(s, CR.Announce(s, d).core) && ItemsKnown(CR.Announce(s, d).core, CR.Announce(s, d).out)
  {
    hide Numbered;
    var x := CR.Announce(s, d);
    if x.out != [] {
      assert x.core.calls[d.index].emitted && x.out[0].item == ItemFor(d.index, x.core.calls[d.index]);
      assert Announces(x.core, x.out[0]);
    }
  }

  lemma ArgueGrows(s: CR.State, d: ToolDelta)
    requires d.index in s.calls && CR.Argue(s, d).err.None?
    ensures Grows(s, CR.Argue(s, d).core) && NoItems(CR.Argue(s, d).out)
  {
    hide Grows;
    var t := CR.Argue(s, d).core;
    if d.arguments == "" {
      SameItems(s, t);
    } else {
      UpdateGrows(s, t, d.index, s.calls[d.index].(arguments := s.calls[d.index].arguments + d.arguments));
    }
  }

  lemma ToolKnown(s: CR.State, d: ToolDelta)
    requires CR.ToolStep(s, d).err.None?
    ensures var x := CR.ToolStep(s, d); Grows(s, x.core) && ItemsKnown(x.core, x.out)
  {
    hide CR.Begin, CR.Register, CR.Announce, CR.Argue, Grows, ItemsKnown, NoItems;
    var a := CR.Begin(s);
    BeginGrows(s);
    var b := CR.Register(a.core, d);
    RegisterGrows(a.core, d);
    var c := CR.Announce(b.core, d);
    AnnounceGrows(b.core, d);
    var e := CR.Argue(c.core, d);
    ArgueGrows(c.core, d);
    GrowsOn(s, a.core, b.core);
    GrowsOn(s, b.core, c.core);
    GrowsOn(s, c.core, e.core);
    QuietKnown(e.core, a.out);
    QuietKnown(e.core, e.out);
    GrowsKeeps(c.core, e.core, c.out);
    KnownTogether(e.core, a.out, c.out);
    KnownTogether(e.core, a.out + c.out, e.out);
  }

  lemma {:induction false} ToolsKnown(s: CR.State, ds: seq<ToolDelta>)
    requires CR.ToolSteps(s, ds).err.None?
    ensures var x := CR.ToolSteps(s, ds); Grows(s, x.core) && ItemsKnown(x.core, x.out)
    decreases |ds|
  {
    if ds != [] {
      hide CR.ToolStep, Grows, ItemsKnown;
      var x := CR.ToolStep(s, ds[0]);
      var y := CR.ToolSteps(x.core, ds[1..]);
      ToolKnown(s, ds[0]);
      ToolsKnown(x.core, ds[1..]);
      GrowsOn(s, x.core, y.core);
      GrowsKeeps(x.core, y.core, x.out);
      KnownTogether(y.core, x.out, y.out);
    }
  }

  lemma ContentKnown(s: CR.State, content: string)
    ensures var x := CR.ContentStep(s, content); Grows(s, x.core) && ItemsKnown(x.core, x.out) && x.err.None?
  {
    hide ItemsKnown, CR.StartEvents;
    var x := CR.ContentStep(s, content);
    if content != "" && !s.messageStarted {
      var starts, setup, delta := CR.StartEvents(x.core), CR.MessageSetup(x.core.messageItemIndex), [Bare(RTextDelta).(outputIndex := x.core.messageItemIndex, delta := content)];
      StartsQuiet(x.core);
      SetupKnown(x.core);
      QuietKnown(x.core, starts);
      QuietKnown(x.core, delta);
      KnownTogether(x.core, starts, setup);
      KnownTogether(x.core, starts + setup, delta);
    } else {
      assert NoItems(x.out);
      QuietKnown(x.core, x.out);
    }
  }

  lemma StartsQuiet(s: CR.State)
    ensures NoItems(CR.StartEvents(s))
  {
  }

  lemma SetupKnown(s: CR.State)
    requires s.messageStarted
    ensures ItemsKnown(s, CR.MessageSetup(s.messageItemIndex))
  {
    var ps := CR.MessageSetup(s.messageItemIndex);
    assert Announces(s, ps[0]);
  }

  lemma {:induction false} CallsDoneQuiet(s: CR.State, i: nat)
    ensures NoItems(CR.CallsDone(s, i))
    decreases |s.calls| - i
  {
    if i < |s.calls| {
      CallsDoneQuiet(s, i + 1);
    }
  }

  lemma EndIsQuiet(s: CR.State)
    ensures NoItems(CR.TerminalEvents(s).out)
  {
    hide CR.CallsDone;
    CallsDoneQuiet(s, 0);
  }

  lemma EndSame(s: CR.State)
    ensures var t := CR.TerminalEvents(s).core; t.calls == s.calls && t.messageStarted == s.messageStarted && t.messageItemIndex == s.messageItemIndex
  {
    hide CR.Ending, CR.CallsDone, CR.MessageDone;
  }

  lemma EndKnown(s: CR.State)
    ensures var x := CR.TerminalEvents(s); Grows(s, x.core) && ItemsKnown(x.core, x.out)
  {
    EndIsQuiet(s);
    EndSame(s);
    hide CR.TerminalEvents, Grows, ItemsKnown, NoItems;
    SameItems(s, CR.TerminalEvents(s).core);
    QuietKnown(CR.TerminalEvents(s).core, CR.TerminalEvents(s).out);
  }

  lemma SameItems(s: CR.State, t: CR.State)
    requires t.calls == s.calls && t.messageStarted == s.messageStarted && t.messageItemIndex == s.messageItemIndex
    ensures Grows(s, t) && Grows(t, s)
  {
  }

  lemma ChoiceKnown(s: CR.State, cs: seq<Choice>)
    requires cs != [] && CR.ChoiceStep(s, cs).err.None?
    ensures var x := CR.ChoiceStep(s, cs); Grows(s, x.core) && ItemsKnown(x.core, x.out)
  {
    hide CR.ToolSteps, CR.ContentStep, Grows, ItemsKnown;
    var d := cs[0].delta;
    var x := CR.ToolSteps(s, d.toolCalls);
    ToolsKnown(s, d.toolCalls);
    var y := CR.ContentStep(x.core, d.content);
    ContentKnown(x.core, d.content);
    var t := CR.ChoiceStep(s, cs).core;
    SameItems(y.core, t);
    GrowsOn(s, x.core, y.core);
    GrowsOn(s, y.core, t);
    GrowsKeeps(x.core, y.core, x.out);
    KnownTogether(y.core, x.out, y.out);
    GrowsKeeps(y.core, t, x.out + y.out);
  }

  lemma StepKnown(s: CR.State, e: Event<ChatPayload>)
    requires CR.Step(s, e).err.None?
    ensures var x := CR.Step(s, e); Grows(s, x.core) && ItemsKnown(x.core, x.out)
  {
    hide CR.ChoiceStep, CR.TerminalEvents, CR.ApplyUsage, Grows, ItemsKnown;
    EndKnown(s);
    SameItems(s, s);
    QuietKnown(s, []);
    if e.input.Payload? && e.input.p.choices != [] {
      ChoiceKnown(s, e.input.p.choices);
    } else if e.input.Payload? && e.input.p.usage.Counts? {
      var t := s.(usage := CR.ApplyUsage(s.usage, e.input.p.usage.u));
      SameItems(s, t);
      EndKnown(t);
      QuietKnown(t, []);
      GrowsOn(s, t, CR.TerminalEvents(t).core);
    }
  }

  lemma {:induction false} RunKnown(v: EventConverter<CR.State, ChatPayload, RPayload>, s: CR.State, es: seq<Event<ChatPayload>>)
    requires CA.IsConverter(v) && RunEvents(v, s, es).err.None?
    ensures var x := RunEvents(v, s, es); Grows(s, x.core) && ItemsKnown(x.core, x.out)
    decreases |es|
  {
    hide CR.Step, Grows, ItemsKnown;
    SameItems(s, s);
    QuietKnown(s, []);
    if es != [] {
      var x := React(v, s, es[0]);
      var y := RunEvents(v, x.core, es[1..]);
      if !v.resting(s) {
        StepKnown(s, es[0]);
      }
      RunKnown(v, x.core, es[1..]);
      GrowsOn(s, x.core, y.core);
      GrowsKeeps(x.core, y.core, x.out);
      KnownTogether(y.core, x.out, y.out);
    }
  }

  /** For any events without an error: every announced item is the one message, or a call at the index,
      with the id and under the name that the call of that tool index has for good. */
  lemma ItemsAreKnown(chat: Codec<ChatPayload>, responses: Codec<RPayload>, id: string, es: seq<Event<ChatPayload>>)
    requires RunEvents(CR.Converter(chat, responses), CR.Init(id), es).err.None?
    ensures var x := RunEvents(CR.Converter(chat, responses), CR.Init(id), es); ItemsKnown(x.core, x.out)
  {
    hide Grows, ItemsKnown, RunEvents;
    RunKnown(CR.Converter(chat, responses), CR.Init(id), es);
  }
}
