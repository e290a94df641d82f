/** Chat streams for a Messages client: Chat to Responses and then to Messages.

    The Responses events of a Chat stream leave every item open until the end, and the second converter
    keeps at most one block open; so the first item of the stream becomes the only block. */
module ChatToMessages {
  import opened Wrappers
  import opened Framing
  import opened Frames
  import opened EventMachine
  import opened Pipeline
  import opened StreamEvents
  import opened ChatStreams
  import CA = ChatAcceptance
  import CT = ChatRoundTrip
  import CR = ChatToResponses
  import RM = ResponsesToMessages

  datatype Three = Three(chat: Codec<ChatPayload>, responses: Codec<RPayload>, messages: Codec<MPayload>)

  function First(k: Three): EventConverter<CR.State, ChatPayload, RPayload> {
    CR.Converter(k.chat, k.responses)
  }

  function Second(k: Three): EventConverter<RM.State, RPayload, MPayload> {
    RM.Converter(k.responses, k.messages)
  }

  // --- What a Messages client hears ---

  datatype Piece = TextPiece(text: string) | ToolPiece(id: string, name: string, arguments: string)

  datatype Heard = Heard(started: bool, pieces: seq<Piece>, stopReason: string, output: int, stopped: bool)

  const SILENCE := Heard(false, [], "", 0, false)

  function Longer(piece: Piece, d: MPart): Piece {
    match piece
    case TextPiece(text) => if d.kind == BTextDelta then TextPiece(text + d.text) else piece
    case ToolPiece(id, name, arguments) => if d.kind == BJsonDelta then ToolPiece(id, name, arguments + d.partialJson) else piece
  }

  function Hear(h: Heard, p: MPayload): Heard {
    match p.typ
    case MMessageStart => h.(started := true)
    case MBlockStart =>
      h.(pieces := h.pieces + [if p.block.Some? && p.block.value.kind == BToolUse then ToolPiece(p.block.value.id, p.block.value.name, "") else TextPiece("")])
    case MBlockDelta =>
      if h.pieces == [] then h else h.(pieces := h.pieces[|h.pieces| - 1 := Longer(h.pieces[|h.pieces| - 1], p.delta)])
    case MMessageDelta => h.(stopReason := p.delta.stopReason, output := p.outputTokens)
    case MMessageStop => h.(stopped := true)
    case _ => h
  }

  function HearAll(h: Heard, out: seq<MPayload>): Heard
    decreases |out|
  {
    if out == [] then h else HearAll(Hear(h, out[0]), out[1..])
  }

  // --- What the Chat stream says first ---

  datatype Start = NoItem | TextItem | CallItem(id: string, name: string)

  /** The first item, and the arguments of all calls in order of arrival. */
  datatype Told = Told(first: Start, arguments: string)

  const UNTOLD := Told(NoItem, "")

  function TellTool(x: Told, d: ToolDelta): Told {
    Told(if x.first == NoItem then CallItem(d.id, d.name) else x.first, x.arguments + d.arguments)
  }

  function TellTools(x: Told, ds: seq<ToolDelta>): Told
    decreases |ds|
  {
    if ds == [] then x else TellTools(TellTool(x, ds[0]), ds[1..])
  }

  function TellText(x: Told, content: string): Told {
    if x.first == NoItem && content != "" then x.(first := TextItem) else x
  }

  function Tell(m: Meaning, x: Told, e: Event<ChatPayload>): Told {
    if m.ended || !e.input.Payload? || e.input.p.choices == [] then x
    else
      var d := e.input.p.choices[0].delta;
      TellText(TellTools(x, d.toolCalls), d.content)
  }

  function TellAll(m: Meaning, x: Told, es: seq<Event<ChatPayload>>): Told
    decreases |es|
  {
    if es == [] then x else TellAll(Understand(m, es[0]), Tell(m, x, es[0]), es[1..])
  }

  /** The blocks that the message gets. */
  function PiecesOf(m: Meaning, x: Told): seq<Piece> {
    match x.first
    case NoItem => []
    case TextItem => [TextPiece(m.text)]
    case CallItem(id, name) => [ToolPiece(id, name, x.arguments)]
  }

  // --- Responses events through the second converter ---

  function Through(k: Three, t: RM.State, ps: seq<RPayload>): Emit<RM.State, MPayload> {
    RunEvents(Second(k), t, ResponsesEvents(ps))
  }

  lemma ThroughAppend(k: Three, t: RM.State, a: seq<RPayload>, b: seq<RPayload>)
    requires Through(k, t, a).err.None?
    ensures var x := Through(k, t, a);
            var y := Through(k, x.core, b);
            Through(k, t, a + b) == Emit(y.core, x.out + y.out, y.err)
  {
    hide RunEvents;
    CarriedAppend(a, b);
    RunEventsAppend(Second(k), t, ResponsesEvents(a), ResponsesEvents(b));
  }

  lemma ThroughNothing(k: Three, t: RM.State)
    ensures Through(k, t, []) == Emit(t, [], None)
  {
    assert ResponsesEvents([]) == [];
  }

  lemma ThroughOne(k: Three, t: RM.State, p: RPayload)
    requires !t.terminal && p.typ != RNone
    ensures var x := RM.StepPayload(t, p.typ, p);
            Through(k, t, [p]) == if x.err.Some? then Emit(x.core, [], x.err) else x
  {
    hide RM.StepPayload, RTypeOf, RName, RunEvents;
    var e := Event(RName(p.typ), Payload(p));
    assert ResponsesEvents([p]) == [e];
    RunOne(Second(k), t, e);
  }

  lemma {:induction false} HearAppend(h: Heard, a: seq<MPayload>, b: seq<MPayload>)
    ensures HearAll(h, a + b) == HearAll(HearAll(h, a), b)
    decreases |a|
  {
    hide Hear;
    if a == [] {
      assert a + b == b;
    } else {
      assert (a + b)[1..] == a[1..] + b;
      HearAppend(Hear(h, a[0]), a[1..], b);
    }
  }

  lemma HearOne(h: Heard, p: MPayload)
    ensures HearAll(h, [p]) == Hear(h, p) && HearAll(h, []) == h
  {
    hide Hear;
    assert [p][1..] == [];
    assert HearAll(Hear(h, p), []) == Hear(h, p);
  }

  /** The state and the client after Responses events. */
  datatype After = After(t: RM.State, h: Heard)

  /** The events are accepted and leave `a`. */
  ghost predicate Leads(k: Three, t: RM.State, h: Heard, ps: seq<RPayload>, a: After) {
    var x := Through(k, t, ps);
    x.err.None? && x.core == a.t && HearAll(h, x.out) == a.h
  }

  lemma LeadsOn(k: Three, t: RM.State, h: Heard, ps: seq<RPayload>, a: After, qs: seq<RPayload>, b: After)
    requires Leads(k, t, h, ps, a) && Leads(k, a.t, a.h, qs, b)
    ensures Leads(k, t, h, ps + qs, b)
  {
    hide Through;
    ThroughAppend(k, t, ps, qs);
    HearAppend(h, Through(k, t, ps).out, Through(k, a.t, qs).out);
  }

  lemma LeadsNowhere(k: Three, t: RM.State, h: Heard)
    ensures Leads(k, t, h, [], After(t, h))
  {
    ThroughNothing(k, t);
  }

  /** Inside the one block, or before it. */
  ghost predicate Open(t: RM.State, h: Heard, m: Meaning, x: Told) {
    && !t.terminal && t.outputTokens == 0 && h == Heard(x.first != NoItem, PiecesOf(m, x), "", 0, false) && t.started == h.started
    && (match x.first
        case NoItem => !t.blockOpen && m.text == "" && x.arguments == ""
        case TextItem => t.blockOpen && !t.blockStopped && t.blockType == KMessage && m.text != ""
        case CallItem(_, _) => t.blockOpen && !t.blockStopped && t.blockType == KFunctionCall)
  }

  // --- The events one by one ---

  /** The opening events. */
  lemma StartLeads(k: Three, s: CR.State, t: RM.State, h: Heard)
    requires !t.terminal && t.started == h.started
    ensures Leads(k, t, h, CR.StartEvents(s), After(if t.started then t else t.(started := true, inputTokens := s.usage.input), h.(started := true)))
  {
    hide Through;
    var es := CR.StartEvents(s);
    assert es == [es[0]] + [es[1]];
    ThroughOne(k, t, es[0]);
    var x := Through(k, t, [es[0]]);
    ThroughOne(k, x.core, es[1]);
    if t.started {
      HearOne(h, Plainly(MMessageStop));
    } else {
      HearOne(h, x.out[0]);
      HearOne(h.(started := true), x.out[0]);
    }
    LeadsOn(k, t, h, [es[0]], After(x.core, h.(started := true)), [es[1]], After(x.core, h.(started := true)));
  }

  /** A block that an item opens. */
  function Opened(t: RM.State, item: Item): RM.State {
    t.(blockOpen := true, blockStopped := false, blockIndex := t.blockIndex + 1, blockType := item.kind,
       blockId := if item.callId == "" then item.id else item.callId, blockName := item.name, toolArgs := "")
  }

  lemma ItemLeads(k: Three, t: RM.State, h: Heard, p: RPayload)
    requires !t.terminal && p.typ == RItemAdded && (p.item.kind == KMessage || (p.item.kind == KFunctionCall && p.item.callId != ""))
    ensures Leads(k, t, h, [p],
                  if t.blockOpen then After(t, h)
                  else After(Opened(t, p.item), h.(pieces := h.pieces + [if p.item.kind == KMessage then TextPiece("") else ToolPiece(p.item.callId, p.item.name, "")])))
  {
    hide Through;
    ThroughOne(k, t, p);
    var x := Through(k, t, [p]);
    if t.blockOpen {
      HearOne(h, Plainly(MMessageStop));
    } else {
      HearOne(h, x.out[0]);
    }
  }

  lemma PartLeads(k: Three, t: RM.State, h: Heard, p: RPayload)
    requires !t.terminal && p.typ == RPartAdded && p.part.kind == POutputText
    ensures Leads(k, t, h, [p], After(t, h))
  {
    hide Through;
    ThroughOne(k, t, p);
    HearOne(h, Plainly(MMessageStop));
  }

  lemma ArgumentsLead(k: Three, t: RM.State, h: Heard, m: Meaning, x: Told, p: RPayload)
    requires Open(t, h, m, x) && x.first != NoItem && p.typ == RArgsDelta
    ensures var y := x.(arguments := x.arguments + p.delta);
            var t' := if x.first == TextItem then t else t.(toolArgs := t.toolArgs + p.delta);
            Leads(k, t, h, [p], After(t', h.(pieces := PiecesOf(m, y)))) && Open(t', h.(pieces := PiecesOf(m, y)), m, y)
  {
    hide Through;
    ThroughOne(k, t, p);
    var z := Through(k, t, [p]);
    if x.first == TextItem {
      HearOne(h, Plainly(MMessageStop));
    } else {
      HearOne(h, z.out[0]);
    }
  }

  lemma TextLeads(k: Three, t: RM.State, h: Heard, m: Meaning, x: Told, p: RPayload)
    requires !t.terminal && t.blockOpen && p.typ == RTextDelta
    requires if x.first == TextItem then t.blockType == KMessage && h.pieces == [TextPiece(m.text)] else t.blockType != KMessage && h.pieces == PiecesOf(m, x)
    ensures Leads(k, t, h, [p], After(t, h.(pieces := PiecesOf(m.(text := m.text + p.delta), x)))) || x.first == NoItem
  {
    hide Through;
    ThroughOne(k, t, p);
    var z := Through(k, t, [p]);
    if x.first == TextItem {
      HearOne(h, z.out[0]);
    } else {
      HearOne(h, Plainly(MMessageStop));
    }
  }

  // --- Tool calls ---

  function ItemOf(s: CR.State, d: ToolDelta): RPayload {
    Bare(RItemAdded).(outputIndex := s.nextItemIndex, item := Item(KFunctionCall, Numbered("fc_", d.index), d.id, d.name))
  }

  /** What one delta of a well-formed stream emits. */
  lemma ToolEmits(s: CR.State, m: Meaning, d: ToolDelta) returns (at: int)
    requires CA.Known(s, m) && ToolOk(m, d)
    ensures var x := CR.ToolStep(s, d);
            x.err.None? && x.out == (if s.started then [] else CR.StartEvents(s)) + (if d.index in s.calls then [] else [ItemOf(s, d)])
                                    + (if d.arguments == "" then [] else [Bare(RArgsDelta).(outputIndex := at, delta := d.arguments)])
  {
    CA.ToolAccepts(s, m, d);
    var a := CR.Begin(s);
    var b := CR.Register(a.core, d);
    hide CA.Tracks, CR.StartEvents, Numbered, CR.Argue;
    at := CR.Announce(b.core, d).core.calls[d.index].itemIndex;
    ArgueEmits(CR.Announce(b.core, d).core, d);
  }

  lemma ArgueEmits(s: CR.State, d: ToolDelta)
    requires d.index in s.calls && CR.Argue(s, d).err.None?
    ensures CR.Argue(s, d).out == if d.arguments == "" then [] else [Bare(RArgsDelta).(outputIndex := s.calls[d.index].itemIndex, delta := d.arguments)]
  {
  }

  /** The first delta of a stream opens the message and a block for its call; later ones do so at most
      in front of a text, or not at all. */
  lemma NewCallLeads(k: Three, t: RM.State, h: Heard, m: Meaning, x: Told, p: RPayload) returns (a: After)
    requires !t.terminal && t.outputTokens == 0 && t.started && h == Heard(true, PiecesOf(m, x), "", 0, false)
    requires x.first == NoItem ==> !t.blockOpen && m.text == "" && x.arguments == ""
    requires x.first != NoItem ==> Open(t, h, m, x)
    requires p.typ == RItemAdded && p.item.kind == KFunctionCall && p.item.callId != ""
    ensures var y := if x.first == NoItem then x.(first := CallItem(p.item.callId, p.item.name)) else x;
            Leads(k, t, h, [p], a) && Open(a.t, a.h, m, y)
  {
    hide Through, Leads;
    ItemLeads(k, t, h, p);
    a := if t.blockOpen then After(t, h) else After(Opened(t, p.item), h.(pieces := h.pieces + [ToolPiece(p.item.callId, p.item.name, "")]));
    assert [] + [ToolPiece(p.item.callId, p.item.name, "")] == [ToolPiece(p.item.callId, p.item.name, "")];
  }

  /** The opening events of a tool delta. */
  lemma BeginLeads(k: Three, s: CR.State, t: RM.State, h: Heard, m: Meaning, x: Told) returns (a: After)
    requires Open(t, h, m, x) && (s.started ==> x.first != NoItem)
    ensures Leads(k, t, h, if s.started then [] else CR.StartEvents(s), a)
    ensures a.h == h.(started := true) && !a.t.terminal && a.t.outputTokens == 0 && a.t.started
    ensures if x.first == NoItem then !a.t.blockOpen else Open(a.t, a.h, m, x)
  {
    hide Leads, CR.StartEvents;
    if s.started {
      LeadsNowhere(k, t, h);
      a := After(t, h);
    } else {
      StartLeads(k, s, t, h);
      a := After(if t.started then t else t.(started := true, inputTokens := s.usage.input), h.(started := true));
    }
  }

  /** The arguments of a delta, if any. */
  lemma TailLeads(k: Three, t: RM.State, h: Heard, m: Meaning, x: Told, arguments: string, at: int) returns (a: After)
    requires Open(t, h, m, x) && x.first != NoItem
    ensures Leads(k, t, h, if arguments == "" then [] else [Bare(RArgsDelta).(outputIndex := at, delta := arguments)], a)
    ensures Open(a.t, a.h, m, x.(arguments := x.arguments + arguments))
  {
    hide Leads;
    if arguments == "" {
      LeadsNowhere(k, t, h);
      a := After(t, h);
      assert x.arguments + arguments == x.arguments;
    } else {
      ArgumentsLead(k, t, h, m, x, Bare(RArgsDelta).(outputIndex := at, delta := arguments));
      a := After(if x.first == TextItem then t else t.(toolArgs := t.toolArgs + arguments), h.(pieces := PiecesOf(m, x.(arguments := x.arguments + arguments))));
    }
  }

  /** The opening events of a delta, and its item, if they are new. */
  lemma HeadLeads(k: Three, s: CR.State, t: RM.State, h: Heard, m: Meaning, x: Told, d: ToolDelta) returns (a: After)
    requires Open(t, h, m, x) && (s.started ==> x.first != NoItem) && (x.first == NoItem ==> d.index !in s.calls) && (d.index !in s.calls ==> d.id != "")
    ensures Leads(k, t, h, (if s.started then [] else CR.StartEvents(s)) + (if d.index in s.calls then [] else [ItemOf(s, d)]), a)
    ensures Open(a.t, a.h, m, if x.first == NoItem then x.(first := CallItem(d.id, d.name)) else x)
  {
    hide Leads, CR.StartEvents;
    var starts := if s.started then [] else CR.StartEvents(s);
    var b := BeginLeads(k, s, t, h, m, x);
    if d.index in s.calls {
      LeadsNowhere(k, b.t, b.h);
      a := b;
    } else {
      HeardSoFar(t, h, m, x);
      a := NewCallLeads(k, b.t, b.h, m, x, ItemOf(s, d));
    }
    LeadsOn(k, t, h, starts, b, if d.index in s.calls then [] else [ItemOf(s, d)], a);
  }

  lemma HeardSoFar(t: RM.State, h: Heard, m: Meaning, x: Told)
    requires Open(t, h, m, x)
    ensures h.(started := true) == Heard(true, PiecesOf(m, x), "", 0, false) && (x.first == NoItem ==> m.text == "" && x.arguments == "")
  {
  }

  lemma ToolLeads(k: Three, s: CR.State, t: RM.State, h: Heard, m: Meaning, x: Told, d: ToolDelta) returns (a: After)
    requires CA.Known(s, m) && ToolOk(m, d) && Open(t, h, m, x) && (s.started ==> x.first != NoItem)
    ensures CR.ToolStep(s, d).err.None? && CR.ToolStep(s, d).core.started
    ensures Leads(k, t, h, CR.ToolStep(s, d).out, a) && Open(a.t, a.h, AddTool(m, d), TellTool(x, d))
  {
    var at := ToolEmits(s, m, d);
    CA.ToolShape(s, d);
    FreshIsFirst(s, m, x, d);
    hide CR.ToolStep, Leads, CA.Known, ToolOk, CR.StartEvents, Open, ItemOf;
    var head := (if s.started then [] else CR.StartEvents(s)) + (if d.index in s.calls then [] else [ItemOf(s, d)]);
    var b := HeadLeads(k, s, t, h, m, x, d);
    var y := if x.first == NoItem then x.(first := CallItem(d.id, d.name)) else x;
    a := TailLeads(k, b.t, b.h, m, y, d.arguments, at);
    LeadsOn(k, t, h, head, b, if d.arguments == "" then [] else [Bare(RArgsDelta).(outputIndex := at, delta := d.arguments)], a);
    SameText(a.t, a.h, m, AddTool(m, d), TellTool(x, d));
  }

  /** Before any item there are no calls; and a first delta brings its id. */
  lemma FreshIsFirst(s: CR.State, m: Meaning, x: Told, d: ToolDelta)
    requires CA.Known(s, m) && ToolOk(m, d) && (s.started ==> x.first != NoItem)
    ensures x.first == NoItem ==> d.index !in s.calls
    ensures d.index !in s.calls ==> d.id != ""
  {
    if d.index in s.calls {
      assert d.index in m.calls;
    }
  }

  lemma SameText(t: RM.State, h: Heard, m: Meaning, n: Meaning, x: Told)
    requires Open(t, h, m, x) && n.text == m.text
    ensures Open(t, h, n, x)
  {
  }

  lemma {:induction false} ToolsLead(k: Three, s: CR.State, t: RM.State, h: Heard, m: Meaning, x: Told, ds: seq<ToolDelta>) returns (a: After)
    requires CA.Known(s, m) && ToolsOk(m, ds) && Open(t, h, m, x) && (s.started ==> x.first != NoItem)
    ensures var y := CR.ToolSteps(s, ds);
            && y.err.None? && Leads(k, t, h, y.out, a) && Open(a.t, a.h, AddTools(m, ds), TellTools(x, ds))
            && (y.core.started ==> TellTools(x, ds).first != NoItem) && CA.Known(y.core, AddTools(m, ds))
    decreases |ds|
  {
    hide CR.ToolStep, Leads, CA.Known, ToolOk, Open, AddTool;
    if ds == [] {
      LeadsNowhere(k, t, h);
      a := After(t, h);
    } else {
      CA.ToolAccepts(s, m, ds[0]);
      var b := ToolLeads(k, s, t, h, m, x, ds[0]);
      var y := CR.ToolStep(s, ds[0]);
      a := ToolsLead(k, y.core, b.t, b.h, AddTool(m, ds[0]), TellTool(x, ds[0]), ds[1..]);
      LeadsOn(k, t, h, y.out, b, CR.ToolSteps(y.core, ds[1..]).out, a);
    }
  }

  // --- Text ---

  /** The events in front of the first text. */
  lemma SetupLeads(k: Three, s: CR.State, t: RM.State, h: Heard, m: Meaning, x: Told, index: int) returns (a: After)
    requires Open(t, h, m, x) && x.first != TextItem
    ensures Leads(k, t, h, CR.StartEvents(s) + CR.MessageSetup(index), a) && !a.t.terminal && a.t.outputTokens == 0 && a.t.started && a.t.blockOpen && !a.t.blockStopped
    ensures a.h == Heard(true, if x.first == NoItem then [TextPiece("")] else PiecesOf(m, x), "", 0, false)
    ensures a.t.blockType == if x.first == NoItem then KMessage else KFunctionCall
  {
    hide Leads, CR.StartEvents;
    StartLeads(k, s, t, h);
    var b := After(if t.started then t else t.(started := true, inputTokens := s.usage.input), h.(started := true));
    var ps := CR.MessageSetup(index);
    assert ps == [ps[0]] + [ps[1]];
    ItemLeads(k, b.t, b.h, ps[0]);
    a := if b.t.blockOpen then b else After(Opened(b.t, ps[0].item), b.h.(pieces := b.h.pieces + [TextPiece("")]));
    PartLeads(k, a.t, a.h, ps[1]);
    LeadsOn(k, b.t, b.h, [ps[0]], a, [ps[1]], a);
    LeadsOn(k, t, h, CR.StartEvents(s), b, ps, a);
    assert [] + [TextPiece("")] == [TextPiece("")];
  }

  lemma ContentLeads(k: Three, s: CR.State, t: RM.State, h: Heard, m: Meaning, x: Told, content: string) returns (a: After)
    requires Open(t, h, m, x) && (s.messageStarted <==> m.text != "")
    ensures Leads(k, t, h, CR.ContentStep(s, content).out, a)
    ensures Open(a.t, a.h, m.(text := m.text + content), TellText(x, content))
  {
    hide Leads, CR.StartEvents, CR.MessageSetup;
    var out := CR.ContentStep(s, content).out;
    if content == "" {
      LeadsNowhere(k, t, h);
      a := After(t, h);
      assert m.text + content == m.text;
    } else {
      var y, n := TellText(x, content), m.(text := m.text + content);
      var index := CR.ContentStep(s, content).core.messageItemIndex;
      var delta := Bare(RTextDelta).(outputIndex := index, delta := content);
      var b := After(t, h);
      if s.messageStarted {
        assert out == [delta];
        TextLeads(k, t, h, m, x, delta);
        a := After(t, h.(pieces := PiecesOf(n, x)));
      } else {
        var u := CR.ContentStep(s, content).core;
        b := SetupLeads(k, u, t, h, m, x, index);
        TextLeads(k, b.t, b.h, m, y, delta);
        a := After(b.t, b.h.(pieces := PiecesOf(n, y)));
        LeadsOn(k, t, h, CR.StartEvents(u) + CR.MessageSetup(index), b, [delta], a);
        assert out == CR.StartEvents(u) + CR.MessageSetup(index) + [delta];
      }
    }
  }

  // --- The end ---

  predicate IsDone(p: RPayload) {
    p.typ == RTextDone || p.typ == RPartDone || p.typ == RItemDone || p.typ == RArgsDone
  }

  /** Done events close the block and say nothing. */
  lemma {:induction false} DoneLeads(k: Three, t: RM.State, h: Heard, ps: seq<RPayload>) returns (a: After)
    requires !t.terminal && t.outputTokens == 0 && forall i :: 0 <= i < |ps| ==> IsDone(ps[i])
    ensures Leads(k, t, h, ps, a) && a.h == h && !a.t.terminal && a.t.outputTokens == 0
    decreases |ps|
  {
    hide Leads;
    if ps == [] {
      LeadsNowhere(k, t, h);
      a := After(t, h);
    } else {
      var b := OneDoneLeads(k, t, h, ps[0]);
      a := DoneLeads(k, b.t, b.h, ps[1..]);
      LeadsOn(k, t, h, [ps[0]], b, ps[1..], a);
      assert ps == [ps[0]] + ps[1..];
    }
  }

  lemma OneDoneLeads(k: Three, t: RM.State, h: Heard, p: RPayload) returns (a: After)
    requires !t.terminal && t.outputTokens == 0 && IsDone(p)
    ensures Leads(k, t, h, [p], a) && a.h == h && !a.t.terminal && a.t.outputTokens == 0
  {
    hide Through;
    ThroughOne(k, t, p);
    var x := Through(k, t, [p]);
    a := After(x.core, h);
    HearOne(h, Plainly(MMessageStop));
    if x.out != [] {
      assert x.out == [x.out[0]];
      HearOne(h, x.out[0]);
    }
  }

  lemma {:induction false} CallsDoneAreDone(s: CR.State, i: nat)
    ensures forall j :: 0 <= j < |CR.CallsDone(s, i)| ==> IsDone(CR.CallsDone(s, i)[j])
    decreases |s.calls| - i
  {
    if i < |s.calls| {
      CallsDoneAreDone(s, i + 1);
    }
  }

  lemma MessageDoneIsDone(s: CR.State)
    ensures forall j :: 0 <= j < |CR.MessageDone(s)| ==> IsDone(CR.MessageDone(s)[j])
  {
  }

  /** The end of a message, for the finish reasons that complete it. */
  lemma CompletedLeads(k: Three, t: RM.State, h: Heard, p: RPayload) returns (a: After)
    requires !t.terminal && t.outputTokens == 0 && p.typ == RCompleted && p.response.stopReason != ""
    ensures Leads(k, t, h, [p], a) && a.t.terminal
    ensures a.h == h.(stopReason := p.response.stopReason, output := Max0(p.response.usage.output), stopped := true)
  {
    hide Through;
    ThroughOne(k, t, p);
    var x := Through(k, t, [p]);
    var stops := RM.StopBlock(t.(terminal := true, outputTokens := Max0(p.response.usage.output), stopReason := p.response.stopReason)).out;
    var delta := Plainly(MMessageDelta).(delta := NO_PART.(stopReason := p.response.stopReason), outputTokens := Max0(p.response.usage.output));
    assert x.out == stops + ([delta] + [Plainly(MMessageStop)]);
    HearOne(h, delta);
    if stops != [] {
      assert stops == [stops[0]];
      HearOne(h, stops[0]);
    }
    HearAppend(h, stops, [delta] + [Plainly(MMessageStop)]);
    HearAppend(h, [delta], [Plainly(MMessageStop)]);
    HearOne(Hear(h, delta), Plainly(MMessageStop));
    a := After(x.core, HearAll(h, x.out));
  }

  lemma IncompleteFails(k: Three, t: RM.State, p: RPayload)
    requires !t.terminal && p.typ == RIncomplete
    ensures Through(k, t, [p]).err.Some?
  {
    ThroughOne(k, t, p);
  }

  /** The stop reason of a completed message. */
  function StopFor(finish: string): string {
    if finish == "stop" then "end_turn" else "tool_use"
  }

  /** What the client has heard of the whole message. */
  function Whole(m: Meaning, x: Told): Heard {
    Heard(x.first != NoItem, PiecesOf(m, x), StopFor(m.finish), Max0(Merged(m.reports).output), true)
  }

  lemma EndLeads(k: Three, s: CR.State, t: RM.State, h: Heard, m: Meaning, x: Told)
    requires Open(t, h, m, x) && CR.TerminalEvents(s).err.None? && s.finishReason == m.finish && s.usage == Merged(m.reports)
    ensures var y := Through(k, t, CR.TerminalEvents(s).out);
            && (y.err.None? <==> Completes(m.finish))
            && (y.err.None? ==> HearAll(h, y.out) == Whole(m, x) && y.core.terminal)
  {
    var done := CR.MessageDone(s) + CR.CallsDone(s, 0);
    MessageDoneIsDone(s);
    CallsDoneAreDone(s, 0);
    var end := CR.Ending(s).value;
    hide Through, Merged, CR.MessageDone, CR.CallsDone;
    assert CR.TerminalEvents(s).out == done + [end];
    var a := DoneLeads(k, t, h, done);
    ThroughAppend(k, t, done, [end]);
    if Completes(m.finish) {
      var b := CompletedLeads(k, a.t, a.h, end);
      LeadsOn(k, t, h, done, a, [end], b);
    } else {
      IncompleteFails(k, a.t, end);
    }
  }

  // --- Steps ---

  ghost predicate Follows(s: CR.State, t: RM.State, h: Heard, m: Meaning, x: Told) {
    CA.Known(s, m) && !m.ended && Open(t, h, m, x) && (s.started ==> x.first != NoItem)
  }

  lemma ChoiceLeads(k: Three, s: CR.State, t: RM.State, h: Heard, m: Meaning, x: Told, e: Event<ChatPayload>) returns (a: After)
    requires Follows(s, t, h, m, x) && EventOk(m, e) && e.input.Payload? && e.input.p.choices != []
    ensures CR.Step(s, e).err.None? && Leads(k, t, h, CR.Step(s, e).out, a)
    ensures Follows(CR.Step(s, e).core, a.t, a.h, Understand(m, e), Tell(m, x, e))
  {
    CA.StepAccepts(s, m, e);
    var c := e.input.p.choices[0];
    var ds, content := c.delta.toolCalls, c.delta.content;
    ProperStays(m, ds);
    hide Leads, CR.ToolSteps, CR.ContentStep, CA.Known, Open, ToolsOk, AddTools;
    var b := ToolsLead(k, s, t, h, m, x, ds);
    var u := CR.ToolSteps(s, ds);
    Started(u.core, AddTools(m, ds));
    a := ContentLeads(k, u.core, b.t, b.h, AddTools(m, ds), TellTools(x, ds), content);
    LeadsOn(k, t, h, u.out, b, CR.ContentStep(u.core, content).out, a);
    var n := AddTools(m, ds).(text := AddTools(m, ds).text + content);
    SameText(a.t, a.h, n, Understand(m, e), Tell(m, x, e));
    ContentKeepsStarted(u.core, content);
  }

  lemma Started(s: CR.State, m: Meaning)
    requires CA.Known(s, m)
    ensures s.messageStarted <==> m.text != ""
  {
  }

  lemma ContentKeepsStarted(s: CR.State, content: string)
    ensures CR.ContentStep(s, content).core.started == s.started && CR.ContentStep(s, content).err.None?
  {
  }

  /** An event that ends the stream. */
  lemma LastLeads(k: Three, s: CR.State, t: RM.State, h: Heard, m: Meaning, x: Told, e: Event<ChatPayload>)
    requires Follows(s, t, h, m, x) && EventOk(m, e) && Understand(m, e).ended
    ensures Tell(m, x, e) == x && CR.Step(s, e).core.terminal
    ensures var n, y := Understand(m, e), Through(k, t, CR.Step(s, e).out);
            && CR.Step(s, e).err.None? && (y.err.None? <==> Completes(n.finish)) && (y.err.None? ==> HearAll(h, y.out) == Whole(n, x) && y.core.terminal)
  {
    CA.StepAccepts(s, m, e);
    var n := Understand(m, e);
    NotByChoice(m, e);
    hide Through, Merged, CR.TerminalEvents, CR.ChoiceStep, AddChoice, Open;
    var s' := s;
    if e.input.Payload? {
      CA.UsageTracks(m.reports, e.input.p.usage.u);
      s' := s.(usage := CR.ApplyUsage(s.usage, e.input.p.usage.u));
    }
    SameText(t, h, m, n, x);
    EndLeads(k, s', t, h, n, x);
    TerminalEnds(s');
  }

  lemma TerminalEnds(s: CR.State)
    ensures CR.TerminalEvents(s).err.None? ==> CR.TerminalEvents(s).core.terminal
  {
  }

  lemma NotByChoice(m: Meaning, e: Event<ChatPayload>)
    requires !m.ended && Understand(m, e).ended
    ensures !(e.input.Payload? && e.input.p.choices != [])
  {
    if e.input.Payload? && e.input.p.choices != [] {
      ProperStays(m, e.input.p.choices[0].delta.toolCalls);
    }
  }

  /** An event without choices that does not end the stream says nothing. */
  lemma QuietLeads(k: Three, s: CR.State, t: RM.State, h: Heard, m: Meaning, x: Told, e: Event<ChatPayload>)
    requires Follows(s, t, h, m, x) && EventOk(m, e) && !Understand(m, e).ended && !(e.input.Payload? && e.input.p.choices != [])
    ensures CR.Step(s, e).err.None? && CR.Step(s, e).out == [] && Follows(CR.Step(s, e).core, t, h, Understand(m, e), x) && Tell(m, x, e) == x
  {
    CA.StepAccepts(s, m, e);
    hide CR.TerminalEvents, CR.ChoiceStep, AddChoice, Open, CA.Known;
    SameText(t, h, m, Understand(m, e), x);
    EventStarts(s, e);
  }

  lemma EventStarts(s: CR.State, e: Event<ChatPayload>)
    requires !(e.input.Payload? && e.input.p.choices != [])
    ensures CR.Step(s, e).core.started == s.started
  {
    hide CR.Ending, CR.MessageDone, CR.CallsDone, CR.ApplyUsage;
  }

  lemma {:induction false} RunLeads(k: Three, s: CR.State, t: RM.State, h: Heard, m: Meaning, x: Told, es: seq<Event<ChatPayload>>)
    requires Follows(s, t, h, m, x) && StreamOk(m, es)
    ensures var y := Pipe(First(k), Second(k), s, t, es);
            var n := UnderstandAll(m, es);
            && (y.err.None? <==> Completes(n.finish)) && (y.err.None? ==> HearAll(h, y.out) == Whole(n, TellAll(m, x, es)) && y.second.terminal)
    decreases |es|
  {
    assert es != [];
    var e, rest := es[0], es[1..];
    assert [e] + rest == es;
    CA.StepAccepts(s, m, e);
    assert React(First(k), s, e) == CR.Step(s, e);
    var c := CR.Step(s, e);
    var n, z := Understand(m, e), Tell(m, x, e);
    hide CR.Step, Follows, Understand, Tell, Pipe, EventOk, CA.Known, Whole, RunEvents;
    PipeOne(First(k), Second(k), s, t, e);
    if n.ended {
      LastLeads(k, s, t, h, m, x, e);
      EndStays(n, rest);
      TellNoMore(n, z, rest);
      EndedPipe(k, s, t, e, rest);
    } else {
      var a := After(t, h);
      if e.input.Payload? && e.input.p.choices != [] {
        a := ChoiceLeads(k, s, t, h, m, x, e);
      } else {
        QuietLeads(k, s, t, h, m, x, e);
        LeadsNowhere(k, t, h);
      }
      RunLeads(k, c.core, a.t, a.h, n, z, rest);
      PipeAppend(First(k), Second(k), s, t, [e], rest);
      HearAppend(h, Through(k, t, c.out).out, Pipe(First(k), Second(k), c.core, a.t, rest).out);
    }
  }

  lemma {:induction false} TellNoMore(m: Meaning, x: Told, es: seq<Event<ChatPayload>>)
    requires m.ended
    ensures TellAll(m, x, es) == x
    decreases |es|
  {
    if es != [] {
      TellNoMore(Understand(m, es[0]), Tell(m, x, es[0]), es[1..]);
    }
  }

  /** After the end the first converter gives nothing. */
  lemma EndedPipe(k: Three, s: CR.State, t: RM.State, e: Event<ChatPayload>, rest: seq<Event<ChatPayload>>)
    requires React(First(k), s, e).err.None? && React(First(k), s, e).core.terminal
    ensures Pipe(First(k), Second(k), s, t, [e] + rest) == Pipe(First(k), Second(k), s, t, [e])
  {
    var c := React(First(k), s, e);
    CA.Rests(First(k), c.core, rest);
    assert ([e] + rest)[0] == e && ([e] + rest)[1..] == rest;
    assert c.out + [] == c.out;
    RunOne(First(k), s, e);
  }

  /** Every well-formed Chat stream, for a Messages client: it is converted to its end exactly when its
      finish reason completes it, and then the message has the first item of the stream as its only
      block: the whole text, or the first call with the arguments of all calls. */
  lemma ChatReachesMessages(k: Three, id: string, es: seq<Event<ChatPayload>>)
    requires StreamOk(NOTHING, es)
    ensures var y := Pipe(First(k), Second(k), CR.Init(id), RM.Init(), es);
            var m := UnderstandAll(NOTHING, es);
            && (y.err.None? <==> Completes(m.finish))
            && (y.err.None? ==> HearAll(SILENCE, y.out) == Whole(m, TellAll(NOTHING, UNTOLD, es)) && y.second.terminal)
  {
    hide StreamOk, Pipe, Whole;
    CA.TracksFromStart(id);
    assert Follows(CR.Init(id), RM.Init(), SILENCE, NOTHING, UNTOLD);
    RunLeads(k, CR.Init(id), RM.Init(), SILENCE, NOTHING, UNTOLD, es);
  }

  /** The same on bytes, for any chunking before and between the two converters. */
  lemma ChatBytesReachMessages(k: Three, id: string, es: seq<Event<ChatPayload>>, chunks: seq<Bytes>, between: seq<Bytes>) returns (out: seq<MPayload>)
    requires Lawful(k.chat) && Lawful(k.responses) && Carried(es) && StreamOk(NOTHING, es) && Completes(UnderstandAll(NOTHING, es).finish)
    requires Flatten(chunks) == PrintFrames(FramesOf(k.chat, es))
    requires Flatten(between) == Convert(MachineOf(First(k)), Fresh(CR.Init(id)), chunks).out
    ensures Convert(MachineOf(First(k)), Fresh(CR.Init(id)), chunks).err.None?
    ensures var r := Convert(MachineOf(Second(k)), Fresh(RM.Init()), between);
            r.err.None? && r.out == PrintAll(p => ShowMessages(k.messages, p), out)
    ensures HearAll(SILENCE, out) == Whole(UnderstandAll(NOTHING, es), TellAll(NOTHING, UNTOLD, es))
  {
    hide MachineOf, Convert, RunEvents, Flatten, Lawful, CR.Step, RM.Step, StreamOk, Whole, HearAll, CA.Known;
    ChatReachesMessages(k, id, es);
    CA.AcceptedExactly(k.chat, k.responses, id, es);
    CA.TracksFromStart(id);
    CA.RunAccepts(First(k), CR.Init(id), NOTHING, es);
    NoFailureKept(RunEvents(First(k), CR.Init(id), es).core, UnderstandAll(NOTHING, es));
    CT.RunNamed(First(k), CR.Init(id), es);
    out := Pipe(First(k), Second(k), CR.Init(id), RM.Init(), es).out;
    PipeOnBytes(First(k), Second(k), CR.Init(id), RM.Init(), es, chunks, between);
  }

  lemma NoFailureKept(s: CR.State, m: Meaning)
    requires CA.Known(s, m)
    ensures s.err.None?
  {
  }

  // --- What is lost ---

  /** The fold knows the first item, and the arguments while there is at most one call. */
  ghost predicate Agrees(m: Meaning, x: Told) {
    && (forall i :: i in m.order ==> i in m.calls) && (forall i :: i in m.calls ==> i in m.order)
    && (x.first == NoItem <==> m.order == [] && m.text == "")
    && (x.first == TextItem ==> m.text != "")
    && (x.first.CallItem? ==> m.order != [] && m.calls[m.order[0]].id == x.first.id && m.calls[m.order[0]].name == x.first.name)
    && (m.order == [] ==> x.arguments == "")
    && (|m.order| == 1 ==> x.arguments == m.calls[m.order[0]].arguments)
  }

  lemma ToolAgrees(m: Meaning, x: Told, d: ToolDelta)
    requires Agrees(m, x)
    ensures Agrees(AddTool(m, d), TellTool(x, d))
  {
    var n := AddTool(m, d);
    assert "" + d.arguments == d.arguments;
    if d.index in m.calls {
      assert d.index in m.order;
      assert |m.order| == 1 ==> m.order[0] == d.index;
    } else {
      assert n.order == m.order + [d.index] && n.order[|m.order|] == d.index;
      assert forall i :: i in n.order <==> i in m.order || i == d.index;
      assert m.order != [] ==> n.order[0] == m.order[0] && m.order[0] in m.order && m.order[0] != d.index;
    }
  }

  lemma {:induction false} ToolsAgree(m: Meaning, x: Told, ds: seq<ToolDelta>)
    requires Agrees(m, x)
    ensures Agrees(AddTools(m, ds), TellTools(x, ds))
    decreases |ds|
  {
    hide Agrees, AddTool, TellTool;
    if ds != [] {
      ToolAgrees(m, x, ds[0]);
      ToolsAgree(AddTool(m, ds[0]), TellTool(x, ds[0]), ds[1..]);
    }
  }

  lemma TextAgrees(m: Meaning, x: Told, content: string)
    requires Agrees(m, x)
    ensures Agrees(m.(text := m.text + content), TellText(x, content))
  {
    assert m.text + "" == m.text;
  }

  lemma SameFolds(m: Meaning, n: Meaning, x: Told)
    requires Agrees(m, x) && n.order == m.order && n.calls == m.calls && n.text == m.text
    ensures Agrees(n, x)
  {
  }

  lemma EventAgrees(m: Meaning, x: Told, e: Event<ChatPayload>)
    requires Agrees(m, x)
    ensures Agrees(Understand(m, e), Tell(m, x, e))
  {
    hide Agrees, AddTools, TellTools;
    if !m.ended && e.input.Payload? && e.input.p.choices != [] {
      var d := e.input.p.choices[0].delta;
      ToolsAgree(m, x, d.toolCalls);
      TextAgrees(AddTools(m, d.toolCalls), TellTools(x, d.toolCalls), d.content);
      var n := AddTools(m, d.toolCalls);
      SameFolds(n.(text := n.text + d.content), Understand(m, e), Tell(m, x, e));
    } else {
      SameFolds(m, Understand(m, e), x);
    }
  }

  lemma {:induction false} StreamAgrees(m: Meaning, x: Told, es: seq<Event<ChatPayload>>)
    requires Agrees(m, x)
    ensures Agrees(UnderstandAll(m, es), TellAll(m, x, es))
    decreases |es|
  {
    hide Agrees, Understand, Tell;
    if es != [] {
      EventAgrees(m, x, es[0]);
      StreamAgrees(Understand(m, es[0]), Tell(m, x, es[0]), es[1..]);
    }
  }

  /** The items of a stream: its text, if any, and its calls. */
  function Items(m: Meaning): nat {
    (if m.text == "" then 0 else 1) + |m.order|
  }

  /** The message says all that the stream said: each item is one of its pieces, and there are no more. */
  ghost predicate SaysAll(m: Meaning, pieces: seq<Piece>) {
    && |pieces| == Items(m) && (m.text != "" ==> TextPiece(m.text) in pieces)
    && forall i :: i in m.order ==> i in m.calls && ToolPiece(m.calls[i].id, m.calls[i].name, m.calls[i].arguments) in pieces
  }

  lemma PiecesSayAll(m: Meaning, x: Told)
    requires Agrees(m, x)
    ensures SaysAll(m, PiecesOf(m, x)) <==> Items(m) <= 1
  {
    if Items(m) <= 1 {
      assert forall i :: i in m.order ==> m.order == [m.order[0]] && i == m.order[0];
      match x.first
      case NoItem =>
      case TextItem => assert PiecesOf(m, x)[0] == TextPiece(m.text);
      case CallItem(id, name) => assert PiecesOf(m, x)[0] == ToolPiece(id, name, x.arguments);
    }
  }

  /** Of a completed stream nothing is lost or mixed up exactly when it has at most one item. */
  lemma NothingLostExactly(k: Three, id: string, es: seq<Event<ChatPayload>>)
    requires StreamOk(NOTHING, es) && Completes(UnderstandAll(NOTHING, es).finish)
    ensures var y := Pipe(First(k), Second(k), CR.Init(id), RM.Init(), es);
            var m := UnderstandAll(NOTHING, es);
            y.err.None? && (SaysAll(m, HearAll(SILENCE, y.out).pieces) <==> Items(m) <= 1)
  {
    hide StreamOk, Pipe, SaysAll, HearAll;
    ChatReachesMessages(k, id, es);
    assert Agrees(NOTHING, UNTOLD);
    StreamAgrees(NOTHING, UNTOLD, es);
    PiecesSayAll(UnderstandAll(NOTHING, es), TellAll(NOTHING, UNTOLD, es));
  }

  /** Two calls in parallel. */
  function TwoCalls(): seq<Event<ChatPayload>> {
    [Event("", Payload(ChatPayload("", "", [Choice(0, NO_DELTA.(toolCalls := [ToolDelta(0, "a", "function", "f", "{}"), ToolDelta(1, "b", "function", "g", "[]")]), "tool_calls")], NoUsage))),
     Event("", DoneMark)]
  }

  lemma TwoCallsMean()
    ensures var es := TwoCalls();
            StreamOk(NOTHING, es) && UnderstandAll(NOTHING, es).finish == "tool_calls" && TellAll(NOTHING, UNTOLD, es) == Told(CallItem("a", "f"), "{}[]")
  {
    var es := TwoCalls();
    var ds := es[0].input.p.choices[0].delta.toolCalls;
    assert ds == [ds[0]] + [ds[1]] && ds[1..] == [ds[1]] && ds[1..][1..] == [];
    var m1 := AddTool(NOTHING, ds[0]);
    var m2 := AddTool(m1, ds[1]);
    assert AddTools(m1, ds[1..]) == AddTools(m2, []) == m2;
    assert AddTools(NOTHING, ds) == m2;
    assert "a" != "b" && ToolOk(m1, ds[1]);
    assert ToolsOk(m2, []) && ToolsOk(m1, ds[1..]) && ToolsOk(NOTHING, ds);
    var x1 := TellTool(UNTOLD, ds[0]);
    var x2 := TellTool(x1, ds[1]);
    assert TellTools(x1, ds[1..]) == TellTools(x2, []) == x2;
    assert TellTools(UNTOLD, ds) == x2;
    assert "" + "{}" == "{}" && "{}" + "[]" == "{}[]";
    var n1 := Understand(NOTHING, es[0]);
    var n2 := Understand(n1, es[1]);
    assert es[1..] == [es[1]] && es[1..][1..] == [];
    assert UnderstandAll(n1, es[1..]) == UnderstandAll(n2, []) == n2;
    assert StreamOk(n2, []) && StreamOk(n1, es[1..]);
    assert TellAll(n1, x2, es[1..]) == TellAll(n2, x2, []) == x2;
  }

  /** They reach a Messages client as one call with the arguments of both. */
  lemma TwoCallsMerge(k: Three, id: string)
    ensures var y := Pipe(First(k), Second(k), CR.Init(id), RM.Init(), TwoCalls());
            y.err.None? && HearAll(SILENCE, y.out).pieces == [ToolPiece("a", "f", "{}[]")] && HearAll(SILENCE, y.out).stopReason == "tool_use"
  {
    hide StreamOk, Pipe, HearAll, UnderstandAll, TellAll;
    TwoCallsMean();
    ChatReachesMessages(k, id, TwoCalls());
  }
}
