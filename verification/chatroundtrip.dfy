/** Chat to Responses and back keeps the meaning of a text-only or tool-only stream. */
module ChatRoundTrip {
  import opened Wrappers
  import opened Framing
  import opened Frames
  import opened EventMachine
  import opened Pipeline
  import opened StreamEvents
  import opened ChatStreams
  import opened ChatAcceptance
  import CR = ChatToResponses
  import CO = ChatOutputs
  import RC = ResponsesToChat

  /** What the round trip keeps: the text, the calls and the finish reason, where a stop after calls
      becomes `tool_calls`; and exactly `Returned` of the usage. */
  ghost predicate Kept(m: Meaning, n: Meaning, early: int) {
    && n.ended && n.text == m.text && SameCalls(m, n)
    && n.finish == (if m.finish == "stop" && m.order != [] then "tool_calls" else m.finish)
    && n.reports == [Returned(m, early)]
  }

  // --- The simulation ---

  datatype Codecs = Codecs(chat: Codec<ChatPayload>, responses: Codec<RPayload>)

  function First(k: Codecs): EventConverter<CR.State, ChatPayload, RPayload> {
    CR.Converter(k.chat, k.responses)
  }

  function Second(k: Codecs): EventConverter<RC.State, RPayload, ChatOut> {
    RC.Converter(k.responses, k.chat)
  }

  function Pass(k: Codecs, t: RC.State, ps: seq<RPayload>): Emit<RC.State, ChatOut> {
    RunEvents(Second(k), t, ResponsesEvents(ps))
  }

  lemma PassAppend(k: Codecs, t: RC.State, a: seq<RPayload>, b: seq<RPayload>)
    requires Pass(k, t, a).err.None?
    ensures var x := Pass(k, t, a);
            var y := Pass(k, x.core, b);
            Pass(k, t, a + b) == Emit(y.core, x.out + y.out, y.err)
  {
    CarriedAppend(a, b);
    RunEventsAppend(Second(k), t, ResponsesEvents(a), ResponsesEvents(b));
  }

  lemma PassOne(k: Codecs, t: RC.State, p: RPayload)
    requires !t.terminal && p.typ != RNone && !p.typ.ROther? && RC.StepPayload(t, p.typ, p).err.None?
    ensures Pass(k, t, [p]) == RC.StepPayload(t, p.typ, p)
  {
    hide RC.StepPayload, RTypeOf, RName;
    NamesAreRead(p.typ);
    EmptyName(p.typ);
    var e := Event(RName(p.typ), Payload(p));
    assert ResponsesEvents([p]) == [e];
    RunOne(Second(k), t, e);
  }

  lemma EmptyName(t: RType)
    requires t != RNone && !t.ROther?
    ensures RName(t) != ""
  {
  }

  lemma PassNothing(k: Codecs, t: RC.State)
    ensures Pass(k, t, []) == Emit(t, [], None)
  {
    assert ResponsesEvents([]) == [];
  }

  predicate Begun(s: CR.State) {
    s.started || s.messageStarted
  }

  /** The second converter has been told of the input tokens known when the output began. */
  ghost predicate UsageFollows(s: CR.State, t: RC.State, m: Meaning, n: Meaning, early: int) {
    && n.reports == [] && s.usage == Merged(m.reports)
    && t.usage == NO_USAGE.(input := if Begun(s) then Max0(early) else 0)
  }

  /** Both converters are live, and the output so far means what the input so far means. */
  ghost predicate Following(s: CR.State, t: RC.State, m: Meaning, n: Meaning, early: int) {
    && s.err.None? && !s.terminal && !t.terminal && t.err.None? && !m.ended && !n.ended
    && n.text == m.text && n.finish == "" && s.finishReason == m.finish && m.proper
    && UsageFollows(s, t, m, n, early)
  }

  ghost predicate TextFollows(s: CR.State, t: RC.State, m: Meaning, n: Meaning, early: int) {
    && Following(s, t, m, n, early) && !s.started
    && s.calls == map[] && m.calls == map[] && n.calls == map[] && m.order == n.order == []
    && t.calls == map[] && !t.functionCallSeen
    && t.messageCount == (if s.messageStarted then 1 else 0)
  }

  /** The k-th call to arrive has output index k, which is its index in the output. */
  ghost predicate CallsFollow(s: CR.State, m: Meaning, n: Meaning) {
    && |n.order| == |m.order| == s.nextItemIndex
    && (forall i :: i in s.calls <==> i in m.calls)
    && (forall i :: i in s.calls ==> 0 <= s.calls[i].itemIndex < |m.order| && m.order[s.calls[i].itemIndex] == i)
    && (forall k :: 0 <= k < |m.order| ==>
        m.order[k] in s.calls && s.calls[m.order[k]].itemIndex == k && n.order[k] == k && k in n.calls && n.calls[k] == m.calls[m.order[k]])
    && (forall k :: k in n.calls ==> 0 <= k < |m.order|)
    && (forall i :: i in s.calls ==> s.calls[i].emitted && m.calls[i] == Call(s.calls[i].id, s.calls[i].name, s.calls[i].arguments))
  }

  ghost predicate ToolsFollow(s: CR.State, t: RC.State, m: Meaning, n: Meaning, early: int) {
    && Following(s, t, m, n, early)
    && !s.messageStarted && t.messageCount == 0
    && CallsFollow(s, m, n)
    && (forall k :: k in t.calls <==> k in n.calls)
  }

  // --- Start events ---

  lemma StartPasses(k: Codecs, s: CR.State, t: RC.State)
    requires !t.terminal
    ensures var x := Pass(k, t, CR.StartEvents(s));
            && x.err.None?
            && x.core == t.(responseId := s.responseId, model := "", started := true,
                            usage := RC.ApplyUsage(t.usage, NO_USAGE.(input := s.usage.input)))
            && x.out == [RC.ChatChunk(x.core, NO_DELTA.(role := "assistant"), "")]
  {
    hide Pass;
    var e := CR.StartEvents(s);
    assert e == [e[0]] + [e[1]];
    PassOne(k, t, e[0]);
    var x := Pass(k, t, [e[0]]);
    PassOne(k, x.core, e[1]);
    PassAppend(k, t, [e[0]], [e[1]]);
  }

  lemma RoleMeansNothing(n: Meaning, t: RC.State)
    ensures ReadOut(n, [RC.ChatChunk(t, NO_DELTA.(role := "assistant"), "")]) == n
  {
    var o := RC.ChatChunk(t, NO_DELTA.(role := "assistant"), "");
    ReadOne(n, o);
    assert AddTools(n, []) == n;
    assert n.text + "" == n.text;
  }

  lemma BeginFollows(k: Codecs, s: CR.State, t: RC.State, m: Meaning, n: Meaning, early: int)
    requires ToolsFollow(s, t, m, n, early) && (!s.started ==> s.usage.input == early)
    ensures var a := CR.Begin(s);
            var x := Pass(k, t, a.out);
            x.err.None? && ToolsFollow(a.core, x.core, m, ReadOut(n, x.out), early)
  {
    hide CallsFollow, Pass, ReadOut;
    if s.started {
      PassNothing(k, t);
      ReadNothing(n);
    } else {
      StartPasses(k, s, t);
      RoleMeansNothing(n, Pass(k, t, CR.StartEvents(s)).core);
      SameCallState(s, CR.Begin(s).core, m, n);
    }
  }

  lemma ReadNothing(n: Meaning)
    ensures ReadOut(n, []) == n
  {
  }

  lemma SameCallState(s: CR.State, t: CR.State, m: Meaning, n: Meaning)
    requires CallsFollow(s, m, n) && t.calls == s.calls && t.nextItemIndex == s.nextItemIndex
    ensures CallsFollow(t, m, n)
  {
  }

  // --- Tool calls ---

  /** The calls after a first delta without its arguments. */
  lemma NewCallFollows(s: CR.State, s': CR.State, m: Meaning, n: Meaning, d: ToolDelta)
    requires CallsFollow(s, m, n) && d.index !in s.calls
    requires s'.calls == s.calls[d.index := CR.CallState(d.id, d.name, "", s.nextItemIndex, true)] && s'.nextItemIndex == s.nextItemIndex + 1
    ensures CallsFollow(s', AddTool(m, d.(arguments := "")), AddTool(n, ToolDelta(s.nextItemIndex, d.id, "function", d.name, "")))
  {
    var next := s.nextItemIndex;
    var call := Call(d.id, d.name, "");
    assert next !in n.calls && d.index !in m.calls;
    var m', n' := AddTool(m, d.(arguments := "")), AddTool(n, ToolDelta(next, d.id, "function", d.name, ""));
    assert m'.calls == m.calls[d.index := call] && m'.order == m.order + [d.index];
    assert n'.calls == n.calls[next := call] && n'.order == n.order + [next];
    hide AddTool;
    forall j | 0 <= j < |m'.order|
      ensures m'.order[j] in s'.calls && s'.calls[m'.order[j]].itemIndex == j && n'.order[j] == j
      ensures j in n'.calls && m'.order[j] in m'.calls && n'.calls[j] == m'.calls[m'.order[j]]
    {
      if j < |m.order| {
        assert m.order[j] in s.calls && m'.order[j] == m.order[j] && m.order[j] != d.index;
      }
    }
    forall i | i in s'.calls
      ensures 0 <= s'.calls[i].itemIndex < |m'.order| && m'.order[s'.calls[i].itemIndex] == i
      ensures s'.calls[i].emitted && m'.calls[i] == Call(s'.calls[i].id, s'.calls[i].name, s'.calls[i].arguments)
    {
      if i != d.index {
        assert i in s.calls;
      }
    }
  }

  /** The first delta of a call, with its id and name. */
  lemma NewCall(s: CR.State, d: ToolDelta)
    requires d.index !in s.calls && d.id != "" && d.name != "" && CR.Register(s, d).err.None?
    ensures var b := CR.Register(s, d).core;
            var c := CR.Announce(b, d);
            var item := Item(KFunctionCall, Numbered("fc_", d.index), d.id, d.name);
            && c.core == s.(callIds := b.callIds, nextItemIndex := s.nextItemIndex + 1,
                            calls := s.calls[d.index := CR.CallState(d.id, d.name, "", s.nextItemIndex, true)])
            && c.out == [Bare(RItemAdded).(outputIndex := s.nextItemIndex, item := item)]
  {
    hide Numbered;
  }

  lemma AnnounceFollows(k: Codecs, s: CR.State, t: RC.State, m: Meaning, n: Meaning, early: int, d: ToolDelta)
    requires ToolsFollow(s, t, m, n, early) && d.index !in s.calls && d.id != "" && d.name != ""
    requires CR.Register(s, d).err.None?
    ensures var b := CR.Register(s, d).core;
            var c := CR.Announce(b, d);
            var x := Pass(k, t, c.out);
            && x.err.None?
            && ToolsFollow(c.core, x.core, AddTool(m, d.(arguments := "")), ReadOut(n, x.out), early)
  {
    hide Pass, ReadOut, Numbered, CR.Register, CR.Announce;
    NewCall(s, d);
    var c := CR.Announce(CR.Register(s, d).core, d);
    var p := c.out[0];
    PassOne(k, t, p);
    var x := Pass(k, t, [p]);
    var delta := ToolDelta(s.nextItemIndex, d.id, "function", d.name, "");
    assert x.out == [RC.ChatChunk(t, NO_DELTA.(toolCalls := [delta]), "")];
    ToolChunkRead(n, t, delta);
    NewCallFollows(s, c.core, m, n, d);
  }

  lemma ToolChunkRead(n: Meaning, t: RC.State, delta: ToolDelta)
    requires !n.ended
    ensures ReadOut(n, [RC.ChatChunk(t, NO_DELTA.(toolCalls := [delta]), "")]) == AddTool(n, delta)
  {
    var o := RC.ChatChunk(t, NO_DELTA.(toolCalls := [delta]), "");
    ReadOne(n, o);
    var a := AddTool(n, delta);
    assert AddTools(a, [delta][1..]) == a;
    assert a.text + "" == a.text;
  }

  function AddArguments(m: Meaning, index: int, arguments: string): Meaning
    requires index in m.calls
  {
    m.(calls := m.calls[index := m.calls[index].(arguments := m.calls[index].arguments + arguments)])
  }

  /** The call with more arguments, seen from the order of arrival. */
  lemma MoreArgumentsAt(s: CR.State, s': CR.State, m: Meaning, n: Meaning, i: int, arguments: string, k: nat)
    requires CallsFollow(s, m, n) && i in s.calls && k < |m.order|
    requires s'.calls == s.calls[i := s.calls[i].(arguments := s.calls[i].arguments + arguments)]
    ensures s.calls[i].itemIndex in n.calls && i in m.calls
    ensures var m', n' := AddArguments(m, i, arguments), AddArguments(n, s.calls[i].itemIndex, arguments);
            && m.order[k] in s'.calls && s'.calls[m.order[k]].itemIndex == k && n.order[k] == k
            && k in n'.calls && m.order[k] in m'.calls && n'.calls[k] == m'.calls[m.order[k]]
  {
    assert m.order[s.calls[i].itemIndex] == i;
    var j := m.order[k];
    assert j in s.calls && s.calls[j].itemIndex == k;
    assert j in m.calls;
  }

  lemma MoreArgumentsFollow(s: CR.State, s': CR.State, m: Meaning, n: Meaning, i: int, arguments: string)
    requires CallsFollow(s, m, n) && i in s.calls
    requires s'.calls == s.calls[i := s.calls[i].(arguments := s.calls[i].arguments + arguments)] && s'.nextItemIndex == s.nextItemIndex
    ensures s.calls[i].itemIndex in n.calls
    ensures CallsFollow(s', AddArguments(m, i, arguments), AddArguments(n, s.calls[i].itemIndex, arguments))
  {
    MoreArgumentsAt(s, s', m, n, i, arguments, s.calls[i].itemIndex);
    forall k | 0 <= k < |m.order|
      ensures var m', n' := AddArguments(m, i, arguments), AddArguments(n, s.calls[i].itemIndex, arguments);
              && m.order[k] in s'.calls && s'.calls[m.order[k]].itemIndex == k && n.order[k] == k
              && k in n'.calls && m.order[k] in m'.calls && n'.calls[k] == m'.calls[m.order[k]]
    {
      MoreArgumentsAt(s, s', m, n, i, arguments, k);
    }
    forall j | j in s'.calls
      ensures s'.calls[j].itemIndex == s.calls[j].itemIndex && s'.calls[j].emitted
      ensures j in m.calls && AddArguments(m, i, arguments).calls[j] == Call(s'.calls[j].id, s'.calls[j].name, s'.calls[j].arguments)
    {
      assert j in s.calls;
    }
  }

  lemma ArgueFollows(k: Codecs, s: CR.State, t: RC.State, m: Meaning, n: Meaning, early: int, d: ToolDelta)
    requires ToolsFollow(s, t, m, n, early) && d.index in s.calls
    ensures var c := CR.Argue(s, d);
            var x := Pass(k, t, c.out);
            && c.err.None? && x.err.None?
            && ToolsFollow(c.core, x.core, AddArguments(m, d.index, d.arguments), ReadOut(n, x.out), early)
  {
    hide Pass, ReadOut;
    var c := CR.Argue(s, d);
    var j := s.calls[d.index].itemIndex;
    if d.arguments == "" {
      PassNothing(k, t);
      ReadNothing(n);
      var a := m.calls[d.index];
      assert a.arguments + "" == a.arguments;
      assert AddArguments(m, d.index, "") == m;
    } else {
      var p := c.out[0];
      assert c.out == [p];
      PassOne(k, t, p);
      ToolChunkRead(n, t, ToolDelta(j, "", "", "", d.arguments));
      MoreArgumentsFollow(s, c.core, m, n, d.index, d.arguments);
      assert AddTool(n, ToolDelta(j, "", "", "", d.arguments)) == AddArguments(n, j, d.arguments);
    }
  }

  lemma ToolFollows(k: Codecs, s: CR.State, t: RC.State, m: Meaning, n: Meaning, early: int, d: ToolDelta)
    requires ToolsFollow(s, t, m, n, early) && AddTool(m, d).proper && CR.ToolStep(s, d).err.None?
    requires !s.started ==> s.usage.input == early
    ensures var e := CR.ToolStep(s, d);
            var x := Pass(k, t, e.out);
            x.err.None? && ToolsFollow(e.core, x.core, AddTool(m, d), ReadOut(n, x.out), early)
  {
    hide Pass, ReadOut, ToolsFollow, CR.Begin, CR.Argue, CR.Announce, CR.Register;
    SameKeys(s, t, m, n, early);
    BeginKeepsCalls(s);
    var a := CR.Begin(s);
    var b := CR.Register(a.core, d);
    var c := CR.Announce(b.core, d);
    var e := CR.Argue(c.core, d);
    var x := Pass(k, t, a.out);
    var n1 := ReadOut(n, x.out);
    BeginFollows(k, s, t, m, n, early);
    var m2 := if d.index in m.calls then m else AddTool(m, d.(arguments := ""));
    var y := Pass(k, x.core, c.out);
    if d.index in m.calls {
      KnownCallFollows(k, a.core, x.core, m, n1, early, d);
    } else {
      AnnounceFollows(k, a.core, x.core, m, n1, early, d);
    }
    var n2 := ReadOut(n1, y.out);
    assert y.err.None? && ToolsFollow(c.core, y.core, m2, n2, early);
    ArgueFollows(k, c.core, y.core, m2, n2, early, d);
    var z := Pass(k, y.core, e.out);
    assert AddArguments(m2, d.index, d.arguments) == AddTool(m, d) by {
      assert "" + d.arguments == d.arguments;
      assert d.index !in m.calls ==> m.calls[d.index := Call(d.id, d.name, "")][d.index := Call(d.id, d.name, d.arguments)] == m.calls[d.index := Call(d.id, d.name, d.arguments)];
    }
    PassAppend(k, t, a.out, c.out);
    PassAppend(k, t, a.out + c.out, e.out);
    ReadAppend(n, x.out, y.out);
    ReadAppend(n, x.out + y.out, z.out);
  }

  lemma SameKeys(s: CR.State, t: RC.State, m: Meaning, n: Meaning, early: int)
    requires ToolsFollow(s, t, m, n, early)
    ensures forall i :: i in s.calls <==> i in m.calls
  {
  }

  lemma BeginKeepsCalls(s: CR.State)
    ensures CR.Begin(s).core.calls == s.calls && CR.Begin(s).err.None?
  {
  }

  lemma KnownCallFollows(k: Codecs, s: CR.State, t: RC.State, m: Meaning, n: Meaning, early: int, d: ToolDelta)
    requires ToolsFollow(s, t, m, n, early) && d.index in m.calls && CR.Register(s, d).err.None?
    ensures var b := CR.Register(s, d).core;
            var c := CR.Announce(b, d);
            var x := Pass(k, t, c.out);
            x.err.None? && c.out == [] && ToolsFollow(c.core, x.core, m, ReadOut(n, x.out), early)
  {
    hide Pass, ReadOut;
    PassNothing(k, t);
    ReadNothing(n);
    SameCallState(s, CR.Register(s, d).core, m, n);
  }

  lemma {:induction false} ToolsDoFollow(k: Codecs, s: CR.State, t: RC.State, m: Meaning, n: Meaning, early: int, ds: seq<ToolDelta>)
    requires ToolsFollow(s, t, m, n, early) && AddTools(m, ds).proper && CR.ToolSteps(s, ds).err.None?
    requires ds != [] && !s.started ==> s.usage.input == early
    ensures var e := CR.ToolSteps(s, ds);
            var x := Pass(k, t, e.out);
            x.err.None? && ToolsFollow(e.core, x.core, AddTools(m, ds), ReadOut(n, x.out), early)
    decreases |ds|
  {
    hide Pass, ReadOut, CR.ToolStep, ToolsFollow, AddTool;
    if ds == [] {
      PassNothing(k, t);
      ReadNothing(n);
    } else {
      ProperStays(AddTool(m, ds[0]), ds[1..]);
      ToolFollows(k, s, t, m, n, early, ds[0]);
      ToolShape(s, ds[0]);
      var e := CR.ToolStep(s, ds[0]);
      var x := Pass(k, t, e.out);
      var f := CR.ToolSteps(e.core, ds[1..]);
      ToolsDoFollow(k, e.core, x.core, AddTool(m, ds[0]), ReadOut(n, x.out), early, ds[1..]);
      PassAppend(k, t, e.out, f.out);
      ReadAppend(n, x.out, Pass(k, x.core, f.out).out);
    }
  }

  // --- Text ---

  lemma SetupPasses(k: Codecs, t: RC.State, index: int)
    requires !t.terminal && t.messageCount == 0 && !t.functionCallSeen
    ensures Pass(k, t, CR.MessageSetup(index)) == Emit(t.(messageCount := 1), [], None)
  {
    hide Pass;
    var e := CR.MessageSetup(index);
    assert e == [e[0]] + [e[1]];
    PassOne(k, t, e[0]);
    PassOne(k, t.(messageCount := 1), e[1]);
    PassAppend(k, t, [e[0]], [e[1]]);
  }

  lemma TextPasses(k: Codecs, t: RC.State, n: Meaning, index: int, content: string)
    requires !t.terminal && !n.ended
    ensures var x := Pass(k, t, [Bare(RTextDelta).(outputIndex := index, delta := content)]);
            x.err.None? && x.core == t && ReadOut(n, x.out) == n.(text := n.text + content)
  {
    hide Pass, ReadOut;
    var p := Bare(RTextDelta).(outputIndex := index, delta := content);
    PassOne(k, t, p);
    var o := RC.ChatChunk(t, NO_DELTA.(content := content), "");
    assert Pass(k, t, [p]).out == [o];
    ReadOne(n, o);
    assert AddTools(n, []) == n;
  }

  lemma ContentFollows(k: Codecs, s: CR.State, t: RC.State, m: Meaning, n: Meaning, early: int, content: string)
    requires TextFollows(s, t, m, n, early) && (content != "" && !s.messageStarted ==> s.usage.input == early)
    ensures var e := CR.ContentStep(s, content);
            var x := Pass(k, t, e.out);
            x.err.None? && TextFollows(e.core, x.core, m.(text := m.text + content), ReadOut(n, x.out), early)
  {
    hide Pass, ReadOut;
    var e := CR.ContentStep(s, content);
    if content == "" {
      PassNothing(k, t);
      ReadNothing(n);
      assert m.text + "" == m.text;
    } else if s.messageStarted {
      assert e.out == [Bare(RTextDelta).(outputIndex := s.messageItemIndex, delta := content)];
      TextPasses(k, t, n, s.messageItemIndex, content);
    } else {
      var start, setup := CR.StartEvents(e.core), CR.MessageSetup(e.core.messageItemIndex);
      var text := [Bare(RTextDelta).(outputIndex := e.core.messageItemIndex, delta := content)];
      StartPasses(k, e.core, t);
      var x := Pass(k, t, start);
      RoleMeansNothing(n, x.core);
      SetupPasses(k, x.core, e.core.messageItemIndex);
      PassAppend(k, t, start, setup);
      TextPasses(k, x.core.(messageCount := 1), n, e.core.messageItemIndex, content);
      PassAppend(k, t, start + setup, text);
      ReadAppend(n, x.out, Pass(k, x.core.(messageCount := 1), text).out);
      assert x.out + [] == x.out;
    }
  }

  // --- The end ---

  predicate Ignored(p: RPayload) {
    p.typ == RTextDone || p.typ == RPartDone || p.typ == RItemDone || p.typ == RArgsDone
  }

  lemma {:induction false} IgnoredPass(k: Codecs, t: RC.State, ps: seq<RPayload>)
    requires !t.terminal && forall p :: p in ps ==> Ignored(p)
    ensures Pass(k, t, ps) == Emit(t, [], None)
    decreases |ps|
  {
    hide Pass;
    if ps == [] {
      PassNothing(k, t);
    } else {
      assert ps == [ps[0]] + ps[1..];
      assert ps[0] in ps;
      PassOne(k, t, ps[0]);
      PassAppend(k, t, [ps[0]], ps[1..]);
      IgnoredPass(k, t, ps[1..]);
    }
  }

  lemma {:induction false} CallsDoneIgnored(s: CR.State, i: nat)
    ensures forall p :: p in CR.CallsDone(s, i) ==> Ignored(p)
    decreases |s.calls| - i
  {
    if i < |s.calls| {
      CallsDoneIgnored(s, i + 1);
    }
  }

  /** The three closing chunks. */
  lemma ClosingRead(n: Meaning, t: RC.State, finish: string)
    requires !n.ended && n.finish == "" && finish != ""
    ensures ReadOut(n, RC.FinishWith(t, finish).out) == n.(reports := n.reports + [t.usage], finish := finish, ended := true)
  {
    var o := RC.FinishWith(t, finish).out;
    assert o == [o[0]] + [o[1]] + [o[2]];
    ReadAppend(n, [o[0]] + [o[1]], [o[2]]);
    ReadAppend(n, [o[0]], [o[1]]);
    ReadOne(n, o[0]);
    var n1 := ReadOut(n, [o[0]]);
    ReadOne(n1, o[1]);
    assert AddTools(n1, []) == n1;
    assert n1.text + "" == n1.text;
    ReadOne(ReadOut(n1, [o[1]]), o[2]);
  }

  lemma CompletedReads(k: Codecs, s: CR.State, t: RC.State, n: Meaning)
    requires CR.TerminalEvents(s).err.None? && !t.terminal && !n.ended && n.finish == "" && Completes(s.finishReason)
    ensures var x := Pass(k, t, CR.TerminalEvents(s).out);
            && x.err.None? && x.core.terminal && x.core.err == t.err
            && ReadOut(n, x.out) == n.(reports := n.reports + [RC.ApplyUsage(t.usage, CR.PrintedUsage(s.usage))], ended := true,
                                       finish := if s.finishReason == "stop" && !(|t.calls| > 0) then "stop" else "tool_calls")
  {
    hide Pass, ReadOut, CR.MessageDone, CR.CallsDone, CR.Ending, RC.FinishReason, RC.ApplyUsage, CR.PrintedUsage;
    var end := CR.Ending(s).value;
    var u := t.(usage := RC.ApplyUsage(t.usage, end.response.usage));
    TerminalPasses(k, s, t);
    EndingReasons(s, u);
    ClosingRead(n, u, RC.FinishReason(u, end.response.stopReason));
  }

  lemma IncompleteReads(k: Codecs, s: CR.State, t: RC.State, n: Meaning)
    requires CR.TerminalEvents(s).err.None? && !t.terminal && !n.ended && n.finish == "" && !Completes(s.finishReason)
    ensures var x := Pass(k, t, CR.TerminalEvents(s).out);
            && x.err.None? && x.core.terminal && x.core.err == t.err
            && ReadOut(n, x.out) == n.(reports := n.reports + [t.usage], ended := true, finish := s.finishReason)
  {
    hide Pass, ReadOut, CR.MessageDone, CR.CallsDone, CR.Ending, RC.FinishReason, RC.ApplyUsage, CR.PrintedUsage;
    TerminalPasses(k, s, t);
    EndingReasons(s, t);
    ClosingRead(n, t, s.finishReason);
  }

  lemma EndFollows(k: Codecs, s: CR.State, t: RC.State, m: Meaning, n: Meaning, early: int, m': Meaning)
    requires Following(s, t, m, n, early) && CR.TerminalEvents(s).err.None?
    requires SameCalls(m, n) && (|t.calls| > 0 <==> m.order != [])
    requires m' == m.(ended := true) && (!Begun(s) ==> early == 0)
    ensures var e := CR.TerminalEvents(s);
            var x := Pass(k, t, e.out);
            x.err.None? && x.core.terminal && e.core.terminal && e.core.err.None? && x.core.err.None? && Kept(m', ReadOut(n, x.out), early)
  {
    hide Pass, ReadOut, CR.MessageDone, CR.CallsDone, SameCalls, CR.Ending, RC.ApplyUsage, CR.PrintedUsage, UsageFollows, Counted;
    if Completes(s.finishReason) {
      CompletedReads(k, s, t, n);
      UsageComesBack(s, t, m, n, early);
    } else {
      IncompleteReads(k, s, t, n);
      UsageComesBack(s, t, m, n, early);
    }
    assert Returned(m', early) == Returned(m, early);
    SameCallsEnded(m, m', n, ReadOut(n, Pass(k, t, CR.TerminalEvents(s).out).out));
  }

  lemma UsageComesBack(s: CR.State, t: RC.State, m: Meaning, n: Meaning, early: int)
    requires UsageFollows(s, t, m, n, early) && (!Begun(s) ==> early == 0)
    ensures Completes(m.finish) ==> RC.ApplyUsage(t.usage, CR.PrintedUsage(s.usage)) == Returned(m, early)
    ensures !Completes(m.finish) ==> t.usage == Returned(m, early)
    ensures n.reports == []
  {
  }

  /** The finish reason through both converters. */
  lemma EndingReasons(s: CR.State, t: RC.State)
    requires CR.Ending(s).Some?
    ensures var end := CR.Ending(s).value;
            var r := s.finishReason;
            && r in ["stop", "tool_calls", "length", "content_filter"]
            && end.response.usage == CR.PrintedUsage(s.usage)
            && end.typ == (if r == "stop" || r == "tool_calls" then RCompleted else RIncomplete)
            && (r == "stop" || r == "tool_calls" ==>
                RC.FinishReason(t, end.response.stopReason) == if r == "stop" && !(|t.calls| > 0) then "stop" else "tool_calls")
            && (r == "length" || r == "content_filter" ==>
                (if end.response.incompleteReason == "content_filter" then "content_filter" else "length") == r)
  {
  }

  /** Only the last terminal event means anything to the second converter. */
  lemma TerminalPasses(k: Codecs, s: CR.State, t: RC.State)
    requires !t.terminal && CR.TerminalEvents(s).err.None?
    ensures var end := CR.Ending(s).value;
            Pass(k, t, CR.TerminalEvents(s).out) == RC.StepPayload(t, end.typ, end)
  {
    hide Pass;
    var done, end := CR.MessageDone(s) + CR.CallsDone(s, 0), CR.Ending(s).value;
    CallsDoneIgnored(s, 0);
    IgnoredPass(k, t, done);
    PassOne(k, t, end);
    PassAppend(k, t, done, [end]);
    var x := RC.StepPayload(t, end.typ, end);
    assert [] + x.out == x.out;
  }

  lemma SameCallsEnded(m: Meaning, m': Meaning, n: Meaning, n': Meaning)
    requires SameCalls(m, n) && m'.order == m.order && m'.calls == m.calls && n'.order == n.order && n'.calls == n.calls
    ensures SameCalls(m', n')
  {
  }

  // --- Whole streams ---

  datatype Kind = Text | Tools

  /** The stream brings no tool calls, or no text. */
  predicate IsOf(kind: Kind, m: Meaning) {
    if kind == Text then m.order == [] else m.text == ""
  }

  /** An event of a text-only, or of a tool-only, stream. */
  predicate Fits(kind: Kind, e: Event<ChatPayload>) {
    e.input.Payload? && e.input.p.choices != [] ==>
      var d := e.input.p.choices[0].delta;
      if kind == Text then d.toolCalls == [] else d.content == ""
  }

  ghost predicate Follows(kind: Kind, s: CR.State, t: RC.State, m: Meaning, n: Meaning, early: int) {
    if kind == Text then TextFollows(s, t, m, n, early) else ToolsFollow(s, t, m, n, early)
  }

  lemma CallsFollowSame(s: CR.State, m: Meaning, n: Meaning)
    requires CallsFollow(s, m, n)
    ensures SameCalls(m, n)
  {
    forall j | 0 <= j < |m.order|
      ensures m.order[j] in m.calls && n.order[j] in n.calls && n.calls[n.order[j]] == m.calls[m.order[j]]
    {
      var i := m.order[j];
      assert i in s.calls;
      assert i in m.calls;
      assert n.order[j] == j;
    }
  }

  lemma FollowsCalls(kind: Kind, s: CR.State, t: RC.State, m: Meaning, n: Meaning, early: int)
    requires Follows(kind, s, t, m, n, early)
    ensures Following(s, t, m, n, early) && SameCalls(m, n) && (|t.calls| > 0 <==> m.order != [])
    ensures if kind == Text then !s.started else !s.messageStarted
  {
    if kind == Tools {
      CallsFollowSame(s, m, n);
      if m.order != [] {
        assert 0 in n.calls && 0 in t.calls;
      } else {
        assert forall j :: j !in t.calls;
        assert t.calls == map[];
      }
    }
  }

  /** Changes of the finish reason and the usage outside the two converters' output. */
  lemma FollowsOn(kind: Kind, s: CR.State, s': CR.State, t: RC.State, m: Meaning, m': Meaning, n: Meaning, early: int)
    requires Follows(kind, s, t, m, n, early)
    requires s' == s.(finishReason := m'.finish, usage := s'.usage) && m' == m.(finish := m'.finish, reports := m'.reports)
    requires UsageFollows(s', t, m', n, early)
    ensures Follows(kind, s', t, m', n, early)
  {
    if kind == Tools {
      hide CallsFollow;
      SameCallState(s, s', m, n);
      SameOrder(s', m, m', n);
    }
  }

  lemma SameOrder(s: CR.State, m: Meaning, m': Meaning, n: Meaning)
    requires CallsFollow(s, m, n) && m'.order == m.order && m'.calls == m.calls
    ensures CallsFollow(s, m', n)
  {
  }

  lemma ChoiceFollows(k: Codecs, kind: Kind, s: CR.State, t: RC.State, m: Meaning, n: Meaning, early: int, cs: seq<Choice>)
    requires Follows(kind, s, t, m, n, early) && cs != [] && CR.ChoiceStep(s, cs).err.None? && AddChoice(m, cs[0]).proper
    requires if kind == Text then cs[0].delta.toolCalls == [] else cs[0].delta.content == ""
    requires cs[0].delta.toolCalls != [] || cs[0].delta.content != "" ==> Begun(s) || s.usage.input == early
    ensures var e := CR.ChoiceStep(s, cs);
            var x := Pass(k, t, e.out);
            x.err.None? && Follows(kind, e.core, x.core, AddChoice(m, cs[0]), ReadOut(n, x.out), early)
  {
    hide Pass, ReadOut, TextFollows, ToolsFollow, CR.ContentStep, CR.ToolSteps;
    var c := cs[0];
    var e := CR.ChoiceStep(s, cs);
    FollowsCalls(kind, s, t, m, n, early);
    if kind == Text {
      NoToolSteps(s, m);
      ContentFollows(k, s, t, m, n, early, c.delta.content);
      var y := CR.ContentStep(s, c.delta.content);
      assert [] + y.out == y.out;
      var x := Pass(k, t, y.out);
      FollowsCalls(Text, y.core, x.core, m.(text := m.text + c.delta.content), ReadOut(n, x.out), early);
      FollowsOn(Text, y.core, e.core, x.core, m.(text := m.text + c.delta.content), AddChoice(m, c), ReadOut(n, x.out), early);
    } else {
      ToolsDoFollow(k, s, t, m, n, early, c.delta.toolCalls);
      var y := CR.ToolSteps(s, c.delta.toolCalls);
      NoContentStep(y.core);
      assert y.out + [] == y.out;
      var x := Pass(k, t, y.out);
      var m2 := AddTools(m, c.delta.toolCalls);
      assert m2.text + "" == m2.text;
      FollowsCalls(Tools, y.core, x.core, m2, ReadOut(n, x.out), early);
      FollowsOn(Tools, y.core, e.core, x.core, m2, AddChoice(m, c), ReadOut(n, x.out), early);
    }
  }

  lemma NoToolSteps(s: CR.State, m: Meaning)
    ensures CR.ToolSteps(s, []) == Emit(s, [], None) && AddTools(m, []) == m
  {
  }

  lemma NoContentStep(s: CR.State)
    ensures CR.ContentStep(s, "") == Emit(s, [], None)
  {
  }

  lemma StepFollows(k: Codecs, kind: Kind, s: CR.State, t: RC.State, m: Meaning, n: Meaning, early: int, e: Event<ChatPayload>)
    requires Follows(kind, s, t, m, n, early) && Fits(kind, e) && CR.Step(s, e).err.None? && Understand(m, e).proper
    requires !Begun(s) && Speaks(e) ==> Last(m.reports).input == early
    requires !Begun(s) && Understand(m, e).ended ==> early == 0
    ensures var c := CR.Step(s, e);
            var x := Pass(k, t, c.out);
            var m', n' := Understand(m, e), ReadOut(n, x.out);
            && x.err.None?
            && (c.core.terminal <==> m'.ended)
            && (if m'.ended then x.core.terminal && c.core.err.None? && x.core.err.None? && Kept(m', n', early) else Follows(kind, c.core, x.core, m', n', early))
  {
    hide Pass, ReadOut, CR.ChoiceStep, AddChoice, Follows, CR.TerminalEvents, Kept;
    FollowsCalls(kind, s, t, m, n, early);
    PassNothing(k, t);
    ReadNothing(n);
    match e.input
    case DoneMark =>
      EndFollows(k, s, t, m, n, early, m.(ended := true));
    case Payload(p) =>
      if p.choices != [] {
        ChoiceFollows(k, kind, s, t, m, n, early, p.choices);
        ChoiceStaysLive(s, m, p.choices);
      } else if p.usage.Counts? {
        var s' := s.(usage := CR.ApplyUsage(s.usage, p.usage.u));
        var m1 := m.(reports := m.reports + [p.usage.u]);
        UsageTracks(m.reports, p.usage.u);
        FollowsOn(kind, s, s', t, m, m1, n, early);
        if m.finish != "" {
          FollowsCalls(kind, s', t, m1, n, early);
          EndFollows(k, s', t, m1, n, early, m1.(ended := true));
        }
      }
    case _ =>
  }

  lemma ChoiceStaysLive(s: CR.State, m: Meaning, cs: seq<Choice>)
    requires cs != [] && CR.ChoiceStep(s, cs).err.None?
    ensures CR.ChoiceStep(s, cs).core.terminal == s.terminal && AddChoice(m, cs[0]).ended == m.ended
  {
    ProperStays(m, cs[0].delta.toolCalls);
  }

  lemma {:induction false} ToolsBegin(s: CR.State, ds: seq<ToolDelta>)
    requires CR.ToolSteps(s, ds).err.None?
    ensures ds != [] || Begun(s) ==> Begun(CR.ToolSteps(s, ds).core)
    decreases |ds|
  {
    if ds != [] {
      ToolShape(s, ds[0]);
      hide CR.ToolStep;
      ToolsBegin(CR.ToolStep(s, ds[0]).core, ds[1..]);
    }
  }

  /** Output begins with the first event that speaks. */
  lemma SpeakingBegins(s: CR.State, e: Event<ChatPayload>)
    requires CR.Step(s, e).err.None?
    ensures Speaks(e) || Begun(s) ==> Begun(CR.Step(s, e).core)
  {
    hide CR.ToolSteps;
    if e.input.Payload? && e.input.p.choices != [] {
      ToolsBegin(s, e.input.p.choices[0].delta.toolCalls);
    }
  }

  lemma SpeakingIsNotTheEnd(m: Meaning, e: Event<ChatPayload>)
    requires Speaks(e) && !m.ended
    ensures !Understand(m, e).ended
  {
    ProperStays(m, e.input.p.choices[0].delta.toolCalls);
  }

  /** In such a stream every event is one. */
  lemma EventsFit(kind: Kind, m: Meaning, es: seq<Event<ChatPayload>>)
    requires es != [] && !m.ended && IsOf(kind, UnderstandAll(m, es)) && (kind == Text ==> m.calls == map[])
    ensures Fits(kind, es[0])
  {
    StreamGrows(Understand(m, es[0]), es[1..]);
    if es[0].input.Payload? && es[0].input.p.choices != [] {
      ToolsGrow(m, es[0].input.p.choices[0].delta.toolCalls);
      ProperStays(m, es[0].input.p.choices[0].delta.toolCalls);
    }
  }

  lemma NoCallsInText(kind: Kind, s: CR.State, t: RC.State, m: Meaning, n: Meaning, early: int)
    requires Follows(kind, s, t, m, n, early)
    ensures kind == Text ==> m.calls == map[]
  {
  }

  lemma {:induction false} RunFollows(k: Codecs, kind: Kind, s: CR.State, t: RC.State, m: Meaning, n: Meaning, early: int, es: seq<Event<ChatPayload>>)
    requires Follows(kind, s, t, m, n, early) && IsOf(kind, UnderstandAll(m, es)) && UnderstandAll(m, es).proper
    requires RunEvents(First(k), s, es).err.None? && RunEvents(First(k), s, es).core.terminal
    requires !Begun(s) ==> EarlyInput(m, es) == early
    ensures var x := Pipe(First(k), Second(k), s, t, es);
            && x.err.None? && x.first.err.None? && x.second.terminal && x.second.err.None?
            && UnderstandAll(m, es).ended && Kept(UnderstandAll(m, es), ReadOut(n, x.out), early)
    decreases |es|
  {
    hide ReadOut, CR.Step, Follows, Kept, Understand, Fits, Speaks, Begun;
    FollowsCalls(kind, s, t, m, n, early);
    assert es != [];
    var e, rest := es[0], es[1..];
    var c := CR.Step(s, e);
    assert React(First(k), s, e) == c;
    StaysProper(Understand(m, e), rest);
    NoCallsInText(kind, s, t, m, n, early);
    EventsFit(kind, m, es);
    SpeakingBegins(s, e);
    if Speaks(e) {
      SpeakingIsNotTheEnd(m, e);
    }
    StepFollows(k, kind, s, t, m, n, early, e);
    var x := Pass(k, t, c.out);
    var m', n' := Understand(m, e), ReadOut(n, x.out);
    PipeOne(First(k), Second(k), s, t, e);
    PipeAppend(First(k), Second(k), s, t, [e], rest);
    assert [e] + rest == es;
    if m'.ended {
      Rests(First(k), c.core, rest);
      EndStays(m', rest);
      PassNothing(k, x.core);
      assert x.out + [] == x.out;
    } else {
      RunFollows(k, kind, c.core, x.core, m', n', early, rest);
      ReadAppend(n, x.out, Pipe(First(k), Second(k), c.core, x.core, rest).out);
    }
  }

  lemma OneKindComesBack(k: Codecs, kind: Kind, id: string, es: seq<Event<ChatPayload>>)
    requires StreamOk(NOTHING, es) && IsOf(kind, UnderstandAll(NOTHING, es))
    ensures var x := Pipe(First(k), Second(k), CR.Init(id), RC.Init(), es);
            && x.err.None? && x.first.terminal && x.first.err.None? && x.second.terminal && x.second.err.None?
            && Kept(UnderstandAll(NOTHING, es), ReadOut(NOTHING, x.out), EarlyInput(NOTHING, es))
  {
    hide StreamOk, RunEvents;
    AcceptedExactly(k.chat, k.responses, id, es);
    RunFollows(k, kind, CR.Init(id), RC.Init(), NOTHING, NOTHING, EarlyInput(NOTHING, es), es);
  }

  // --- Text and calls together ---

  ghost predicate Brings(ps: seq<RPayload>, kind: ItemKind) {
    exists p :: p in ps && p.typ == RItemAdded && p.item.kind == kind
  }

  /** The second converter has not seen items of both kinds, and knows which it has seen. */
  ghost predicate SeenOne(t: RC.State, message: bool, call: bool) {
    && !t.terminal && !(t.messageCount > 0 && t.functionCallSeen)
    && (message ==> t.messageCount > 0) && (call ==> t.functionCallSeen)
  }

  lemma OneBrings(p: RPayload, kind: ItemKind)
    ensures Brings([p], kind) <==> p.typ == RItemAdded && p.item.kind == kind
  {
    assert p in [p];
  }

  lemma MessageAdded(t: RC.State, p: RPayload)
    requires RC.AddItem(t, p).err.None? && p.item.kind == KMessage
    ensures !t.functionCallSeen && RC.AddItem(t, p).core == t.(messageCount := 1)
  {
  }

  lemma CallAdded(t: RC.State, p: RPayload)
    requires RC.AddItem(t, p).err.None? && p.item.kind != KMessage
    ensures p.item.kind == KFunctionCall && t.messageCount == 0
    ensures var c := RC.AddItem(t, p).core; c.messageCount == 0 && c.functionCallSeen && c.terminal == t.terminal
  {
  }

  lemma ItemTaken(t: RC.State, p: RPayload, message: bool, call: bool)
    requires SeenOne(t, message, call) && p.typ == RItemAdded && RC.AddItem(t, p).err.None?
    ensures SeenOne(RC.AddItem(t, p).core, message || p.item.kind == KMessage, call || p.item.kind == KFunctionCall)
  {
    hide RC.AddItem;
    if p.item.kind == KMessage {
      MessageAdded(t, p);
    } else {
      CallAdded(t, p);
    }
  }

  lemma OtherTaken(t: RC.State, p: RPayload)
    requires p.typ != RItemAdded && !CO.EndsStream(p)
    ensures var c := RC.StepPayload(t, p.typ, p).core;
            c.terminal == t.terminal && c.messageCount == t.messageCount && c.functionCallSeen == t.functionCallSeen
  {
    hide RC.ApplyUsage, RC.FinishReason, RC.ChatChunk;
  }

  /** Whatever a single event does, the name or the type decides. */
  lemma PassStep(k: Codecs, t: RC.State, p: RPayload)
    requires !t.terminal && !p.typ.ROther? && Pass(k, t, [p]).err.None?
    ensures RC.StepPayload(t, p.typ, p).err.None? && Pass(k, t, [p]) == RC.StepPayload(t, p.typ, p)
  {
    hide RTypeOf, RName, RC.StepPayload;
    NamesAreRead(p.typ);
    var e := Event(RName(p.typ), Payload(p));
    assert ResponsesEvents([p]) == [e];
    RunOne(Second(k), t, e);
    if p.typ != RNone {
      EmptyName(p.typ);
    }
  }

  lemma ItemSeen(k: Codecs, t: RC.State, p: RPayload, message: bool, call: bool)
    requires SeenOne(t, message, call) && !CO.EndsStream(p) && !p.typ.ROther? && Pass(k, t, [p]).err.None?
    ensures SeenOne(Pass(k, t, [p]).core, message || Brings([p], KMessage), call || Brings([p], KFunctionCall))
  {
    hide Pass, Brings, RC.AddItem;
    OneBrings(p, KMessage);
    OneBrings(p, KFunctionCall);
    PassStep(k, t, p);
    if p.typ == RItemAdded {
      ItemTaken(t, p, message, call);
    } else {
      hide RC.StepPayload;
      OtherTaken(t, p);
    }
  }

  lemma {:induction false} ItemsSeen(k: Codecs, t: RC.State, ps: seq<RPayload>, message: bool, call: bool)
    requires SeenOne(t, message, call) && Named(ps) && (forall p :: p in ps ==> !CO.EndsStream(p)) && Pass(k, t, ps).err.None?
    ensures SeenOne(Pass(k, t, ps).core, message || Brings(ps, KMessage), call || Brings(ps, KFunctionCall))
    decreases |ps|
  {
    hide Pass, SeenOne;
    if ps == [] {
      PassNothing(k, t);
    } else {
      assert ps == [ps[0]] + ps[1..];
      PassPrefix(k, t, [ps[0]], ps[1..]);
      ItemSeen(k, t, ps[0], message, call);
      PassAppend(k, t, [ps[0]], ps[1..]);
      ItemsSeen(k, Pass(k, t, [ps[0]]).core, ps[1..], message || Brings([ps[0]], KMessage), call || Brings([ps[0]], KFunctionCall));
    }
  }

  lemma PassPrefix(k: Codecs, t: RC.State, a: seq<RPayload>, b: seq<RPayload>)
    requires Pass(k, t, a + b).err.None?
    ensures Pass(k, t, a).err.None?
  {
    CarriedAppend(a, b);
    RunEventsAppend(Second(k), t, ResponsesEvents(a), ResponsesEvents(b));
  }

  lemma BothAreRefused(k: Codecs, out: seq<RPayload>, body: seq<RPayload>)
    requires CO.EndsWith(out, body) && Named(out) && Brings(body, KMessage) && Brings(body, KFunctionCall)
    ensures Pass(k, RC.Init(), out).err.Some?
  {
    hide Pass, Brings;
    assert out == body + [out[|out| - 1]];
    if Pass(k, RC.Init(), out).err.None? {
      PassPrefix(k, RC.Init(), body, [out[|out| - 1]]);
      ItemsSeen(k, RC.Init(), body, false, false);
    }
  }

  lemma MixIsRefused(k: Codecs, id: string, es: seq<Event<ChatPayload>>)
    requires StreamOk(NOTHING, es) && UnderstandAll(NOTHING, es).text != "" && UnderstandAll(NOTHING, es).order != []
    ensures Pipe(First(k), Second(k), CR.Init(id), RC.Init(), es).err.Some?
  {
    hide StreamOk, UnderstandAll, RunEvents;
    var body := CO.MixAnnouncesBoth(k.chat, k.responses, id, es);
    var n :| CO.AnnouncedCall(body, n);
    RunNamed(First(k), CR.Init(id), es);
    BothAreRefused(k, RunEvents(First(k), CR.Init(id), es).out, body);
  }

  /** Chat to Responses to Chat on events.  A stream whose calls begin with id and name passes both
      converters to its end exactly when it is well formed and does not bring both text and calls;
      and then it means the same afterwards. */
  lemma ChatComesBack(k: Codecs, id: string, es: seq<Event<ChatPayload>>)
    ensures var x := Pipe(First(k), Second(k), CR.Init(id), RC.Init(), es);
            var m := UnderstandAll(NOTHING, es);
            && (m.proper && x.err.None? && x.first.terminal <==> StreamOk(NOTHING, es) && (m.text == "" || m.order == []))
            && (StreamOk(NOTHING, es) && (m.text == "" || m.order == []) ==>
                x.first.err.None? && x.second.terminal && x.second.err.None? && Kept(m, ReadOut(NOTHING, x.out), EarlyInput(NOTHING, es)))
  {
    hide StreamOk, RunEvents, UnderstandAll, Kept;
    var m := UnderstandAll(NOTHING, es);
    AcceptedExactly(k.chat, k.responses, id, es);
    if StreamOk(NOTHING, es) {
      if m.text != "" && m.order != [] {
        MixIsRefused(k, id, es);
      } else {
        OneKindComesBack(k, if m.order == [] then Text else Tools, id, es);
      }
    }
  }

  /** A stream that reports its cached tokens early and not in its last report. */
  function TwoReports(): seq<Event<ChatPayload>> {
    [ReportOf(Usage(10, 0, 10, Tokens(3), NoDetail)),
     Event("", Payload(ChatPayload("", "", [Choice(0, NO_DELTA.(content := "hi"), "stop")], NoUsage))),
     ReportOf(Usage(10, 1, 11, NoDetail, NoDetail))]
  }

  function ReportOf(u: Usage): Event<ChatPayload> {
    Event("", Payload(ChatPayload("", "", [], Counts(u))))
  }

  lemma TwoReportsMean()
    ensures var m := UnderstandAll(NOTHING, TwoReports());
            && StreamOk(NOTHING, TwoReports()) && m.order == [] && m.finish == "stop"
            && m.reports == [Usage(10, 0, 10, Tokens(3), NoDetail), Usage(10, 1, 11, NoDetail, NoDetail)]
            && EarlyInput(NOTHING, TwoReports()) == 10
  {
    var es := TwoReports();
    var m1 := Understand(NOTHING, es[0]);
    var m2 := Understand(m1, es[1]);
    var m3 := Understand(m2, es[2]);
    assert es[1..] == [es[1], es[2]];
    assert es[1..][1..] == [es[2]];
    assert UnderstandAll(NOTHING, es) == UnderstandAll(m2, [es[2]]) == m3;
    assert StreamOk(m2, [es[2]]);
  }

  /** Its last report does not come back: the early cached tokens are still counted. */
  lemma LastReportChanged(k: Codecs, id: string)
    ensures var m := UnderstandAll(NOTHING, TwoReports());
            var n := ReadOut(NOTHING, Pipe(First(k), Second(k), CR.Init(id), RC.Init(), TwoReports()).out);
            Last(m.reports).cached == NoDetail && |n.reports| == 1 && n.reports[0].cached == Tokens(3)
  {
    hide Pipe, ReadOut, UnderstandAll, StreamOk, EarlyInput, SameCalls;
    TwoReportsMean();
    ChatComesBack(k, id, TwoReports());
    var us := UnderstandAll(NOTHING, TwoReports()).reports;
    MergedMore(us[..1], us[1]);
    assert us[..1] + [us[1]] == us;
    assert us[..1] == [us[0]];
  }

  // --- On bytes ---

  predicate Named(ps: seq<RPayload>) {
    forall i :: 0 <= i < |ps| ==> !ps[i].typ.ROther?
  }

  lemma {:induction false} ToolsNamed(s: CR.State, ds: seq<ToolDelta>)
    ensures Named(CR.ToolSteps(s, ds).out)
    decreases |ds|
  {
    hide Numbered, CR.ToolStep;
    if ds != [] {
      ToolNamed(s, ds[0]);
      ToolsNamed(CR.ToolStep(s, ds[0]).core, ds[1..]);
    }
  }

  lemma AnnounceNamed(s: CR.State, d: ToolDelta)
    requires d.index in s.calls
    ensures Named(CR.Announce(s, d).out) && Named(CR.Argue(s, d).out)
  {
    hide Numbered;
  }

  lemma BeginNamed(s: CR.State)
    ensures Named(CR.Begin(s).out)
  {
  }

  lemma ToolNamed(s: CR.State, d: ToolDelta)
    ensures Named(CR.ToolStep(s, d).out)
  {
    hide CR.Begin, CR.Register, CR.Announce, CR.Argue;
    var a := CR.Begin(s);
    var b := CR.Register(a.core, d);
    BeginNamed(s);
    if b.err.None? {
      AnnounceNamed(b.core, d);
      AnnounceNamed(CR.Announce(b.core, d).core, d);
    } else {
      RegisterSilent(a.core, d);
    }
  }

  lemma RegisterSilent(s: CR.State, d: ToolDelta)
    ensures CR.Register(s, d).out == []
  {
  }

  lemma {:induction false} CallsDoneNamed(s: CR.State, i: nat)
    ensures Named(CR.CallsDone(s, i))
    decreases |s.calls| - i
  {
    if i < |s.calls| {
      CallsDoneNamed(s, i + 1);
    }
  }

  lemma TerminalNamed(s: CR.State)
    ensures Named(CR.TerminalEvents(s).out)
  {
    hide CR.CallsDone;
    CallsDoneNamed(s, 0);
  }

  lemma ChoiceNamed(s: CR.State, choices: seq<Choice>)
    requires choices != []
    ensures Named(CR.ChoiceStep(s, choices).out)
  {
    hide CR.ToolSteps;
    ToolsNamed(s, choices[0].delta.toolCalls);
  }

  lemma StepNamed(s: CR.State, e: Event<ChatPayload>)
    ensures Named(CR.Step(s, e).out)
  {
    hide CR.ChoiceStep, CR.TerminalEvents, CR.ApplyUsage;
    TerminalNamed(s);
    if e.input.Payload? {
      var p := e.input.p;
      if p.choices != [] {
        ChoiceNamed(s, p.choices);
      } else if p.usage.Counts? {
        TerminalNamed(s.(usage := CR.ApplyUsage(s.usage, p.usage.u)));
      }
    }
  }

  lemma {:induction false} RunNamed(v: EventConverter<CR.State, ChatPayload, RPayload>, s: CR.State, es: seq<Event<ChatPayload>>)
    requires v.step == CR.Step
    ensures Named(RunEvents(v, s, es).out)
    decreases |es|
  {
    if es != [] {
      hide CR.Step;
      StepNamed(s, es[0]);
      RunNamed(v, React(v, s, es[0]).core, es[1..]);
    }
  }

  /** The same on bytes, however the stream and the bytes between the converters are chunked: both
      conversions succeed, and the bytes printed are chunks that mean the same. */
  lemma ChatBytesComeBack(k: Codecs, id: string, es: seq<Event<ChatPayload>>, chunks: seq<Bytes>, between: seq<Bytes>) returns (out: seq<ChatOut>)
    requires Lawful(k.chat) && Lawful(k.responses) && Carried(es)
    requires StreamOk(NOTHING, es) && (UnderstandAll(NOTHING, es).text == "" || UnderstandAll(NOTHING, es).order == [])
    requires Flatten(chunks) == PrintFrames(FramesOf(k.chat, es))
    requires Flatten(between) == Convert(MachineOf(First(k)), Fresh(CR.Init(id)), chunks).out
    ensures Convert(MachineOf(First(k)), Fresh(CR.Init(id)), chunks).err.None?
    ensures var r := Convert(MachineOf(Second(k)), Fresh(RC.Init()), between);
            r.err.None? && r.out == PrintAll(o => ShowChat(k.chat, o), out)
    ensures Kept(UnderstandAll(NOTHING, es), ReadOut(NOTHING, out), EarlyInput(NOTHING, es))
  {
    hide MachineOf, Convert, RunEvents, Flatten, Lawful, Kept, Fits, CR.Step, RC.Step, StreamOk;
    ChatComesBack(k, id, es);
    RunNamed(First(k), CR.Init(id), es);
    out := Pipe(First(k), Second(k), CR.Init(id), RC.Init(), es).out;
    PipeOnBytes(First(k), Second(k), CR.Init(id), RC.Init(), es, chunks, between);
  }
}
