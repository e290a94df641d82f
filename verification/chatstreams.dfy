/** What a Chat stream says, read off its events alone: its meaning, whether it is well formed, and
    the usage it reports. */
module ChatStreams {
  import opened Wrappers
  import opened Framing
  import opened Frames
  import opened EventMachine
  import opened StreamEvents

  // --- Meaning ---

  datatype Call = Call(id: string, name: string, arguments: string)

  /** The folded stream: the text, the calls by index with the order of their arrival, the finish
      reason, and the usages reported.  `proper` records that each call's first delta carried its id
      and name; `ended`, that the stream is over. */
  datatype Meaning = Meaning(text: string, order: seq<int>, calls: map<int, Call>, finish: string,
                             reports: seq<Usage>, proper: bool, ended: bool)

  const NOTHING := Meaning("", [], map[], "", [], true, false)

  function AddTool(m: Meaning, d: ToolDelta): Meaning {
    if d.index in m.calls then
      var c := m.calls[d.index];
      m.(calls := m.calls[d.index := c.(arguments := c.arguments + d.arguments)])
    else
      m.(order := m.order + [d.index], calls := m.calls[d.index := Call(d.id, d.name, d.arguments)],
         proper := m.proper && d.id != "" && d.name != "")
  }

  function AddTools(m: Meaning, ds: seq<ToolDelta>): Meaning
    decreases |ds|
  {
    if ds == [] then m else AddTools(AddTool(m, ds[0]), ds[1..])
  }

  function AddChoice(m: Meaning, c: Choice): Meaning {
    var t := AddTools(m, c.delta.toolCalls);
    t.(text := t.text + c.delta.content, finish := if c.finish != "" then c.finish else t.finish)
  }

  /** A usage chunk after the finish reason ends the stream, as does the closing mark. */
  function AddPayload(m: Meaning, p: ChatPayload): Meaning {
    if p.choices != [] then AddChoice(m, p.choices[0])
    else if p.usage.Counts? then m.(reports := m.reports + [p.usage.u], ended := m.finish != "")
    else m
  }

  function Understand(m: Meaning, e: Event<ChatPayload>): Meaning {
    if m.ended then m
    else match e.input
      case Payload(p) => AddPayload(m, p)
      case DoneMark => m.(ended := true)
      case _ => m
  }

  function UnderstandAll(m: Meaning, es: seq<Event<ChatPayload>>): Meaning
    decreases |es|
  {
    if es == [] then m else UnderstandAll(Understand(m, es[0]), es[1..])
  }

  function Reading(o: ChatOut): Event<ChatPayload> {
    Event("", if o.Chunk? then Payload(o.p) else DoneMark)
  }

  /** The meaning of printed chunks. */
  function ReadOut(m: Meaning, out: seq<ChatOut>): Meaning
    decreases |out|
  {
    if out == [] then m else ReadOut(Understand(m, Reading(out[0])), out[1..])
  }

  lemma {:induction false} ReadAppend(m: Meaning, a: seq<ChatOut>, b: seq<ChatOut>)
    ensures ReadOut(m, a + b) == ReadOut(ReadOut(m, a), b)
    decreases |a|
  {
    if a == [] {
      assert a + b == b;
    } else {
      assert (a + b)[1..] == a[1..] + b;
      ReadAppend(Understand(m, Reading(a[0])), a[1..], b);
    }
  }

  lemma ReadOne(m: Meaning, o: ChatOut)
    ensures ReadOut(m, [o]) == Understand(m, Reading(o))
  {
    assert ReadOut(Understand(m, Reading(o)), [o][1..]) == Understand(m, Reading(o));
  }

  /** Calls are compared in the order of their arrival, whatever their indices. */
  ghost predicate SameCalls(m: Meaning, n: Meaning) {
    && |n.order| == |m.order|
    && forall k :: 0 <= k < |m.order| ==> m.order[k] in m.calls && n.order[k] in n.calls && n.calls[n.order[k]] == m.calls[m.order[k]]
  }

  // --- Well-formed streams ---

  const FINISHES := ["stop", "tool_calls", "length", "content_filter"]

  /** The first delta of a call brings a name and an id no other call has; later deltas repeat the id
      or leave it out. */
  predicate ToolOk(m: Meaning, d: ToolDelta) {
    && d.index >= 0
    && (d.typ == "" || d.typ == "function")
    && (if d.index in m.calls then d.id == "" || d.id == m.calls[d.index].id
        else d.id != "" && d.name != "" && forall i :: i in m.calls ==> m.calls[i].id != d.id)
  }

  predicate ToolsOk(m: Meaning, ds: seq<ToolDelta>)
    decreases |ds|
  {
    ds == [] || (ToolOk(m, ds[0]) && ToolsOk(AddTool(m, ds[0]), ds[1..]))
  }

  predicate PayloadOk(m: Meaning, p: ChatPayload) {
    if p.choices != [] then
      |p.choices| == 1 && p.choices[0].index == 0 && p.choices[0].delta.known && ToolsOk(m, p.choices[0].delta.toolCalls)
    else match p.usage
      case NoUsage => true
      case BadUsage => false
      case Counts(u) => m.finish == "" || m.finish in FINISHES
  }

  predicate EventOk(m: Meaning, e: Event<ChatPayload>) {
    m.ended ||
    match e.input
      case NoData => true
      case DoneMark => m.finish in FINISHES
      case Malformed => false
      case Payload(p) => PayloadOk(m, p)
  }

  /** Every event up to the end is well formed, and there is an end. */
  predicate StreamOk(m: Meaning, es: seq<Event<ChatPayload>>)
    decreases |es|
  {
    if es == [] then m.ended else EventOk(m, es[0]) && StreamOk(Understand(m, es[0]), es[1..])
  }

  lemma {:induction false} ProperStays(m: Meaning, ds: seq<ToolDelta>)
    ensures !m.proper ==> !AddTools(m, ds).proper
    ensures AddTools(m, ds).ended == m.ended && AddTools(m, ds).reports == m.reports && AddTools(m, ds).finish == m.finish
    ensures AddTools(m, ds).text == m.text
    decreases |ds|
  {
    if ds != [] {
      ProperStays(AddTool(m, ds[0]), ds[1..]);
    }
  }

  lemma {:induction false} StaysProper(m: Meaning, es: seq<Event<ChatPayload>>)
    requires UnderstandAll(m, es).proper
    ensures m.proper
    decreases |es|
  {
    if es != [] {
      StaysProper(Understand(m, es[0]), es[1..]);
      if es[0].input.Payload? && es[0].input.p.choices != [] && !m.ended {
        ProperStays(m, es[0].input.p.choices[0].delta.toolCalls);
      }
    }
  }

  lemma {:induction false} ToolsGrow(m: Meaning, ds: seq<ToolDelta>)
    ensures |AddTools(m, ds).order| >= |m.order| && (AddTools(m, ds).order == [] && m.calls == map[] ==> ds == [])
    decreases |ds|
  {
    if ds != [] {
      ToolsGrow(AddTool(m, ds[0]), ds[1..]);
    }
  }

  lemma {:induction false} StreamGrows(m: Meaning, es: seq<Event<ChatPayload>>)
    ensures |UnderstandAll(m, es).text| >= |m.text| && |UnderstandAll(m, es).order| >= |m.order|
    decreases |es|
  {
    if es != [] {
      StreamGrows(Understand(m, es[0]), es[1..]);
      if es[0].input.Payload? && es[0].input.p.choices != [] {
        ToolsGrow(m, es[0].input.p.choices[0].delta.toolCalls);
        ProperStays(m, es[0].input.p.choices[0].delta.toolCalls);
      }
    }
  }

  lemma {:induction false} EndStays(m: Meaning, es: seq<Event<ChatPayload>>)
    requires m.ended
    ensures UnderstandAll(m, es) == m && StreamOk(m, es)
    decreases |es|
  {
    if es != [] {
      EndStays(m, es[1..]);
    }
  }

  // --- Usage ---

  function LatestCached(us: seq<Usage>): Detail {
    if us == [] then NoDetail
    else if us[|us| - 1].cached != NoDetail then us[|us| - 1].cached
    else LatestCached(us[..|us| - 1])
  }

  function LatestReasoning(us: seq<Usage>): Detail {
    if us == [] then NoDetail
    else if us[|us| - 1].reasoning != NoDetail then us[|us| - 1].reasoning
    else LatestReasoning(us[..|us| - 1])
  }

  function Last(us: seq<Usage>): Usage {
    if us == [] then NO_USAGE else us[|us| - 1]
  }

  /** All reports as one: the counts of the last, and each detail from the last that states it. */
  function Merged(us: seq<Usage>): Usage {
    Last(us).(cached := LatestCached(us), reasoning := LatestReasoning(us))
  }

  lemma MergedMore(us: seq<Usage>, u: Usage)
    ensures LatestCached(us + [u]) == if u.cached != NoDetail then u.cached else LatestCached(us)
    ensures LatestReasoning(us + [u]) == if u.reasoning != NoDetail then u.reasoning else LatestReasoning(us)
    ensures Last(us + [u]) == u
  {
    assert (us + [u])[..|us|] == us;
  }

  predicate Speaks(e: Event<ChatPayload>) {
    e.input.Payload? && e.input.p.choices != [] && (e.input.p.choices[0].delta.toolCalls != [] || e.input.p.choices[0].delta.content != "")
  }

  /** The input tokens that had been reported when the first text or tool call arrived. */
  function EarlyInput(m: Meaning, es: seq<Event<ChatPayload>>): int
    decreases |es|
  {
    if es == [] || m.ended then 0
    else if Speaks(es[0]) then Last(m.reports).input
    else EarlyInput(Understand(m, es[0]), es[1..])
  }

  function Max0(n: int): int {
    if n > 0 then n else 0
  }

  function Positive(d: Detail): Detail {
    if d.Tokens? && d.count > 0 then d else NoDetail
  }

  /** A usage without the counts that are not positive. */
  function Counted(u: Usage): Usage {
    Usage(Max0(u.input), Max0(u.output), Max0(u.total), Positive(u.cached), Positive(u.reasoning))
  }

  predicate Completes(finish: string) {
    finish == "stop" || finish == "tool_calls"
  }

  /** The usage after Chat to Responses to Chat: on a completed stream all reports as one, with the
      early input tokens where the last report has none; otherwise the early input tokens only. */
  function Returned(m: Meaning, early: int): Usage {
    if !Completes(m.finish) then NO_USAGE.(input := Max0(early))
    else
      var u := Counted(Merged(m.reports));
      if u.input > 0 then u else u.(input := Max0(early))
  }

  /** What a completed stream gets back is its last report exactly when that report has input tokens
      unless none were known early, and states each detail unless none was stated above zero. */
  lemma ReturnedIsLast(m: Meaning, early: int)
    requires Completes(m.finish)
    ensures var last := Last(m.reports);
            Returned(m, early) == Counted(last) <==>
            && (last.input > 0 || early <= 0)
            && (last.cached != NoDetail || Positive(LatestCached(m.reports)) == NoDetail)
            && (last.reasoning != NoDetail || Positive(LatestReasoning(m.reports)) == NoDetail)
  {
  }

  lemma {:induction false} EarlyIsReported(m: Meaning, es: seq<Event<ChatPayload>>)
    requires EarlyInput(m, es) != 0
    ensures exists u :: u in UnderstandAll(m, es).reports && u.input == EarlyInput(m, es)
    decreases |es|
  {
    ReportsStay(m, es);
    if Speaks(es[0]) {
      assert Last(m.reports) in m.reports;
    } else {
      EarlyIsReported(Understand(m, es[0]), es[1..]);
    }
  }

  lemma {:induction false} ReportsStay(m: Meaning, es: seq<Event<ChatPayload>>)
    ensures m.reports <= UnderstandAll(m, es).reports
    decreases |es|
  {
    if es != [] {
      ReportsStay(Understand(m, es[0]), es[1..]);
      if es[0].input.Payload? && es[0].input.p.choices != [] {
        ProperStays(m, es[0].input.p.choices[0].delta.toolCalls);
      }
    }
  }

  /** A completed stream with at most one report gets that report back. */
  lemma OneReportReturns(es: seq<Event<ChatPayload>>)
    requires var m := UnderstandAll(NOTHING, es); Completes(m.finish) && |m.reports| <= 1
    ensures var m := UnderstandAll(NOTHING, es); Returned(m, EarlyInput(NOTHING, es)) == Counted(Last(m.reports))
  {
    var m, early := UnderstandAll(NOTHING, es), EarlyInput(NOTHING, es);
    if early != 0 {
      EarlyIsReported(NOTHING, es);
      var u :| u in m.reports && u.input == early;
      assert m.reports == [u];
    }
    if |m.reports| == 1 {
      assert m.reports[..0] == [];
      assert LatestCached([]) == NoDetail && LatestReasoning([]) == NoDetail;
    }
    ReturnedIsLast(m, early);
  }
}
