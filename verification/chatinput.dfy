/** Request conversion between a Responses input and Chat messages.

    A JSON value appears as what the converters read of it: a missing or ill-typed string is "" or
    None.  Whether a text is a JSON object is the parameter `isObject`. */
module ChatInput {
  import opened Wrappers

  /** A typed text block; its text is None when it is no string. */
  datatype Block = Block(typ: string, text: Option<string>, metadata: bool)

  datatype Content = Absent | Null | Text(text: string) | Blocks(blocks: seq<Block>) | NotText

  function JoinBlocks(blocks: seq<Block>): Option<string> {
    if blocks == [] then Some("")
    else
      var b := blocks[|blocks| - 1];
      match JoinBlocks(blocks[..|blocks| - 1])
      case None => None
      case Some(text) => if b.typ in {"text", "input_text", "output_text"} && b.text.Some? && !b.metadata then Some(text + b.text.value) else None
  }

  function TextOf(c: Content): Option<string> {
    match c
    case Absent => None
    case Null => Some("")
    case Text(text) => Some(text)
    case Blocks(blocks) => JoinBlocks(blocks)
    case NotText => None
  }

  const ROLES := {"system", "developer", "user", "assistant"}

  // --- Responses input ---

  datatype Item =
    | Message(role: string, content: Content)
    | Call(callId: string, name: string, arguments: Option<string>)
    | Output(callId: string, output: Option<string>)
    | OtherItem(typ: string)

  datatype Input = InputText(text: string) | Items(items: seq<Item>) | BadInput

  datatype Instructions = NoInstructions | Instructions(text: string) | BadInstructions

  // --- Chat messages ---

  datatype ToolCall = ToolCall(id: string, typ: string, name: string, arguments: Option<string>)

  datatype ToolCalls = NoCalls | Calls(calls: seq<ToolCall>) | BadCalls

  datatype ChatMessage = ChatMessage(role: string, content: Content, toolCalls: ToolCalls, toolCallId: string)

  // --- Responses to Chat ---

  /** The variables of the conversion loop. */
  datatype Walk = Walk(seen: set<string>, results: set<string>, active: seq<ToolCall>, hadGroup: bool, outputsStarted: bool, out: seq<ChatMessage>)

  function Flush(w: Walk): Walk {
    if w.active == [] then w
    else w.(out := w.out + [ChatMessage("assistant", Absent, Calls(w.active), "")], hadGroup := true, active := [])
  }

  predicate CallFields(isObject: string -> bool, item: Item)
    requires item.Call?
  {
    item.callId != "" && item.name != "" && item.arguments.Some? && isObject(item.arguments.value)
  }

  function WalkItem(isObject: string -> bool, w: Walk, item: Item): Option<Walk> {
    match item
    case Call(callId, name, arguments) =>
      if w.outputsStarted || !CallFields(isObject, item) || callId in w.seen then None
      else Some(w.(seen := w.seen + {callId}, active := w.active + [ToolCall(callId, "function", name, arguments)]))
    case Output(callId, output) =>
      if !w.hadGroup && w.active == [] then None
      else
        var f := Flush(w);
        if callId == "" || callId !in f.seen || callId in f.results || output.None? then None
        else Some(f.(outputsStarted := true, results := f.results + {callId},
                     out := f.out + [ChatMessage("tool", Text(output.value), NoCalls, callId)]))
    case Message(role, content) =>
      if w.outputsStarted || w.active != [] || w.hadGroup || role !in ROLES || content == Absent || TextOf(content).None? then None
      else Some(w.(out := w.out + [ChatMessage(role, Text(TextOf(content).value), NoCalls, "")]))
    case OtherItem(_) => None
  }

  function WalkAll(isObject: string -> bool, start: Walk, items: seq<Item>): Option<Walk> {
    if items == [] then Some(start)
    else match WalkAll(isObject, start, items[..|items| - 1])
      case None => None
      case Some(w) => WalkItem(isObject, w, items[|items| - 1])
  }

  function Opening(instructions: Instructions): Option<seq<ChatMessage>> {
    match instructions
    case NoInstructions => Some([])
    case Instructions(text) => Some([ChatMessage("developer", Text(text), NoCalls, "")])
    case BadInstructions => None
  }

  function Started(out: seq<ChatMessage>): Walk {
    Walk({}, {}, [], false, false, out)
  }

  function FromItems(isObject: string -> bool, items: seq<Item>, opening: seq<ChatMessage>): Option<seq<ChatMessage>> {
    match WalkAll(isObject, Started(opening), items)
    case None => None
    case Some(w) => Some(Flush(w).out)
  }

  function ToChat(isObject: string -> bool, input: Input, instructions: Instructions): Option<seq<ChatMessage>> {
    match Opening(instructions)
    case None => None
    case Some(opening) =>
      match input
      case InputText(text) => Some(opening + [ChatMessage("user", Text(text), NoCalls, "")])
      case Items(items) => FromItems(isObject, items, opening)
      case BadInput => None
  }

  method ResponsesInputToChat(isObject: string -> bool, input: Input, instructions: Instructions) returns (messages: Option<seq<ChatMessage>>)
    ensures messages == ToChat(isObject, input, instructions)
  {
    var out := [];
    match instructions {
      case NoInstructions =>
      case Instructions(text) => out := [ChatMessage("developer", Text(text), NoCalls, "")];
      case BadInstructions => return None;
    }
    match input {
      case InputText(text) => messages := Some(out + [ChatMessage("user", Text(text), NoCalls, "")]);
      case BadInput => messages := None;
      case Items(items) => messages := ConvertItems(isObject, items, out);
    }
  }

  method ConvertItems(isObject: string -> bool, items: seq<Item>, opening: seq<ChatMessage>) returns (messages: Option<seq<ChatMessage>>)
    ensures messages == FromItems(isObject, items, opening)
  {
    hide TextOf, CallFields, WalkAll;
    var out, seenCalls, results, activeCalls, hadCallGroup, outputsStarted := opening, {}, {}, [], false, false;
    ghost var start := Started(opening);
    WalkNone(isObject, start, items);
    for n := 0 to |items|
      invariant WalkAll(isObject, start, items[..n]) == Some(Walk(seenCalls, results, activeCalls, hadCallGroup, outputsStarted, out))
    {
      WalkMore(isObject, start, items, n);
      var item := items[n];
      match item {
        case Call(callId, name, arguments) =>
          if outputsStarted || !CallFields(isObject, item) || callId in seenCalls {
            return None;
          }
          seenCalls := seenCalls + {callId};
          activeCalls := activeCalls + [ToolCall(callId, "function", name, arguments)];
        case Output(callId, output) =>
          if !hadCallGroup && activeCalls == [] {
            return None;
          }
          if activeCalls != [] {
            out, hadCallGroup, activeCalls := out + [ChatMessage("assistant", Absent, Calls(activeCalls), "")], true, [];
          }
          outputsStarted := true;
          if callId == "" || callId !in seenCalls || callId in results || output.None? {
            return None;
          }
          results := results + {callId};
          out := out + [ChatMessage("tool", Text(output.value), NoCalls, callId)];
        case Message(role, content) =>
          if outputsStarted || activeCalls != [] || hadCallGroup || role !in ROLES || content == Absent || TextOf(content).None? {
            return None;
          }
          out := out + [ChatMessage(role, Text(TextOf(content).value), NoCalls, "")];
        case OtherItem(_) => return None;
      }
    }
    assert items[..|items|] == items;
    if activeCalls != [] {
      out := out + [ChatMessage("assistant", Absent, Calls(activeCalls), "")];
    }
    messages := Some(out);
  }

  lemma WalkNone(isObject: string -> bool, start: Walk, items: seq<Item>)
    ensures WalkAll(isObject, start, items[..0]) == Some(start)
  {
  }

  lemma WalkMore(isObject: string -> bool, start: Walk, items: seq<Item>, n: nat)
    requires n < |items|
    ensures WalkAll(isObject, start, items[..n + 1]) ==
            (match WalkAll(isObject, start, items[..n]) case None => None case Some(w) => WalkItem(isObject, w, items[n]))
    ensures WalkAll(isObject, start, items[..n + 1]).None? ==> WalkAll(isObject, start, items).None?
  {
    assert items[..n + 1][..n] == items[..n];
    RejectedStays(isObject, start, items, n + 1);
  }

  lemma {:induction false} RejectedStays(isObject: string -> bool, start: Walk, items: seq<Item>, n: nat)
    requires n <= |items|
    ensures WalkAll(isObject, start, items[..n]).None? ==> WalkAll(isObject, start, items).None?
    decreases |items|
  {
    if n == |items| {
      assert items[..n] == items;
    } else {
      assert items[..|items| - 1][..n] == items[..n];
      RejectedStays(isObject, start, items[..|items| - 1], n);
    }
  }

  // --- Which inputs are accepted ---

  predicate GoodMessage(item: Item) {
    item.Message? && item.role in ROLES && item.content != Absent && TextOf(item.content).Some?
  }

  predicate GoodCall(isObject: string -> bool, item: Item) {
    item.Call? && CallFields(isObject, item)
  }

  function IdOf(item: Item): string {
    match item
    case Call(callId, _, _) => callId
    case Output(callId, _) => callId
    case _ => ""
  }

  predicate Distinct(items: seq<Item>, from: nat, to: nat)
    requires from <= to <= |items|
  {
    forall k, l :: from <= k < l < to ==> IdOf(items[k]) != IdOf(items[l])
  }

  predicate Answers(items: seq<Item>, i: nat, j: nat, k: nat)
    requires i <= j <= k < |items|
  {
    items[k].Output? && items[k].output.Some? && items[k].callId != "" && exists l :: i <= l < j && IdOf(items[l]) == items[k].callId
  }

  /** Messages up to `i`, then calls with distinct ids up to `j`, then outputs, each answering a
      distinct one of the calls. */
  predicate Shaped(isObject: string -> bool, items: seq<Item>, i: nat, j: nat) {
    && i <= j <= |items|
    && (forall k :: 0 <= k < i ==> GoodMessage(items[k]))
    && (forall k :: i <= k < j ==> GoodCall(isObject, items[k]))
    && Distinct(items, i, j)
    && (forall k :: j <= k < |items| ==> Answers(items, i, j, k))
    && Distinct(items, j, |items|)
  }

  function IdsOf(items: seq<Item>, from: nat, to: nat): set<string>
    requires from <= to <= |items|
  {
    set k | from <= k < to :: IdOf(items[k])
  }

  /** Where the loop stands after an accepted prefix of the given shape. */
  ghost predicate Stands(items: seq<Item>, i: nat, j: nat, w: Walk)
    requires i <= j <= |items|
  {
    && w.seen == IdsOf(items, i, j) && w.results == IdsOf(items, j, |items|)
    && (w.active != [] <==> i < j == |items|) && (w.hadGroup <==> j < |items|) && (w.outputsStarted <==> j < |items|)
  }

  lemma IdsSnoc(items: seq<Item>, item: Item, from: nat)
    requires from <= |items|
    ensures IdsOf(items + [item], from, |items| + 1) == IdsOf(items, from, |items|) + {IdOf(item)}
  {
    var more := items + [item];
    assert forall k :: from <= k < |items| ==> more[k] == items[k];
    assert more[|items|] == item;
    forall id | id in IdsOf(items, from, |items|) + {IdOf(item)} ensures id in IdsOf(more, from, |more|) {
      if id == IdOf(item) {
        assert IdOf(more[|items|]) == id;
      } else {
        var k :| from <= k < |items| && IdOf(items[k]) == id;
        assert IdOf(more[k]) == id;
      }
    }
  }

  lemma IdsKept(items: seq<Item>, item: Item, from: nat, to: nat)
    requires from <= to <= |items|
    ensures IdsOf(items + [item], from, to) == IdsOf(items, from, to)
  {
    assert forall k :: from <= k < |items| ==> (items + [item])[k] == items[k];
  }

  lemma MessageStep(isObject: string -> bool, items: seq<Item>, item: Item, i: nat, j: nat, w: Walk)
    requires Shaped(isObject, items, i, j) && Stands(items, i, j, w) && item.Message?
    ensures var next := WalkItem(isObject, w, item);
            && (next.Some? <==> i == j == |items| && GoodMessage(item))
            && (next.Some? ==> var n := |items| + 1; Shaped(isObject, items + [item], n, n) && Stands(items + [item], n, n, next.value))
  {
    if j < |items| {
      assert Answers(items, i, j, j);
    }
  }

  lemma CallStep(isObject: string -> bool, items: seq<Item>, item: Item, i: nat, j: nat, w: Walk)
    requires Shaped(isObject, items, i, j) && Stands(items, i, j, w) && item.Call?
    ensures var next := WalkItem(isObject, w, item);
            && (next.Some? <==> j == |items| && GoodCall(isObject, item) && item.callId !in IdsOf(items, i, j))
            && (next.Some? ==> Shaped(isObject, items + [item], i, |items| + 1) && Stands(items + [item], i, |items| + 1, next.value))
  {
    IdsSnoc(items, item, i);
  }

  lemma OutputStep(isObject: string -> bool, items: seq<Item>, item: Item, i: nat, j: nat, w: Walk)
    requires Shaped(isObject, items, i, j) && Stands(items, i, j, w) && item.Output?
    ensures var next := WalkItem(isObject, w, item);
            && (next.Some? <==> Answers(items + [item], i, j, |items|) && item.callId !in IdsOf(items, j, |items|))
            && (next.Some? ==> Shaped(isObject, items + [item], i, j) && Stands(items + [item], i, j, next.value))
  {
    var more := items + [item];
    IdsSnoc(items, item, j);
    IdsKept(items, item, i, j);
    assert Answers(more, i, j, |items|) <==> item.output.Some? && item.callId != "" && item.callId in IdsOf(more, i, j);
    forall k | j <= k < |items| ensures Answers(more, i, j, k) {
      assert Answers(items, i, j, k);
      var l :| i <= l < j && IdOf(items[l]) == items[k].callId;
      assert IdOf(more[l]) == more[k].callId;
    }
  }

  /** An accepted input has the shape. */
  lemma {:induction false} AcceptedIsShaped(isObject: string -> bool, opening: seq<ChatMessage>, items: seq<Item>) returns (i: nat, j: nat)
    requires WalkAll(isObject, Started(opening), items).Some?
    ensures Shaped(isObject, items, i, j) && Stands(items, i, j, WalkAll(isObject, Started(opening), items).value)
    decreases |items|
  {
    if items == [] {
      return 0, 0;
    }
    hide WalkItem, Shaped, Stands, Answers, IdsOf, GoodMessage, GoodCall;
    var init, item := items[..|items| - 1], items[|items| - 1];
    assert init + [item] == items;
    i, j := AcceptedIsShaped(isObject, opening, init);
    var w := WalkAll(isObject, Started(opening), init).value;
    match item {
      case Message(_, _) =>
        MessageStep(isObject, init, item, i, j, w);
        i, j := |items|, |items|;
      case Call(_, _, _) =>
        CallStep(isObject, init, item, i, j, w);
        j := |items|;
      case Output(_, _) =>
        OutputStep(isObject, init, item, i, j, w);
      case OtherItem(_) =>
        OtherRejected(isObject, w, item);
    }
  }

  lemma OtherRejected(isObject: string -> bool, w: Walk, item: Item)
    requires item.OtherItem?
    ensures WalkItem(isObject, w, item).None?
  {
  }

  function Least(a: nat, b: nat): nat {
    if a < b then a else b
  }

  lemma ShapeOfPrefix(isObject: string -> bool, items: seq<Item>, i: nat, j: nat)
    requires items != [] && Shaped(isObject, items, i, j)
    ensures var n := |items| - 1; Shaped(isObject, items[..n], Least(i, n), Least(j, n))
  {
    var n := |items| - 1;
    var init := items[..n];
    forall k | Least(j, n) <= k < n ensures Answers(init, Least(i, n), Least(j, n), k) {
      assert Answers(items, i, j, k);
      var l :| i <= l < j && IdOf(items[l]) == items[k].callId;
      assert IdOf(init[l]) == init[k].callId;
    }
  }

  /** An input of the shape is accepted. */
  lemma {:induction false} ShapedIsAccepted(isObject: string -> bool, opening: seq<ChatMessage>, items: seq<Item>, i: nat, j: nat)
    requires Shaped(isObject, items, i, j)
    ensures WalkAll(isObject, Started(opening), items).Some? && Stands(items, i, j, WalkAll(isObject, Started(opening), items).value)
    decreases |items|
  {
    if items != [] {
      hide WalkItem, Stands;
      var n := |items| - 1;
      var init, item := items[..n], items[n];
      assert init + [item] == items;
      ShapeOfPrefix(isObject, items, i, j);
      ShapedIsAccepted(isObject, opening, init, Least(i, n), Least(j, n));
      var w := WalkAll(isObject, Started(opening), init).value;
      LastFits(isObject, items, i, j);
      if i == |items| {
        MessageStep(isObject, init, item, n, n, w);
      } else if j == |items| {
        CallStep(isObject, init, item, i, n, w);
      } else {
        OutputStep(isObject, init, item, i, j, w);
      }
    }
  }

  lemma LastFits(isObject: string -> bool, items: seq<Item>, i: nat, j: nat)
    requires items != [] && Shaped(isObject, items, i, j)
    ensures var n := |items| - 1;
            if i == |items| then GoodMessage(items[n])
            else if j == |items| then GoodCall(isObject, items[n]) && items[n].callId !in IdsOf(items[..n], i, n)
            else Answers(items, i, j, n) && items[n].callId !in IdsOf(items[..n], j, n)
  {
    var n := |items| - 1;
    if i < |items| && j < |items| {
      assert Answers(items, i, j, n);
    }
  }

  /** An item array is accepted exactly when it consists of messages, then calls with distinct ids,
      then outputs, each answering a distinct earlier call, with every field in order. */
  lemma AcceptedExactlyWhenShaped(isObject: string -> bool, instructions: Instructions, items: seq<Item>)
    ensures ToChat(isObject, Items(items), instructions).Some? <==> !instructions.BadInstructions? && exists i, j :: Shaped(isObject, items, i, j)
  {
    hide Shaped, WalkAll, Stands;
    if !instructions.BadInstructions? {
      var opening := Opening(instructions).value;
      if ToChat(isObject, Items(items), instructions).Some? {
        var i, j := AcceptedIsShaped(isObject, opening, items);
      }
      if i, j :| Shaped(isObject, items, i, j) {
        ShapedIsAccepted(isObject, opening, items, i, j);
      }
    }
  }
}
