/** Chat messages to a Responses input, and the round trip from Responses input and back. */
module ChatMessages {
  import opened Wrappers
  import opened ChatInput

  /** The variables of the conversion loop. */
  datatype Turn = Turn(seen: set<string>, results: set<string>, out: seq<Item>)

  const NO_TURNS := Turn({}, {}, [])

  /** The message item printed for a role's text. */
  function TextItem(role: string, text: string): Item {
    Message(role, Blocks([Block(if role == "assistant" then "output_text" else "input_text", Some(text), false)]))
  }

  predicate CallOk(isObject: string -> bool, call: ToolCall) {
    call.id != "" && call.typ == "function" && call.name != "" && call.arguments.Some? && isObject(call.arguments.value)
  }

  function AddCalls(isObject: string -> bool, t: Turn, calls: seq<ToolCall>): Option<Turn> {
    if calls == [] then Some(t)
    else
      var call := calls[|calls| - 1];
      match AddCalls(isObject, t, calls[..|calls| - 1])
      case None => None
      case Some(u) =>
        if !CallOk(isObject, call) || call.id in u.seen then None
        else Some(u.(seen := u.seen + {call.id}, out := u.out + [Call(call.id, call.name, call.arguments)]))
  }

  function SpokenText(c: Content): Option<string> {
    if c == Absent || c == Null then Some("") else TextOf(c)
  }

  function TurnMessage(isObject: string -> bool, t: Turn, m: ChatMessage): Option<Turn> {
    if m.role in ROLES then
      match SpokenText(m.content)
      case None => None
      case Some(text) =>
        var u := if text != "" then t.(out := t.out + [TextItem(m.role, text)]) else t;
        match m.toolCalls
        case NoCalls => Some(u)
        case Calls(calls) => AddCalls(isObject, u, calls)
        case BadCalls => None
    else if m.role == "tool" then
      (if m.toolCallId == "" || m.toolCallId !in t.seen || m.toolCallId in t.results || m.content == Absent || TextOf(m.content).None? then None
       else Some(t.(results := t.results + {m.toolCallId}, out := t.out + [Output(m.toolCallId, TextOf(m.content))])))
    else None
  }

  function TurnAll(isObject: string -> bool, messages: seq<ChatMessage>): Option<Turn> {
    if messages == [] then Some(NO_TURNS)
    else match TurnAll(isObject, messages[..|messages| - 1])
      case None => None
      case Some(t) => TurnMessage(isObject, t, messages[|messages| - 1])
  }

  function ToResponses(isObject: string -> bool, messages: seq<ChatMessage>): Option<seq<Item>> {
    match TurnAll(isObject, messages)
    case None => None
    case Some(t) => Some(t.out)
  }

  // --- The loops ---

  lemma {:induction false} TurnRejects(isObject: string -> bool, messages: seq<ChatMessage>, n: nat)
    requires n <= |messages|
    ensures TurnAll(isObject, messages[..n]).None? ==> TurnAll(isObject, messages).None?
    decreases |messages|
  {
    if n == |messages| {
      assert messages[..n] == messages;
    } else {
      assert messages[..|messages| - 1][..n] == messages[..n];
      TurnRejects(isObject, messages[..|messages| - 1], n);
    }
  }

  lemma TurnMore(isObject: string -> bool, messages: seq<ChatMessage>, n: nat)
    requires n < |messages|
    ensures TurnAll(isObject, messages[..n + 1]) ==
            (match TurnAll(isObject, messages[..n]) case None => None case Some(t) => TurnMessage(isObject, t, messages[n]))
    ensures TurnAll(isObject, messages[..n + 1]).None? ==> TurnAll(isObject, messages).None?
  {
    hide TurnMessage;
    assert messages[..n + 1][..n] == messages[..n];
    TurnRejects(isObject, messages, n + 1);
  }

  lemma {:induction false} CallsReject(isObject: string -> bool, t: Turn, calls: seq<ToolCall>, n: nat)
    requires n <= |calls|
    ensures AddCalls(isObject, t, calls[..n]).None? ==> AddCalls(isObject, t, calls).None?
    decreases |calls|
  {
    if n == |calls| {
      assert calls[..n] == calls;
    } else {
      assert calls[..|calls| - 1][..n] == calls[..n];
      CallsReject(isObject, t, calls[..|calls| - 1], n);
    }
  }

  method AddToolCalls(isObject: string -> bool, t: Turn, calls: seq<ToolCall>) returns (u: Option<Turn>)
    ensures u == AddCalls(isObject, t, calls)
  {
    var seen, out := t.seen, t.out;
    assert calls[..0] == [];
    for n := 0 to |calls|
      invariant AddCalls(isObject, t, calls[..n]) == Some(Turn(seen, t.results, out))
    {
      assert calls[..n + 1][..n] == calls[..n];
      CallsReject(isObject, t, calls, n + 1);
      if !CallOk(isObject, calls[n]) || calls[n].id in seen {
        return None;
      }
      seen, out := seen + {calls[n].id}, out + [Call(calls[n].id, calls[n].name, calls[n].arguments)];
    }
    assert calls[..|calls|] == calls;
    u := Some(Turn(seen, t.results, out));
  }

  method ChatMessagesToResponses(isObject: string -> bool, messages: seq<ChatMessage>) returns (items: Option<seq<Item>>)
    ensures items == ToResponses(isObject, messages)
  {
    hide AddCalls, TextOf, TurnAll;
    var seenCalls, results, out := {}, {}, [];
    assert TurnAll(isObject, messages[..0]) == Some(NO_TURNS) by { TurnNone(isObject, messages); }
    for n := 0 to |messages|
      invariant TurnAll(isObject, messages[..n]) == Some(Turn(seenCalls, results, out))
    {
      TurnMore(isObject, messages, n);
      var m := messages[n];
      if m.role in ROLES {
        if m.content != Absent && m.content != Null {
          var text := TextOf(m.content);
          if text.None? {
            return None;
          }
          if text.value != "" {
            out := out + [TextItem(m.role, text.value)];
          }
        }
        match m.toolCalls {
          case NoCalls =>
          case BadCalls => return None;
          case Calls(calls) =>
            var added := AddToolCalls(isObject, Turn(seenCalls, results, out), calls);
            if added.None? {
              return None;
            }
            seenCalls, results, out := added.value.seen, added.value.results, added.value.out;
        }
      } else if m.role == "tool" {
        if m.toolCallId == "" || m.toolCallId !in seenCalls || m.toolCallId in results || m.content == Absent {
          return None;
        }
        var output := TextOf(m.content);
        if output.None? {
          return None;
        }
        results, out := results + {m.toolCallId}, out + [Output(m.toolCallId, output)];
      } else {
        return None;
      }
    }
    assert messages[..|messages|] == messages;
    items := Some(out);
  }

  lemma TurnNone(isObject: string -> bool, messages: seq<ChatMessage>)
    ensures TurnAll(isObject, messages[..0]) == Some(NO_TURNS)
  {
  }

  // --- The round trip ---

  /** What becomes of one item: the blocks of a message are joined, and an empty message is dropped. */
  function NormalItem(item: Item): seq<Item> {
    match item
    case Message(role, content) =>
      if TextOf(content).Some? && TextOf(content).value != "" then [TextItem(role, TextOf(content).value)] else []
    case _ => [item]
  }

  function NormalItems(items: seq<Item>): seq<Item> {
    if items == [] then [] else NormalItems(items[..|items| - 1]) + NormalItem(items[|items| - 1])
  }

  /** Instructions become a leading developer message. */
  function Normal(items: seq<Item>, instructions: Instructions): seq<Item> {
    (if instructions.Instructions? && instructions.text != "" then [TextItem("developer", instructions.text)] else []) + NormalItems(items)
  }

  function CallItems(calls: seq<ToolCall>): seq<Item> {
    seq(|calls|, i requires 0 <= i < |calls| => Call(calls[i].id, calls[i].name, calls[i].arguments))
  }

  function CallIds(calls: seq<ToolCall>): set<string> {
    set i | 0 <= i < |calls| :: calls[i].id
  }

  /** The messages written so far convert back to the items read so far, except for the calls that
      are still held back. */
  ghost predicate Echoes(isObject: string -> bool, w: Walk, items: seq<Item>) {
    var t := TurnAll(isObject, w.out);
    && t.Some? && t.value.out + CallItems(w.active) == items && w.results == t.value.results
    && w.seen == t.value.seen + CallIds(w.active) && CallIds(w.active) !! t.value.seen
    && (forall i :: 0 <= i < |w.active| ==> CallOk(isObject, w.active[i]))
    && (forall i, j :: 0 <= i < j < |w.active| ==> w.active[i].id != w.active[j].id)
  }

  lemma TurnSnoc(isObject: string -> bool, messages: seq<ChatMessage>, m: ChatMessage)
    ensures TurnAll(isObject, messages + [m]) == (match TurnAll(isObject, messages) case None => None case Some(t) => TurnMessage(isObject, t, m))
  {
    assert (messages + [m])[..|messages|] == messages;
  }

  lemma CallIdsSnoc(calls: seq<ToolCall>, call: ToolCall)
    ensures CallIds(calls + [call]) == CallIds(calls) + {call.id}
    ensures CallItems(calls + [call]) == CallItems(calls) + [Call(call.id, call.name, call.arguments)]
  {
    var more := calls + [call];
    assert forall i :: 0 <= i < |calls| ==> more[i] == calls[i];
    forall id | id in CallIds(calls) + {call.id} ensures id in CallIds(more) {
      if id == call.id {
        assert more[|calls|].id == id;
      } else {
        var i :| 0 <= i < |calls| && calls[i].id == id;
        assert more[i].id == id;
      }
    }
  }

  lemma {:induction false} GoodCallsAreAdded(isObject: string -> bool, t: Turn, calls: seq<ToolCall>)
    requires forall i :: 0 <= i < |calls| ==> CallOk(isObject, calls[i])
    requires forall i, j :: 0 <= i < j < |calls| ==> calls[i].id != calls[j].id
    requires CallIds(calls) !! t.seen
    ensures AddCalls(isObject, t, calls) == Some(Turn(t.seen + CallIds(calls), t.results, t.out + CallItems(calls)))
  {
    if calls == [] {
      assert t.seen + CallIds(calls) == t.seen && t.out + CallItems(calls) == t.out;
    } else {
      hide CallOk;
      var init, last := calls[..|calls| - 1], calls[|calls| - 1];
      assert init + [last] == calls;
      CallIdsSnoc(init, last);
      assert last.id !in CallIds(init);
      hide CallIds, CallItems;
      GoodCallsAreAdded(isObject, t, init);
      assert t.out + CallItems(calls) == t.out + CallItems(init) + [Call(last.id, last.name, last.arguments)];
      assert t.seen + CallIds(calls) == t.seen + CallIds(init) + {last.id};
    }
  }

  lemma FlushEchoes(isObject: string -> bool, w: Walk, items: seq<Item>)
    requires Echoes(isObject, w, items)
    ensures Echoes(isObject, Flush(w), items) && Flush(w).active == []
    ensures ToResponses(isObject, Flush(w).out) == Some(items)
  {
    var t := TurnAll(isObject, w.out).value;
    if w.active != [] {
      TurnSnoc(isObject, w.out, ChatMessage("assistant", Absent, Calls(w.active), ""));
      GoodCallsAreAdded(isObject, t, w.active);
    }
    var u := TurnAll(isObject, Flush(w).out).value;
    assert u.out + CallItems([]) == u.out && t.out + CallItems([]) == t.out;
    assert u.seen + CallIds([]) == u.seen;
  }

  lemma MessageEchoes(isObject: string -> bool, w: Walk, items: seq<Item>, item: Item)
    requires Echoes(isObject, w, items) && item.Message? && WalkItem(isObject, w, item).Some?
    ensures Echoes(isObject, WalkItem(isObject, w, item).value, items + NormalItem(item))
  {
    var text := TextOf(item.content).value;
    TurnSnoc(isObject, w.out, ChatMessage(item.role, Text(text), NoCalls, ""));
    var t := TurnAll(isObject, w.out).value;
    assert t.out + CallItems([]) == t.out;
    assert forall s: seq<Item> :: s + [] == s;
    var u := TurnMessage(isObject, t, ChatMessage(item.role, Text(text), NoCalls, "")).value;
    assert u.out + CallItems([]) == u.out;
  }

  lemma CallEchoes(isObject: string -> bool, w: Walk, items: seq<Item>, item: Item)
    requires Echoes(isObject, w, items) && item.Call? && WalkItem(isObject, w, item).Some?
    ensures Echoes(isObject, WalkItem(isObject, w, item).value, items + NormalItem(item))
  {
    var t := TurnAll(isObject, w.out).value;
    var more := w.active + [ToolCall(item.callId, "function", item.name, item.arguments)];
    assert CallItems(more) == CallItems(w.active) + [item];
    assert t.out + CallItems(more) == items + [item];
    assert CallIds(more) == CallIds(w.active) + {item.callId} by {
      assert forall i :: 0 <= i < |w.active| ==> more[i] == w.active[i];
      assert more[|w.active|].id == item.callId;
    }
    assert forall i :: 0 <= i < |w.active| ==> w.active[i].id in CallIds(w.active);
    assert w.seen + {item.callId} == t.seen + CallIds(more);
  }

  /** An accepted output, after the calls that were held back. */
  lemma OutputWalks(isObject: string -> bool, w: Walk, item: Item)
    requires item.Output? && WalkItem(isObject, w, item).Some?
    ensures var f := Flush(w);
            && item.callId != "" && item.callId in f.seen && item.callId !in f.results && item.output.Some?
            && WalkItem(isObject, w, item) == Some(f.(outputsStarted := true, results := f.results + {item.callId},
                                                     out := f.out + [ChatMessage("tool", Text(item.output.value), NoCalls, item.callId)]))
  {
    hide Flush;
  }

  lemma ToolTurns(isObject: string -> bool, t: Turn, item: Item)
    requires item.Output? && item.callId != "" && item.callId in t.seen && item.callId !in t.results && item.output.Some?
    ensures TurnMessage(isObject, t, ChatMessage("tool", Text(item.output.value), NoCalls, item.callId)) ==
            Some(t.(results := t.results + {item.callId}, out := t.out + [item]))
  {
  }

  lemma NothingHeld(isObject: string -> bool, w: Walk, items: seq<Item>)
    requires w.active == []
    ensures Echoes(isObject, w, items) <==>
            var t := TurnAll(isObject, w.out); t.Some? && t.value.out == items && w.results == t.value.results && w.seen == t.value.seen
  {
    hide TurnAll;
    assert CallItems([]) == [] && CallIds([]) == {};
    var t := TurnAll(isObject, w.out);
    if t.Some? {
      assert t.value.out + [] == t.value.out && t.value.seen + {} == t.value.seen;
    }
  }

  lemma OutputEchoes(isObject: string -> bool, w: Walk, items: seq<Item>, item: Item)
    requires Echoes(isObject, w, items) && item.Output? && WalkItem(isObject, w, item).Some?
    ensures Echoes(isObject, WalkItem(isObject, w, item).value, items + NormalItem(item))
  {
    var f := Flush(w);
    FlushEchoes(isObject, w, items);
    OutputWalks(isObject, w, item);
    hide TurnAll, Echoes, Flush, WalkItem, TurnMessage;
    NothingHeld(isObject, f, items);
    var t := TurnAll(isObject, f.out).value;
    var m := ChatMessage("tool", Text(item.output.value), NoCalls, item.callId);
    TurnSnoc(isObject, f.out, m);
    ToolTurns(isObject, t, item);
    NothingHeld(isObject, f.(outputsStarted := true, results := f.results + {item.callId}, out := f.out + [m]), items + [item]);
  }

  lemma {:induction false} WalkEchoes(isObject: string -> bool, opening: Walk, start: seq<Item>, items: seq<Item>)
    requires Echoes(isObject, opening, start) && WalkAll(isObject, opening, items).Some?
    ensures Echoes(isObject, WalkAll(isObject, opening, items).value, start + NormalItems(items))
    decreases |items|
  {
    if items == [] {
      assert start + [] == start;
    } else {
      hide Echoes, WalkItem, NormalItem;
      var init, item := items[..|items| - 1], items[|items| - 1];
      WalkEchoes(isObject, opening, start, init);
      var w := WalkAll(isObject, opening, init).value;
      var so := start + NormalItems(init);
      assert start + NormalItems(items) == so + NormalItem(item);
      match item {
        case Message(_, _) => MessageEchoes(isObject, w, so, item);
        case Call(_, _, _) => CallEchoes(isObject, w, so, item);
        case Output(_, _) => OutputEchoes(isObject, w, so, item);
        case OtherItem(_) => OtherRejected(isObject, w, item);
      }
    }
  }

  /** Every accepted Responses input becomes Chat messages that are accepted in turn, and that give
      back the same items up to normalisation. */
  lemma InputComesBack(isObject: string -> bool, items: seq<Item>, instructions: Instructions)
    requires ToChat(isObject, Items(items), instructions).Some?
    ensures ToResponses(isObject, ToChat(isObject, Items(items), instructions).value) == Some(Normal(items, instructions))
  {
    var opening := Opening(instructions).value;
    var start := if instructions.Instructions? && instructions.text != "" then [TextItem("developer", instructions.text)] else [];
    assert Echoes(isObject, Started(opening), start) by {
      OpeningEchoes(isObject, instructions, start);
    }
    hide Echoes, WalkAll, TurnAll;
    WalkEchoes(isObject, Started(opening), start, items);
    FlushEchoes(isObject, WalkAll(isObject, Started(opening), items).value, start + NormalItems(items));
  }

  lemma OpeningEchoes(isObject: string -> bool, instructions: Instructions, start: seq<Item>)
    requires !instructions.BadInstructions?
    requires start == if instructions.Instructions? && instructions.text != "" then [TextItem("developer", instructions.text)] else []
    ensures Echoes(isObject, Started(Opening(instructions).value), start)
  {
    var opening := Opening(instructions).value;
    assert TurnAll(isObject, opening) == Some(NO_TURNS.(out := start)) by {
      if instructions.Instructions? {
        hide JoinBlocks;
        assert opening[..0] == [];
        assert TurnAll(isObject, opening[..0]) == Some(NO_TURNS);
        assert [] + start == start;
      }
    }
    hide TurnAll, Opening;
    assert start + CallItems([]) == start;
    assert CallIds([]) == {} && {} + CallIds([]) == {};
  }

  lemma UserTurn(isObject: string -> bool, start: seq<Item>, text: string)
    ensures TurnMessage(isObject, NO_TURNS.(out := start), ChatMessage("user", Text(text), NoCalls, "")) ==
            Some(NO_TURNS.(out := start + NormalItem(Message("user", Text(text)))))
  {
    assert start + [] == start;
  }

  lemma OneNormalItem(item: Item)
    ensures NormalItems([item]) == NormalItem(item)
  {
    hide NormalItem;
    assert [item][..0] == [];
    assert NormalItems([item][..0]) == [];
    assert [] + NormalItem(item) == NormalItem(item);
  }

  /** A text input becomes one user message behind the instructions, unless those are malformed, and
      gives back the items that say the same. */
  lemma TextInputComesBack(isObject: string -> bool, text: string, instructions: Instructions)
    ensures var chat := ToChat(isObject, InputText(text), instructions);
            && (chat.Some? <==> !instructions.BadInstructions?)
            && (chat.Some? ==>
                |chat.value| > 0 && chat.value[|chat.value| - 1] == ChatMessage("user", Text(text), NoCalls, "")
                && ToResponses(isObject, chat.value) == Some(Normal([Message("user", Text(text))], instructions)))
  {
    if !instructions.BadInstructions? {
      var start := if instructions.Instructions? && instructions.text != "" then [TextItem("developer", instructions.text)] else [];
      OpeningTurns(isObject, instructions, start);
      UserTurn(isObject, start, text);
      OneNormalItem(Message("user", Text(text)));
      hide TurnAll, Opening, NormalItems, NormalItem, TurnMessage, TextItem;
      TurnSnoc(isObject, Opening(instructions).value, ChatMessage("user", Text(text), NoCalls, ""));
    }
  }

  lemma OpeningTurns(isObject: string -> bool, instructions: Instructions, start: seq<Item>)
    requires !instructions.BadInstructions?
    requires start == if instructions.Instructions? && instructions.text != "" then [TextItem("developer", instructions.text)] else []
    ensures TurnAll(isObject, Opening(instructions).value) == Some(NO_TURNS.(out := start))
  {
    hide JoinBlocks;
    var opening := Opening(instructions).value;
    if instructions.Instructions? {
      assert opening[..0] == [];
      assert TurnAll(isObject, opening[..0]) == Some(NO_TURNS);
      assert [] + start == start;
    }
  }
}
