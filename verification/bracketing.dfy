/** The Messages output of the Responses converter is well bracketed, whatever it is fed. */
module Bracketing {
  import opened Wrappers
  import opened Framing
  import opened Frames
  import opened EventMachine
  import opened StreamEvents
  import R = ResponsesToMessages

  /** A reader of Messages events that checks their order: `starts` blocks begun so far, the kind
      of the open block if any, and whether the message has begun and ended. */
  datatype Reader = Reader(starts: nat, open: Option<BlockKind>, begun: bool, ended: bool, ok: bool)

  const READER := Reader(0, None, false, false, true)

  function Matches(block: BlockKind, delta: BlockKind): bool {
    (block == BText && delta == BTextDelta) || (block == BToolUse && delta == BJsonDelta)
  }

  function Read(r: Reader, p: MPayload): Reader {
    if r.ended then r.(ok := false)
    else match p.typ
      case MMessageStart => r.(begun := true, ok := r.ok && !r.begun)
      case MBlockStart =>
        var kind := StartedKind(p);
        r.(starts := r.starts + 1, open := Some(kind),
           ok := r.ok && r.open.None? && p.index == r.starts && (kind == BText || kind == BToolUse))
      case MBlockDelta => r.(ok := r.ok && r.open.Some? && p.index == r.starts - 1 && Matches(r.open.value, p.delta.kind))
      case MBlockStop => r.(open := None, ok := r.ok && r.open.Some? && p.index == r.starts - 1)
      case MMessageDelta => r.(ok := r.ok && r.open.None?)
      case MMessageStop => r.(ended := true, ok := r.ok && r.open.None?)
      case _ => r.(ok := false)
  }

  function ReadAll(r: Reader, out: seq<MPayload>): Reader
    decreases |out|
  {
    if out == [] then r else ReadAll(Read(r, out[0]), out[1..])
  }

  ghost predicate WellBracketed(out: seq<MPayload>) {
    ReadAll(READER, out).ok
  }

  lemma {:induction false} ReadAppend(r: Reader, a: seq<MPayload>, b: seq<MPayload>)
    ensures ReadAll(r, a + b) == ReadAll(ReadAll(r, a), b)
    decreases |a|
  {
    if a == [] {
      assert a + b == b;
    } else {
      assert (a + b)[1..] == a[1..] + b;
      ReadAppend(Read(r, a[0]), a[1..], b);
    }
  }

  lemma {:induction false} OnceWrongStaysWrong(r: Reader, out: seq<MPayload>)
    ensures ReadAll(r, out).ok ==> r.ok
    decreases |out|
  {
    if out != [] {
      OnceWrongStaysWrong(Read(r, out[0]), out[1..]);
    }
  }

  lemma {:induction false} EndIsFinal(r: Reader, out: seq<MPayload>)
    requires r.ended && ReadAll(r, out).ok
    ensures out == []
  {
    if out != [] {
      OnceWrongStaysWrong(Read(r, out[0]), out[1..]);
    }
  }

  function Starts(out: seq<MPayload>): nat {
    if out == [] then 0 else Starts(out[..|out| - 1]) + if out[|out| - 1].typ == MBlockStart then 1 else 0
  }

  function Stops(out: seq<MPayload>): nat {
    if out == [] then 0 else Stops(out[..|out| - 1]) + if out[|out| - 1].typ == MBlockStop then 1 else 0
  }

  function MessageStarts(out: seq<MPayload>): nat {
    if out == [] then 0 else MessageStarts(out[..|out| - 1]) + if out[|out| - 1].typ == MMessageStart then 1 else 0
  }

  function StartedKind(p: MPayload): BlockKind {
    if p.block.Some? then p.block.value.kind else BNone
  }

  /** The kind of the block begun last. */
  function LastKind(out: seq<MPayload>): BlockKind {
    if out == [] then BNone
    else if out[|out| - 1].typ == MBlockStart then StartedKind(out[|out| - 1])
    else LastKind(out[..|out| - 1])
  }

  /** What a correct reader counts. */
  lemma {:induction false} ReaderCounts(out: seq<MPayload>)
    requires WellBracketed(out)
    ensures var r := ReadAll(READER, out);
            && r.starts == Starts(out)
            && (r.open.Some? <==> Starts(out) == Stops(out) + 1) && (r.open.None? <==> Starts(out) == Stops(out))
            && (r.ended <==> out != [] && out[|out| - 1].typ == MMessageStop)
            && (r.begun <==> MessageStarts(out) == 1) && (!r.begun <==> MessageStarts(out) == 0)
            && (r.open.Some? ==> r.open.value == LastKind(out))
    decreases |out|
  {
    if out != [] {
      var init, last := out[..|out| - 1], out[|out| - 1];
      assert out == init + [last];
      ReadAppend(READER, init, [last]);
      OnceWrongStaysWrong(ReadAll(READER, init), [last]);
      assert ReadAll(ReadAll(READER, init), [last]) == Read(ReadAll(READER, init), last);
      ReaderCounts(init);
    }
  }

  /** Well bracketed, event by event: the blocks are text or tool calls and begin with the indices
      0, 1, 2, … and at most one is open; a delta or a stop carries the index of the open block, and
      a delta is of the kind of that block; the message begins at most once; and it ends once, with
      no block open, as the last event.  There are no other events. */
  lemma {:induction false} BracketingSpelledOut(out: seq<MPayload>, i: nat)
    requires WellBracketed(out) && i < |out|
    ensures var started, stopped, p := Starts(out[..i]), Stops(out[..i]), out[i];
            && stopped <= started <= stopped + 1
            && (p.typ == MBlockStart ==> p.index == started == stopped && (StartedKind(p) == BText || StartedKind(p) == BToolUse))
            && (p.typ == MBlockDelta || p.typ == MBlockStop ==> p.index == started - 1 == stopped)
            && (p.typ == MBlockDelta ==> Matches(LastKind(out[..i]), p.delta.kind))
            && (p.typ == MMessageStart ==> MessageStarts(out[..i]) == 0)
            && (p.typ == MMessageDelta ==> started == stopped)
            && (p.typ == MMessageStop ==> started == stopped && i == |out| - 1)
            && p.typ in {MMessageStart, MBlockStart, MBlockDelta, MBlockStop, MMessageDelta, MMessageStop}
  {
    var before, rest := out[..i], out[i + 1..];
    assert out == (before + [out[i]]) + rest;
    ReadAppend(READER, before + [out[i]], rest);
    ReadAppend(READER, before, [out[i]]);
    var r := ReadAll(READER, before);
    assert ReadAll(r, [out[i]]) == Read(r, out[i]);
    OnceWrongStaysWrong(Read(r, out[i]), rest);
    OnceWrongStaysWrong(r, [out[i]]);
    ReaderCounts(before);
    if out[i].typ == MMessageStop {
      EndIsFinal(Read(r, out[i]), rest);
    }
  }

  // --- The converter ---

  /** How far the converter's state and the reader of its output agree. */
  ghost predicate Agree(s: R.State, r: Reader) {
    && r.ok
    && r.starts == s.blockIndex + 1
    && r.begun == s.started
    && (r.ended ==> s.terminal)
    && (s.blockOpen ==> !s.blockStopped && (s.blockType == KMessage || s.blockType == KFunctionCall))
    && r.open == (if !s.blockOpen then None else Some(if s.blockType == KMessage then BText else BToolUse))
  }

  lemma ReadFew(r: Reader, out: seq<MPayload>)
    ensures |out| == 0 ==> ReadAll(r, out) == r
    ensures |out| == 1 ==> ReadAll(r, out) == Read(r, out[0])
    ensures |out| == 2 ==> ReadAll(r, out) == Read(Read(r, out[0]), out[1])
    ensures |out| == 3 ==> ReadAll(r, out) == Read(Read(Read(r, out[0]), out[1]), out[2])
  {
    hide Read;
    if |out| >= 2 {
      assert out[1..][1..] == out[2..];
      assert ReadAll(Read(r, out[0]), out[1..]) == ReadAll(Read(Read(r, out[0]), out[1]), out[2..]);
      if |out| == 3 {
        assert out[2..][1..] == [];
      }
    }
  }

  lemma ItemAgrees(s: R.State, item: Item, r: Reader)
    requires Agree(s, r) && !s.terminal
    ensures var x := R.AddItem(s, item); Agree(x.core, ReadAll(r, x.out))
  {
    hide ReadAll;
    ReadFew(r, R.AddItem(s, item).out);
  }

  lemma StopAgrees(s: R.State, r: Reader)
    requires Agree(s, r) && !s.terminal
    ensures var x := R.StopBlock(s); Agree(x.core, ReadAll(r, x.out))
  {
    hide ReadAll;
    ReadFew(r, R.StopBlock(s).out);
  }

  lemma CompleteAgrees(s: R.State, response: Response, r: Reader)
    requires Agree(s, r) && !s.terminal
    ensures var x := R.Complete(s, response); Agree(x.core, ReadAll(r, x.out))
  {
    hide ReadAll;
    ReadFew(r, R.Complete(s, response).out);
  }

  lemma CreatedAgrees(s: R.State, p: RPayload, r: Reader)
    requires Agree(s, r) && !s.terminal
    ensures var x := R.StepPayload(s, RCreated, p); Agree(x.core, ReadAll(r, x.out))
  {
    hide ReadAll;
    ReadFew(r, R.StepPayload(s, RCreated, p).out);
  }

  lemma DeltaAgrees(s: R.State, typ: RType, p: RPayload, r: Reader)
    requires Agree(s, r) && !s.terminal && (typ == RTextDelta || typ == RArgsDelta)
    ensures var x := R.StepPayload(s, typ, p); Agree(x.core, ReadAll(r, x.out))
  {
    hide ReadAll;
    ReadFew(r, R.StepPayload(s, typ, p).out);
  }

  lemma FailureAgrees(s: R.State, r: Reader)
    requires Agree(s, r)
    ensures Agree(s.(terminal := true), r)
  {
  }

  lemma PayloadAgrees(s: R.State, typ: RType, p: RPayload, r: Reader)
    requires Agree(s, r) && !s.terminal
    ensures var x := R.StepPayload(s, typ, p); Agree(x.core, ReadAll(r, x.out))
  {
    hide ReadAll, Read, R.AddItem, R.StopBlock, R.Complete, Agree;
    ReadFew(r, []);
    match typ
    case RCreated => CreatedAgrees(s, p, r);
    case RItemAdded => ItemAgrees(s, p.item, r);
    case RTextDelta => DeltaAgrees(s, typ, p, r);
    case RArgsDelta => DeltaAgrees(s, typ, p, r);
    case RTextDone => StopAgrees(s, r);
    case RPartDone => StopAgrees(s, r);
    case RItemDone => StopAgrees(s, r);
    case RCompleted => CompleteAgrees(s, p.response, r);
    case RIncomplete => FailureAgrees(s, r);
    case RFailed => FailureAgrees(s, r);
    case _ =>
  }

  lemma StepAgrees(s: R.State, e: Event<RPayload>, r: Reader)
    requires Agree(s, r)
    ensures var x := R.Step(s, e); Agree(x.core, ReadAll(r, x.out))
  {
    hide ReadAll, RTypeOf, R.StepPayload;
    ReadFew(r, []);
    if e.input.Payload? && !s.terminal {
      PayloadAgrees(s, if e.input.p.typ == RNone then RTypeOf(e.name) else e.input.p.typ, e.input.p, r);
    }
  }

  lemma {:induction false} RunAgrees(v: EventConverter<R.State, RPayload, MPayload>, s: R.State, es: seq<Event<RPayload>>, r: Reader)
    requires v.step == R.Step && Agree(s, r)
    ensures ReadAll(r, RunEvents(v, s, es).out).ok
    decreases |es|
  {
    if es != [] {
      var x := React(v, s, es[0]);
      if !v.resting(s) {
        StepAgrees(s, es[0], r);
      }
      if x.err.None? {
        RunAgrees(v, x.core, es[1..], ReadAll(r, x.out));
        ReadAppend(r, x.out, RunEvents(v, x.core, es[1..]).out);
      }
    }
  }

  /** For any event sequence at all the output is well bracketed. */
  lemma AnyEventsBracketed(responses: Codec<RPayload>, messages: Codec<MPayload>, es: seq<Event<RPayload>>)
    ensures WellBracketed(RunEvents(R.Converter(responses, messages), R.Init(), es).out)
  {
    RunAgrees(R.Converter(responses, messages), R.Init(), es, READER);
  }

  /** For any bytes at all, however chunked, the output printed is well bracketed. */
  lemma AnyBytesBracketed(responses: Codec<RPayload>, messages: Codec<MPayload>, chunks: seq<Bytes>) returns (out: seq<MPayload>)
    ensures Convert(MachineOf(R.Converter(responses, messages)), Fresh(R.Init()), chunks).out
            == PrintAll(p => ShowMessages(messages, p), out)
    ensures WellBracketed(out)
  {
    var v := R.Converter(responses, messages);
    var es := BytesAreEvents(v, R.Init(), chunks);
    out := RunEvents(v, R.Init(), es).out;
    AnyEventsBracketed(responses, messages, es);
  }
}
