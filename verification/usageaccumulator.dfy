/** The incremental reader of a stream's usage, terminal state and output.

    `Accumulator` is the object that is fed the bytes as they are forwarded; `Fed` is what a feed
    does to its fields, and `Scan` says what they mean for the lines of the stream. */
module UsageAccumulator {
  import opened Wrappers
  import opened Framing

  // --- One data line ---

  datatype EventType = OtherType | TypeMessageStop | TypeCompleted | TypeFailed | TypeIncomplete

  datatype Terminal = NoTerminal | MessageStop | Completed | Failed | Incomplete | ErrorTerminal

  datatype Fields = Fields(prompt: int, input: int, output: int, completion: int, cacheRead: int, cacheCreation: int,
                           promptCached: int, inputCached: int, promptCount: int, candidatesCount: int, totalCount: int)

  /** What is read from the JSON of one data line. */
  datatype Facts = Facts(typ: EventType, producesOutput: bool, usage: Option<Fields>, hasResponse: bool, responseUsage: Option<Fields>,
                         hasMessage: bool, messageUsage: Option<Fields>, geminiUsage: Option<Fields>, geminiFinished: bool,
                         protocolError: Option<string>)

  function UsageOf(f: Facts): Option<Fields> {
    if f.usage.Some? then f.usage
    else if !f.hasResponse && !f.hasMessage && f.geminiUsage.Some? then f.geminiUsage
    else if f.hasResponse && f.responseUsage.Some? then f.responseUsage
    else if f.hasMessage then f.messageUsage
    else None
  }

  /** No report is missed but that of a Gemini object beside a response or a message, and of several the
      outer one counts: the event's own, the response's, the message's. */
  lemma NoUsageExactly(f: Facts)
    ensures UsageOf(f).None? <==>
            f.usage.None? && !(f.hasResponse && f.responseUsage.Some?) && !(f.hasMessage && f.messageUsage.Some?)
            && (f.hasResponse || f.hasMessage || f.geminiUsage.None?)
    ensures f.usage.Some? ==> UsageOf(f) == f.usage
    ensures f.usage.None? && f.hasResponse && f.responseUsage.Some? ==> UsageOf(f) == f.responseUsage
    ensures f.usage.None? && f.hasMessage && !(f.hasResponse && f.responseUsage.Some?) ==> UsageOf(f) == f.messageUsage
    ensures f.usage.None? && !f.hasResponse && !f.hasMessage ==> UsageOf(f) == f.geminiUsage
  {
  }

  // --- The fields ---

  datatype Tally = Tally(input: int, output: int, cacheHit: int, cacheCreation: int, seenDone: bool, terminal: Terminal,
                         lastEvent: Bytes, errored: bool, errorMessage: string, producedOutput: bool)

  datatype State = State(buf: Bytes, tally: Tally)

  const NEW_TALLY := Tally(0, 0, 0, 0, false, NoTerminal, "", false, "", false)
  const NEW_STATE := State("", NEW_TALLY)

  predicate Successful(t: Tally) {
    (t.terminal == NoTerminal && t.seenDone) || t.terminal == Completed || t.terminal == Incomplete || t.terminal == MessageStop
  }

  function Last(seen: int, reported: int): int {
    if reported > 0 then reported else seen
  }

  function AddUsage(t: Tally, u: Fields): Tally {
    var input := Last(Last(Last(t.input, u.prompt), u.input), u.promptCount);
    var output := Last(Last(Last(t.output, u.completion), u.output), u.candidatesCount);
    t.(input := input,
       output := if u.totalCount > 0 && input == 0 && output == 0 then u.totalCount else output,
       cacheHit := Last(Last(Last(t.cacheHit, u.cacheRead), u.promptCached), u.inputCached),
       cacheCreation := Last(t.cacheCreation, u.cacheCreation))
  }

  function TypeTerminal(typ: EventType): Option<Terminal> {
    match typ
    case TypeCompleted => Some(Completed)
    case TypeFailed => Some(Failed)
    case TypeIncomplete => Some(Incomplete)
    case _ => None
  }

  function ReadFacts(t: Tally, f: Facts): Tally {
    var produced := t.(producedOutput := t.producedOutput || f.producesOutput);
    var stopped := if t.lastEvent == "message_stop" || f.typ == TypeMessageStop then produced.(terminal := MessageStop, seenDone := true) else produced;
    if f.protocolError.Some? then stopped.(errored := true, errorMessage := f.protocolError.value, terminal := ErrorTerminal, seenDone := true)
    else
      var ended := if TypeTerminal(f.typ).Some? then stopped.(terminal := TypeTerminal(f.typ).value, seenDone := true) else stopped;
      match UsageOf(f)
      case None => ended
      case Some(u) => AddUsage(if f.geminiFinished then ended.(terminal := Completed, seenDone := true) else ended, u)
  }

  predicate IsSpace(c: char) {
    c in "\t\n\r " || c == 11 as char || c == 12 as char
  }

  function TrimLeft(b: Bytes): Bytes {
    if b != "" && IsSpace(b[0]) then TrimLeft(b[1..]) else b
  }

  function TrimRight(b: Bytes): Bytes {
    if b != "" && IsSpace(b[|b| - 1]) then TrimRight(b[..|b| - 1]) else b
  }

  function TrimSpace(b: Bytes): Bytes {
    TrimRight(TrimLeft(b))
  }

  lemma {:induction false} TrimLeftDrops(b: Bytes) returns (i: nat)
    ensures i <= |b| && TrimLeft(b) == b[i..] && (forall k :: 0 <= k < i ==> IsSpace(b[k])) && (i < |b| ==> !IsSpace(b[i]))
  {
    i := 0;
    if b != "" && IsSpace(b[0]) {
      var j := TrimLeftDrops(b[1..]);
      i := j + 1;
      assert b[1..][j..] == b[i..];
      forall k | 0 <= k < i ensures IsSpace(b[k]) {
        assert k > 0 ==> b[1..][k - 1] == b[k];
      }
    }
  }

  lemma {:induction false} TrimRightDrops(b: Bytes) returns (j: nat)
    ensures j <= |b| && TrimRight(b) == b[..j] && (forall k :: j <= k < |b| ==> IsSpace(b[k])) && (j > 0 ==> !IsSpace(b[j - 1]))
  {
    j := |b|;
    assert b[..j] == b;
    if b != "" && IsSpace(b[|b| - 1]) {
      j := TrimRightDrops(b[..|b| - 1]);
      assert b[..|b| - 1][..j] == b[..j];
    }
  }

  /** Trimming drops exactly the space at both ends. */
  lemma TrimmedExactly(b: Bytes) returns (i: nat, j: nat)
    ensures i <= j <= |b| && TrimSpace(b) == b[i..j]
    ensures forall k :: 0 <= k < i || j <= k < |b| ==> IsSpace(b[k])
    ensures i < j ==> !IsSpace(b[i]) && !IsSpace(b[j - 1])
  {
    i := TrimLeftDrops(b);
    var n := TrimRightDrops(b[i..]);
    j := i + n;
    assert b[i..][..n] == b[i..j];
    forall k | j <= k < |b| ensures IsSpace(b[k]) {
      assert b[i..][k - i] == b[k];
    }
  }

  function ReadLine(decode: Bytes -> Option<Facts>, t: Tally, line: Bytes): Tally {
    if line == "" || line[0] == ':' then t
    else if EVENT_TAG <= line then
      var name := TrimSpace(line[|EVENT_TAG|..]);
      if name == "message_stop" then t.(lastEvent := name, terminal := MessageStop, seenDone := true) else t.(lastEvent := name)
    else if !(DATA_TAG <= line) then t
    else
      var data := TrimSpace(line[|DATA_TAG|..]);
      if data == "" then t
      else if data == DONE_MARK then t.(seenDone := true)
      else match decode(data)
        case None => t
        case Some(f) => ReadFacts(t, f)
  }

  // --- Feeding bytes ---

  /** Read every complete line of the buffer; a terminal line drops the rest. */
  function Drained(decode: Bytes -> Option<Facts>, s: State): State
    decreases |s.buf|
  {
    var n := LineEnd(s.buf);
    if n == |s.buf| then s
    else
      var t := ReadLine(decode, s.tally, TrimCR(s.buf[..n]));
      if t.seenDone then State("", t) else Drained(decode, State(s.buf[n + 1..], t))
  }

  function Fed(decode: Bytes -> Option<Facts>, s: State, p: Bytes): State {
    if s.tally.seenDone || p == "" then s else Drained(decode, s.(buf := s.buf + p))
  }

  function FedAll(decode: Bytes -> Option<Facts>, s: State, chunks: seq<Bytes>): State
    decreases |chunks|
  {
    if chunks == [] then s else FedAll(decode, Fed(decode, s, chunks[0]), chunks[1..])
  }

  class Accumulator {
    const decode: Bytes -> Option<Facts>
    var buf: Bytes
    var tally: Tally

    constructor (decode: Bytes -> Option<Facts>)
      ensures this.decode == decode && Value() == NEW_STATE
    {
      this.decode, buf, tally := decode, "", NEW_TALLY;
    }

    function Value(): State
      reads this
    {
      State(buf, tally)
    }

    method Feed(p: Bytes)
      modifies this
      ensures Value() == Fed(decode, old(Value()), p)
    {
      hide ReadLine, LineEnd, Drained;
      if tally.seenDone || p == "" {
        return;
      }
      buf := buf + p;
      ghost var start := Value();
      while true
        invariant Drained(decode, Value()) == Drained(decode, start)
        decreases |buf|
      {
        DrainedStep(decode, Value());
        var n := LineEnd(buf);
        if n == |buf| {
          break;
        }
        var line := buf[..n];
        if line != "" && line[|line| - 1] == '\r' {
          line := line[..|line| - 1];
        }
        buf := buf[n + 1..];
        tally := ReadLine(decode, tally, line);
        if tally.seenDone {
          buf := "";
          return;
        }
      }
    }
  }

  // --- Chunks do not matter ---

  /** Between two feeds the buffer holds part of a line, and nothing once the stream is over. */
  predicate Between(s: State) {
    LineEnd(s.buf) == |s.buf| && (s.tally.seenDone ==> s.buf == "")
  }

  lemma NewIsBetween()
    ensures Between(NEW_STATE)
  {
  }

  lemma LineEndOfPrefix(b: Bytes, rest: Bytes)
    ensures LineEnd(b) < |b| ==> LineEnd(b + rest) == LineEnd(b)
    ensures LineEnd(b) == |b| ==> LineEnd(b + rest) == |b| + LineEnd(rest)
  {
    if b == "" {
      assert b + rest == rest;
    } else {
      assert (b + rest)[1..] == b[1..] + rest;
      LineEndOfPrefix(b[1..], rest);
    }
  }

  lemma {:induction false} DrainedIsBetween(decode: Bytes -> Option<Facts>, s: State)
    requires !s.tally.seenDone
    ensures Between(Drained(decode, s))
    decreases |s.buf|
  {
    NothingIsBetween();
    hide ReadLine, LineEnd, TrimCR, Drained;
    DrainedStep(decode, s);
    var n := LineEnd(s.buf);
    if n < |s.buf| {
      var t := ReadLine(decode, s.tally, TrimCR(s.buf[..n]));
      if !t.seenDone {
        DrainedIsBetween(decode, State(s.buf[n + 1..], t));
      }
    }
  }

  lemma NothingIsBetween()
    ensures LineEnd("") == 0
  {
  }

  lemma {:induction false} DrainedAppend(decode: Bytes -> Option<Facts>, s: State, q: Bytes)
    requires !s.tally.seenDone
    ensures Drained(decode, s.(buf := s.buf + q)) == (var x := Drained(decode, s); if x.tally.seenDone then x else Drained(decode, x.(buf := x.buf + q)))
    decreases |s.buf|
  {
    hide ReadLine, LineEnd, TrimCR;
    var n := LineEnd(s.buf);
    LineEndOfPrefix(s.buf, q);
    if n < |s.buf| {
      var t := ReadLine(decode, s.tally, TrimCR(s.buf[..n]));
      var rest := State(s.buf[n + 1..], t);
      assert (s.buf + q)[..n] == s.buf[..n];
      assert (s.buf + q)[n + 1..] == s.buf[n + 1..] + q;
      assert Drained(decode, s.(buf := s.buf + q)) == if t.seenDone then State("", t) else Drained(decode, rest.(buf := rest.buf + q));
      if !t.seenDone {
        DrainedAppend(decode, rest, q);
      }
    }
  }

  lemma FedNothing(decode: Bytes -> Option<Facts>, s: State)
    ensures Fed(decode, s, "") == s
  {
  }

  lemma NothingToDrain(decode: Bytes -> Option<Facts>, s: State)
    requires Between(s)
    ensures Drained(decode, s.(buf := s.buf + "")) == s
  {
    assert s.buf + "" == s.buf;
  }

  lemma FedTwice(decode: Bytes -> Option<Facts>, s: State, p: Bytes, q: Bytes)
    requires Between(s)
    ensures Between(Fed(decode, s, p)) && Fed(decode, Fed(decode, s, p), q) == Fed(decode, s, p + q)
  {
    hide ReadLine, LineEnd, Drained;
    if s.tally.seenDone {
    } else if p == "" {
      assert p + q == q;
    } else {
      DrainedIsBetween(decode, s.(buf := s.buf + p));
      DrainedAppend(decode, s.(buf := s.buf + p), q);
      assert s.buf + p + q == s.buf + (p + q);
      if q == "" {
        NothingToDrain(decode, Fed(decode, s, p));
      }
    }
  }

  /** However the stream is cut into chunks, even inside a line or a line ending, the accumulator
      ends as if it had been fed at once. */
  lemma {:induction false} FeedingIgnoresChunking(decode: Bytes -> Option<Facts>, s: State, chunks: seq<Bytes>)
    requires Between(s)
    ensures Between(FedAll(decode, s, chunks)) && FedAll(decode, s, chunks) == Fed(decode, s, Flatten(chunks))
    decreases |chunks|
  {
    if chunks != [] {
      hide Fed, Between;
      FedTwice(decode, s, chunks[0], Flatten(chunks[1..]));
      FeedingIgnoresChunking(decode, Fed(decode, s, chunks[0]), chunks[1..]);
    }
  }

  // --- What the fields mean ---

  /** The terminated lines, without their line endings. */
  function Lines(b: Bytes): seq<Bytes>
    decreases |b|
  {
    var n := LineEnd(b);
    if n == |b| then [] else [TrimCR(b[..n])] + Lines(b[n + 1..])
  }

  /** Reading lines up to the first that ends the stream. */
  function Scan(decode: Bytes -> Option<Facts>, t: Tally, lines: seq<Bytes>): Tally
    decreases |lines|
  {
    if t.seenDone || lines == [] then t else Scan(decode, ReadLine(decode, t, lines[0]), lines[1..])
  }

  /** The first line, and the lines after it. */
  lemma FirstLine(b: Bytes)
    ensures LineEnd(b) == |b| ==> Lines(b) == []
    ensures var n := LineEnd(b); n < |b| ==> Lines(b) != [] && Lines(b)[0] == TrimCR(b[..n]) && Lines(b)[1..] == Lines(b[n + 1..])
  {
    hide LineEnd, TrimCR;
  }

  lemma DrainedStep(decode: Bytes -> Option<Facts>, s: State)
    ensures LineEnd(s.buf) == |s.buf| ==> Drained(decode, s) == s
    ensures var n := LineEnd(s.buf);
            n < |s.buf| ==>
              var t := ReadLine(decode, s.tally, TrimCR(s.buf[..n]));
              Drained(decode, s) == if t.seenDone then State("", t) else Drained(decode, State(s.buf[n + 1..], t))
  {
    hide ReadLine, LineEnd, TrimCR;
  }

  lemma {:induction false} DrainedIsScan(decode: Bytes -> Option<Facts>, s: State)
    requires !s.tally.seenDone
    ensures Drained(decode, s).tally == Scan(decode, s.tally, Lines(s.buf))
    decreases |s.buf|
  {
    hide ReadLine, LineEnd, TrimCR, Lines, Drained;
    var n := LineEnd(s.buf);
    FirstLine(s.buf);
    DrainedStep(decode, s);
    if n < |s.buf| {
      var t := ReadLine(decode, s.tally, TrimCR(s.buf[..n]));
      if !t.seenDone {
        DrainedIsScan(decode, State(s.buf[n + 1..], t));
      }
    }
  }

  /** How one line ends the stream. */
  datatype Verdict = Goes | Ends(successful: bool, errored: bool)

  function FactsIn(decode: Bytes -> Option<Facts>, line: Bytes): Option<Facts> {
    if !(DATA_TAG <= line) then None
    else
      var data := TrimSpace(line[|DATA_TAG|..]);
      if data == "" || data == DONE_MARK then None else decode(data)
  }

  function VerdictOf(decode: Bytes -> Option<Facts>, line: Bytes): Verdict {
    if EVENT_TAG <= line then (if TrimSpace(line[|EVENT_TAG|..]) == "message_stop" then Ends(true, false) else Goes)
    else if DATA_TAG <= line && TrimSpace(line[|DATA_TAG|..]) == DONE_MARK then Ends(true, false)
    else match FactsIn(decode, line)
      case None => Goes
      case Some(f) =>
        if f.protocolError.Some? then Ends(false, true)
        else if UsageOf(f).Some? && f.geminiFinished then Ends(true, false)
        else if f.typ == TypeFailed then Ends(false, false)
        else if f.typ != OtherType then Ends(true, false)
        else Goes
  }

  predicate Produces(decode: Bytes -> Option<Facts>, line: Bytes) {
    FactsIn(decode, line).Some? && FactsIn(decode, line).value.producesOutput
  }

  /** The lines that are read: up to and including the first that ends the stream. */
  function Read(decode: Bytes -> Option<Facts>, lines: seq<Bytes>): (r: seq<Bytes>)
    ensures r <= lines
  {
    if lines == [] then [] else if VerdictOf(decode, lines[0]).Ends? then [lines[0]] else [lines[0]] + Read(decode, lines[1..])
  }

  /** A tally of a stream that has not ended. */
  predicate Running(t: Tally) {
    !t.seenDone && t.terminal == NoTerminal && !t.errored && t.lastEvent != "message_stop"
  }

  lemma LineByVerdict(decode: Bytes -> Option<Facts>, t: Tally, line: Bytes)
    requires Running(t)
    ensures var u := ReadLine(decode, t, line);
            match VerdictOf(decode, line)
            case Goes => Running(u)
            case Ends(successful, errored) => u.seenDone && u.errored == errored && Successful(u) == successful
    ensures ReadLine(decode, t, line).producedOutput == (t.producedOutput || Produces(decode, line))
  {
    hide TrimSpace, AddUsage;
    if EVENT_TAG <= line {
      assert line[0] == 'e' && !(DATA_TAG <= line) by {
        assert EVENT_TAG[0] == 'e' && DATA_TAG[0] == 'd';
      }
    } else if DATA_TAG <= line {
      assert line[0] == 'd' by {
        assert DATA_TAG[0] == 'd';
      }
      match FactsIn(decode, line)
      case None =>
      case Some(f) => FactsByVerdict(t, f);
    }
  }

  lemma FactsByVerdict(t: Tally, f: Facts)
    requires Running(t)
    ensures var u := ReadFacts(t, f);
            && u.producedOutput == (t.producedOutput || f.producesOutput) && u.lastEvent == t.lastEvent
            && (if f.protocolError.Some? then u.seenDone && u.errored && !Successful(u)
                else if UsageOf(f).Some? && f.geminiFinished then u.seenDone && !u.errored && Successful(u)
                else if f.typ == TypeFailed then u.seenDone && !u.errored && !Successful(u)
                else if f.typ != OtherType then u.seenDone && !u.errored && Successful(u)
                else !u.seenDone && u.terminal == NoTerminal && !u.errored)
  {
    hide UsageOf;
  }

  predicate SomeProduce(decode: Bytes -> Option<Facts>, read: seq<Bytes>) {
    exists i :: 0 <= i < |read| && Produces(decode, read[i])
  }

  lemma SomeProduceFront(decode: Bytes -> Option<Facts>, read: seq<Bytes>)
    requires read != []
    ensures SomeProduce(decode, read) <==> Produces(decode, read[0]) || SomeProduce(decode, read[1..])
  {
    hide Produces;
    if SomeProduce(decode, read) {
      var i :| 0 <= i < |read| && Produces(decode, read[i]);
      assert i > 0 ==> read[1..][i - 1] == read[i];
    }
    if SomeProduce(decode, read[1..]) {
      var i :| 0 <= i < |read[1..]| && Produces(decode, read[1..][i]);
      assert read[i + 1] == read[1..][i];
    }
  }

  /** How the lines read end the stream. */
  predicate EndsAs(decode: Bytes -> Option<Facts>, u: Tally, lines: seq<Bytes>, read: seq<Bytes>) {
    if read != [] && VerdictOf(decode, read[|read| - 1]).Ends?
    then u.seenDone && u.errored == VerdictOf(decode, read[|read| - 1]).errored && Successful(u) == VerdictOf(decode, read[|read| - 1]).successful
    else Running(u) && !Successful(u) && read == lines
  }

  lemma ReadGoesOn(decode: Bytes -> Option<Facts>, lines: seq<Bytes>)
    requires lines != [] && VerdictOf(decode, lines[0]).Goes?
    ensures Read(decode, lines) == [lines[0]] + Read(decode, lines[1..])
  {
    hide VerdictOf;
  }

  lemma EndsAsFront(decode: Bytes -> Option<Facts>, u: Tally, lines: seq<Bytes>)
    requires lines != [] && VerdictOf(decode, lines[0]).Goes? && EndsAs(decode, u, lines[1..], Read(decode, lines[1..]))
    ensures EndsAs(decode, u, lines, Read(decode, lines))
  {
    hide VerdictOf, Running, Successful, Read;
    ReadGoesOn(decode, lines);
    var read, later := Read(decode, lines), Read(decode, lines[1..]);
    assert lines == [lines[0]] + lines[1..];
    if later != [] {
      assert read[|read| - 1] == later[|later| - 1];
    } else {
      assert read == [lines[0]];
    }
  }

  lemma {:induction false} FirstEnd(decode: Bytes -> Option<Facts>, t: Tally, lines: seq<Bytes>)
    requires Running(t)
    ensures var u := Scan(decode, t, lines);
            var read := Read(decode, lines);
            (u.producedOutput <==> t.producedOutput || SomeProduce(decode, read)) && EndsAs(decode, u, lines, read)
    decreases |lines|
  {
    if lines != [] {
      var u := ReadLine(decode, t, lines[0]);
      LineByVerdict(decode, t, lines[0]);
      ReadFront(decode, lines);
      var read := Read(decode, lines);
      hide ReadLine, VerdictOf, Produces, SomeProduce, Read;
      SomeProduceFront(decode, read);
      NoneProduce(decode);
      if VerdictOf(decode, lines[0]).Goes? {
        hide EndsAs, Running;
        FirstEnd(decode, u, lines[1..]);
        EndsAsFront(decode, Scan(decode, u, lines[1..]), lines);
      } else {
        assert read == [lines[0]];
      }
    }
  }

  lemma NoneProduce(decode: Bytes -> Option<Facts>)
    ensures !SomeProduce(decode, [])
  {
  }

  /** The first line that ends the stream decides how it ended, and output was produced exactly when
      one of the lines up to there produces some. */
  lemma FirstEndDecides(decode: Bytes -> Option<Facts>, t: Tally, lines: seq<Bytes>)
    requires Running(t)
    ensures var u := Scan(decode, t, lines);
            var read := Read(decode, lines);
            && (u.producedOutput <==> t.producedOutput || exists i :: 0 <= i < |read| && Produces(decode, read[i]))
            && (if read != [] && VerdictOf(decode, read[|read| - 1]).Ends?
                then u.seenDone && u.errored == VerdictOf(decode, read[|read| - 1]).errored
                     && Successful(u) == VerdictOf(decode, read[|read| - 1]).successful
                else Running(u) && !Successful(u) && read == lines)
  {
    hide ReadLine, VerdictOf, Produces, Scan, Read;
    FirstEnd(decode, t, lines);
  }

  /** The mark that an ending line leaves, and its message when it tells of an error. */
  function MarkOf(decode: Bytes -> Option<Facts>, line: Bytes): (Terminal, string) {
    if EVENT_TAG <= line then (MessageStop, "")
    else match FactsIn(decode, line)
      case None => (NoTerminal, "")
      case Some(f) =>
        if f.protocolError.Some? then (ErrorTerminal, f.protocolError.value)
        else if UsageOf(f).Some? && f.geminiFinished then (Completed, "")
        else match f.typ
          case TypeMessageStop => (MessageStop, "")
          case TypeCompleted => (Completed, "")
          case TypeFailed => (Failed, "")
          case TypeIncomplete => (Incomplete, "")
          case OtherType => (NoTerminal, "")
  }

  lemma LineMarks(decode: Bytes -> Option<Facts>, t: Tally, line: Bytes)
    requires Running(t)
    ensures var u := ReadLine(decode, t, line);
            if VerdictOf(decode, line).Goes? then u.errorMessage == t.errorMessage
            else u.terminal == MarkOf(decode, line).0 && u.errorMessage == if u.errored then MarkOf(decode, line).1 else t.errorMessage
  {
    hide TrimSpace, AddUsage;
    AddKeepsMarks();
    if EVENT_TAG <= line {
      assert line[0] == 'e' && !(DATA_TAG <= line) by {
        assert EVENT_TAG[0] == 'e' && DATA_TAG[0] == 'd';
      }
    } else if DATA_TAG <= line {
      assert line[0] == 'd' by {
        assert DATA_TAG[0] == 'd';
      }
    }
  }

  lemma AddKeepsMarks()
    ensures forall t: Tally, u: Fields :: AddUsage(t, u).terminal == t.terminal && AddUsage(t, u).errorMessage == t.errorMessage && AddUsage(t, u).errored == t.errored
  {
  }

  /** The line that ends the stream leaves its mark, and its message exactly when it is an error. */
  lemma {:induction false} FirstEndMarks(decode: Bytes -> Option<Facts>, t: Tally, lines: seq<Bytes>)
    requires Running(t)
    ensures var u, read := Scan(decode, t, lines), Read(decode, lines);
            if u.seenDone then read != [] && u.terminal == MarkOf(decode, read[|read| - 1]).0
                               && u.errorMessage == (if u.errored then MarkOf(decode, read[|read| - 1]).1 else t.errorMessage)
            else u.terminal == NoTerminal && u.errorMessage == t.errorMessage
    decreases |lines|
  {
    if lines != [] {
      var u := ReadLine(decode, t, lines[0]);
      LineByVerdict(decode, t, lines[0]);
      LineMarks(decode, t, lines[0]);
      ReadFront(decode, lines);
      hide ReadLine, VerdictOf, MarkOf, Read;
      var read := Read(decode, lines);
      if VerdictOf(decode, lines[0]).Goes? {
        FirstEndMarks(decode, u, lines[1..]);
        assert read[1..] != [] ==> read[|read| - 1] == read[1..][|read[1..]| - 1];
      } else {
        assert read == [lines[0]];
      }
    }
  }

  datatype Counter = Input | Output | CacheHit | CacheCreation

  function CountOf(k: Counter, t: Tally): int {
    match k
    case Input => t.input
    case Output => t.output
    case CacheHit => t.cacheHit
    case CacheCreation => t.cacheCreation
  }

  /** The names a counter goes by, the one that decides first. */
  function NamesOf(k: Counter, u: Fields): seq<int> {
    match k
    case Input => [u.promptCount, u.input, u.prompt]
    case Output => [u.candidatesCount, u.output, u.completion]
    case CacheHit => [u.inputCached, u.promptCached, u.cacheRead]
    case CacheCreation => [u.cacheCreation]
  }

  function FirstPositive(ns: seq<int>): (n: int)
    ensures n >= 0
  {
    if ns == [] then 0 else if ns[0] > 0 then ns[0] else FirstPositive(ns[1..])
  }

  /** The usage object one line reports. */
  function ReportIn(decode: Bytes -> Option<Facts>, line: Bytes): Option<Fields> {
    match FactsIn(decode, line)
    case None => None
    case Some(f) => if f.protocolError.Some? then None else UsageOf(f)
  }

  function CountIn(decode: Bytes -> Option<Facts>, k: Counter, line: Bytes): (n: int)
    ensures n >= 0
  {
    match ReportIn(decode, line)
    case None => 0
    case Some(u) => FirstPositive(NamesOf(k, u))
  }

  function TotalIn(decode: Bytes -> Option<Facts>, line: Bytes): int {
    match ReportIn(decode, line)
    case None => 0
    case Some(u) => u.totalCount
  }

  /** The last positive report of a counter. */
  function LastCount(decode: Bytes -> Option<Facts>, k: Counter, seen: int, lines: seq<Bytes>): int {
    if lines == [] then seen
    else if CountIn(decode, k, lines[|lines| - 1]) > 0 then CountIn(decode, k, lines[|lines| - 1])
    else LastCount(decode, k, seen, lines[..|lines| - 1])
  }

  /** The first positive total reported while no prompt tokens are known. */
  function FirstTotal(decode: Bytes -> Option<Facts>, input: int, lines: seq<Bytes>): int
    decreases |lines|
  {
    if lines == [] then 0
    else
      var known := Last(input, CountIn(decode, Input, lines[0]));
      if known == 0 && TotalIn(decode, lines[0]) > 0 then TotalIn(decode, lines[0]) else FirstTotal(decode, known, lines[1..])
  }

  /** The output tokens of a stream: their last positive report; without one, what is known already;
      and without that a total that came alone. */
  function OutputCount(decode: Bytes -> Option<Facts>, t: Tally, lines: seq<Bytes>): int {
    var reported := LastCount(decode, Output, 0, lines);
    if reported > 0 then reported else if t.output != 0 then t.output else FirstTotal(decode, t.input, lines)
  }

  lemma {:induction false} LastCountFront(decode: Bytes -> Option<Facts>, k: Counter, seen: int, lines: seq<Bytes>)
    requires lines != []
    ensures LastCount(decode, k, seen, lines) == LastCount(decode, k, Last(seen, CountIn(decode, k, lines[0])), lines[1..])
    decreases |lines|
  {
    hide CountIn;
    if |lines| == 1 {
      assert lines[..0] == lines[1..] == [];
    } else {
      assert lines[..|lines| - 1][1..] == lines[1..][..|lines| - 2];
      LastCountFront(decode, k, seen, lines[..|lines| - 1]);
    }
  }

  lemma {:induction false} LastCountFrom(decode: Bytes -> Option<Facts>, k: Counter, seen: int, lines: seq<Bytes>)
    ensures LastCount(decode, k, seen, lines) == Last(seen, LastCount(decode, k, 0, lines))
    decreases |lines|
  {
    hide CountIn;
    if lines != [] {
      LastCountFrom(decode, k, seen, lines[..|lines| - 1]);
    }
  }

  lemma FirstOfFew(a: int, b: int, c: int)
    ensures FirstPositive([a]) == (if a > 0 then a else 0)
    ensures FirstPositive([a, b, c]) == if a > 0 then a else if b > 0 then b else if c > 0 then c else 0
  {
    assert [a, b, c][1..] == [b, c];
    assert [b, c][1..] == [c];
    assert FirstPositive([c]) == if c > 0 then c else 0;
    assert FirstPositive([b, c]) == if b > 0 then b else FirstPositive([c]);
  }

  lemma UsageCounts(t: Tally, u: Fields, k: Counter)
    ensures k != Output ==> CountOf(k, AddUsage(t, u)) == Last(CountOf(k, t), FirstPositive(NamesOf(k, u)))
    ensures var output := Last(t.output, FirstPositive(NamesOf(Output, u)));
            AddUsage(t, u).output == if u.totalCount > 0 && AddUsage(t, u).input == 0 && output == 0 then u.totalCount else output
  {
    hide FirstPositive;
    FirstOfFew(u.promptCount, u.input, u.prompt);
    FirstOfFew(u.candidatesCount, u.output, u.completion);
    FirstOfFew(u.inputCached, u.promptCached, u.cacheRead);
    FirstOfFew(u.cacheCreation, 0, 0);
  }

  function CountsOf(t: Tally): (int, int, int, int) {
    (t.input, t.output, t.cacheHit, t.cacheCreation)
  }

  function WithReport(t: Tally, report: Option<Fields>): Tally {
    if report.Some? then AddUsage(t, report.value) else t
  }

  lemma AddsToCounts(a: Tally, b: Tally, u: Fields)
    requires CountsOf(a) == CountsOf(b)
    ensures CountsOf(AddUsage(a, u)) == CountsOf(AddUsage(b, u))
  {
  }

  lemma FactsAddReport(t: Tally, f: Facts)
    ensures CountsOf(ReadFacts(t, f)) == CountsOf(WithReport(t, if f.protocolError.Some? then None else UsageOf(f)))
  {
    hide UsageOf, AddUsage;
    if UsageOf(f).Some? {
      var u := UsageOf(f).value;
      forall s: Tally | CountsOf(s) == CountsOf(t) ensures CountsOf(AddUsage(s, u)) == CountsOf(AddUsage(t, u)) {
        AddsToCounts(s, t, u);
      }
    }
  }

  lemma LineAddsReport(decode: Bytes -> Option<Facts>, t: Tally, line: Bytes)
    ensures CountsOf(ReadLine(decode, t, line)) == CountsOf(WithReport(t, ReportIn(decode, line)))
  {
    hide TrimSpace, UsageOf, ReadFacts, WithReport;
    if DATA_TAG <= line {
      assert line[0] == 'd' && !(EVENT_TAG <= line) by {
        assert EVENT_TAG[0] == 'e' && DATA_TAG[0] == 'd';
      }
      if FactsIn(decode, line).Some? {
        FactsAddReport(t, FactsIn(decode, line).value);
      }
    }
    NoReport(t);
  }

  lemma NoReport(t: Tally)
    ensures WithReport(t, None) == t
  {
  }

  lemma LineCounts(decode: Bytes -> Option<Facts>, t: Tally, line: Bytes, k: Counter)
    ensures k != Output ==> CountOf(k, ReadLine(decode, t, line)) == Last(CountOf(k, t), CountIn(decode, k, line))
    ensures var output := Last(t.output, CountIn(decode, Output, line));
            ReadLine(decode, t, line).output ==
            if TotalIn(decode, line) > 0 && ReadLine(decode, t, line).input == 0 && output == 0 then TotalIn(decode, line) else output
  {
    hide ReadLine, ReportIn, AddUsage, FirstPositive, NamesOf;
    LineAddsReport(decode, t, line);
    if ReportIn(decode, line).Some? {
      UsageCounts(t, ReportIn(decode, line).value, k);
    }
  }

  lemma ReadFront(decode: Bytes -> Option<Facts>, lines: seq<Bytes>)
    requires lines != []
    ensures Read(decode, lines) != [] && Read(decode, lines)[0] == lines[0]
    ensures Read(decode, lines)[1..] == if VerdictOf(decode, lines[0]).Ends? then [] else Read(decode, lines[1..])
  {
    hide VerdictOf;
  }

  /** Prompt, cache-read and cache-creation tokens are the last positive ones among the lines read. */
  lemma {:induction false} LastReportWins(decode: Bytes -> Option<Facts>, t: Tally, lines: seq<Bytes>, k: Counter)
    requires Running(t) && k != Output
    ensures CountOf(k, Scan(decode, t, lines)) == LastCount(decode, k, CountOf(k, t), Read(decode, lines))
    decreases |lines|
  {
    if lines != [] {
      hide ReadLine, VerdictOf, CountIn, Read;
      var u := ReadLine(decode, t, lines[0]);
      LineByVerdict(decode, t, lines[0]);
      LineCounts(decode, t, lines[0], k);
      ReadFront(decode, lines);
      LastCountFront(decode, k, CountOf(k, t), Read(decode, lines));
      if VerdictOf(decode, lines[0]).Goes? {
        LastReportWins(decode, u, lines[1..], k);
      }
    } else {
      assert Read(decode, lines) == [];
    }
  }

  /** What one line adds to the output tokens. */
  lemma OutputTurn(decode: Bytes -> Option<Facts>, t: Tally, u: Tally, read: seq<Bytes>)
    requires read != [] && u.input == Last(t.input, CountIn(decode, Input, read[0]))
    requires var output := Last(t.output, CountIn(decode, Output, read[0]));
             u.output == if TotalIn(decode, read[0]) > 0 && u.input == 0 && output == 0 then TotalIn(decode, read[0]) else output
    ensures OutputCount(decode, t, read) == OutputCount(decode, u, read[1..])
  {
    hide CountIn, TotalIn, LastCount;
    LastCountFront(decode, Output, 0, read);
    LastCountFrom(decode, Output, Last(0, CountIn(decode, Output, read[0])), read[1..]);
  }

  lemma NothingCounts(decode: Bytes -> Option<Facts>, t: Tally)
    ensures OutputCount(decode, t, []) == t.output
  {
  }

  /** So are the output tokens, and a total that comes alone stands in for them. */
  lemma {:induction false} OutputIsCounted(decode: Bytes -> Option<Facts>, t: Tally, lines: seq<Bytes>)
    requires Running(t)
    ensures Scan(decode, t, lines).output == OutputCount(decode, t, Read(decode, lines))
    decreases |lines|
  {
    hide ReadLine, VerdictOf, CountIn, TotalIn, Read, OutputCount;
    if lines != [] {
      var u := ReadLine(decode, t, lines[0]);
      LineByVerdict(decode, t, lines[0]);
      LineCounts(decode, t, lines[0], Input);
      ReadFront(decode, lines);
      OutputTurn(decode, t, u, Read(decode, lines));
      if VerdictOf(decode, lines[0]).Goes? {
        OutputIsCounted(decode, u, lines[1..]);
      } else {
        NothingCounts(decode, u);
      }
    } else {
      assert Read(decode, lines) == [];
      NothingCounts(decode, t);
    }
  }

  lemma FedIsScan(decode: Bytes -> Option<Facts>, chunks: seq<Bytes>)
    ensures FedAll(decode, NEW_STATE, chunks).tally == Scan(decode, NEW_TALLY, Lines(Flatten(chunks)))
  {
    hide ReadLine;
    var b := Flatten(chunks);
    FeedingIgnoresChunking(decode, NEW_STATE, chunks);
    if b != "" {
      assert "" + b == b;
      DrainedIsScan(decode, NEW_STATE.(buf := b));
    }
  }

  /** The same for the bytes of a stream, fed in any chunks. */
  lemma StreamIsRead(decode: Bytes -> Option<Facts>, chunks: seq<Bytes>)
    ensures var t := FedAll(decode, NEW_STATE, chunks).tally;
            var read := Read(decode, Lines(Flatten(chunks)));
            && t.input == LastCount(decode, Input, 0, read)
            && t.output == OutputCount(decode, NEW_TALLY, read)
            && t.cacheHit == LastCount(decode, CacheHit, 0, read)
            && t.cacheCreation == LastCount(decode, CacheCreation, 0, read)
            && (t.producedOutput <==> exists i :: 0 <= i < |read| && Produces(decode, read[i]))
            && (t.seenDone <==> read != [] && VerdictOf(decode, read[|read| - 1]).Ends?)
            && (t.seenDone ==> t.errored == VerdictOf(decode, read[|read| - 1]).errored && Successful(t) == VerdictOf(decode, read[|read| - 1]).successful)
            && (!t.seenDone ==> !t.errored && !Successful(t))
  {
    hide Scan, Read, Lines, FedAll, Flatten, VerdictOf, Produces, LastCount, OutputCount;
    var lines := Lines(Flatten(chunks));
    FedIsScan(decode, chunks);
    FirstEndDecides(decode, NEW_TALLY, lines);
    LastReportWins(decode, NEW_TALLY, lines, Input);
    LastReportWins(decode, NEW_TALLY, lines, CacheHit);
    LastReportWins(decode, NEW_TALLY, lines, CacheCreation);
    OutputIsCounted(decode, NEW_TALLY, lines);
  }

  // --- Output, once seen, stays seen ---

  lemma {:induction false} DrainedKeepsOutput(decode: Bytes -> Option<Facts>, s: State)
    requires s.tally.producedOutput
    ensures Drained(decode, s).tally.producedOutput
    decreases |s.buf|
  {
    hide ReadLine, LineEnd, TrimCR;
    var n := LineEnd(s.buf);
    if n < |s.buf| {
      var t := ReadLine(decode, s.tally, TrimCR(s.buf[..n]));
      LineKeepsOutput(decode, s.tally, TrimCR(s.buf[..n]));
      if !t.seenDone {
        DrainedKeepsOutput(decode, State(s.buf[n + 1..], t));
      }
    }
  }

  lemma LineKeepsOutput(decode: Bytes -> Option<Facts>, t: Tally, line: Bytes)
    requires t.producedOutput
    ensures ReadLine(decode, t, line).producedOutput
  {
    hide TrimSpace, UsageOf;
  }

  lemma OutputStays(decode: Bytes -> Option<Facts>, s: State, p: Bytes)
    requires s.tally.producedOutput
    ensures Fed(decode, s, p).tally.producedOutput
  {
    if !s.tally.seenDone && p != "" {
      DrainedKeepsOutput(decode, s.(buf := s.buf + p));
    }
  }
}
