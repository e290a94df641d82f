/** One streaming attempt: the gate that stages converted bytes until they contain output, and the
    classification of how the attempt ended. */
module StreamAttempt {
  import opened Wrappers
  import opened Framing
  import opened Composition
  import opened UsageAccumulator
  import opened EventGate
  import opened Failover

  // --- What the bytes go through before they are sent ---

  /** Bytes are passed on as they are, or through a converter in some state. */
  datatype Source<!S> = Native | Converted(bytes: ByteConverter<S>, state: S)

  datatype Passed<!S> = Passed(source: Source<S>, out: Bytes, err: Option<Error>)

  function Pass<S>(s: Source<S>, input: Bytes): Passed<S> {
    match s
    case Native => Passed(s, input, None)
    case Converted(bytes, state) =>
      var x := bytes.write(state, input);
      Passed(s.(state := x.state), if x.err.Some? then "" else x.out, x.err)
  }

  /** All inputs in turn, up to the first error. */
  function PassAll<S>(s: Source<S>, inputs: seq<Bytes>): Passed<S> {
    if inputs == [] then Passed(s, "", None)
    else
      var x := PassAll(s, inputs[..|inputs| - 1]);
      if x.err.Some? then x
      else
        var y := Pass(x.source, inputs[|inputs| - 1]);
        Passed(y.source, x.out + y.out, y.err)
  }

  lemma PassSnoc<S>(s: Source<S>, inputs: seq<Bytes>, input: Bytes)
    requires PassAll(s, inputs).err.None?
    ensures PassAll(s, inputs + [input]) ==
            (var x := PassAll(s, inputs);
             var y := Pass(x.source, input);
             Passed(y.source, x.out + y.out, y.err))
  {
    assert (inputs + [input])[..|inputs|] == inputs;
  }

  // --- How an attempt ends ---

  /** The end of the transfer: what was committed, and what went wrong where. */
  datatype Transfer = Transfer(committed: bool, conversionFailed: bool, writeErr: Failure, streamErr: Failure, tally: Tally)

  const STATUS_CLIENT_CLOSED := 499

  /** A result before anything was sent to the client. */
  function Uncommitted(t: Transfer, status: int): StreamResult {
    if t.tally.errored then StreamResult(SRetryable, status, OtherError, false, false)
    else if t.conversionFailed then StreamResult(SConversionError, status, NoFailure, false, false)
    else StreamResult(SRetryable, status, t.streamErr, false, false)
  }

  function Committed(t: Transfer, status: int): StreamResult {
    if t.conversionFailed then StreamResult(SConversionError, status, NoFailure, true, false)
    else if t.tally.errored then StreamResult(STruncated, status, OtherError, true, false)
    else if t.writeErr != NoFailure then
      (if IsClientDisconnect(t.writeErr) then StreamResult(SClientAbort, STATUS_CLIENT_CLOSED, NoFailure, true, false)
       else StreamResult(SDownstreamError, status, NoFailure, true, false))
    else if Successful(t.tally) then
      (if t.tally.producedOutput then StreamResult(SSuccess, status, NoFailure, true, false)
       else StreamResult(STruncated, status, NoFailure, true, true))
    else if t.streamErr == NoFailure then StreamResult(STruncated, status, NoFailure, true, false)
    else if IsClientDisconnect(t.streamErr) then StreamResult(SClientAbort, status, t.streamErr, true, false)
    else StreamResult(STruncated, status, t.streamErr, true, false)
  }

  function Classify(t: Transfer, status: int): StreamResult {
    if t.committed then Committed(t, status) else Uncommitted(t, status)
  }

  /** What holds of every result of an attempt. */
  predicate Possible(r: StreamResult) {
    && (r.status == SRetryable ==> !r.committed)
    && (r.status in {SSuccess, STruncated, SDownstreamError} ==> r.committed)
  }

  // --- The gate ---

  /** Staged bytes open the gate: a complete event has data, and the accumulator sees output. */
  predicate Opens(decode: Bytes -> Option<Facts>, pending: Bytes) {
    Meaningful(pending) && Fed(decode, NEW_STATE, pending).tally.producedOutput
  }

  /** Why staged bytes are let go: they open the gate, or they come from a converter and are no events. */
  predicate Released<S>(decode: Bytes -> Option<Facts>, source: Source<S>, staged: Bytes) {
    Opens(decode, staged) || (source.Converted? && !CouldBeEvents(staged))
  }

  /** The variables of an attempt while the body is transferred. */
  datatype Gate<!S> = Gate(source: Source<S>, pending: Bytes, sseGate: bool, committed: bool, sent: Bytes, acc: State,
                           conversionFailed: bool, streamErr: Failure, writeErr: Failure)

  function Opening<S>(source: Source<S>, gated: bool): Gate<S> {
    Gate(source, "", gated, false, "", NEW_STATE, false, NoFailure, NoFailure)
  }

  predicate Fine<S>(g: Gate<S>) {
    !g.conversionFailed && g.streamErr == NoFailure && g.writeErr == NoFailure
  }

  /** Bytes are handed to the client's writer, and the response is committed with the first. */
  function Sent<S>(decode: Bytes -> Option<Facts>, g: Gate<S>, out: Bytes, down: Failure): Gate<S> {
    g.(committed := true, sent := g.sent + out, acc := Fed(decode, g.acc, out), writeErr := down)
  }

  /** Converted bytes are staged behind the gate, or sent; a protocol error in staged bytes ends it. */
  function Forwarded<S>(decode: Bytes -> Option<Facts>, g: Gate<S>, out: Bytes, down: Failure): Gate<S> {
    if !g.sseGate then Sent(decode, g, out, down)
    else
      var staged := g.pending + out;
      if Released(decode, g.source, staged) then Sent(decode, g.(sseGate := false, pending := ""), staged, down)
      else if Meaningful(staged) && Fed(decode, NEW_STATE, staged).tally.errored then
        g.(pending := staged, streamErr := OtherError, writeErr := OtherError)
      else g.(pending := staged)
  }

  /** One chunk; `down` is the failure the client's writer would report. */
  function Written<S>(decode: Bytes -> Option<Facts>, g: Gate<S>, input: Bytes, down: Failure): Gate<S> {
    var x := Pass(g.source, input);
    var h := g.(source := x.source);
    if x.err.Some? then h.(conversionFailed := true, writeErr := OtherError)
    else if x.out == "" then h
    else Forwarded(decode, h, x.out, down)
  }

  type Problem = f: Failure | f != NoFailure witness Canceled

  datatype ReadEnd = More | EndOfBody | Broken(f: Problem)

  datatype BodyRead = BodyRead(chunk: Bytes, end: ReadEnd)

  /** The body from its `i`-th read on, to its end or to the first failure. */
  function Received<S>(decode: Bytes -> Option<Facts>, g: Gate<S>, body: seq<BodyRead>, i: nat, down: nat -> Failure): Gate<S>
    decreases |body| - i
  {
    if i >= |body| || g.streamErr != NoFailure || g.writeErr != NoFailure then g
    else
      var h := if body[i].chunk == "" then g else Written(decode, g, body[i].chunk, down(i + 1));
      if h.writeErr != NoFailure then h
      else match body[i].end
        case More => Received(decode, h, body, i + 1, down)
        case EndOfBody => h
        case Broken(f) => h.(streamErr := f)
  }

  /** Closing the converter.  What it still gives is written to the converter again, which is closed. */
  function Closed<S>(decode: Bytes -> Option<Facts>, g: Gate<S>, down: Failure): Gate<S>
    requires g.source.Converted?
  {
    var x := g.source.bytes.close(g.source.state);
    var h := g.(source := g.source.(state := x.state));
    if x.err.Some? then h.(conversionFailed := true, streamErr := OtherError)
    else if x.out == "" then h
    else
      var k := Written(decode, h, x.out, down);
      if k.writeErr != NoFailure then k.(streamErr := k.writeErr) else k
  }

  function FirstRead<S>(decode: Bytes -> Option<Facts>, g: Gate<S>, initial: Bytes, initialEnd: ReadEnd, down: Failure): Gate<S> {
    var h := Written(decode, g, initial, down);
    if h.writeErr == NoFailure && initialEnd.Broken? then h.(streamErr := initialEnd.f) else h
  }

  /** The whole transfer: the first read, the rest of the body, and the end of the converter. */
  function Transferred<S>(decode: Bytes -> Option<Facts>, g: Gate<S>, initial: Bytes, initialEnd: ReadEnd, body: seq<BodyRead>, down: nat -> Failure): Gate<S> {
    var h := Received(decode, FirstRead(decode, g, initial, initialEnd, down(0)), body, 0, down);
    if h.streamErr == NoFailure && h.writeErr == NoFailure && h.source.Converted? then Closed(decode, h, down(|body| + 1)) else h
  }

  // --- The object ---

  class Attempt<S> {
    const acc: Accumulator
    var source: Source<S>
    var pending: Bytes
    var sseGate: bool
    var committed: bool
    var sent: Bytes
    var conversionFailed: bool
    var streamErr: Failure
    var writeErr: Failure

    constructor (source: Source<S>, gated: bool, decode: Bytes -> Option<Facts>)
      ensures Value() == Opening(source, gated) && fresh(acc) && acc.decode == decode
    {
      this.source, pending, sseGate, committed, sent := source, "", gated, false, "";
      conversionFailed, streamErr, writeErr := false, NoFailure, NoFailure;
      acc := new Accumulator(decode);
    }

    function Value(): Gate<S>
      reads this, acc
    {
      Gate(source, pending, sseGate, committed, sent, acc.Value(), conversionFailed, streamErr, writeErr)
    }

    method Send(out: Bytes, down: Failure)
      modifies this`committed, this`sent, this`writeErr, acc
      ensures Value() == Sent(acc.decode, old(Value()), out, down)
    {
      hide Fed;
      committed := true;
      acc.Feed(out);
      sent := sent + out;
      writeErr := down;
    }

    /** Stage converted bytes; what is released is everything staged. */
    method Stage(out: Bytes) returns (released: Bytes)
      requires sseGate && acc.Value() == NEW_STATE && writeErr == streamErr == NoFailure
      modifies this`pending, this`sseGate, this`streamErr, this`writeErr
      ensures var staged := old(pending) + out;
              var g := old(Value());
              && (!sseGate <==> Released(acc.decode, source, staged))
              && (if !sseGate then released == staged && Value() == g.(sseGate := false, pending := "")
                  else Value() == if Meaningful(staged) && Fed(acc.decode, NEW_STATE, staged).tally.errored
                                  then g.(pending := staged, streamErr := OtherError, writeErr := OtherError) else g.(pending := staged))
    {
      hide Fed, CouldBeEvents, Meaningful;
      pending := pending + out;
      released := "";
      if source.Converted? && !CouldBeEvents(pending) {
        sseGate := false;
        released, pending := pending, "";
      } else {
        var event, meaningful, complete := FirstMeaningfulEvent(pending);
        if !complete || !meaningful {
          return;
        }
        var probe := new Accumulator(acc.decode);
        probe.buf, probe.tally := acc.buf, acc.tally;
        probe.Feed(pending);
        if !probe.tally.producedOutput {
          if probe.tally.errored {
            streamErr, writeErr := OtherError, OtherError;
          }
          return;
        }
        sseGate := false;
        released, pending := pending, "";
      }
    }

    method WriteConverted(input: Bytes, down: Failure)
      requires (sseGate ==> acc.Value() == NEW_STATE) && writeErr == streamErr == NoFailure
      modifies this, acc
      ensures Value() == Written(acc.decode, old(Value()), input, down)
    {
      hide Fed, Released, Meaningful;
      var x := Pass(source, input);
      source := x.source;
      if x.err.Some? {
        conversionFailed, writeErr := true, OtherError;
        return;
      }
      var out := x.out;
      if out == "" {
        return;
      }
      if sseGate {
        out := Stage(out);
        if sseGate {
          return;
        }
      }
      Send(out, down);
    }

    method CloseConverter(down: Failure)
      requires (sseGate ==> acc.Value() == NEW_STATE) && writeErr == streamErr == NoFailure && source.Converted?
      modifies this, acc
      ensures Value() == Closed(acc.decode, old(Value()), down)
    {
      hide Forwarded;
      var x := source.bytes.close(source.state);
      source := source.(state := x.state);
      if x.err.Some? {
        conversionFailed, streamErr := true, OtherError;
      } else if x.out != "" {
        WriteConverted(x.out, down);
        if writeErr != NoFailure {
          streamErr := writeErr;
        }
      }
    }

    /** The read loop. */
    method Receive(body: seq<BodyRead>, down: nat -> Failure)
      requires Staging(Value())
      modifies this, acc
      ensures Value() == Received(acc.decode, old(Value()), body, 0, down) && Staging(Value())
    {
      hide Written, Staging;
      var i := 0;
      ghost var goal := Received(acc.decode, Value(), body, 0, down);
      while i < |body| && streamErr == NoFailure && writeErr == NoFailure
        invariant i <= |body| && Staging(Value()) && Received(acc.decode, Value(), body, i, down) == goal
      {
        if body[i].chunk != "" {
          WrittenStaging(acc.decode, Value(), body[i].chunk, down(i + 1));
          StagingIsNew(Value());
          WriteConverted(body[i].chunk, down(i + 1));
        }
        if writeErr != NoFailure {
          return;
        }
        if body[i].end.EndOfBody? {
          return;
        }
        if body[i].end.Broken? {
          StagingIgnoresErrors(Value(), body[i].end.f);
          streamErr := body[i].end.f;
          return;
        }
        i := i + 1;
      }
    }

    method Transmit(initial: Bytes, initialEnd: ReadEnd, body: seq<BodyRead>, down: nat -> Failure)
      requires Staging(Value()) && Fine(Value())
      modifies this, acc
      ensures Value() == Transferred(acc.decode, old(Value()), initial, initialEnd, body, down)
    {
      hide Written, Received, Staging, Closed;
      WrittenStaging(acc.decode, Value(), initial, down(0));
      StagingIsNew(Value());
      WriteConverted(initial, down(0));
      if writeErr == NoFailure && initialEnd.Broken? {
        StagingIgnoresErrors(Value(), initialEnd.f);
        streamErr := initialEnd.f;
      }
      Receive(body, down);
      if streamErr == NoFailure && writeErr == NoFailure && source.Converted? {
        StagingIsNew(Value());
        CloseConverter(down(|body| + 1));
      }
    }
  }

  // --- What every point of a transfer keeps ---

  /** Nothing is fed to the accumulator, and nothing sent, while bytes are staged. */
  predicate Staging<S>(g: Gate<S>) {
    g.sseGate ==> g.acc == NEW_STATE && !g.committed
  }

  lemma StagingIsNew<S>(g: Gate<S>)
    requires Staging(g)
    ensures g.sseGate ==> g.acc == NEW_STATE
  {
  }

  lemma StagingIgnoresErrors<S>(g: Gate<S>, f: Failure)
    requires Staging(g)
    ensures Staging(g.(streamErr := f))
  {
  }

  lemma WrittenStaging<S>(decode: Bytes -> Option<Facts>, g: Gate<S>, input: Bytes, down: Failure)
    requires Staging(g)
    ensures Staging(Written(decode, g, input, down))
  {
    hide Fed, Released, Meaningful;
  }

  // --- A whole attempt ---

  /** What comes back from upstream and from the client's writer: no time left for the attempt, no
      response, an error status, a response without a body, or a body. */
  datatype Exchange<!S> =
    | NoBudget
    | NoResponse(f: Problem)
    | ErrorStatus(status: int, readFailure: Failure)
    | NoBody(f: Problem)
    | Body(status: int, source: Source<S>, gated: bool, initial: Bytes, initialEnd: ReadEnd, body: seq<BodyRead>, down: nat -> Failure)

  /** Results without a body to transfer. */
  function AtOnce<S>(x: Exchange<S>): StreamResult
    requires !x.Body?
  {
    match x
    case NoBudget => StreamResult(SRetryable, 0, NoFailure, false, false)
    case NoResponse(f) =>
      (match CategorizeError(f, 0)
       case ClientAbort => StreamResult(SClientAbort, STATUS_CLIENT_CLOSED, f, false, false)
       case NonRetryable => StreamResult(SNonRetryable, 502, f, true, false)
       case Retryable => StreamResult(SRetryable, 0, f, false, false))
    case ErrorStatus(status, readFailure) =>
      if readFailure != NoFailure then StreamResult(SRetryable, status, readFailure, false, false)
      else if CategorizeError(NoFailure, status) == Retryable then StreamResult(SRetryable, status, NoFailure, false, false)
      else StreamResult(SNonRetryable, status, NoFailure, true, false)
    case NoBody(f) =>
      StreamResult(match CategorizeError(f, 0) { case ClientAbort => SClientAbort case NonRetryable => SNonRetryable case Retryable => SRetryable },
                   0, f, false, false)
  }

  /** The end of the transfer; while nothing is committed, what is staged is read for errors and output. */
  function TransferOf<S>(decode: Bytes -> Option<Facts>, g: Gate<S>): Transfer {
    if g.committed || g.streamErr != NoFailure then Transfer(g.committed, g.conversionFailed, g.writeErr, g.streamErr, g.acc.tally)
    else
      var t := Fed(decode, g.acc, g.pending).tally;
      Transfer(false, g.conversionFailed, g.writeErr,
               if g.conversionFailed then OtherError
               else if g.writeErr != NoFailure then g.writeErr
               else if Successful(t) && !t.producedOutput then OtherError
               else Truncation,
               t)
  }

  function GateAfter<S>(decode: Bytes -> Option<Facts>, x: Exchange<S>): Gate<S>
    requires x.Body?
  {
    Transferred(decode, Opening(x.source, x.gated), x.initial, x.initialEnd, x.body, x.down)
  }

  function ResultFor<S>(decode: Bytes -> Option<Facts>, x: Exchange<S>): StreamResult {
    if x.Body? then Classify(TransferOf(decode, GateAfter(decode, x)), x.status) else AtOnce(x)
  }

  lemma ResultsArePossible<S>(decode: Bytes -> Option<Facts>, x: Exchange<S>)
    ensures Possible(ResultFor(decode, x))
  {
    hide TransferOf, GateAfter;
  }

  method RunAttempt<S>(x: Exchange<S>, decode: Bytes -> Option<Facts>) returns (result: StreamResult, sent: Bytes)
    ensures result == ResultFor(decode, x)
    ensures x.Body? ==> sent == GateAfter(decode, x).sent
  {
    hide Fed, Transferred, Committed, Uncommitted;
    if !x.Body? {
      return AtOnce(x), "";
    }
    var a := new Attempt(x.source, x.gated, decode);
    a.Transmit(x.initial, x.initialEnd, x.body, x.down);
    if !a.committed && a.streamErr == NoFailure {
      if a.pending != "" {
        a.acc.Feed(a.pending);
      } else {
        FedNothing(decode, a.acc.Value());
      }
      a.streamErr :=
        if a.conversionFailed then OtherError
        else if a.writeErr != NoFailure then a.writeErr
        else if Successful(a.acc.tally) && !a.acc.tally.producedOutput then OtherError
        else Truncation;
    }
    var t := Transfer(a.committed, a.conversionFailed, a.writeErr, a.streamErr, a.acc.tally);
    return Classify(t, x.status), a.sent;
  }
}
