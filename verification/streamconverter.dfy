/** The converter object: its buffers are updated in place by `Write` and `Close`.

    The gateway's four converters carry the same text of these methods; what differs between them,
    the core fields and what one event does to them, is the machine. */
module StreamConverter {
  import opened Wrappers
  import opened Framing

  class Converter<S> {
    const machine: Machine<S>
    var lines: Bytes
    var event: Bytes
    var data: Bytes
    var core: S
    var closed: bool

    constructor (machine: Machine<S>, core: S)
      ensures this.machine == machine && Value() == Fresh(core)
    {
      this.machine := machine;
      lines, event, data, this.core, closed := "", "", "", core, false;
    }

    function Value(): Conv<S>
      reads this
    {
      Conv(lines, event, data, core, closed)
    }

    /** A write takes the object to the state, and gives the output and error, of `Feed`. */
    method Write(p: Bytes) returns (out: Bytes, err: Option<Error>)
      modifies this
      ensures Run(Value(), out, err) == Feed(machine, old(Value()), p)
    {
      if closed || p == "" {
        return "", None;
      }
      lines := lines + p;
      out, err := DrainComplete();
    }

    method Close() returns (out: Bytes, err: Option<Error>)
      modifies this
      ensures Run(Value(), out, err) == Finish(machine, old(Value()))
    {
      if closed {
        return "", None;
      }
      closed := true;
      out, err := DrainToEnd();
      var z := machine.atClose(core, err);
      core, err := z.0, z.1;
    }

    /** The complete lines of the buffer, up to the first error. */
    method DrainComplete() returns (out: Bytes, err: Option<Error>)
      modifies this
      ensures Run(Value(), out, err) == DrainLines(machine, old(Value()))
    {
      hide ProcessLine, LineEnd, TrimCR;
      out := "";
      ghost var start := Value();
      while true
        invariant DrainLines(machine, start) == Prepend(out, DrainLines(machine, Value()))
        decreases |lines|
      {
        var n := LineEnd(lines);
        if n == |lines| {
          assert out + "" == out;
          return out, None;
        }
        var line := TrimCR(lines[..n]);
        ghost var before := Value();
        lines := lines[n + 1..];
        var b, e := TakeLine(line);
        assert DrainLines(machine, before) == if e.Some? then Run(Value(), b, e) else Prepend(b, DrainLines(machine, Value()));
        LineSilentOnError(machine, before.(lines := before.lines[n + 1..]), line);
        if e.Some? {
          assert out + "" == out;
          return out, e;
        }
        ghost var rest := DrainLines(machine, Value());
        assert out + (b + rest.out) == (out + b) + rest.out;
        out := out + b;
      }
    }

    /** The complete lines, then the unterminated last one, then the event that nothing ended. */
    method DrainToEnd() returns (out: Bytes, err: Option<Error>)
      modifies this
      ensures Run(Value(), out, err) == DrainEof(machine, old(Value()))
    {
      hide ProcessLine, ProcessEvent, DrainLines, TrimCR;
      out, err := DrainComplete();
      if err.Some? {
        return;
      }
      if lines != "" {
        var line := TrimCR(lines);
        ghost var before := Value();
        lines := "";
        var b, e := TakeLine(line);
        LineSilentOnError(machine, before.(lines := ""), line);
        if e.Some? {
          assert out + "" == out;
          return out, e;
        }
        out := out + b;
      } else {
        assert out + "" == out;
      }
      if data != "" || event != "" {
        ghost var before := Value();
        var b, e := TakeEvent();
        EventSilentOnError(machine, before);
        if e.Some? {
          assert out + "" == out;
          return out, e;
        }
        out := out + b;
      } else {
        assert out + "" == out;
      }
    }

    method TakeLine(line: Bytes) returns (out: Bytes, err: Option<Error>)
      modifies this`event, this`data, this`core
      ensures Run(Value(), out, err) == ProcessLine(machine, old(Value()), line)
    {
      out, err := "", None;
      if line == "" {
        out, err := TakeEvent();
      } else if EVENT_TAG <= line {
        var value := line[|EVENT_TAG|..];
        if value != "" && value[0] == ' ' {
          value := value[1..];
        }
        event := value;
      } else if DATA_TAG <= line {
        var value := line[|DATA_TAG|..];
        if value != "" && value[0] == ' ' {
          value := value[1..];
        }
        if data != "" {
          data := data + "\n";
        }
        data := data + value;
      }
    }

    method TakeEvent() returns (out: Bytes, err: Option<Error>)
      modifies this`event, this`data, this`core
      ensures Run(Value(), out, err) == ProcessEvent(machine, old(Value()))
    {
      var x := machine.process(core, event, data);
      core, event, data := x.core, x.event, x.data;
      out, err := if x.err.Some? then "" else x.out, x.err;
    }
  }

  function Prepend<S>(out: Bytes, r: Run<S>): Run<S> {
    r.(out := out + r.out)
  }

  lemma EventSilentOnError<S>(m: Machine<S>, c: Conv<S>)
    ensures ProcessEvent(m, c).err.Some? ==> ProcessEvent(m, c).out == ""
  {
  }

  lemma LineSilentOnError<S>(m: Machine<S>, c: Conv<S>, line: Bytes)
    ensures ProcessLine(m, c, line).err.Some? ==> ProcessLine(m, c, line).out == ""
  {
  }
}
