/** The chained converter object, whose `Write` and `Close` drive any number of steps in loops.

    The steps here share one type of state; `Composition` chains two of different types. */
module Chain {
  import opened Wrappers
  import opened Framing
  import opened Composition

  // --- What the loops compute ---

  function ChainWrite<S>(steps: seq<ByteConverter<S>>, states: seq<S>, p: Bytes): (c: Call<seq<S>>)
    requires |states| == |steps|
    ensures |c.state| == |steps|
  {
    if steps == [] then Call(states, p, None)
    else
      var x := steps[0].write(states[0], p);
      if x.err.Some? then Call([x.state] + states[1..], "", x.err)
      else
        var y := ChainWrite(steps[1..], states[1..], x.out);
        Call([x.state] + y.state, if y.err.Some? then "" else y.out, y.err)
  }

  /** The first step is closed, what it gives is written to the others, and they are closed. */
  function ChainClose<S>(steps: seq<ByteConverter<S>>, states: seq<S>): (c: Call<seq<S>>)
    requires |states| == |steps|
    ensures |c.state| == |steps|
  {
    if steps == [] then Call(states, "", None)
    else
      var x := steps[0].close(states[0]);
      if x.err.Some? then Call([x.state] + states[1..], "", x.err)
      else
        var y := if x.out == "" then Call(states[1..], "", None) else ChainWrite(steps[1..], states[1..], x.out);
        if y.err.Some? then Call([x.state] + y.state, "", y.err)
        else
          var z := ChainClose(steps[1..], y.state);
          Call([x.state] + z.state, if z.err.Some? then "" else y.out + z.out, z.err)
  }

  // --- One turn of each loop ---

  /** What a call gives after the states in `done`. */
  function After<S>(done: seq<S>, c: Call<seq<S>>): Call<seq<S>> {
    Call(done + c.state, c.out, c.err)
  }

  lemma AfterNothing<S>(c: Call<seq<S>>)
    ensures After([], c) == c
  {
    assert [] + c.state == c.state;
  }

  lemma ChainWriteTurn<S>(steps: seq<ByteConverter<S>>, states: seq<S>, i: nat, p: Bytes, done: seq<S>)
    requires |states| == |steps| && i < |steps|
    ensures var x := steps[i].write(states[i], p);
            After(done, ChainWrite(steps[i..], states[i..], p)) ==
            if x.err.Some? then Call(done + [x.state] + states[i + 1..], "", x.err)
            else
              var y := After(done + [x.state], ChainWrite(steps[i + 1..], states[i + 1..], x.out));
              y.(out := if y.err.Some? then "" else y.out)
  {
    assert steps[i..][0] == steps[i] && steps[i..][1..] == steps[i + 1..];
    assert states[i..][0] == states[i] && states[i..][1..] == states[i + 1..];
    var x := steps[i].write(states[i], p);
    if x.err.Some? {
      assert done + ([x.state] + states[i + 1..]) == done + [x.state] + states[i + 1..];
    } else {
      var y := ChainWrite(steps[i + 1..], states[i + 1..], x.out);
      assert done + ([x.state] + y.state) == (done + [x.state]) + y.state;
    }
  }

  lemma {:induction false} ChainWriteSilent<S>(steps: seq<ByteConverter<S>>, states: seq<S>, p: Bytes)
    requires |states| == |steps|
    ensures ChainWrite(steps, states, p).err.Some? ==> ChainWrite(steps, states, p).out == ""
  {
  }

  lemma ChainCloseSilent<S>(steps: seq<ByteConverter<S>>, states: seq<S>)
    requires |states| == |steps|
    ensures ChainClose(steps, states).err.Some? ==> ChainClose(steps, states).out == ""
  {
  }

  lemma AfterKeeps<S>(done: seq<S>, c: Call<seq<S>>)
    ensures After(done, c).out == c.out && After(done, c).err == c.err
  {
  }

  lemma ChainWriteNone<S>(steps: seq<ByteConverter<S>>, states: seq<S>, p: Bytes, done: seq<S>)
    requires |states| == |steps| == 0
    ensures After(done, ChainWrite(steps, states, p)) == Call(done + states, p, None)
  {
  }

  /** What closing gives after `out` has been given and the states in `done` are settled. */
  function Closing<S>(done: seq<S>, out: Bytes, z: Call<seq<S>>): Call<seq<S>> {
    Call(done + z.state, if z.err.Some? then "" else out + z.out, z.err)
  }

  lemma ClosingFromStart<S>(steps: seq<ByteConverter<S>>, states: seq<S>)
    requires |states| == |steps|
    ensures Closing([], "", ChainClose(steps, states)) == ChainClose(steps, states)
  {
    ChainCloseSilent(steps, states);
    var z := ChainClose(steps, states);
    assert [] + z.state == z.state && "" + z.out == z.out;
  }

  lemma ClosingNone<S>(steps: seq<ByteConverter<S>>, states: seq<S>, done: seq<S>, out: Bytes)
    requires |states| == |steps| == 0
    ensures Closing(done, out, ChainClose(steps, states)) == Call(done + states, out, None)
  {
    assert out + "" == out;
  }

  lemma CloseTurn<S>(steps: seq<ByteConverter<S>>, states: seq<S>, i: nat, done: seq<S>, out: Bytes)
    requires |states| == |steps| && i < |steps|
    ensures var x := steps[i].close(states[i]);
            var more := done + [x.state];
            Closing(done, out, ChainClose(steps[i..], states[i..])) ==
            if x.err.Some? then Call(more + states[i + 1..], "", x.err)
            else
              var y := if x.out == "" then Call(states[i + 1..], "", None) else ChainWrite(steps[i + 1..], states[i + 1..], x.out);
              if y.err.Some? then Call(more + y.state, "", y.err)
              else Closing(more, out + y.out, ChainClose(steps[i + 1..], y.state))
  {
    assert steps[i..][0] == steps[i] && steps[i..][1..] == steps[i + 1..];
    assert states[i..][0] == states[i] && states[i..][1..] == states[i + 1..];
    var x := steps[i].close(states[i]);
    var y := if x.out == "" then Call(states[i + 1..], "", None) else ChainWrite(steps[i + 1..], states[i + 1..], x.out);
    if x.err.Some? {
      assert done + ([x.state] + states[i + 1..]) == (done + [x.state]) + states[i + 1..];
    } else if y.err.Some? {
      assert done + ([x.state] + y.state) == (done + [x.state]) + y.state;
    } else {
      var z := ChainClose(steps[i + 1..], y.state);
      assert out + (y.out + z.out) == (out + y.out) + z.out;
      assert done + ([x.state] + z.state) == (done + [x.state]) + z.state;
    }
  }

  lemma Replaced<S>(done: seq<S>, rest: seq<S>, x: S)
    requires rest != []
    ensures (done + rest)[|done| := x] == done + [x] + rest[1..]
  {
  }

  class ComposedConverter<S> {
    const steps: seq<ByteConverter<S>>
    var states: seq<S>

    predicate Valid()
      reads this
    {
      |states| == |steps|
    }

    constructor (steps: seq<ByteConverter<S>>, states: seq<S>)
      requires |states| == |steps|
      ensures Valid() && this.steps == steps && this.states == states
    {
      this.steps, this.states := steps, states;
    }

    /** Write through the steps from `from` on. */
    method WriteFrom(from: nat, p: Bytes) returns (out: Bytes, err: Option<Error>)
      requires Valid() && from <= |steps|
      modifies this
      ensures Valid() && Call(states, out, err) == After(old(states)[..from], ChainWrite(steps[from..], old(states)[from..], p))
    {
      hide ChainWrite, After;
      out, err := p, None;
      var i := from;
      ghost var was, done := states, states[..from];
      ghost var goal := After(done, ChainWrite(steps[from..], was[from..], p));
      assert was == done + was[from..];
      while i < |steps|
        invariant from <= i <= |steps| && |done| == i && states == done + was[i..] && err == None
        invariant goal == After(done, ChainWrite(steps[i..], was[i..], out))
      {
        assert states[i] == was[i];
        ChainWriteTurn(steps, was, i, out, done);
        Replaced(done, was[i..], steps[i].write(was[i], out).state);
        assert was[i..][1..] == was[i + 1..];
        var x := steps[i].write(states[i], out);
        states := states[i := x.state];
        done := done + [x.state];
        if x.err.Some? {
          return "", x.err;
        }
        ChainWriteSilent(steps[i + 1..], was[i + 1..], x.out);
        AfterKeeps(done, ChainWrite(steps[i + 1..], was[i + 1..], x.out));
        out := x.out;
        i := i + 1;
      }
      ChainWriteNone(steps[i..], was[i..], out, done);
    }

    method Write(p: Bytes) returns (out: Bytes, err: Option<Error>)
      requires Valid()
      modifies this
      ensures Valid() && Call(states, out, err) == ChainWrite(steps, old(states), p)
    {
      hide ChainWrite;
      assert steps[0..] == steps && states[0..] == states && states[..0] == [];
      AfterNothing(ChainWrite(steps, states, p));
      out, err := WriteFrom(0, p);
    }

    method Close() returns (out: Bytes, err: Option<Error>)
      requires Valid()
      modifies this
      ensures Valid() && Call(states, out, err) == ChainClose(steps, old(states))
    {
      hide ChainWrite, ChainClose, Closing;
      out, err := "", None;
      var i := 0;
      ghost var done: seq<S> := [];
      ghost var goal := ChainClose(steps, states);
      assert steps[0..] == steps && states[0..] == states;
      ClosingFromStart(steps, states);
      while i < |steps|
        invariant i <= |steps| && Valid() && done == states[..i] && err == None
        invariant goal == Closing(done, out, ChainClose(steps[i..], states[i..]))
      {
        ghost var was := states;
        CloseTurn(steps, was, i, done, out);
        var x := steps[i].close(states[i]);
        Replaced(done, was[i..], x.state);
        assert was == done + was[i..] && was[i..][1..] == was[i + 1..];
        states := states[i := x.state];
        done := done + [x.state];
        if x.err.Some? {
          return "", x.err;
        }
        assert states == done + was[i + 1..];
        assert states[..i + 1] == done && states[i + 1..] == was[i + 1..];
        var chunk := "";
        if x.out != "" {
          var e;
          chunk, e := WriteFrom(i + 1, x.out);
          ghost var y := ChainWrite(steps[i + 1..], was[i + 1..], x.out);
          assert states == done + y.state;
          if e.Some? {
            return "", e;
          }
          assert states[..i + 1] == done && states[i + 1..] == y.state;
        }
        out := out + chunk;
        i := i + 1;
      }
      ClosingNone(steps[i..], states[i..], done, out);
      assert done + states[i..] == states;
    }
  }

  // --- A chain of any length is a composition ---

  function ChainOf<S>(steps: seq<ByteConverter<S>>): ByteConverter<seq<S>> {
    ByteConverter((states: seq<S>, p) => if |states| == |steps| then ChainWrite(steps, states, p) else Call(states, p, None),
                  (states: seq<S>) => if |states| == |steps| then ChainClose(steps, states) else Call(states, "", None))
  }

  ghost predicate StatesOk<S>(steps: seq<ByteConverter<S>>, inv: S -> bool, states: seq<S>) {
    |states| == |steps| && forall i :: 0 <= i < |states| ==> inv(states[i])
  }

  ghost function ChainInv<S>(steps: seq<ByteConverter<S>>, inv: S -> bool): seq<S> -> bool {
    states => |states| == |steps| && forall i :: 0 <= i < |states| ==> inv(states[i])
  }

  function Lifted<S>(c: Call<(S, seq<S>)>): Call<seq<S>> {
    Call([c.state.0] + c.state.1, c.out, c.err)
  }

  lemma ChainIsNested<S>(steps: seq<ByteConverter<S>>, states: seq<S>, p: Bytes)
    requires steps != [] && |states| == |steps|
    ensures var nested := Compose(steps[0], ChainOf(steps[1..]));
            && ChainOf(steps).write(states, p) == Lifted(nested.write((states[0], states[1..]), p))
            && ChainOf(steps).close(states) == Lifted(nested.close((states[0], states[1..])))
  {
  }

  lemma NestedSplits<S(!new)>(steps: seq<ByteConverter<S>>, inv: S -> bool, states: seq<S>, p: Bytes, q: Bytes)
    requires steps != [] && StatesOk(steps, inv, states)
    requires ChunkLaw(steps[0], inv) && ChunkLaw(ChainOf(steps[1..]), ChainInv(steps[1..], inv))
    ensures Splits(ChainOf(steps), ChainInv(steps, inv), states, p, q)
  {
    var rest := ChainOf(steps[1..]);
    var ir := ChainInv(steps[1..], inv);
    ComposedSplits(steps[0], inv, rest, ir, (states[0], states[1..]), p, q);
    ChainIsNested(steps, states, p);
    ChainIsNested(steps, states, p + q);
    var x := ChainOf(steps).write(states, p);
    if x.err.None? {
      var y := Compose(steps[0], rest).write((states[0], states[1..]), p);
      assert x.state == [y.state.0] + y.state.1;
      assert x.state[1..] == y.state.1;
      ChainIsNested(steps, x.state, q);
    }
  }

  lemma {:induction false} ChainHasLaw<S(!new)>(steps: seq<ByteConverter<S>>, inv: S -> bool)
    requires forall i :: 0 <= i < |steps| ==> ChunkLaw(steps[i], inv)
    ensures ChunkLaw(ChainOf(steps), ChainInv(steps, inv))
  {
    hide Splits, ChainWrite, ChainClose;
    var chain, ok := ChainOf(steps), ChainInv(steps, inv);
    if steps == [] {
      forall states, p, q | ok(states) ensures Splits(chain, ok, states, p, q) {
        EmptySplits(inv, p, q);
      }
      assert chain.write([], "") == Call([], "", None) by { EmptyChain<S>(""); }
    } else {
      ChainHasLaw(steps[1..], inv);
      forall states, p, q | ok(states) ensures Splits(chain, ok, states, p, q) {
        NestedSplits(steps, inv, states, p, q);
      }
      forall states | ok(states) ensures chain.write(states, "") == Call(states, "", None) {
        ChainIsNested(steps, states, "");
        assert steps[0].write(states[0], "") == Call(states[0], "", None);
        assert ChainOf(steps[1..]).write(states[1..], "") == Call(states[1..], "", None) by {
          assert ChainInv(steps[1..], inv)(states[1..]);
        }
        assert [states[0]] + states[1..] == states;
      }
    }
  }

  lemma EmptyChain<S>(p: Bytes)
    ensures var none: seq<ByteConverter<S>> := []; ChainOf(none).write([], p) == Call([], p, None) && ChainOf(none).close([]) == Call([], "", None)
  {
  }

  lemma EmptySplits<S(!new)>(inv: S -> bool, p: Bytes, q: Bytes)
    ensures var none: seq<ByteConverter<S>> := []; Splits(ChainOf(none), ChainInv(none, inv), [], p, q)
  {
    EmptyChain<S>(p);
    EmptyChain<S>(q);
    EmptyChain<S>(p + q);
  }

  /** The whole-stream conversions one after the other, each on the whole output of the one before. */
  function Successive<S>(steps: seq<ByteConverter<S>>, states: seq<S>, input: Bytes): Option<Bytes>
    requires |states| == |steps|
  {
    if steps == [] then Some(input)
    else
      var x := Whole(steps[0], states[0], [input]);
      if x.err.Some? then None else Successive(steps[1..], states[1..], x.out)
  }

  lemma WholeIgnoresChunking<S(!new)>(c: ByteConverter<S>, inv: S -> bool, s: S, chunks: seq<Bytes>)
    requires ChunkLaw(c, inv) && inv(s)
    ensures var many := Whole(c, s, chunks);
            var one := Whole(c, s, [Flatten(chunks)]);
            (many.err.None? <==> one.err.None?) && (many.err.None? ==> many == one)
  {
    WritesAreOne(c, inv, s, chunks);
    WholeOfOne(c, s, Flatten(chunks));
  }

  lemma {:induction false} NestedWhole<S>(steps: seq<ByteConverter<S>>, states: seq<S>, chunks: seq<Bytes>)
    requires steps != [] && |states| == |steps|
    ensures Whole(ChainOf(steps), states, chunks) == Lifted(Whole(Compose(steps[0], ChainOf(steps[1..])), (states[0], states[1..]), chunks))
  {
    hide ChainWrite, ChainClose;
    NestedWrites(steps, states, chunks);
    var nested := Compose(steps[0], ChainOf(steps[1..]));
    var x := Writes(nested, (states[0], states[1..]), chunks);
    var y := Writes(ChainOf(steps), states, chunks);
    if x.err.None? {
      assert y.state[1..] == x.state.1;
      ChainIsNested(steps, y.state, "");
    }
  }

  lemma {:induction false} NestedWrites<S>(steps: seq<ByteConverter<S>>, states: seq<S>, chunks: seq<Bytes>)
    requires steps != [] && |states| == |steps|
    ensures var x := Writes(Compose(steps[0], ChainOf(steps[1..])), (states[0], states[1..]), chunks);
            Writes(ChainOf(steps), states, chunks) == Lifted(x) && |x.state.1| == |steps| - 1
    decreases |chunks|
  {
    hide ChainWrite, ChainClose;
    if chunks == [] {
      assert [states[0]] + states[1..] == states;
    } else {
      ChainIsNested(steps, states, chunks[0]);
      var x := ChainOf(steps).write(states, chunks[0]);
      var y := Compose(steps[0], ChainOf(steps[1..])).write((states[0], states[1..]), chunks[0]);
      assert x.state[1..] == y.state.1;
      if x.err.None? {
        NestedWrites(steps, x.state, chunks[1..]);
      }
    }
  }

  /** A chain of any number of converters, however the input is cut: it succeeds exactly when the
      whole-stream conversions do one after the other, and it delivers what the last of them gives. */
  lemma {:induction false} ChainIsComposition<S(!new)>(steps: seq<ByteConverter<S>>, inv: S -> bool, states: seq<S>, chunks: seq<Bytes>)
    requires (forall i :: 0 <= i < |steps| ==> ChunkLaw(steps[i], inv)) && StatesOk(steps, inv, states)
    ensures var chained := Whole(ChainOf(steps), states, chunks);
            var staged := Successive(steps, states, Flatten(chunks));
            (chained.err.None? <==> staged.Some?) && (staged.Some? ==> chained.out == staged.value)
    decreases |steps|
  {
    hide ChainWrite, ChainClose, Whole;
    if steps == [] {
      ChainHasLaw(steps, inv);
      WholeIgnoresChunking(ChainOf(steps), ChainInv(steps, inv), states, chunks);
      EmptyWhole<S>(Flatten(chunks));
    } else {
      ChainHasLaw(steps[1..], inv);
      NestedWhole(steps, states, chunks);
      ComposedIsComposition(steps[0], inv, ChainOf(steps[1..]), ChainInv(steps[1..], inv), states[0], states[1..], chunks);
      WholeIgnoresChunking(steps[0], inv, states[0], chunks);
      var first := Whole(steps[0], states[0], chunks);
      ChainIsComposition(steps[1..], inv, states[1..], [first.out]);
      assert Flatten([first.out]) == first.out by { OneChunk(first.out); }
    }
  }

  lemma EmptyWhole<S(!new)>(b: Bytes)
    ensures var none: seq<ByteConverter<S>> := []; Whole(ChainOf(none), [], [b]) == Call([], b, None)
  {
    var none: seq<ByteConverter<S>> := [];
    WholeOfOne(ChainOf(none), [], b);
    EmptyChain<S>(b);
    assert b + "" == b;
  }
}
