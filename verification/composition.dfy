/** Converters chained as the adapter chains them.

    A byte converter is a pair of calls, `write` and `close`.  `Compose` is one step of the
    adapter's loops: the output of the first converter is written to the second, and closing closes
    the first, writes what that gives to the second, and closes the second.  A chain of more steps
    is a nested `Compose`.  The output of a failing call is dropped, as the one caller does. */
module Composition {
  import opened Wrappers
  import opened Framing
  import opened Frames
  import opened EventMachine
  import opened StreamEvents
  import opened Pipeline

  datatype Call<+S> = Call(state: S, out: Bytes, err: Option<Error>)

  datatype ByteConverter<!S> = ByteConverter(write: (S, Bytes) -> Call<S>, close: S -> Call<S>)

  function CallOf<S>(r: Run<S>): Call<Conv<S>> {
    Call(r.conv, if r.err.Some? then "" else r.out, r.err)
  }

  function Single<S>(m: Machine<S>): ByteConverter<Conv<S>> {
    ByteConverter((c: Conv<S>, p) => CallOf(Feed(m, c, p)), (c: Conv<S>) => CallOf(Finish(m, c)))
  }

  function ComposedWrite<S, T>(a: ByteConverter<S>, b: ByteConverter<T>, st: (S, T), p: Bytes): Call<(S, T)> {
    var x := a.write(st.0, p);
    if x.err.Some? then Call((x.state, st.1), "", x.err)
    else
      var y := b.write(st.1, x.out);
      Call((x.state, y.state), if y.err.Some? then "" else y.out, y.err)
  }

  function ComposedClose<S, T>(a: ByteConverter<S>, b: ByteConverter<T>, st: (S, T)): Call<(S, T)> {
    var x := a.close(st.0);
    if x.err.Some? then Call((x.state, st.1), "", x.err)
    else
      var y := if x.out == "" then Call(st.1, "", None) else b.write(st.1, x.out);
      if y.err.Some? then Call((x.state, y.state), "", y.err)
      else
        var z := b.close(y.state);
        Call((x.state, z.state), if z.err.Some? then "" else y.out + z.out, z.err)
  }

  function Compose<S, T>(a: ByteConverter<S>, b: ByteConverter<T>): ByteConverter<(S, T)> {
    ByteConverter((st: (S, T), p) => ComposedWrite(a, b, st, p), (st: (S, T)) => ComposedClose(a, b, st))
  }

  // --- Whole streams ---

  function Writes<S>(c: ByteConverter<S>, s: S, chunks: seq<Bytes>): Call<S>
    decreases |chunks|
  {
    if chunks == [] then Call(s, "", None)
    else
      var x := c.write(s, chunks[0]);
      if x.err.Some? then Call(x.state, "", x.err)
      else
        var y := Writes(c, x.state, chunks[1..]);
        Call(y.state, x.out + y.out, y.err)
  }

  /** All chunks and then `close`: the output delivered by the calls that succeeded, and the first error. */
  function Whole<S>(c: ByteConverter<S>, s: S, chunks: seq<Bytes>): Call<S> {
    var x := Writes(c, s, chunks);
    if x.err.Some? then x
    else
      var y := c.close(x.state);
      Call(y.state, if y.err.Some? then x.out else x.out + y.out, y.err)
  }

  // --- Chunk laws ---

  /** Writing two chunks is writing their concatenation, with an error in both cases or in neither;
      `ChainErrors` says which error. */
  ghost predicate Splits<S(!new)>(c: ByteConverter<S>, inv: S -> bool, s: S, p: Bytes, q: Bytes) {
    var one := c.write(s, p + q);
    var x := c.write(s, p);
    && (x.err.Some? ==> one.err.Some?)
    && (x.err.None? ==>
        var y := c.write(x.state, q);
        inv(x.state) && (one.err.None? <==> y.err.None?) && (y.err.None? ==> one == Call(y.state, x.out + y.out, None)))
  }

  ghost predicate ChunkLaw<S(!new)>(c: ByteConverter<S>, inv: S -> bool) {
    && (forall s :: inv(s) ==> c.write(s, "") == Call(s, "", None))
    && (forall s, p, q :: inv(s) ==> Splits(c, inv, s, p, q))
  }

  function Open<S>(c: Conv<S>): bool {
    LineEnd(c.lines) == |c.lines| && !c.closed
  }

  lemma SingleSplits<S(!new)>(m: Machine<S>, inv: Conv<S> -> bool, c: Conv<S>, p: Bytes, q: Bytes)
    requires Open(c) && forall d :: inv(d) <==> Open(d)
    ensures Splits(Single(m), inv, c, p, q)
  {
    hide Feed, LineEnd;
    FeedTwice(m, c, p, q);
    assert Quiet(c);
    var r := Feed(m, c, p);
    assert r.err.None? ==> inv(r.conv);
  }

  lemma SingleHasLaw<S(!new)>(m: Machine<S>)
    ensures ChunkLaw(Single(m), (c: Conv<S>) => Open(c))
  {
    hide Splits, LineEnd, DrainLines;
    var inv := (c: Conv<S>) => Open(c);
    forall s: Conv<S>, p, q | inv(s) ensures Splits(Single(m), inv, s, p, q) {
      SingleSplits(m, inv, s, p, q);
    }
  }

  lemma ComposedSplits<S(!new), T(!new)>(a: ByteConverter<S>, ia: S -> bool, b: ByteConverter<T>, ib: T -> bool, st: (S, T), p: Bytes, q: Bytes)
    requires ChunkLaw(a, ia) && ChunkLaw(b, ib) && ia(st.0) && ib(st.1)
    ensures Splits(Compose(a, b), (x: (S, T)) => ia(x.0) && ib(x.1), st, p, q)
  {
    assert Splits(a, ia, st.0, p, q);
    var x := a.write(st.0, p);
    if x.err.None? {
      var y := a.write(x.state, q);
      if y.err.None? {
        assert Splits(b, ib, st.1, x.out, y.out);
      } else {
        assert Splits(b, ib, st.1, x.out, "");
      }
    }
  }

  /** Chaining keeps the chunk law, so it holds for chains of any length. */
  lemma ComposedHasLaw<S(!new), T(!new)>(a: ByteConverter<S>, ia: S -> bool, b: ByteConverter<T>, ib: T -> bool)
    requires ChunkLaw(a, ia) && ChunkLaw(b, ib)
    ensures ChunkLaw(Compose(a, b), (x: (S, T)) => ia(x.0) && ib(x.1))
  {
    var inv := (x: (S, T)) => ia(x.0) && ib(x.1);
    forall st: (S, T), p, q | inv(st) ensures Splits(Compose(a, b), inv, st, p, q) {
      ComposedSplits(a, ia, b, ib, st, p, q);
    }
    forall st: (S, T) | inv(st) ensures Compose(a, b).write(st, "") == Call(st, "", None) {
      assert a.write(st.0, "") == Call(st.0, "", None);
      assert b.write(st.1, "") == Call(st.1, "", None);
    }
  }

  lemma {:induction false} WritesAreOne<S(!new)>(c: ByteConverter<S>, inv: S -> bool, s: S, chunks: seq<Bytes>)
    requires ChunkLaw(c, inv) && inv(s)
    ensures var one := c.write(s, Flatten(chunks));
            var many := Writes(c, s, chunks);
            (many.err.None? <==> one.err.None?) && (one.err.None? ==> many == one && inv(one.state))
    decreases |chunks|
  {
    if chunks != [] {
      var q := Flatten(chunks[1..]);
      assert Splits(c, inv, s, chunks[0], q);
      var x := c.write(s, chunks[0]);
      if x.err.None? {
        WritesAreOne(c, inv, x.state, chunks[1..]);
        var y := c.write(x.state, q);
        if y.err.None? {
          assert Splits(c, inv, x.state, q, "");
        }
      }
    }
  }

  lemma WholeOfOne<S(!new)>(c: ByteConverter<S>, s: S, b: Bytes)
    ensures Writes(c, s, [b]) == (var x := c.write(s, b); Call(x.state, if x.err.Some? then "" else x.out, x.err))
  {
    var x := c.write(s, b);
    assert Writes(c, x.state, [b][1..]) == Call(x.state, "", None);
    assert x.out + "" == x.out;
  }

  /** Two writes and a `close` are the whole stream of their concatenation. */
  lemma WholeOfTwo<S(!new)>(c: ByteConverter<S>, inv: S -> bool, s: S, p: Bytes, q: Bytes)
    requires ChunkLaw(c, inv) && inv(s)
    ensures var whole := Whole(c, s, [p + q]);
            var y := c.write(s, p);
            if y.err.Some? then whole.err.Some?
            else
              var w := if q == "" then Call(y.state, "", None) else c.write(y.state, q);
              if w.err.Some? then whole.err.Some?
              else
                var v := c.close(w.state);
                (v.err.None? <==> whole.err.None?) && (v.err.None? ==> whole == Call(v.state, y.out + (w.out + v.out), None))
  {
    WholeOfOne(c, s, p + q);
    assert Splits(c, inv, s, p, q);
    var y := c.write(s, p);
    if y.err.None? {
      assert c.write(y.state, "") == Call(y.state, "", None);
      var w := c.write(y.state, q);
      if w.err.None? {
        assert (y.out + w.out) + c.close(w.state).out == y.out + (w.out + c.close(w.state).out);
      }
    }
  }

  /** The chained converter is the composition of the two whole-stream conversions: it succeeds
      exactly when both do, and then it delivers what the second gives for the output of the first,
      for any chunking. */
  lemma ComposedIsComposition<S(!new), T(!new)>(a: ByteConverter<S>, ia: S -> bool, b: ByteConverter<T>, ib: T -> bool, s: S, t: T, chunks: seq<Bytes>)
    requires ChunkLaw(a, ia) && ChunkLaw(b, ib) && ia(s) && ib(t)
    ensures var chained := Whole(Compose(a, b), (s, t), chunks);
            var first := Whole(a, s, chunks);
            var second := Whole(b, t, [first.out]);
            && (chained.err.None? <==> first.err.None? && second.err.None?)
            && (chained.err.None? ==> chained.out == second.out && chained.state == (first.state, second.state))
  {
    var ab := Compose(a, b);
    var iab := (x: (S, T)) => ia(x.0) && ib(x.1);
    var all := Flatten(chunks);
    ComposedHasLaw(a, ia, b, ib);
    hide ChunkLaw;
    WritesAreOne(ab, iab, (s, t), chunks);
    WritesAreOne(a, ia, s, chunks);
    var x := a.write(s, all);
    if x.err.None? {
      var z := a.close(x.state);
      if z.err.None? {
        WholeOfTwo(b, ib, t, x.out, z.out);
      }
    }
  }

  /** When a stream fails, what has been delivered is exactly the output for the chunks before the
      failing call, written as one; the failing call is a write, or `close` after all chunks. */
  lemma DeliveredBeforeError<S(!new)>(c: ByteConverter<S>, inv: S -> bool, s: S, chunks: seq<Bytes>) returns (n: nat)
    requires ChunkLaw(c, inv) && inv(s) && Whole(c, s, chunks).err.Some?
    ensures n <= |chunks|
    ensures var x := c.write(s, Flatten(chunks[..n]));
            var failing := if n < |chunks| then c.write(x.state, chunks[n]) else c.close(x.state);
            x.err.None? && x.out == Whole(c, s, chunks).out && failing.err == Whole(c, s, chunks).err
  {
    if Writes(c, s, chunks).err.Some? {
      n := WrittenBeforeError(c, inv, s, chunks);
    } else {
      n := |chunks|;
      assert chunks[..n] == chunks;
      WritesAreOne(c, inv, s, chunks);
    }
  }

  lemma {:induction false} WrittenBeforeError<S(!new)>(c: ByteConverter<S>, inv: S -> bool, s: S, chunks: seq<Bytes>) returns (n: nat)
    requires ChunkLaw(c, inv) && inv(s) && Writes(c, s, chunks).err.Some?
    ensures n < |chunks|
    ensures var x := c.write(s, Flatten(chunks[..n]));
            x.err.None? && x.out == Writes(c, s, chunks).out && c.write(x.state, chunks[n]).err == Writes(c, s, chunks).err
    decreases |chunks|
  {
    var x := c.write(s, chunks[0]);
    if x.err.Some? {
      n := 0;
      assert c.write(s, "") == Call(s, "", None);
    } else {
      assert Splits(c, inv, s, chunks[0], "");
      var k := WrittenBeforeError(c, inv, x.state, chunks[1..]);
      n := k + 1;
      var rest := Flatten(chunks[1..][..k]);
      assert chunks[..n][1..] == chunks[1..][..k];
      assert Splits(c, inv, s, chunks[0], rest);
    }
  }

  // --- The gateway's chains ---

  lemma WholeIsConvert<S(!new)>(m: Machine<S>, c: Conv<S>, chunks: seq<Bytes>)
    ensures var w := Whole(Single(m), c, chunks);
            var r := Convert(m, c, chunks);
            w.err == r.err && (r.err.None? ==> w.out == r.out)
  {
    WritesAreFeeds(m, c, chunks);
  }

  lemma {:induction false} WritesAreFeeds<S(!new)>(m: Machine<S>, c: Conv<S>, chunks: seq<Bytes>)
    ensures var w := Writes(Single(m), c, chunks);
            var r := FeedAll(m, c, chunks);
            w.err == r.err && (r.err.None? ==> w.out == r.out && w.state == r.conv)
    decreases |chunks|
  {
    hide Feed;
    if chunks != [] {
      WritesAreFeeds(m, Feed(m, c, chunks[0]).conv, chunks[1..]);
    }
  }

  /** A chain of two event converters on a printed stream: if the converters in a row succeed on
      the events and neither `Close` objects, the chain succeeds for any chunking and prints what
      they emit. */
  lemma ChainOnEvents<S(!new), T(!new), I(!new), O>(v: EventConverter<S, I, RPayload>, w: EventConverter<T, RPayload, O>, s: S, t: T,
                                                  es: seq<Event<I>>, chunks: seq<Bytes>)
    requires Lawful(v.codec) && Lawful(w.codec) && Carried(es)
    requires forall p :: v.show(p) == ShowResponses(w.codec, p)
    requires Flatten(chunks) == PrintFrames(FramesOf(v.codec, es))
    requires forall i :: 0 <= i < |RunEvents(v, s, es).out| ==> !RunEvents(v, s, es).out[i].typ.ROther?
    requires var x := Pipe(v, w, s, t, es);
             x.err.None? && v.atClose(x.first, None).1.None? && w.atClose(x.second, None).1.None?
    ensures var r := Whole(Compose(Single(MachineOf(v)), Single(MachineOf(w))), (Fresh(s), Fresh(t)), chunks);
            r.err.None? && r.out == PrintAll(w.show, Pipe(v, w, s, t, es).out)
  {
    hide MachineOf, Convert, RunEvents, Flatten, Lawful, Pipe, ChunkLaw, Whole, FramesOf, PrintFrames, PrintAll;
    var a, b := MachineOf(v), MachineOf(w);
    var first := Convert(a, Fresh(s), chunks).out;
    OneChunk(first);
    PipeOnBytes(v, w, s, t, es, chunks, [first]);
    SingleHasLaw(a);
    SingleHasLaw(b);
    ComposedIsComposition(Single(a), (c: Conv<S>) => Open(c), Single(b), (c: Conv<T>) => Open(c), Fresh(s), Fresh(t), chunks);
    WholeIsConvert(a, Fresh(s), chunks);
    WholeIsConvert(b, Fresh(t), [first]);
  }

  lemma OneChunk(b: Bytes)
    ensures Flatten([b]) == b
  {
    assert [b][1..] == [];
    assert b + "" == b;
  }
}
