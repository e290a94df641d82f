/** Two converters in a row on events, with Responses events between them. */
module Pipeline {
  import opened Wrappers
  import opened Framing
  import opened Frames
  import opened EventMachine
  import opened StreamEvents

  /** Printed Responses events as the next converter reads them. */
  function ResponsesEvents(ps: seq<RPayload>): (es: seq<Event<RPayload>>)
    ensures |es| == |ps| && forall i :: 0 <= i < |ps| ==> es[i] == Event(RName(ps[i].typ), Payload(ps[i]))
  {
    seq(|ps|, i requires 0 <= i < |ps| => Event(RName(ps[i].typ), Payload(ps[i])))
  }

  datatype Piped<+S, +T, +O> = Piped(first: S, second: T, out: seq<O>, err: Option<Error>)

  /** The first converter's whole output goes through the second. */
  function Pipe<S, T, I, O>(v: EventConverter<S, I, RPayload>, w: EventConverter<T, RPayload, O>, s: S, t: T, es: seq<Event<I>>): Piped<S, T, O> {
    var x := RunEvents(v, s, es);
    var y := RunEvents(w, t, ResponsesEvents(x.out));
    Piped(x.core, y.core, y.out, if x.err.Some? then x.err else y.err)
  }

  lemma CarriedAppend(a: seq<RPayload>, b: seq<RPayload>)
    ensures ResponsesEvents(a + b) == ResponsesEvents(a) + ResponsesEvents(b)
  {
  }

  lemma PipeAppend<S, T, I, O>(v: EventConverter<S, I, RPayload>, w: EventConverter<T, RPayload, O>, s: S, t: T, a: seq<Event<I>>, b: seq<Event<I>>)
    requires Pipe(v, w, s, t, a).err.None?
    ensures var x := Pipe(v, w, s, t, a);
            var y := Pipe(v, w, x.first, x.second, b);
            Pipe(v, w, s, t, a + b) == Piped(y.first, y.second, x.out + y.out, y.err)
  {
    hide RunEvents;
    var x := RunEvents(v, s, a);
    var z := RunEvents(v, x.core, b);
    CarriedAppend(x.out, z.out);
    RunEventsAppend(v, s, a, b);
    RunEventsAppend(w, t, ResponsesEvents(x.out), ResponsesEvents(z.out));
  }

  /** A run without errors has none in its first part. */
  lemma PipeFirst<S, T, I, O>(v: EventConverter<S, I, RPayload>, w: EventConverter<T, RPayload, O>, s: S, t: T, a: seq<Event<I>>, b: seq<Event<I>>)
    requires Pipe(v, w, s, t, a + b).err.None?
    ensures Pipe(v, w, s, t, a).err.None?
  {
    hide RunEvents;
    var x := RunEvents(v, s, a);
    var z := RunEvents(v, x.core, b);
    CarriedAppend(x.out, z.out);
    RunEventsAppend(v, s, a, b);
    RunEventsAppend(w, t, ResponsesEvents(x.out), ResponsesEvents(z.out));
  }

  lemma PipeNothing<S, T, I, O>(v: EventConverter<S, I, RPayload>, w: EventConverter<T, RPayload, O>, s: S, t: T)
    ensures Pipe(v, w, s, t, []) == Piped(s, t, [], None)
  {
    assert ResponsesEvents([]) == [];
  }

  lemma PipeOne<S, T, I, O>(v: EventConverter<S, I, RPayload>, w: EventConverter<T, RPayload, O>, s: S, t: T, e: Event<I>)
    requires React(v, s, e).err.None?
    ensures var x := React(v, s, e);
            var y := RunEvents(w, t, ResponsesEvents(x.out));
            Pipe(v, w, s, t, [e]) == Piped(x.core, y.core, y.out, y.err)
  {
    RunOne(v, s, e);
  }

  /** Two whole streams: what the second converter prints for the bytes of the first, however both
      byte streams are chunked. */
  lemma PipeOnBytes<S, T, I(!new), O>(v: EventConverter<S, I, RPayload>, w: EventConverter<T, RPayload, O>, s: S, t: T,
                                      es: seq<Event<I>>, chunks: seq<Bytes>, between: seq<Bytes>)
    requires Lawful(v.codec) && Lawful(w.codec) && Carried(es)
    requires forall p :: v.show(p) == ShowResponses(w.codec, p)
    requires Flatten(chunks) == PrintFrames(FramesOf(v.codec, es))
    requires Flatten(between) == Convert(MachineOf(v), Fresh(s), chunks).out
    requires forall i :: 0 <= i < |RunEvents(v, s, es).out| ==> !RunEvents(v, s, es).out[i].typ.ROther?
    ensures var x := Pipe(v, w, s, t, es);
            var a := Convert(MachineOf(v), Fresh(s), chunks);
            var b := Convert(MachineOf(w), Fresh(t), between);
            x.err.None? ==> a.err == v.atClose(x.first, None).1 && b.err == w.atClose(x.second, None).1 && b.out == PrintAll(w.show, x.out)
  {
    hide MachineOf, Convert, RunEvents, Flatten, Lawful, RName;
    ConvertEvents(v, s, es, chunks);
    var out := RunEvents(v, s, es).out;
    var fs := ResponsesEvents(out);
    forall i | 0 <= i < |fs| ensures Plain(fs[i].name) {
      NamesArePlain(out[i].typ);
    }
    assert FramesOf(w.codec, fs) == Shown(v.show, out) by {
      forall i | 0 <= i < |out| ensures FramesOf(w.codec, fs)[i] == Shown(v.show, out)[i] {
        assert v.show(out[i]) == ShowResponses(w.codec, out[i]);
      }
    }
    ConvertEvents(w, t, fs, between);
  }
}
