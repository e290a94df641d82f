/** How an event may be laid out: what the converters read of it, whatever its line endings, its
    optional spaces, and the lines that are neither a name nor data. */
module EventText {
  import opened Wrappers
  import opened Framing
  import opened Frames

  /** A line of an event; `space` says whether a space follows the colon, `cr` whether the line ends with
      a carriage return and a line feed or with a line feed alone. */
  datatype Line =
    | NameLine(space: bool, value: Bytes, cr: bool)
    | DataLine(space: bool, value: Bytes, cr: bool)
    | OtherLine(text: Bytes, cr: bool)

  /** The lines of an event, and the empty line that ends it. */
  datatype Laid = Laid(lines: seq<Line>, cr: bool)

  predicate GoodLine(l: Line) {
    match l
    case NameLine(space, value, _) => Plain(value) && (space || value == "" || value[0] != ' ')
    case DataLine(space, value, _) => Plain(value) && (space || value == "" || value[0] != ' ')
    case OtherLine(text, _) => Plain(text) && text != "" && !(EVENT_TAG <= text) && !(DATA_TAG <= text)
  }

  function LineText(l: Line): Bytes {
    match l
    case NameLine(space, value, _) => EVENT_TAG + ((if space then " " else "") + value)
    case DataLine(space, value, _) => DATA_TAG + ((if space then " " else "") + value)
    case OtherLine(text, _) => text
  }

  function Ended(text: Bytes, cr: bool): Bytes {
    if cr then text + "\r" else text
  }

  function LinesText(lines: seq<Line>, cr: bool): Bytes {
    if lines == [] then Ended("", cr) + "\n"
    else Ended(LineText(lines[0]), lines[0].cr) + "\n" + LinesText(lines[1..], cr)
  }

  function Text(es: seq<Laid>): Bytes {
    if es == [] then "" else LinesText(es[0].lines, es[0].cr) + Text(es[1..])
  }

  predicate GoodLines(lines: seq<Line>) {
    forall i :: 0 <= i < |lines| ==> GoodLine(lines[i])
  }

  predicate GoodText(es: seq<Laid>) {
    forall i :: 0 <= i < |es| ==> GoodLines(es[i].lines)
  }

  // --- What is read of it ---

  function Names(lines: seq<Line>): seq<Bytes> {
    if lines == [] then [] else (if lines[0].NameLine? then [lines[0].value] else []) + Names(lines[1..])
  }

  function Values(lines: seq<Line>): seq<Bytes> {
    if lines == [] then [] else (if lines[0].DataLine? then [lines[0].value] else []) + Values(lines[1..])
  }

  /** The last name given. */
  function LastName(before: Bytes, names: seq<Bytes>): Bytes {
    if names == [] then before else names[|names| - 1]
  }

  /** Values separated by line feeds. */
  function Separated(values: seq<Bytes>): Bytes {
    if values == [] then "" else if |values| == 1 then values[0] else values[0] + "\n" + Separated(values[1..])
  }

  function WithoutLeadingEmpties(values: seq<Bytes>): seq<Bytes> {
    if values != [] && values[0] == "" then WithoutLeadingEmpties(values[1..]) else values
  }

  /** The data of an event: its values separated by line feeds, without the empty ones at the front. */
  function DataOf(before: Bytes, values: seq<Bytes>): Bytes {
    if before == "" then Separated(WithoutLeadingEmpties(values)) else Separated([before] + values)
  }

  /** A laid-out event, read by a converter that is between two events. */
  function Read<S>(m: Machine<S>, c: Conv<S>, e: Laid): Run<S> {
    ProcessEvent(m, c.(event := LastName(c.event, Names(e.lines)), data := DataOf(c.data, Values(e.lines))))
  }

  function ReadAll<S>(m: Machine<S>, c: Conv<S>, es: seq<Laid>): Run<S>
    decreases |es|
  {
    if es == [] then Run(c, "", None)
    else
      var x := Read(m, c, es[0]);
      if x.err.Some? then x
      else
        var y := ReadAll(m, x.conv, es[1..]);
        Run(y.conv, x.out + y.out, y.err)
  }

  // --- One line ---

  lemma {:induction false} EndOf(text: Bytes, rest: Bytes)
    requires forall i :: 0 <= i < |text| ==> text[i] != '\n'
    ensures LineEnd(text + "\n" + rest) == |text|
  {
    var b := text + "\n" + rest;
    if text == "" {
      assert b[0] == '\n';
    } else {
      assert b[0] == text[0] && b[1..] == text[1..] + "\n" + rest;
      EndOf(text[1..], rest);
    }
  }

  lemma LineIsPlain(l: Line)
    requires GoodLine(l)
    ensures Plain(LineText(l)) && LineText(l) != ""
  {
  }

  /** A line ends in either way. */
  lemma DrainEnded<S>(m: Machine<S>, c: Conv<S>, text: Bytes, cr: bool, rest: Bytes)
    requires Plain(text) && c.lines == Ended(text, cr) + "\n" + rest
    ensures DrainLines(m, c) == Follow(m, ProcessLine(m, c.(lines := rest), text))
  {
    hide ProcessLine;
    var line := Ended(text, cr);
    EndOf(line, rest);
    assert c.lines[..|line|] == line && c.lines[|line| + 1..] == rest;
    assert TrimCR(line) == text by {
      if cr {
        assert line[|line| - 1] == '\r' && line[..|line| - 1] == text;
      } else if text != "" {
        assert text[|text| - 1] != '\r';
      }
    }
    DrainFirst(m, c);
  }

  /** The effect of a line on the event that is being read. */
  function Noted<S>(c: Conv<S>, l: Line): Conv<S> {
    match l
    case NameLine(_, value, _) => c.(event := value)
    case DataLine(_, value, _) => c.(data := Join(c.data, value))
    case OtherLine(_, _) => c
  }

  lemma TagsDiffer(value: Bytes)
    ensures !(EVENT_TAG <= DATA_TAG + value) && EVENT_TAG + value != "" && DATA_TAG + value != ""
  {
    assert (DATA_TAG + value)[0] == 'd' && EVENT_TAG[0] == 'e';
  }

  lemma SpaceDropped(space: bool, value: Bytes)
    requires space || value == "" || value[0] != ' '
    ensures DropSpace((if space then " " else "") + value) == value
  {
    if space {
      assert (" " + value)[1..] == value;
    } else {
      assert "" + value == value;
    }
  }

  lemma ProcessGoodLine<S>(m: Machine<S>, c: Conv<S>, l: Line)
    requires GoodLine(l)
    ensures ProcessLine(m, c, LineText(l)) == Run(Noted(c, l), "", None)
  {
    match l
    case NameLine(space, value, _) =>
      var text := (if space then " " else "") + value;
      SpaceDropped(space, value);
      TagsDiffer(text);
      assert (EVENT_TAG + text)[|EVENT_TAG|..] == text;
    case DataLine(space, value, _) =>
      var text := (if space then " " else "") + value;
      SpaceDropped(space, value);
      TagsDiffer(text);
      assert (DATA_TAG + text)[|DATA_TAG|..] == text;
    case OtherLine(_, _) =>
  }

  // --- The lines of an event ---

  function NotedAll<S>(c: Conv<S>, lines: seq<Line>): Conv<S>
    decreases |lines|
  {
    if lines == [] then c else NotedAll(Noted(c, lines[0]), lines[1..])
  }

  lemma NotedBuffer<S>(c: Conv<S>, l: Line, buffer: Bytes)
    ensures Noted(c.(lines := buffer), l) == Noted(c, l).(lines := buffer)
  {
  }

  lemma {:induction false} DrainGoodLines<S>(m: Machine<S>, c: Conv<S>, lines: seq<Line>, cr: bool, rest: Bytes)
    requires GoodLines(lines) && c.lines == LinesText(lines, cr) + rest
    ensures DrainLines(m, c) == Follow(m, ProcessEvent(m, NotedAll(c.(lines := rest), lines)))
    decreases |lines|
  {
    hide ProcessEvent, DrainLines, ProcessLine, GoodLine, LineText, Noted;
    if lines == [] {
      assert c.lines == Ended("", cr) + "\n" + rest;
      DrainEnded(m, c, "", cr, rest);
      EmptyLine(m, c.(lines := rest));
    } else {
      var l, tail := lines[0], LinesText(lines[1..], cr) + rest;
      assert c.lines == Ended(LineText(l), l.cr) + "\n" + tail;
      LineIsPlain(l);
      DrainEnded(m, c, LineText(l), l.cr, tail);
      ProcessGoodLine(m, c.(lines := tail), l);
      NotedBuffer(c, l, tail);
      NotedBuffer(c, l, rest);
      var d := Noted(c, l).(lines := tail);
      DrainGoodLines(m, d, lines[1..], cr, rest);
      var y := DrainLines(m, d);
      assert "" + y.out == y.out;
      assert d.(lines := rest) == Noted(c.(lines := rest), l);
    }
  }

  lemma {:induction false} SeparatedGrows(before: Bytes, value: Bytes, values: seq<Bytes>)
    ensures Separated([before] + ([value] + values)) == Separated([before + "\n" + value] + values)
  {
    var a, b := [before] + ([value] + values), [before + "\n" + value] + values;
    assert a[1..] == [value] + values && b[1..] == values && ([value] + values)[1..] == values;
    if values == [] {
      assert a == [before, value] && b == [before + "\n" + value];
    } else {
      var s := Separated(values);
      assert Separated(a) == before + "\n" + (value + "\n" + s);
      assert Separated(b) == (before + "\n" + value) + "\n" + s;
    }
  }

  /** Joining value by value gives the data. */
  lemma DataGrows(before: Bytes, value: Bytes, values: seq<Bytes>)
    ensures DataOf(before, [value] + values) == DataOf(Join(before, value), values)
  {
    hide Separated;
    var more := [value] + values;
    assert more[1..] == values;
    if before == "" {
      assert value != "" ==> WithoutLeadingEmpties(more) == more;
    } else {
      SeparatedGrows(before, value, values);
    }
  }

  lemma NothingAdded(before: Bytes)
    ensures DataOf(before, []) == before
  {
    assert [before] + [] == [before];
  }

  /** The event as the folds of its lines have it. */
  function Folded<S>(c: Conv<S>, names: seq<Bytes>, values: seq<Bytes>): Conv<S> {
    c.(event := LastName(c.event, names), data := DataOf(c.data, values))
  }

  lemma NothingNoted<S>(c: Conv<S>)
    ensures Folded(c, [], []) == c
  {
    NothingAdded(c.data);
  }

  lemma NotedFirst<S>(c: Conv<S>, l: Line, names: seq<Bytes>, values: seq<Bytes>)
    ensures Folded(Noted(c, l), names, values) ==
            Folded(c, (if l.NameLine? then [l.value] else []) + names, (if l.DataLine? then [l.value] else []) + values)
  {
    hide DataOf, Join;
    assert [] + names == names && [] + values == values;
    if l.DataLine? {
      DataGrows(c.data, l.value, values);
    } else if l.NameLine? {
      assert names != [] ==> ([l.value] + names)[|names|] == names[|names| - 1];
    }
  }

  lemma {:induction false} NotedSays<S>(c: Conv<S>, lines: seq<Line>)
    ensures NotedAll(c, lines) == Folded(c, Names(lines), Values(lines))
    decreases |lines|
  {
    hide Folded, Noted;
    if lines == [] {
      NothingNoted(c);
    } else {
      NotedSays(Noted(c, lines[0]), lines[1..]);
      NotedFirst(c, lines[0], Names(lines[1..]), Values(lines[1..]));
    }
  }

  /** A laid-out event is read as its last name and its values. */
  lemma DrainLaid<S>(m: Machine<S>, c: Conv<S>, e: Laid, rest: Bytes)
    requires GoodLines(e.lines) && c.lines == LinesText(e.lines, e.cr) + rest
    ensures DrainLines(m, c) == Follow(m, Read(m, c.(lines := rest), e))
  {
    hide ProcessEvent, DrainLines, LastName, DataOf;
    DrainGoodLines(m, c, e.lines, e.cr, rest);
    NotedSays(c.(lines := rest), e.lines);
  }

  lemma ReadBuffer<S>(m: Machine<S>, c: Conv<S>, e: Laid, buffer: Bytes)
    ensures var x, y := Read(m, c.(lines := buffer), e), Read(m, c, e);
            x.out == y.out && x.err == y.err && x.conv == y.conv.(lines := buffer) && y.conv.lines == c.lines
  {
    hide LastName, DataOf;
  }

  /** A whole text of events, in any layout, is processed event by event up to the first error, each as
      its last name and its values joined by line feeds. */
  lemma {:induction false} TextIsRead<S>(m: Machine<S>, c: Conv<S>, es: seq<Laid>)
    requires c.lines == "" && GoodText(es)
    ensures var r, x := DrainLines(m, c.(lines := Text(es))), ReadAll(m, c, es);
            r.out == x.out && r.err == x.err && (x.err.None? ==> r.conv == x.conv && x.conv.lines == "")
    decreases |es|
  {
    hide Read, DrainLines, LinesText, GoodLines;
    if es == [] {
      NothingDrained(m, c);
    } else {
      var rest := Text(es[1..]);
      DrainLaid(m, c.(lines := LinesText(es[0].lines, es[0].cr) + rest), es[0], rest);
      ReadBuffer(m, c, es[0], rest);
      var x := Read(m, c, es[0]);
      if x.err.None? {
        TextIsRead(m, x.conv, es[1..]);
      }
    }
  }

  lemma NothingDrained<S>(m: Machine<S>, c: Conv<S>)
    requires c.lines == ""
    ensures DrainLines(m, c.(lines := "")) == Run(c, "", None)
  {
  }

  /** The same names and the same values, event by event. */
  predicate SaysTheSame(es: seq<Laid>, fs: seq<Laid>) {
    |es| == |fs| && forall i :: 0 <= i < |es| ==> Names(es[i].lines) == Names(fs[i].lines) && Values(es[i].lines) == Values(fs[i].lines)
  }

  lemma {:induction false} SameReading<S>(m: Machine<S>, c: Conv<S>, es: seq<Laid>, fs: seq<Laid>)
    requires SaysTheSame(es, fs)
    ensures ReadAll(m, c, es) == ReadAll(m, c, fs)
    decreases |es|
  {
    if es != [] {
      assert Read(m, c, es[0]) == Read(m, c, fs[0]);
      hide Read;
      var x := Read(m, c, es[0]);
      if x.err.None? {
        SameReading(m, x.conv, es[1..], fs[1..]);
      }
    }
  }

  /** Line endings, spaces after the colon, comments and unknown fields never show: two layouts of the
      same events give the same output, the same error and the same state, for every converter. */
  lemma LayoutIsInvisible<S>(m: Machine<S>, core: S, es: seq<Laid>, fs: seq<Laid>)
    requires GoodText(es) && GoodText(fs) && SaysTheSame(es, fs)
    ensures var a, b := Feed(m, Fresh(core), Text(es)), Feed(m, Fresh(core), Text(fs));
            a.out == b.out && a.err == b.err && (a.err.None? ==> a.conv == b.conv)
  {
    hide DrainLines;
    FeedFresh(m, core, Text(es));
    FeedFresh(m, core, Text(fs));
    TextIsRead(m, Fresh(core), es);
    TextIsRead(m, Fresh(core), fs);
    SameReading(m, Fresh(core), es, fs);
  }

  lemma FeedFresh<S>(m: Machine<S>, core: S, p: Bytes)
    ensures Feed(m, Fresh(core), p) == DrainLines(m, Fresh(core).(lines := p))
  {
    NothingDrained(m, Fresh(core));
    assert "" + p == p;
  }

  /** What the gateway prints is one such layout: a name, if any, and one data line, each after a space. */
  lemma PrintedIsLaid(f: Frame)
    requires Plain(f.event) && Plain(f.data)
    ensures var lines := (if f.event == "" then [] else [NameLine(true, f.event, false)]) + [DataLine(true, f.data, false)];
            GoodLines(lines) && PrintFrame(f) == Text([Laid(lines, false)])
  {
    var name, data := NameLine(true, f.event, false), DataLine(true, f.data, false);
    var lines := (if f.event == "" then [] else [name]) + [data];
    assert LinesText([], false) == "" + "\n";
    assert [data][1..] == [];
    assert LinesText([data], false) == LineText(data) + "\n" + "\n";
    if f.event == "" {
      assert lines == [data];
    } else {
      assert lines[1..] == [data];
      assert LinesText(lines, false) == LineText(name) + "\n" + LinesText([data], false);
    }
    assert [Laid(lines, false)][1..] == [];
    assert Text([Laid(lines, false)]) == LinesText(lines, false) + "";
    assert DATA_TAG + (" " + f.data) == DATA_TAG + " " + f.data && EVENT_TAG + (" " + f.event) == EVENT_TAG + " " + f.event;
    var tail := DATA_TAG + " " + f.data + "\n\n";
    assert LineText(data) + "\n" + "\n" == tail;
  }
}
