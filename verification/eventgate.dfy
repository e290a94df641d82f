/** Finding complete events in staged bytes, before a response is committed. */
module EventGate {
  import opened Wrappers
  import opened Framing
  import opened UsageAccumulator

  predicate LineFeedsAt(data: Bytes, i: nat) {
    i + 1 < |data| && data[i] == '\n' && data[i + 1] == '\n'
  }

  predicate ReturnsAt(data: Bytes, i: nat) {
    i + 3 < |data| && data[i] == '\r' && data[i + 1] == '\n' && data[i + 2] == '\r' && data[i + 3] == '\n'
  }

  /** The end of the first event: just past two line endings in a row. */
  function EventEnd(data: Bytes, i: nat): (end: Option<nat>)
    ensures end.Some? ==> i + 2 <= end.value <= |data|
    decreases |data| - i
  {
    if i + 1 >= |data| then None
    else if LineFeedsAt(data, i) then Some(i + 2)
    else if ReturnsAt(data, i) then Some(i + 4)
    else EventEnd(data, i + 1)
  }

  method SplitFirstEvent(data: Bytes) returns (event: Bytes, remainder: Bytes, complete: bool)
    ensures complete <==> EventEnd(data, 0).Some?
    ensures complete ==> event == data[..EventEnd(data, 0).value] && remainder == data[EventEnd(data, 0).value..]
  {
    var i := 0;
    while i + 1 < |data|
      invariant EventEnd(data, 0) == EventEnd(data, i)
    {
      if LineFeedsAt(data, i) {
        return data[..i + 2], data[i + 2..], true;
      }
      if ReturnsAt(data, i) {
        return data[..i + 4], data[i + 4..], true;
      }
      i := i + 1;
    }
    return "", "", false;
  }

  predicate DataLine(line: Bytes) {
    DATA_TAG <= TrimCR(line) && TrimSpace(TrimCR(line)[|DATA_TAG|..]) != ""
  }

  /** One of the lines, the last possibly unterminated, is a data line with something on it. */
  predicate HasData(event: Bytes)
    decreases |event|
  {
    event != "" &&
    var n := LineEnd(event);
    DataLine(event[..n]) || (n < |event| && HasData(event[n + 1..]))
  }

  method EventHasData(event: Bytes) returns (has: bool)
    ensures has == HasData(event)
  {
    var rest := event;
    while rest != ""
      invariant HasData(event) == HasData(rest)
      decreases |rest|
    {
      var n := LineEnd(rest);
      if DataLine(rest[..n]) {
        return true;
      }
      if n == |rest| {
        break;
      }
      rest := rest[n + 1..];
    }
    return false;
  }

  /** The complete events of the staged bytes. */
  function Events(data: Bytes): seq<Bytes>
    decreases |data|
  {
    match EventEnd(data, 0)
    case None => []
    case Some(end) => [data[..end]] + Events(data[end..])
  }

  predicate Meaningful(data: Bytes) {
    exists i :: 0 <= i < |Events(data)| && HasData(Events(data)[i])
  }

  /** Skip complete events without data; meaningful exactly when a complete event has some. */
  method FirstMeaningfulEvent(data: Bytes) returns (event: Bytes, meaningful: bool, complete: bool)
    ensures meaningful <==> Meaningful(data)
    ensures meaningful ==> complete && event in Events(data) && HasData(event)
  {
    var rest := data;
    while rest != ""
      invariant Meaningful(data) <==> Meaningful(rest)
      invariant forall e :: e in Events(rest) ==> e in Events(data)
      decreases |rest|
    {
      var e, remainder, ok := SplitFirstEvent(rest);
      if !ok {
        return "", false, false;
      }
      var has := EventHasData(e);
      if has {
        assert Events(rest)[0] == e;
        return e, true, true;
      }
      hide HasData;
      assert Events(rest) == [e] + Events(remainder);
      assert forall i :: 0 <= i < |Events(remainder)| ==> Events(rest)[i + 1] == Events(remainder)[i];
      assert Meaningful(rest) ==> Meaningful(remainder) by {
        if Meaningful(rest) {
          var i :| 0 <= i < |Events(rest)| && HasData(Events(rest)[i]);
          assert Events(remainder)[i - 1] == Events(rest)[i];
        }
      }
      rest := remainder;
    }
    return "", false, true;
  }

  // --- More bytes ---

  lemma {:induction false} EventEndStays(data: Bytes, more: Bytes, i: nat)
    requires EventEnd(data, i).Some?
    ensures EventEnd(data + more, i) == EventEnd(data, i)
    decreases |data| - i
  {
    if !LineFeedsAt(data, i) && !ReturnsAt(data, i) {
      EventEndStays(data, more, i + 1);
      // An event that ends later leaves no room for carriage returns that the new bytes complete.
      EventEndIsLater(data, i + 1);
    }
  }

  lemma EventEndIsLater(data: Bytes, i: nat)
    requires EventEnd(data, i).Some?
    ensures LineFeedsAt(data, i) || i + 2 < |data|
  {
  }

  /** Complete events stay as they are when more bytes arrive. */
  lemma {:induction false} EventsStay(data: Bytes, more: Bytes)
    ensures Events(data) <= Events(data + more)
    decreases |data|
  {
    if EventEnd(data, 0).Some? {
      EventEndStays(data, more, 0);
      var end := EventEnd(data, 0).value;
      assert (data + more)[..end] == data[..end] && (data + more)[end..] == data[end..] + more;
      EventsStay(data[end..], more);
    }
  }

  lemma MeaningfulStays(data: Bytes, more: Bytes)
    requires Meaningful(data)
    ensures Meaningful(data + more)
  {
    hide HasData, Events;
    EventsStay(data, more);
    var i :| 0 <= i < |Events(data)| && HasData(Events(data)[i]);
    assert Events(data + more)[i] == Events(data)[i];
  }

  // --- What is found ---

  /** Two line endings in a row, of one kind, start at `i`. */
  predicate EndingAt(data: Bytes, i: nat) {
    i <= |data| && ("\n\n" <= data[i..] || "\r\n\r\n" <= data[i..])
  }

  lemma EndingsAgree(data: Bytes, i: nat)
    ensures EndingAt(data, i) <==> LineFeedsAt(data, i) || ReturnsAt(data, i)
    ensures i <= |data| ==> (LineFeedsAt(data, i) <==> "\n\n" <= data[i..])
  {
    if i <= |data| {
      var rest := data[i..];
      assert LineFeedsAt(data, i) ==> rest[..2] == "\n\n";
      assert ReturnsAt(data, i) ==> rest[..4] == "\r\n\r\n";
      if "\n\n" <= rest {
        assert rest[0] == '\n' && rest[1] == '\n';
      }
      if "\r\n\r\n" <= rest {
        assert rest[0] == '\r' && rest[1] == '\n' && rest[2] == '\r' && rest[3] == '\n';
      }
    }
  }

  /** The first place from `i` on. */
  predicate FirstEnding(data: Bytes, i: nat, j: nat) {
    i <= j && EndingAt(data, j) && forall k: nat :: i <= k < j ==> !EndingAt(data, k)
  }

  lemma LaterEnding(data: Bytes, i: nat, j: nat)
    requires !EndingAt(data, i) && FirstEnding(data, i + 1, j)
    ensures FirstEnding(data, i, j)
  {
    hide EndingAt;
  }

  lemma EndingHere(data: Bytes, i: nat)
    requires EndingAt(data, i)
    ensures FirstEnding(data, i, i)
  {
    hide EndingAt;
  }

  lemma NoEndingLeft(data: Bytes, i: nat)
    requires i + 1 >= |data|
    ensures forall j: nat :: j >= i ==> !EndingAt(data, j)
  {
    forall j: nat | j >= i ensures !EndingAt(data, j) {
      EndingsAgree(data, j);
    }
  }

  lemma NoEndingSince(data: Bytes, i: nat)
    requires !EndingAt(data, i) && forall j: nat :: j >= i + 1 ==> !EndingAt(data, j)
    ensures forall j: nat :: j >= i ==> !EndingAt(data, j)
  {
    hide EndingAt;
  }

  /** The first event ends just past the first two line endings in a row, and there is none without
      them. */
  lemma {:induction false} EventEndExactly(data: Bytes, i: nat) returns (j: nat)
    ensures match EventEnd(data, i)
            case None => forall k: nat :: k >= i ==> !EndingAt(data, k)
            case Some(end) => FirstEnding(data, i, j) && j <= |data| && end == j + if "\n\n" <= data[j..] then 2 else 4
    decreases |data| - i
  {
    EndingsAgree(data, i);
    j := i;
    hide EndingAt, FirstEnding;
    if i + 1 >= |data| {
      NoEndingLeft(data, i);
    } else if EndingAt(data, i) {
      EndingHere(data, i);
    } else {
      j := EventEndExactly(data, i + 1);
      if EventEnd(data, i + 1).Some? {
        LaterEnding(data, i, j);
      } else {
        NoEndingSince(data, i);
      }
    }
  }

  /** A line of the event, from `i` to `j`. */
  predicate IsLine(event: Bytes, i: nat, j: nat) {
    && i <= j <= |event| && i < |event| && (i == 0 || event[i - 1] == '\n') && (j == |event| || event[j] == '\n')
    && forall k :: i <= k < j ==> event[k] != '\n'
  }

  /** A line that is a data line with something on it. */
  predicate DataLineAt(event: Bytes, i: nat, j: nat) {
    IsLine(event, i, j) && DataLine(event[i..j])
  }

  /** One of the lines, from line feed to line feed, is. */
  ghost predicate SomeLineHasData(event: Bytes) {
    exists i: nat, j: nat :: DataLineAt(event, i, j)
  }

  /** The first line of an event ends where `LineEnd` says. */
  lemma FirstLineIs(event: Bytes, j: nat)
    requires event != ""
    ensures IsLine(event, 0, j) <==> j == LineEnd(event)
  {
    if IsLine(event, 0, j) {
      assert LineEnd(event) >= j;
    }
  }

  lemma LineWithin(event: Bytes, i: nat, j: nat)
    requires IsLine(event, i, j)
    ensures i <= j <= |event|
  {
  }

  /** A line behind a line feed at `n` is a line of the event. */
  lemma LineMovesBack(event: Bytes, n: nat, i: nat, j: nat)
    requires n < |event| && event[n] == '\n' && IsLine(event[n + 1..], i, j)
    ensures IsLine(event, n + 1 + i, n + 1 + j) && i <= j <= |event[n + 1..]| && event[n + 1 + i..n + 1 + j] == event[n + 1..][i..j]
  {
    var rest := event[n + 1..];
    forall k | n + 1 + i <= k < n + 1 + j ensures event[k] != '\n' {
      assert rest[k - n - 1] == event[k];
    }
    assert i > 0 ==> rest[i - 1] == event[n + i];
    assert j < |rest| ==> rest[j] == event[n + 1 + j];
  }

  /** And a line that does not begin the event lies behind its first line feed. */
  lemma LineMovesOn(event: Bytes, n: nat, i: nat, j: nat)
    requires n < |event| && event[n] == '\n' && (forall k :: 0 <= k < n ==> event[k] != '\n') && IsLine(event, i, j) && i > 0
    ensures n < i <= j <= |event| && IsLine(event[n + 1..], i - n - 1, j - n - 1) && event[n + 1..][i - n - 1..j - n - 1] == event[i..j]
  {
    assert event[i - 1] == '\n';
    var rest := event[n + 1..];
    forall k | i - n - 1 <= k < j - n - 1 ensures rest[k] != '\n' {
      assert rest[k] == event[n + 1 + k];
    }
    assert i - n - 1 > 0 ==> rest[i - n - 2] == event[i - 1];
    assert j < |event| ==> rest[j - n - 1] == event[j];
  }

  lemma OnlyLine(event: Bytes, i: nat, j: nat)
    requires LineEnd(event) == |event| && IsLine(event, i, j)
    ensures i == 0
  {
  }

  lemma SomeLineLater(event: Bytes, n: nat)
    requires n < |event| && event[n] == '\n' && SomeLineHasData(event[n + 1..])
    ensures SomeLineHasData(event)
  {
    hide DataLine, IsLine;
    var i: nat, j: nat :| DataLineAt(event[n + 1..], i, j);
    LineMovesBack(event, n, i, j);
    assert DataLineAt(event, n + 1 + i, n + 1 + j);
  }

  lemma SomeLineSplits(event: Bytes, n: nat)
    requires event != "" && n == LineEnd(event) && SomeLineHasData(event)
    ensures DataLine(event[..n]) || (n < |event| && SomeLineHasData(event[n + 1..]))
  {
    hide DataLine, IsLine;
    var i: nat, j: nat :| DataLineAt(event, i, j);
    LineWithin(event, i, j);
    if i == 0 {
      FirstLineIs(event, j);
      assert event[0..j] == event[..j];
    } else if n < |event| {
      LineMovesOn(event, n, i, j);
      assert DataLineAt(event[n + 1..], i - n - 1, j - n - 1);
    } else {
      OnlyLine(event, i, j);
    }
  }

  lemma SomeLineFront(event: Bytes)
    requires event != ""
    ensures var n := LineEnd(event); SomeLineHasData(event) <==> DataLine(event[..n]) || (n < |event| && SomeLineHasData(event[n + 1..]))
  {
    hide DataLine, IsLine;
    var n := LineEnd(event);
    FirstLineIs(event, n);
    assert event[0..n] == event[..n];
    assert DataLine(event[..n]) ==> DataLineAt(event, 0, n);
    if n < |event| && SomeLineHasData(event[n + 1..]) {
      SomeLineLater(event, n);
    }
    if SomeLineHasData(event) {
      SomeLineSplits(event, n);
    }
  }

  lemma NoLineHasData()
    ensures !SomeLineHasData("")
  {
  }

  /** An event has data exactly when one of its lines is a data line with something on it. */
  lemma {:induction false} HasDataExactly(event: Bytes)
    ensures HasData(event) <==> SomeLineHasData(event)
    decreases |event|
  {
    NoLineHasData();
    if event != "" {
      SomeLineFront(event);
      hide DataLine, SomeLineHasData;
      var n := LineEnd(event);
      if n < |event| {
        HasDataExactly(event[n + 1..]);
      }
    }
  }

  /** The complete events are the bytes, up to a rest in which no event is complete. */
  lemma {:induction false} EventsTile(data: Bytes)
    ensures Flatten(Events(data)) <= data && EventEnd(data[|Flatten(Events(data))|..], 0).None?
    decreases |data|
  {
    if EventEnd(data, 0).Some? {
      var end := EventEnd(data, 0).value;
      var rest := data[end..];
      EventsTile(rest);
      var events := Events(rest);
      assert Events(data) == [data[..end]] + events && ([data[..end]] + events)[1..] == events;
      assert data == data[..end] + rest;
      assert data[|data[..end] + Flatten(events)|..] == rest[|Flatten(events)|..];
    } else {
      assert data[0..] == data;
    }
  }

  // --- Whether staged bytes can be an event stream at all ---

  predicate Contains(data: Bytes, part: Bytes) {
    part <= data || (data != "" && Contains(data[1..], part))
  }

  predicate StartsEvent(data: Bytes) {
    EVENT_TAG <= data || DATA_TAG <= data
  }

  /** Without the blanks at the front; here vertical tabs and form feeds are no blanks. */
  function TrimBlanks(b: Bytes): Bytes {
    if b != "" && b[0] in " \t\r\n" then TrimBlanks(b[1..]) else b
  }

  predicate CouldBeEvents(data: Bytes) {
    var trimmed := TrimBlanks(data);
    trimmed == "" || trimmed <= DATA_TAG || trimmed <= EVENT_TAG || StartsEvent(trimmed)
    || Contains(trimmed, "\n\n") || Contains(trimmed, "\r\n\r\n")
  }

  lemma StartsEventOn(data: Bytes, more: Bytes)
    requires StartsEvent(data)
    ensures StartsEvent(data + more)
  {
  }

  lemma TaggedCouldBeEvents(data: Bytes)
    requires StartsEvent(data)
    ensures CouldBeEvents(data)
  {
    assert EVENT_TAG[0] == 'e' && DATA_TAG[0] == 'd';
    assert data[0] == 'e' || data[0] == 'd';
  }

  // --- What that means ---

  lemma {:induction false} TrimBlanksAppends(data: Bytes, more: Bytes)
    ensures TrimBlanks(data) == "" ==> TrimBlanks(data + more) == TrimBlanks(more)
    ensures TrimBlanks(data) != "" ==> TrimBlanks(data + more) == TrimBlanks(data) + more
  {
    if data == "" {
      assert data + more == more;
    } else {
      assert (data + more)[0] == data[0] && (data + more)[1..] == data[1..] + more;
      if data[0] in " \t\r\n" {
        TrimBlanksAppends(data[1..], more);
      }
    }
  }

  lemma {:induction false} ContainsAt(data: Bytes, part: Bytes)
    ensures Contains(data, part) <==> exists i :: 0 <= i <= |data| && part <= data[i..]
  {
    if part <= data {
      assert data[0..] == data;
    } else if data != "" {
      ContainsAt(data[1..], part);
      forall i | 0 <= i <= |data[1..]| ensures data[1..][i..] == data[i + 1..] {
      }
      if exists i :: 0 <= i <= |data| && part <= data[i..] {
        var i :| 0 <= i <= |data| && part <= data[i..];
        assert data[0..] == data;
        assert data[1..][i - 1..] == data[i..];
      }
      if Contains(data[1..], part) {
        var i :| 0 <= i <= |data[1..]| && part <= data[1..][i..];
        assert data[i + 1..] == data[1..][i..];
      }
    } else {
      assert data[0..] == data;
    }
  }

  lemma TagsAreTagged(tag: Bytes)
    requires tag == DATA_TAG || tag == EVENT_TAG
    ensures StartsEvent(tag) && TrimBlanks(tag) == tag
  {
    assert EVENT_TAG[0] == 'e' && DATA_TAG[0] == 'd';
  }

  lemma PrefixGoesOn(start: Bytes, tag: Bytes)
    requires start <= tag
    ensures start + tag[|start|..] == tag
  {
  }

  /** Two prefixes of one text: one of them continues the other. */
  lemma PrefixesAgree(start: Bytes, more: Bytes, tag: Bytes)
    requires tag <= start + more
    ensures tag <= start || start <= tag
  {
    if |start| <= |tag| {
      assert start == (start + more)[..|start|] == tag[..|start|];
    } else {
      assert tag == (start + more)[..|tag|] == start[..|tag|];
    }
  }

  /** Bytes could be events exactly when, after leading blanks, more bytes can make them start with a tag,
      or an empty line is in them already. */
  lemma CouldBeExactly(data: Bytes)
    ensures CouldBeEvents(data) <==>
            (exists more: Bytes :: StartsEvent(TrimBlanks(data + more)))
            || (exists i :: 0 <= i <= |TrimBlanks(data)| && ("\n\n" <= TrimBlanks(data)[i..] || "\r\n\r\n" <= TrimBlanks(data)[i..]))
  {
    var trimmed := TrimBlanks(data);
    ContainsAt(trimmed, "\n\n");
    ContainsAt(trimmed, "\r\n\r\n");
    hide Contains, TrimBlanks;
    if trimmed == "" {
      TagsAreTagged(DATA_TAG);
      TrimBlanksAppends(data, DATA_TAG);
    } else if trimmed <= DATA_TAG || trimmed <= EVENT_TAG {
      var tag := if trimmed <= DATA_TAG then DATA_TAG else EVENT_TAG;
      PrefixGoesOn(trimmed, tag);
      TrimBlanksAppends(data, tag[|trimmed|..]);
      TagsAreTagged(tag);
    } else if StartsEvent(trimmed) {
      TrimBlanksAppends(data, "");
      assert trimmed + "" == trimmed;
    }
    if exists more: Bytes :: StartsEvent(TrimBlanks(data + more)) {
      var more: Bytes :| StartsEvent(TrimBlanks(data + more));
      TrimBlanksAppends(data, more);
      if trimmed != "" {
        PrefixesAgree(trimmed, more, if EVENT_TAG <= trimmed + more then EVENT_TAG else DATA_TAG);
      }
    }
  }
}
