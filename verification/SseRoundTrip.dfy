/** Printing events and parsing them again. */
module SseRoundTrip {
  import opened Sse
  import opened Text

  /** The lines that stand for an event: a data line for each line of its data, then a blank. */
  function PrintData(parts: seq<string>): seq<string> {
    seq(|parts|, i requires 0 <= i < |parts| => "data: " + parts[i]) + [""]
  }

  function PrintEvent(e: Event): seq<string> {
    match e
    case Done => ["data: [DONE]", ""]
    case Data(data) => PrintData(Split(data, '\n'))
  }

  function Print(events: seq<Event>): seq<string> {
    if events == [] then [] else PrintEvent(events[0]) + Print(events[1..])
  }

  /** A line of data that the parser can return: trimmed, and not the end marker. */
  predicate PrintablePart(part: string) {
    Trimmed(part) && part != "[DONE]"
  }

  predicate Printable(e: Event) {
    e.Data? ==> forall part :: part in Split(e.data, '\n') ==> PrintablePart(part)
  }

  // ---- Data lines ----

  lemma DataLine(pending: seq<string>, part: string)
    ensures OneLine(pending, "data: " + part)
      == if TrimSpace(part) == "[DONE]" then (pending, [Done]) else (pending + [TrimSpace(part)], [])
  {
    assert ("data: " + part)[5..] == " " + part;
    assert "data:" <= "data: " + part;
    TrimSpaceAfterBlank(part);
  }

  /** The blank after the colon makes no difference. */
  lemma NoBlankNeeded(pending: seq<string>, part: string)
    ensures OneLine(pending, "data:" + part) == OneLine(pending, "data: " + part)
  {
    DataLine(pending, part);
    assert ("data:" + part)[5..] == part;
    assert "data:" <= "data:" + part;
  }

  function TrimParts(parts: seq<string>): seq<string> {
    seq(|parts|, i requires 0 <= i < |parts| => TrimSpace(parts[i]))
  }

  /** Parsing the data lines of one event collects their trimmed texts, and the blank line
      joins them. */
  lemma {:induction false} DataLines(pending: seq<string>, parts: seq<string>)
    requires "[DONE]" !in TrimParts(parts)
    requires pending + parts != []
    ensures FoldLines(pending, PrintData(parts)) == ([], [Data(Join(pending + TrimParts(parts), '\n'))])
    decreases parts
  {
    var lines := PrintData(parts);
    if parts == [] {
      assert lines == [""] && pending + TrimParts(parts) == pending;
      FoldOne(OneLine, pending, "");
    } else {
      DataLine(pending, parts[0]);
      assert TrimParts(parts)[0] == TrimSpace(parts[0]);
      assert TrimParts(parts)[1..] == TrimParts(parts[1..]);
      assert lines == ["data: " + parts[0]] + PrintData(parts[1..]);
      FoldCons(OneLine, pending, lines[0], PrintData(parts[1..]));
      DataLines(pending + [TrimSpace(parts[0])], parts[1..]);
      assert [] + FoldLines(pending + [TrimSpace(parts[0])], PrintData(parts[1..])).1
          == FoldLines(pending + [TrimSpace(parts[0])], PrintData(parts[1..])).1;
      assert pending + TrimParts(parts) == pending + [TrimSpace(parts[0])] + TrimParts(parts[1..]);
    }
  }

  lemma {:induction false} JoinShrinks(parts: seq<string>)
    requires parts != []
    ensures |Join(TrimParts(parts), '\n')| <= |Join(parts, '\n')|
    ensures |Join(TrimParts(parts), '\n')| == |Join(parts, '\n')| <==> forall part :: part in parts ==> Trimmed(part)
  {
    TrimSpaceFixedPoint(parts[0]);
    if |parts| > 1 {
      assert TrimParts(parts)[1..] == TrimParts(parts[1..]);
      JoinShrinks(parts[1..]);
      assert forall part :: part in parts <==> part == parts[0] || part in parts[1..];
    }
  }

  lemma TrimPartsOfPrintable(parts: seq<string>)
    requires forall part :: part in parts ==> PrintablePart(part)
    ensures TrimParts(parts) == parts && "[DONE]" !in TrimParts(parts)
  {
    forall i | 0 <= i < |parts| ensures TrimSpace(parts[i]) == parts[i] {
      assert PrintablePart(parts[i]);
      TrimSpaceFixedPoint(parts[i]);
    }
  }

  lemma PrintableEvent(e: Event)
    requires Printable(e)
    ensures FoldLines([], PrintEvent(e)) == ([], [e])
  {
    match e
    case Done =>
      DataLine([], "[DONE]");
      TrimSpaceFixedPoint("[DONE]");
      assert "data: " + "[DONE]" == "data: [DONE]";
      assert PrintEvent(e) == ["data: " + "[DONE]"] + [""];
      FoldCons(OneLine, [], "data: " + "[DONE]", [""]);
      FoldOne(OneLine, [], "");
      assert [Done] + [] == [Done];
    case Data(data) =>
      var parts := Split(data, '\n');
      TrimPartsOfPrintable(parts);
      DataLines([], parts);
      JoinSplit(data, '\n');
      assert [] + TrimParts(parts) == parts;
  }

  /** The end marker is emitted at once, so an event with such a line does not come back. */
  lemma {:induction false} DoneIsEmitted(pending: seq<string>, parts: seq<string>)
    requires "[DONE]" in TrimParts(parts)
    ensures Done in FoldLines(pending, PrintData(parts)).1
    decreases parts
  {
    DataLine(pending, parts[0]);
    var lines := PrintData(parts);
    assert lines == ["data: " + parts[0]] + PrintData(parts[1..]);
    FoldCons(OneLine, pending, lines[0], PrintData(parts[1..]));
    if TrimSpace(parts[0]) != "[DONE]" {
      var i :| 0 <= i < |parts| && TrimParts(parts)[i] == "[DONE]";
      assert TrimParts(parts[1..])[i - 1] == "[DONE]";
      DoneIsEmitted(pending + [TrimSpace(parts[0])], parts[1..]);
    }
  }

  /** One event survives printing and parsing exactly when it is printable. */
  lemma EventRoundTrip(e: Event)
    ensures FoldLines([], PrintEvent(e)) == ([], [e]) <==> Printable(e)
  {
    if Printable(e) {
      PrintableEvent(e);
    } else {
      var parts := Split(e.data, '\n');
      if "[DONE]" in TrimParts(parts) {
        DoneIsEmitted([], parts);
      } else {
        DataLines([], parts);
        assert [] + TrimParts(parts) == TrimParts(parts);
        JoinSplit(e.data, '\n');
        JoinShrinks(parts);
        forall part | part in parts && Trimmed(part) ensures PrintablePart(part) {
          TrimSpaceFixedPoint(part);
          var i :| 0 <= i < |parts| && parts[i] == part;
          assert TrimParts(parts)[i] == part;
        }
      }
    }
  }

  lemma {:induction false} PrintedLines(events: seq<Event>)
    requires forall e :: e in events ==> Printable(e)
    ensures FoldLines([], Print(events)) == ([], events)
  {
    if events != [] {
      EventRoundTrip(events[0]);
      PrintedLines(events[1..]);
      FoldConcat(OneLine, [], PrintEvent(events[0]), Print(events[1..]));
      assert [events[0]] + events[1..] == events;
    }
  }

  // ---- Noise, line ends and chunks ----

  /** A comment, or a field other than data. */
  predicate IsNoise(line: string) {
    line != "" && !("data:" <= line)
  }

  /** `full` is `lines` with noise lines inserted anywhere. */
  predicate WithNoise(full: seq<string>, lines: seq<string>) {
    if full == [] then lines == []
    else
      || (lines != [] && full[0] == lines[0] && WithNoise(full[1..], lines[1..]))
      || (IsNoise(full[0]) && WithNoise(full[1..], lines))
  }

  lemma {:induction false} NoiseIsIgnored(pending: seq<string>, full: seq<string>, lines: seq<string>)
    requires WithNoise(full, lines)
    ensures FoldLines(pending, full) == FoldLines(pending, lines)
    decreases full
  {
    if full != [] {
      var (p, e) := OneLine(pending, full[0]);
      if lines != [] && full[0] == lines[0] && WithNoise(full[1..], lines[1..]) {
        NoiseIsIgnored(p, full[1..], lines[1..]);
      } else {
        NoiseIsIgnored(pending, full[1..], lines);
        assert [] + FoldLines(pending, full[1..]).1 == FoldLines(pending, full[1..]).1;
      }
    }
  }

  /** A line on the wire: its text, and whether it ends in CR LF or in LF alone. */
  datatype WireLine = WireLine(text: string, cr: bool) {
    function Bytes(): string { text + (if cr then "\r\n" else "\n") }

    predicate Valid() { '\n' !in text && (text == "" || text[|text| - 1] != '\r') }
  }

  function WireText(wire: seq<WireLine>): string {
    if wire == [] then "" else wire[0].Bytes() + WireText(wire[1..])
  }

  function Texts(wire: seq<WireLine>): seq<string> {
    seq(|wire|, i requires 0 <= i < |wire| => wire[i].text)
  }

  lemma {:induction false} LinesOfWire(wire: seq<WireLine>)
    requires forall w :: w in wire ==> w.Valid()
    ensures Lines(WireText(wire)) == Texts(wire) && Remainder(WireText(wire)) == ""
  {
    if wire == [] {
      NoLineFeed("");
    } else {
      assert wire[0].Valid();
      var raw := wire[0].text + (if wire[0].cr then "\r" else "");
      var s := WireText(wire);
      assert wire[0].Bytes() == raw + "\n";
      assert s == raw + "\n" + WireText(wire[1..]);
      assert s[..|raw|] == raw && s[|raw| + 1..] == WireText(wire[1..]);
      FirstLine(s, |raw|);
      LinesOfWire(wire[1..]);
      TrimCRExactly(wire[0].text);
      assert raw == if wire[0].cr then wire[0].text + "\r" else wire[0].text;
      assert TrimCR(raw) == wire[0].text;
      assert Texts(wire) == [wire[0].text] + Texts(wire[1..]);
    }
  }

  /** Any printable events, printed with noise lines anywhere and with either line end, and
      cut into any chunks, come back in order, with nothing left over. */
  lemma RoundTrip(events: seq<Event>, wire: seq<WireLine>, chunks: seq<string>)
    requires forall e :: e in events ==> Printable(e)
    requires forall w :: w in wire ==> w.Valid()
    requires WithNoise(Texts(wire), Print(events))
    requires Concat(chunks) == WireText(wire)
    ensures FeedAll(START, chunks) == (START, events)
  {
    FeedAnyChunking(START, chunks);
    assert "" + WireText(wire) == WireText(wire);
    LinesOfWire(wire);
    NoiseIsIgnored([], Texts(wire), Print(events));
    PrintedLines(events);
  }

  // ---- What the parser emits is printable ----

  predicate PendingPart(part: string) {
    PrintablePart(part) && '\n' !in part
  }

  lemma {:induction false} EmittedIsPrintable(pending: seq<string>, lines: seq<string>)
    requires forall part :: part in pending ==> PendingPart(part)
    requires forall line :: line in lines ==> '\n' !in line
    ensures forall part :: part in FoldLines(pending, lines).0 ==> PendingPart(part)
    ensures forall e :: e in FoldLines(pending, lines).1 ==> Printable(e)
    decreases lines
  {
    if lines != [] {
      var line := lines[0];
      var (p, e) := OneLine(pending, line);
      if line == "" && pending != [] {
        SplitJoin(pending, '\n');
      } else if "data:" <= line {
        assert line in lines && '\n' !in line[5..];
        TrimSpaceFixedPoint(line[5..]);
        TrimSpaceFixedPoint(TrimSpace(line[5..]));
        TrimSpaceOnlyRemoves(line[5..], '\n');
      }
      EmittedIsPrintable(p, lines[1..]);
    }
  }

  /** Whatever a stream contains, printing what was parsed and parsing it again gives the same
      events. */
  lemma ParsedEventsRoundTrip(text: string)
    ensures FoldLines([], Print(EventsOf(text))) == ([], EventsOf(text))
  {
    var (st, events) := Feed(START, text);
    assert "" + text == text;
    LinesHaveNoLineFeed(text);
    EmittedIsPrintable([], Lines(text));
    LinesHaveNoLineFeed(st.lineBuf + "\n\n");
    EmittedIsPrintable(st.pending, Lines(st.lineBuf + "\n\n"));
    PrintedLines(EventsOf(text));
  }

  lemma LinesHaveNoLineFeed(s: string)
    ensures forall line :: line in Lines(s) ==> '\n' !in line
  {
    var parts := Split(s, '\n');
    PartsWithout(s, '\n');
    forall i | 0 <= i < |Lines(s)| ensures '\n' !in Lines(s)[i] {
      assert parts[i] in parts;
    }
  }

  /** The end marker, however it is padded, overtakes whatever data is still pending; that comes
      out after it, with the next blank line. */
  lemma DoneOvertakesPendingData(pending: seq<string>, text: string)
    requires pending != [] && TrimSpace(text) == "[DONE]"
    ensures FoldLines(pending, ["data:" + text, ""]) == ([], [Done, Data(Join(pending, '\n'))])
  {
    var line := "data:" + text;
    assert "data:" <= line && line[5..] == text;
    assert OneLine(pending, line) == (pending, [Done]);
    assert OneLine(pending, "") == ([], [Data(Join(pending, '\n'))]);
    FoldOne(OneLine, pending, "");
    FoldCons(OneLine, pending, line, [""]);
    assert [line] + [""] == [line, ""];
    assert [Done] + [Data(Join(pending, '\n'))] == [Done, Data(Join(pending, '\n'))];
  }
}
