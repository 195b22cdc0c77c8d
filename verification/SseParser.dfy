/** The parser object: a line buffer and the data lines of an unfinished event, updated chunk
    by chunk, with the loop that drains complete lines off the buffer. */
module SseParser {
  import opened Sse
  import opened Text

  class Parser {
    var lineBuf: string
    var pendingData: seq<string>

    constructor ()
      ensures Value() == START
    {
      lineBuf := "";
      pendingData := [];
    }

    function Value(): State
      reads this
    {
      State(lineBuf, pendingData)
    }

    method Feed(chunk: string) returns (events: seq<Event>)
      modifies this
      ensures (Value(), events) == Sse.Feed(old(Value()), chunk)
    {
      lineBuf := lineBuf + chunk;
      assert lineBuf + "" == lineBuf;
      events := DrainLines(false);
    }

    method Flush() returns (events: seq<Event>)
      modifies this
      ensures (Value(), events) == Sse.Flush(old(Value()))
    {
      FeedConcat(Value(), "", "\n\n");
      assert "" + "\n\n" == "\n\n";
      ghost var (st, drained) := Sse.Feed(Value(), "");
      FlushShape(st);
      events := DrainLines(true);
      if lineBuf != "" {
        assert false;  // DrainLines has consumed the unterminated line
      }
      var last := FlushData();
      assert last + [] == last && (last == [] ==> events + last == events);
      events := events + last;
    }

    /** Takes complete lines off the buffer until none is left; each iteration shortens it. */
    method DrainLines(flushRemainder: bool) returns (events: seq<Event>)
      modifies this
      ensures var (st, drained) := Sse.Feed(old(Value()), "");
              if flushRemainder && st.lineBuf != ""
              then (Value(), events) == (Sse.Flush(st).0, drained + Sse.Flush(st).1)
              else (Value(), events) == (st, drained)
    {
      events := [];
      ghost var all := FoldLines(pendingData, Lines(lineBuf));
      ghost var rest := Remainder(lineBuf);
      assert lineBuf + "" == lineBuf;
      assert [] + all.1 == all.1;
      while true
        invariant Remainder(lineBuf) == rest
        invariant var (p, e) := FoldLines(pendingData, Lines(lineBuf));
                  all == (p, events + e)
        decreases |lineBuf|
      {
        var idx := IndexOf(lineBuf, '\n');
        if idx < 0 {
          NoLineFeed(lineBuf);
          break;
        }
        FirstLine(lineBuf, idx);
        var line := TrimCR(lineBuf[..idx]);
        assert ([line] + Lines(lineBuf[idx + 1..]))[1..] == Lines(lineBuf[idx + 1..]);
        lineBuf := lineBuf[idx + 1..];
        var more := ProcessLine(line);
        assert events + (more + FoldLines(pendingData, Lines(lineBuf)).1) == events + more + FoldLines(pendingData, Lines(lineBuf)).1;
        events := events + more;
      }
      assert events + [] == events;
      if flushRemainder && lineBuf != "" {
        FlushShape(Value());
        var line := TrimCR(lineBuf);
        lineBuf := "";
        var more := ProcessLine(line);
        var last := FlushData();
        assert events + (more + last) == events + more + last;
        events := events + more + last;
      }
    }

    method ProcessLine(line: string) returns (events: seq<Event>)
      modifies this`pendingData
      ensures (pendingData, events) == OneLine(old(pendingData), line)
    {
      if line == "" {
        events := FlushData();
        return;
      }
      if ":" <= line {
        assert line[0] == ':';
        return [];
      }
      if "data:" <= line {
        var data := TrimSpace(line[|"data:"|..]);
        if data == "[DONE]" {
          return [Done];
        }
        pendingData := pendingData + [data];
      }
      return [];
    }

    method FlushData() returns (events: seq<Event>)
      modifies this`pendingData
      ensures (pendingData, events) == FlushPending(old(pendingData))
    {
      if |pendingData| == 0 {
        return [];
      }
      var data := Join(pendingData, '\n');
      pendingData := [];
      return [Data(data)];
    }
  }
}
