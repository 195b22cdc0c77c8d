/** The wrappers around a response body that decide at what amount a request is settled:
    streamTap for event streams and settlingReader for JSON.  A body is a series of calls,
    each a Read that delivered some bytes, a Read refused because the request was cancelled,
    or a Close. */
module BodyTap {
  import opened Sse
  import opened SseParser
  import opened Wrappers

  datatype Call = Read(bytes: string, eof: bool) | CancelledRead | Close

  datatype Settlement = Settlement(outcome: string, actual: int)

  /** A provider's extractor: the token total in some data, if there is one. */
  type Extractor = string -> Option<int>

  // ---- What the outcome should be, from the calls alone ----

  /** How a body came to its end: cut off, or after all these bytes. */
  datatype Ending = Cancelled | Complete(bytes: string)

  /** The first call that ends the body decides, with the bytes delivered up to it. */
  function FirstEnding(calls: seq<Call>, seen: string): Option<Ending>
    decreases calls
  {
    if calls == [] then None
    else match calls[0]
      case CancelledRead => Some(Cancelled)
      case Close => Some(Complete(seen))
      case Read(bytes, eof) =>
        if eof then Some(Complete(seen + bytes)) else FirstEnding(calls[1..], seen + bytes)
  }

  /** The total of the last event that carries usage. */
  function LastUsage(extract: Extractor, events: seq<Event>, before: Option<int>): Option<int>
    decreases events
  {
    if events == [] then before
    else
      var found := if events[0].Done? then None else extract(events[0].data);
      LastUsage(extract, events[1..], if found.Some? then found else before)
  }

  lemma {:induction false} LastUsageConcat(extract: Extractor, events: seq<Event>, more: seq<Event>, before: Option<int>)
    ensures LastUsage(extract, events + more, before) == LastUsage(extract, more, LastUsage(extract, events, before))
    decreases events
  {
    if events == [] {
      assert events + more == more;
    } else {
      var found := if events[0].Done? then None else extract(events[0].data);
      LastUsageConcat(extract, events[1..], more, if found.Some? then found else before);
      assert (events + more)[1..] == events[1..] + more;
    }
  }

  // ---- What the last usage is, without the recursion ----

  /** Event `i` carries the total `u`. */
  predicate UsageAt(extract: Extractor, events: seq<Event>, i: nat, u: int)
    requires i < |events|
  {
    events[i].Data? && extract(events[i].data) == Some(u)
  }

  /** No event from `from` on carries usage. */
  predicate NoUsageFrom(extract: Extractor, events: seq<Event>, from: nat) {
    forall i :: from <= i < |events| && events[i].Data? ==> extract(events[i].data).None?
  }

  /** Some event carries the total `u`, and none after it carries any. */
  predicate EndsWithUsage(extract: Extractor, events: seq<Event>, u: int) {
    exists i :: 0 <= i < |events| && UsageAt(extract, events, i, u) && NoUsageFrom(extract, events, i + 1)
  }

  lemma {:induction false} LastUsageOfNone(extract: Extractor, events: seq<Event>, before: Option<int>)
    requires NoUsageFrom(extract, events, 0)
    ensures LastUsage(extract, events, before) == before
    decreases events
  {
    if events != [] {
      assert forall i :: 0 <= i < |events[1..]| ==> events[1..][i] == events[i + 1];
      LastUsageOfNone(extract, events[1..], before);
    }
  }

  lemma LastUsageAt(extract: Extractor, events: seq<Event>, i: nat, u: int, before: Option<int>)
    requires i < |events| && UsageAt(extract, events, i, u) && NoUsageFrom(extract, events, i + 1)
    ensures LastUsage(extract, events, before) == Some(u)
  {
    var after := events[i + 1..];
    assert events == events[..i] + ([events[i]] + after);
    LastUsageConcat(extract, events[..i], [events[i]] + after, before);
    assert ([events[i]] + after)[1..] == after;
    assert forall j :: 0 <= j < |after| ==> after[j] == events[i + 1 + j];
    LastUsageOfNone(extract, after, Some(u));
  }

  /** The latest event with usage, if there is any. */
  lemma {:induction false} FindLastUsage(extract: Extractor, events: seq<Event>) returns (i: nat)
    requires !NoUsageFrom(extract, events, 0)
    ensures i < |events| && events[i].Data? && extract(events[i].data).Some? && NoUsageFrom(extract, events, i + 1)
  {
    var n := |events| - 1;
    if events[n].Data? && extract(events[n].data).Some? {
      i := n;
    } else {
      var k :| 0 <= k < |events| && events[k].Data? && extract(events[k].data).Some?;
      assert k < n && events[..n][k] == events[k];
      i := FindLastUsage(extract, events[..n]);
      assert events[..n][i] == events[i];
      assert forall j :: 0 <= j < n ==> events[..n][j] == events[j];
    }
  }

  /** The last usage is the total of an event after which no event carries usage; there is none
      exactly when no event carries usage. */
  lemma LastUsageExactly(extract: Extractor, events: seq<Event>, u: int)
    ensures LastUsage(extract, events, None) == Some(u) <==> EndsWithUsage(extract, events, u)
    ensures LastUsage(extract, events, None) == None <==> NoUsageFrom(extract, events, 0)
  {
    if NoUsageFrom(extract, events, 0) {
      LastUsageOfNone(extract, events, None);
    } else {
      var i := FindLastUsage(extract, events);
      var found := extract(events[i].data).value;
      assert UsageAt(extract, events, i, found);
      LastUsageAt(extract, events, i, found, None);
      if EndsWithUsage(extract, events, u) {
        var k :| 0 <= k < |events| && UsageAt(extract, events, k, u) && NoUsageFrom(extract, events, k + 1);
        LastUsageAt(extract, events, k, u, None);
      }
    }
  }

  function SettledAt(usage: Option<int>, reserved: int): Settlement {
    match usage
    case Some(total) => Settlement("settled", total)
    case None => Settlement("missing_usage", reserved)
  }

  /** A stream is settled at its last usage, flushed tail included, a JSON body at the usage it
      holds as a whole; either at the reserved amount when there is none or it was cut off. */
  function StreamSettlement(extract: Extractor, reserved: int, ending: Ending): Settlement {
    match ending
    case Cancelled => Settlement("disconnected", reserved)
    case Complete(bytes) => SettledAt(LastUsage(extract, EventsOf(bytes), None), reserved)
  }

  function JsonSettlement(extract: Extractor, reserved: int, ending: Ending): Settlement {
    match ending
    case Cancelled => Settlement("disconnected", reserved)
    case Complete(bytes) => SettledAt(extract(bytes), reserved)
  }

  // ---- streamTap ----

  datatype Tap = Tap(parser: State, usage: Option<int>, fired: bool, settlements: seq<Settlement>, missing: nat)

  const FRESH_TAP := Tap(START, None, false, [], 0)

  function Absorb(extract: Extractor, t: Tap, events: seq<Event>): Tap {
    t.(usage := LastUsage(extract, events, t.usage))
  }

  function Finish(extract: Extractor, reserved: int, t: Tap): Tap {
    if t.fired then t
    else
      var (parser, events) := Sse.Flush(t.parser);
      var t' := Absorb(extract, t.(parser := parser, fired := true), events);
      t'.(settlements := t.settlements + [SettledAt(t'.usage, reserved)],
          missing := t.missing + if t'.usage.None? then 1 else 0)
  }

  function TapStep(extract: Extractor, reserved: int, t: Tap, call: Call): Tap {
    match call
    case CancelledRead =>
      if t.fired then t
      else t.(fired := true, settlements := t.settlements + [Settlement("disconnected", reserved)])
    case Read(bytes, eof) =>
      var (parser, events) := Sse.Feed(t.parser, bytes);
      var t' := if bytes == "" then t else Absorb(extract, t.(parser := parser), events);
      if eof then Finish(extract, reserved, t') else t'
    case Close => Finish(extract, reserved, t)
  }

  function TapRun(extract: Extractor, reserved: int, t: Tap, calls: seq<Call>): Tap
    decreases calls
  {
    if calls == [] then t else TapRun(extract, reserved, TapStep(extract, reserved, t, calls[0]), calls[1..])
  }

  class StreamTap {
    const parser: Parser
    const extract: Extractor
    const reserved: int
    var once: bool
    var lastUsage: int
    var hasUsage: bool
    var sawDone: bool
    var missingUsage: nat
    /** The settlements started so far. */
    var settlements: seq<Settlement>

    constructor (extract: Extractor, reserved: int)
      ensures Value() == FRESH_TAP && fresh(parser)
      ensures this.extract == extract && this.reserved == reserved
    {
      this.extract, this.reserved := extract, reserved;
      parser := new Parser();
      once, hasUsage, sawDone, lastUsage := false, false, false, 0;
      missingUsage, settlements := 0, [];
    }

    function Value(): Tap
      reads this, parser
    {
      Tap(parser.Value(), if hasUsage then Some(lastUsage) else None, once, settlements, missingUsage)
    }

    /** `upstream` is what the underlying Read delivers, with or without io.EOF. */
    method Read(cancelled: bool, upstream: string, eof: bool) returns (forwarded: string)
      modifies this, parser
      ensures forwarded == if cancelled then "" else upstream
      ensures Value() == TapStep(extract, reserved, old(Value()),
                                 if cancelled then CancelledRead else Call.Read(upstream, eof))
    {
      if cancelled {
        TriggerSettle("disconnected", reserved);
        return "";
      }
      if |upstream| > 0 {
        var events := parser.Feed(upstream);
        ProcessEvents(events);
      }
      if eof {
        FinishAfterStream();
      }
      return upstream;
    }

    method Close()
      modifies this, parser
      ensures Value() == TapStep(extract, reserved, old(Value()), Call.Close)
    {
      FinishAfterStream();
    }

    method ProcessEvents(events: seq<Event>)
      modifies this`lastUsage, this`hasUsage, this`sawDone
      ensures Value() == Absorb(extract, old(Value()), events)
      ensures sawDone <==> old(sawDone) || Done in events
    {
      ghost var before := Value().usage;
      for i := 0 to |events|
        invariant LastUsage(extract, events, before) == LastUsage(extract, events[i..], Value().usage)
        invariant sawDone <==> old(sawDone) || Done in events[..i]
      {
        var ev := events[i];
        assert events[..i + 1] == events[..i] + [ev];
        if ev.Done? {
          sawDone := true;
          continue;
        }
        var found := extract(ev.data);
        if found.Some? {
          lastUsage, hasUsage := found.value, true;
        }
      }
    }

    method FinishAfterStream()
      modifies this, parser
      ensures Value() == Finish(extract, reserved, old(Value()))
    {
      if once {
        return;
      }
      once := true;
      var events := parser.Flush();
      ProcessEvents(events);
      if hasUsage {
        settlements := settlements + [Settlement("settled", lastUsage)];
        return;
      }
      missingUsage := missingUsage + 1;
      settlements := settlements + [Settlement("missing_usage", reserved)];
    }

    method TriggerSettle(outcome: string, actual: int)
      modifies this
      ensures Value() == old(if once then Value()
        else Value().(fired := true, settlements := settlements + [Settlement(outcome, actual)]))
    {
      if !once {
        once := true;
        settlements := settlements + [Settlement(outcome, actual)];
      }
    }
  }

  lemma {:induction false} FiredTapIsFinal(extract: Extractor, reserved: int, t: Tap, calls: seq<Call>)
    requires t.fired
    ensures var t' := TapRun(extract, reserved, t, calls);
            t'.fired && t'.settlements == t.settlements && t'.missing == t.missing
    decreases calls
  {
    if calls != [] {
      FiredTapIsFinal(extract, reserved, TapStep(extract, reserved, t, calls[0]), calls[1..]);
    }
  }

  /** The tap after the bytes `seen`, when nothing has ended the body yet. */
  function OpenTap(extract: Extractor, seen: string): Tap {
    var (parser, events) := Sse.Feed(START, seen);
    FRESH_TAP.(parser := parser, usage := LastUsage(extract, events, None))
  }

  lemma OpenTapReads(extract: Extractor, reserved: int, seen: string, bytes: string)
    ensures TapStep(extract, reserved, OpenTap(extract, seen), Read(bytes, false)) == OpenTap(extract, seen + bytes)
  {
    if bytes == "" {
      assert seen + bytes == seen;
    } else {
      FeedConcat(START, seen, bytes);
      LastUsageConcat(extract, Sse.Feed(START, seen).1, Sse.Feed(Sse.Feed(START, seen).0, bytes).1, None);
    }
  }

  lemma OpenTapFinishes(extract: Extractor, reserved: int, seen: string)
    ensures var t := Finish(extract, reserved, OpenTap(extract, seen));
            && t.fired
            && t.settlements == [StreamSettlement(extract, reserved, Complete(seen))]
            && t.missing == if LastUsage(extract, EventsOf(seen), None).None? then 1 else 0
  {
    LastUsageConcat(extract, Sse.Feed(START, seen).1, Sse.Flush(Sse.Feed(START, seen).0).1, None);
  }

  lemma {:induction false} TapSettlesFrom(extract: Extractor, reserved: int, seen: string, calls: seq<Call>)
    ensures TapRun(extract, reserved, OpenTap(extract, seen), calls).settlements
      == match FirstEnding(calls, seen)
         case None => []
         case Some(ending) => [StreamSettlement(extract, reserved, ending)]
    decreases calls
  {
    if calls != [] {
      var t := OpenTap(extract, seen);
      var t' := TapStep(extract, reserved, t, calls[0]);
      match calls[0]
      case CancelledRead =>
        FiredTapIsFinal(extract, reserved, t', calls[1..]);
      case Close =>
        OpenTapFinishes(extract, reserved, seen);
        FiredTapIsFinal(extract, reserved, t', calls[1..]);
      case Read(bytes, eof) =>
        OpenTapReads(extract, reserved, seen, bytes);
        if eof {
          OpenTapFinishes(extract, reserved, seen + bytes);
          FiredTapIsFinal(extract, reserved, t', calls[1..]);
        } else {
          TapSettlesFrom(extract, reserved, seen + bytes, calls[1..]);
        }
    }
  }

  /** For every series of calls the tap starts at most one settlement: none until a call ends
      the body, and then the one that the bytes delivered up to that call determine. */
  lemma TapSettlesOnce(extract: Extractor, reserved: int, calls: seq<Call>)
    ensures TapRun(extract, reserved, FRESH_TAP, calls).settlements
      == match FirstEnding(calls, "")
         case None => []
         case Some(ending) => [StreamSettlement(extract, reserved, ending)]
  {
    assert "" + "" == "";
    NoLineFeed("");
    assert OpenTap(extract, "") == FRESH_TAP;
    TapSettlesFrom(extract, reserved, "", calls);
  }

  function Reads(chunks: seq<string>): seq<Call> {
    seq(|chunks|, i requires 0 <= i < |chunks| => Read(chunks[i], false))
  }

  lemma {:induction false} EndingAfterReads(chunks: seq<string>, last: string, after: seq<Call>, seen: string)
    ensures FirstEnding(Reads(chunks) + [Read(last, true)] + after, seen) == Some(Complete(seen + Concat(chunks) + last))
    decreases chunks
  {
    var calls := Reads(chunks) + [Read(last, true)] + after;
    if chunks == [] {
      assert calls[0] == Read(last, true);
      assert seen + Concat(chunks) == seen;
    } else {
      assert calls[0] == Read(chunks[0], false);
      assert calls[1..] == Reads(chunks[1..]) + [Read(last, true)] + after;
      EndingAfterReads(chunks[1..], last, after, seen + chunks[0]);
      assert seen + chunks[0] + Concat(chunks[1..]) == seen + Concat(chunks);
    }
  }

  /** However an event stream is cut into Reads, and whatever is called after its end, an
      uncancelled stream is settled exactly once, at an amount that depends on its bytes only. */
  lemma StreamAmountIgnoresChunking(extract: Extractor, reserved: int, chunks: seq<string>, last: string, after: seq<Call>)
    ensures var events := EventsOf(Concat(chunks) + last);
            var settlements := TapRun(extract, reserved, FRESH_TAP, Reads(chunks) + [Read(last, true)] + after).settlements;
            && settlements == [SettledAt(LastUsage(extract, events, None), reserved)]
            && (forall u :: EndsWithUsage(extract, events, u) ==> settlements == [Settlement("settled", u)])
            && (NoUsageFrom(extract, events, 0) ==> settlements == [Settlement("missing_usage", reserved)])
  {
    EndingAfterReads(chunks, last, after, "");
    assert "" + Concat(chunks) == Concat(chunks);
    TapSettlesOnce(extract, reserved, Reads(chunks) + [Read(last, true)] + after);
    StreamSettledAt(extract, reserved, EventsOf(Concat(chunks) + last));
  }

  lemma StreamSettledAt(extract: Extractor, reserved: int, events: seq<Event>)
    ensures var s := SettledAt(LastUsage(extract, events, None), reserved);
            && (forall u :: EndsWithUsage(extract, events, u) ==> s == Settlement("settled", u))
            && (NoUsageFrom(extract, events, 0) ==> s == Settlement("missing_usage", reserved))
  {
    LastUsageExactly(extract, events, 0);
    forall u | EndsWithUsage(extract, events, u) ensures LastUsage(extract, events, None) == Some(u) {
      LastUsageExactly(extract, events, u);
    }
  }

  /** A stream that is closed before its end is settled likewise, at what was read so far. */
  lemma ClosedStreamSettles(extract: Extractor, reserved: int, chunks: seq<string>, after: seq<Call>)
    ensures var events := EventsOf(Concat(chunks));
            var settlements := TapRun(extract, reserved, FRESH_TAP, Reads(chunks) + [Close] + after).settlements;
            && (forall u :: EndsWithUsage(extract, events, u) ==> settlements == [Settlement("settled", u)])
            && (NoUsageFrom(extract, events, 0) ==> settlements == [Settlement("missing_usage", reserved)])
  {
    CloseEnding(chunks, after, "");
    assert "" + Concat(chunks) == Concat(chunks);
    TapSettlesOnce(extract, reserved, Reads(chunks) + [Close] + after);
    StreamSettledAt(extract, reserved, EventsOf(Concat(chunks)));
  }

  lemma {:induction false} CloseEnding(chunks: seq<string>, after: seq<Call>, seen: string)
    ensures FirstEnding(Reads(chunks) + [Close] + after, seen) == Some(Complete(seen + Concat(chunks)))
    decreases chunks
  {
    var calls := Reads(chunks) + [Close] + after;
    if chunks == [] {
      assert calls[0] == Close;
      assert seen + Concat(chunks) == seen;
    } else {
      assert calls[0] == Read(chunks[0], false);
      assert calls[1..] == Reads(chunks[1..]) + [Close] + after;
      CloseEnding(chunks[1..], after, seen + chunks[0]);
      assert seen + chunks[0] + Concat(chunks[1..]) == seen + Concat(chunks);
    }
  }

  /** A Read refused after usage was already seen still settles at the reserved amount. */
  lemma CancelForgetsUsage(extract: Extractor, reserved: int, chunks: seq<string>, after: seq<Call>)
    ensures TapRun(extract, reserved, FRESH_TAP, Reads(chunks) + [CancelledRead] + after).settlements
      == [Settlement("disconnected", reserved)]
  {
    CancelEnding(chunks, after, "");
    TapSettlesOnce(extract, reserved, Reads(chunks) + [CancelledRead] + after);
  }

  lemma {:induction false} CancelEnding(chunks: seq<string>, after: seq<Call>, seen: string)
    ensures FirstEnding(Reads(chunks) + [CancelledRead] + after, seen) == Some(Cancelled)
    decreases chunks
  {
    var calls := Reads(chunks) + [CancelledRead] + after;
    if chunks == [] {
      assert calls[0] == CancelledRead;
    } else {
      assert calls[0] == Read(chunks[0], false);
      assert calls[1..] == Reads(chunks[1..]) + [CancelledRead] + after;
      CancelEnding(chunks[1..], after, seen + chunks[0]);
    }
  }

  // ---- settlingReader ----

  datatype Buffered = Buffered(buf: string, fired: bool, settlements: seq<Settlement>, missing: nat)

  const FRESH_READER := Buffered("", false, [], 0)

  function FinalizeAt(r: Buffered, s: Settlement): Buffered {
    if r.fired then r
    else r.(fired := true, settlements := r.settlements + [s],
            missing := r.missing + if s.outcome == "missing_usage" then 1 else 0)
  }

  function ReaderStep(extract: Extractor, reserved: int, r: Buffered, call: Call): Buffered {
    match call
    case CancelledRead => FinalizeAt(r, Settlement("disconnected", reserved))
    case Read(bytes, eof) =>
      var r' := r.(buf := r.buf + bytes);
      if eof then FinalizeAt(r', SettledAt(extract(r'.buf), reserved)) else r'
    case Close => FinalizeAt(r, SettledAt(extract(r.buf), reserved))
  }

  function ReaderRun(extract: Extractor, reserved: int, r: Buffered, calls: seq<Call>): Buffered
    decreases calls
  {
    if calls == [] then r else ReaderRun(extract, reserved, ReaderStep(extract, reserved, r, calls[0]), calls[1..])
  }

  class SettlingReader {
    const extract: Extractor
    const reserved: int
    var buf: string
    var once: bool
    var missingUsage: nat
    var settlements: seq<Settlement>

    constructor (extract: Extractor, reserved: int)
      ensures Value() == FRESH_READER
      ensures this.extract == extract && this.reserved == reserved
    {
      this.extract, this.reserved := extract, reserved;
      buf, once, missingUsage, settlements := "", false, 0, [];
    }

    function Value(): Buffered
      reads this
    {
      Buffered(buf, once, settlements, missingUsage)
    }

    method Read(cancelled: bool, upstream: string, eof: bool) returns (forwarded: string)
      modifies this
      ensures forwarded == if cancelled then "" else upstream
      ensures Value() == ReaderStep(extract, reserved, old(Value()),
                                    if cancelled then CancelledRead else Call.Read(upstream, eof))
    {
      if cancelled {
        Finalize("disconnected", reserved, false);
        return "";
      }
      buf := buf + upstream;
      if eof {
        FinalizeFromBody();
      }
      return upstream;
    }

    method Close()
      modifies this
      ensures Value() == ReaderStep(extract, reserved, old(Value()), Call.Close)
    {
      FinalizeFromBody();
    }

    method FinalizeFromBody()
      modifies this
      ensures Value() == FinalizeAt(old(Value()), SettledAt(extract(old(buf)), reserved))
    {
      var usage := extract(buf);
      if usage.None? {
        Finalize("missing_usage", reserved, true);
        return;
      }
      Finalize("settled", usage.value, false);
    }

    method Finalize(outcome: string, actual: int, countMissing: bool)
      requires countMissing <==> outcome == "missing_usage"
      modifies this
      ensures Value() == FinalizeAt(old(Value()), Settlement(outcome, actual))
    {
      if once {
        return;
      }
      once := true;
      if countMissing {
        missingUsage := missingUsage + 1;
      }
      settlements := settlements + [Settlement(outcome, actual)];
    }
  }

  lemma {:induction false} FiredReaderIsFinal(extract: Extractor, reserved: int, r: Buffered, calls: seq<Call>)
    requires r.fired
    ensures ReaderRun(extract, reserved, r, calls).settlements == r.settlements
    decreases calls
  {
    if calls != [] {
      FiredReaderIsFinal(extract, reserved, ReaderStep(extract, reserved, r, calls[0]), calls[1..]);
    }
  }

  lemma {:induction false} ReaderSettlesFrom(extract: Extractor, reserved: int, seen: string, calls: seq<Call>)
    ensures ReaderRun(extract, reserved, FRESH_READER.(buf := seen), calls).settlements
      == match FirstEnding(calls, seen)
         case None => []
         case Some(ending) => [JsonSettlement(extract, reserved, ending)]
    decreases calls
  {
    if calls != [] {
      var r' := ReaderStep(extract, reserved, FRESH_READER.(buf := seen), calls[0]);
      if r'.fired {
        FiredReaderIsFinal(extract, reserved, r', calls[1..]);
      } else {
        ReaderSettlesFrom(extract, reserved, seen + calls[0].bytes, calls[1..]);
      }
    }
  }

  /** The JSON wrapper likewise: at most one settlement, determined by how the body first ended
      and by the whole of the bytes delivered by then. */
  lemma ReaderSettlesOnce(extract: Extractor, reserved: int, calls: seq<Call>)
    ensures ReaderRun(extract, reserved, FRESH_READER, calls).settlements
      == match FirstEnding(calls, "")
         case None => []
         case Some(ending) => [JsonSettlement(extract, reserved, ending)]
  {
    ReaderSettlesFrom(extract, reserved, "", calls);
  }

  /** However a JSON body is cut into Reads, and whatever is called after its end, it is settled
      once: at the usage it holds as a whole, or at the reserved amount and counted as missing. */
  lemma JsonAmountIgnoresChunking(extract: Extractor, reserved: int, chunks: seq<string>, last: string, after: seq<Call>)
    ensures var body := Concat(chunks) + last;
            ReaderRun(extract, reserved, FRESH_READER, Reads(chunks) + [Read(last, true)] + after).settlements
              == match extract(body)
                 case Some(total) => [Settlement("settled", total)]
                 case None => [Settlement("missing_usage", reserved)]
  {
    EndingAfterReads(chunks, last, after, "");
    assert "" + Concat(chunks) == Concat(chunks);
    ReaderSettlesOnce(extract, reserved, Reads(chunks) + [Read(last, true)] + after);
  }

  /** Cut off, it is settled at the reserved amount. */
  lemma CancelledBodySettles(extract: Extractor, reserved: int, chunks: seq<string>, after: seq<Call>)
    ensures ReaderRun(extract, reserved, FRESH_READER, Reads(chunks) + [CancelledRead] + after).settlements
      == [Settlement("disconnected", reserved)]
  {
    CancelEnding(chunks, after, "");
    ReaderSettlesOnce(extract, reserved, Reads(chunks) + [CancelledRead] + after);
  }

  /** The settlements for want of usage. */
  function Missing(settlements: seq<Settlement>): nat {
    if settlements == [] then 0
    else
      var n := |settlements| - 1;
      Missing(settlements[..n]) + if settlements[n].outcome == "missing_usage" then 1 else 0
  }

  lemma MissingSnoc(settlements: seq<Settlement>, s: Settlement)
    ensures Missing(settlements + [s]) == Missing(settlements) + if s.outcome == "missing_usage" then 1 else 0
  {
    assert (settlements + [s])[..|settlements|] == settlements;
  }

  /** A missing usage is counted exactly when a body is settled as such. */
  lemma {:induction false} MissingIsCounted(extract: Extractor, reserved: int, r: Buffered, calls: seq<Call>)
    requires r.missing == Missing(r.settlements)
    ensures ReaderRun(extract, reserved, r, calls).missing == Missing(ReaderRun(extract, reserved, r, calls).settlements)
    decreases calls
  {
    if calls != [] {
      var r' := ReaderStep(extract, reserved, r, calls[0]);
      if r'.settlements != r.settlements {
        MissingSnoc(r.settlements, r'.settlements[|r.settlements|]);
      }
      MissingIsCounted(extract, reserved, r', calls[1..]);
    }
  }

  lemma FinishCounts(extract: Extractor, reserved: int, t: Tap)
    requires t.missing == Missing(t.settlements)
    ensures Finish(extract, reserved, t).missing == Missing(Finish(extract, reserved, t).settlements)
  {
    var t' := Finish(extract, reserved, t);
    if !t.fired {
      MissingSnoc(t.settlements, SettledAt(t'.usage, reserved));
    }
  }

  lemma {:induction false} MissingIsCountedByTap(extract: Extractor, reserved: int, t: Tap, calls: seq<Call>)
    requires t.missing == Missing(t.settlements)
    ensures TapRun(extract, reserved, t, calls).missing == Missing(TapRun(extract, reserved, t, calls).settlements)
    decreases calls
  {
    if calls != [] {
      StepCounts(extract, reserved, t, calls[0]);
      MissingIsCountedByTap(extract, reserved, TapStep(extract, reserved, t, calls[0]), calls[1..]);
    }
  }

  lemma StepCounts(extract: Extractor, reserved: int, t: Tap, call: Call)
    requires t.missing == Missing(t.settlements)
    ensures TapStep(extract, reserved, t, call).missing == Missing(TapStep(extract, reserved, t, call).settlements)
  {
    match call
    case CancelledRead => MissingSnoc(t.settlements, Settlement("disconnected", reserved));
    case Close => FinishCounts(extract, reserved, t);
    case Read(bytes, eof) =>
      if eof {
        var (parser, events) := Sse.Feed(t.parser, bytes);
        FinishCounts(extract, reserved, if bytes == "" then t else Absorb(extract, t.(parser := parser), events));
      }
  }
}
