/** The incremental parser of server-sent events (internal/usage/sse), and what it computes:
    the line processor folded over the lines of the whole input. */
module Sse {
  import opened Text

  datatype Event = Done | Data(data: string)

  /** What the parser carries from one chunk to the next. */
  datatype State = State(lineBuf: string, pending: seq<string>)

  const START := State("", [])

  // ---- One line, and a sequence of lines ----

  function FlushPending(pending: seq<string>): (seq<string>, seq<Event>) {
    if pending == [] then ([], []) else ([], [Data(Join(pending, '\n'))])
  }

  function OneLine(pending: seq<string>, line: string): (seq<string>, seq<Event>) {
    if line == "" then FlushPending(pending)
    else if !("data:" <= line) then (pending, [])
    else
      var data := TrimSpace(line[5..]);
      if data == "[DONE]" then (pending, [Done]) else (pending + [data], [])
  }

  /** A left fold of a step that also emits. */
  function Fold<S, L, E>(step: (S, L) -> (S, seq<E>), s: S, inputs: seq<L>): (S, seq<E>)
    decreases inputs
  {
    if inputs == [] then (s, [])
    else
      var (s', emitted) := step(s, inputs[0]);
      var (s'', more) := Fold(step, s', inputs[1..]);
      (s'', emitted + more)
  }

  lemma FoldCons<S, L, E>(step: (S, L) -> (S, seq<E>), s: S, input: L, inputs: seq<L>)
    ensures var (t, e) := step(s, input);
            var (u, f) := Fold(step, t, inputs);
            Fold(step, s, [input] + inputs) == (u, e + f)
  {
    assert ([input] + inputs)[1..] == inputs;
  }

  lemma FoldOne<S, L, E>(step: (S, L) -> (S, seq<E>), s: S, input: L)
    ensures Fold(step, s, [input]) == step(s, input)
  {
    var (t, e) := step(s, input);
    FoldCons(step, s, input, []);
    assert [input] + [] == [input] && e + [] == e;
  }

  lemma {:induction false} FoldConcat<S, L, E>(step: (S, L) -> (S, seq<E>), s: S, inputs: seq<L>, more: seq<L>)
    ensures var (t, e) := Fold(step, s, inputs);
            var (u, f) := Fold(step, t, more);
            Fold(step, s, inputs + more) == (u, e + f)
    decreases inputs
  {
    if inputs == [] {
      assert inputs + more == more;
      assert [] + Fold(step, s, more).1 == Fold(step, s, more).1;
    } else {
      var (s', emitted) := step(s, inputs[0]);
      FoldConcat(step, s', inputs[1..], more);
      var (t, e) := Fold(step, s', inputs[1..]);
      assert (inputs + more)[1..] == inputs[1..] + more;
      assert emitted + (e + Fold(step, t, more).1) == (emitted + e) + Fold(step, t, more).1;
    }
  }

  function FoldLines(pending: seq<string>, lines: seq<string>): (seq<string>, seq<Event>) {
    Fold(OneLine, pending, lines)
  }

  // ---- The lines of a text ----

  function TrimAll(lines: seq<string>): seq<string> {
    seq(|lines|, i requires 0 <= i < |lines| => TrimCR(lines[i]))
  }

  /** The complete lines of a text, each without one trailing carriage return. */
  function Lines(s: string): seq<string> {
    var parts := Split(s, '\n');
    TrimAll(parts[..|parts| - 1])
  }

  /** What follows the last line feed. */
  function Remainder(s: string): (r: string)
    ensures '\n' !in r
  {
    PartsWithout(s, '\n');
    var parts := Split(s, '\n');
    parts[|parts| - 1]
  }

  lemma NoLineFeed(s: string)
    requires '\n' !in s
    ensures Lines(s) == [] && Remainder(s) == s
  {
    SplitWithout(s, '\n');
  }

  lemma FirstLine(s: string, i: nat)
    requires i < |s| && s[i] == '\n' && '\n' !in s[..i]
    ensures Lines(s) == [TrimCR(s[..i])] + Lines(s[i + 1..])
    ensures Remainder(s) == Remainder(s[i + 1..])
  {
    assert s == s[..i] + ['\n'] + s[i + 1..];
    SplitAtFirst(s[..i], '\n', s[i + 1..]);
    var p, q := Split(s, '\n'), Split(s[i + 1..], '\n');
    assert p[..|p| - 1] == [s[..i]] + q[..|q| - 1];
  }

  lemma LinesConcat(a: string, b: string)
    ensures Lines(a + b) == Lines(a) + Lines(Remainder(a) + b)
    ensures Remainder(a + b) == Remainder(Remainder(a) + b)
  {
    SplitConcat(a, b, '\n');
    var p, q := Split(a, '\n'), Split(Remainder(a) + b, '\n');
    assert (p[..|p| - 1] + q)[..|p| - 1 + |q| - 1] == p[..|p| - 1] + q[..|q| - 1];
  }

  // ---- What a chunk does ----

  function Feed(st: State, chunk: string): (State, seq<Event>) {
    var text := st.lineBuf + chunk;
    var (pending, events) := FoldLines(st.pending, Lines(text));
    (State(Remainder(text), pending), events)
  }

  /** Feeding two chunks one after the other is feeding their concatenation, wherever the
      input was cut. */
  lemma FeedConcat(st: State, a: string, b: string)
    ensures var (st1, e1) := Feed(st, a);
            var (st2, e2) := Feed(st1, b);
            Feed(st, a + b) == (st2, e1 + e2)
  {
    var text := st.lineBuf + a;
    var first, second := Lines(text), Lines(Remainder(text) + b);
    assert st.lineBuf + (a + b) == text + b;
    assert Lines(text + b) == first + second && Remainder(text + b) == Remainder(Remainder(text) + b) by {
      LinesConcat(text, b);
    }
    FoldConcat(OneLine, st.pending, first, second);
  }

  function Concat(chunks: seq<string>): string {
    if chunks == [] then "" else chunks[0] + Concat(chunks[1..])
  }

  function FeedAll(st: State, chunks: seq<string>): (State, seq<Event>)
    decreases chunks
  {
    if chunks == [] then (st, [])
    else
      var (st1, e1) := Feed(st, chunks[0]);
      var (st2, e2) := FeedAll(st1, chunks[1..]);
      (st2, e1 + e2)
  }

  /** Hence for every chunking. */
  lemma {:induction false} FeedAnyChunking(st: State, chunks: seq<string>)
    requires '\n' !in st.lineBuf
    ensures FeedAll(st, chunks) == Feed(st, Concat(chunks))
    decreases chunks
  {
    if chunks == [] {
      assert st.lineBuf + "" == st.lineBuf;
      NoLineFeed(st.lineBuf);
    } else {
      FeedAnyChunking(Feed(st, chunks[0]).0, chunks[1..]);
      FeedConcat(st, chunks[0], Concat(chunks[1..]));
    }
  }

  /** What is left when the stream ends: the same as if it had ended in a blank line. */
  function Flush(st: State): (State, seq<Event>) { Feed(st, "\n\n") }

  lemma FlushShape(st: State)
    requires '\n' !in st.lineBuf
    ensures var (p, e) := OneLine(st.pending, TrimCR(st.lineBuf));
            Flush(st) == (START, e + FlushPending(p).1)
  {
    var text := st.lineBuf + "\n\n";
    var i := |st.lineBuf|;
    assert text[..i] == st.lineBuf;
    FirstLine(text, i);
    assert text[i + 1..] == "\n";
    FirstLine("\n", 0);
    NoLineFeed("");
    assert Lines(text) == [TrimCR(st.lineBuf), ""];
    assert [TrimCR(st.lineBuf), ""][1..] == [""];
    var (p, e) := OneLine(st.pending, TrimCR(st.lineBuf));
    assert FoldLines(p, [""]) == (FlushPending(p).0, FlushPending(p).1 + []);
    assert FlushPending(p).1 + [] == FlushPending(p).1;
  }

  /** All events of a stream, including those of its flushed tail. */
  function EventsOf(text: string): seq<Event> {
    var (st, events) := Feed(START, text);
    events + Flush(st).1
  }

  /** They are what the line processor makes of the lines of the whole text, as if it ended in a
      blank line. */
  lemma EventsOfIsOneShot(text: string)
    ensures EventsOf(text) == FoldLines([], Lines(text + "\n\n")).1
  {
    FeedConcat(START, text, "\n\n");
    assert "" + (text + "\n\n") == text + "\n\n";
  }
}
