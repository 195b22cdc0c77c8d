/** Go's string helpers, on strings of bytes: a char stands for one byte. */
module Text {

  /** The bytes that TrimSpace removes (ASCII). */
  predicate IsSpace(c: char) {
    c == ' ' || '\t' <= c <= '\r'
  }

  /** They are tab, line feed, vertical tab, form feed, carriage return and space. */
  lemma SpacesAre(c: char)
    ensures IsSpace(c) <==> c as int in {9, 10, 11, 12, 13, 32}
  {
  }

  predicate AllSpace(s: string) {
    forall i :: 0 <= i < |s| ==> IsSpace(s[i])
  }

  function TrimLeft(s: string): string {
    if s != "" && IsSpace(s[0]) then TrimLeft(s[1..]) else s
  }

  function TrimRight(s: string): string {
    if s != "" && IsSpace(s[|s| - 1]) then TrimRight(s[..|s| - 1]) else s
  }

  function TrimSpace(s: string): string { TrimRight(TrimLeft(s)) }

  predicate Trimmed(s: string) {
    s == "" || (!IsSpace(s[0]) && !IsSpace(s[|s| - 1]))
  }

  /** A fixed point exactly on trimmed strings, and shorter on all others. */
  lemma TrimSpaceFixedPoint(s: string)
    ensures Trimmed(TrimSpace(s))
    ensures |TrimSpace(s)| <= |s|
    ensures TrimSpace(s) == s <==> Trimmed(s)
    ensures |TrimSpace(s)| == |s| <==> Trimmed(s)
  {
    var _ := TrimLeftShape(s);
    TrimRightShape(TrimLeft(s));
  }

  lemma {:induction false} TrimLeftShape(s: string) returns (k: nat)
    ensures k <= |s| && TrimLeft(s) == s[k..]
    ensures k < |s| ==> !IsSpace(s[k])
    ensures k == 0 <==> (s == "" || !IsSpace(s[0]))
    ensures AllSpace(s[..k])
  {
    k := 0;
    if s != "" && IsSpace(s[0]) {
      k := TrimLeftShape(s[1..]);
      assert s[..k + 1] == [s[0]] + s[1..][..k];
      assert s[1..][k..] == s[k + 1..];
      k := k + 1;
    }
  }

  lemma {:induction false} TrimRightShape(s: string)
    ensures TrimRight(s) <= s
    ensures TrimRight(s) != "" ==> !IsSpace(TrimRight(s)[|TrimRight(s)| - 1])
    ensures |TrimRight(s)| == |s| <==> (s == "" || !IsSpace(s[|s| - 1]))
    ensures AllSpace(s[|TrimRight(s)|..])
  {
    if s != "" && IsSpace(s[|s| - 1]) {
      TrimRightShape(s[..|s| - 1]);
      var k := |TrimRight(s)|;
      assert s[k..] == s[..|s| - 1][k..] + [s[|s| - 1]];
    }
  }

  /** What is trimmed away on either side is all space, and what is left neither starts nor ends
      with space. */
  lemma TrimSpaceExactly(s: string) returns (left: string, right: string)
    ensures s == left + TrimSpace(s) + right && AllSpace(left) && AllSpace(right) && Trimmed(TrimSpace(s))
  {
    TrimSpaceFixedPoint(s);
    var k := TrimLeftShape(s);
    TrimRightShape(s[k..]);
    var n := |TrimSpace(s)|;
    left, right := s[..k], s[k..][n..];
    assert s[k..] == s[k..][..n] + right;
    assert s == left + s[k..];
  }

  /** No byte appears that was not there. */
  lemma TrimSpaceOnlyRemoves(s: string, c: char)
    requires c !in s
    ensures c !in TrimSpace(s)
  {
    var _ := TrimLeftShape(s);
    TrimRightShape(TrimLeft(s));
  }

  lemma TrimSpaceAfterBlank(s: string)
    ensures TrimSpace(" " + s) == TrimSpace(s)
  {
    assert (" " + s)[1..] == s;
  }

  /** strings.TrimSuffix(s, "\r"): at most one carriage return goes. */
  function TrimCR(s: string): string {
    if s != "" && s[|s| - 1] == '\r' then s[..|s| - 1] else s
  }

  /** One trailing carriage return goes; text that does not end in one stays as it is. */
  lemma TrimCRExactly(s: string)
    ensures TrimCR(s + "\r") == s
    ensures s == "" || s[|s| - 1] != '\r' ==> TrimCR(s) == s
  {
  }

  /** The first index of `c`, or -1. */
  function IndexOf(s: string, c: char): (i: int)
    ensures -1 <= i < |s|
    ensures i >= 0 ==> s[i] == c && c !in s[..i]
    ensures i < 0 <==> c !in s
  {
    if s == "" then -1
    else if s[0] == c then 0
    else
      var rest := IndexOf(s[1..], c);
      assert s == [s[0]] + s[1..];
      assert rest >= 0 ==> s[..rest + 1] == [s[0]] + s[1..][..rest];
      if rest < 0 then -1 else rest + 1
  }

  /** The parts between occurrences of `c`; one more than there are occurrences. */
  function Split(s: string, c: char): (parts: seq<string>)
    ensures |parts| > 0
  {
    if s == "" then [""]
    else
      var rest := Split(s[1..], c);
      if s[0] == c then [""] + rest else [[s[0]] + rest[0]] + rest[1..]
  }

  lemma {:induction false} PartsWithout(s: string, c: char)
    ensures forall part :: part in Split(s, c) ==> c !in part
  {
    if s != "" {
      PartsWithout(s[1..], c);
    }
  }

  function Join(parts: seq<string>, c: char): string {
    if parts == [] then "" else if |parts| == 1 then parts[0] else parts[0] + [c] + Join(parts[1..], c)
  }

  /** Splitting loses nothing. */
  lemma {:induction false} JoinSplit(s: string, c: char)
    ensures Join(Split(s, c), c) == s
  {
    if s != "" {
      JoinSplit(s[1..], c);
      var rest := Split(s[1..], c);
      if s[0] == c {
        assert ([""] + rest)[1..] == rest;
      } else if |rest| > 1 {
        assert ([[s[0]] + rest[0]] + rest[1..])[1..] == rest[1..];
      }
    }
  }

  lemma {:induction false} SplitWithout(s: string, c: char)
    requires c !in s
    ensures Split(s, c) == [s]
  {
    if s != "" {
      SplitWithout(s[1..], c);
      assert s == [s[0]] + s[1..];
    }
  }

  lemma {:induction false} SplitAtFirst(before: string, c: char, after: string)
    requires c !in before
    ensures Split(before + [c] + after, c) == [before] + Split(after, c)
  {
    var s := before + [c] + after;
    if before == "" {
      assert s[1..] == after;
    } else {
      SplitAtFirst(before[1..], c, after);
      assert before == [before[0]] + before[1..];
      assert ([before[1..]] + Split(after, c))[1..] == Split(after, c);
      assert s[1..] == before[1..] + [c] + after;
    }
  }

  lemma {:induction false} SplitJoin(parts: seq<string>, c: char)
    requires parts != [] && forall part :: part in parts ==> c !in part
    ensures Split(Join(parts, c), c) == parts
  {
    assert parts[0] in parts;
    if |parts| == 1 {
      SplitWithout(parts[0], c);
    } else {
      SplitJoin(parts[1..], c);
      SplitAtFirst(parts[0], c, Join(parts[1..], c));
    }
  }

  function Front<T>(s: seq<T>): seq<T>
    requires s != []
  {
    s[..|s| - 1]
  }

  function Last<T>(s: seq<T>): T
    requires s != []
  {
    s[|s| - 1]
  }

  lemma JoinCons(first: string, rest: seq<string>, tail: string, c: char)
    requires rest != []
    ensures Join([first] + rest, c) + tail == first + [c] + (Join(rest, c) + tail)
  {
    assert ([first] + rest)[1..] == rest;
  }

  lemma FrontCons<T>(first: T, rest: seq<T>, more: seq<T>)
    requires rest != []
    ensures Front([first] + rest) + more == [first] + (Front(rest) + more) && Last([first] + rest) == Last(rest)
  {
  }

  /** Text that follows joined parts continues the last of them. */
  lemma {:induction false} SplitJoined(parts: seq<string>, tail: string, c: char)
    requires parts != [] && forall part :: part in parts ==> c !in part
    ensures Split(Join(parts, c) + tail, c) == Front(parts) + Split(Last(parts) + tail, c)
    decreases |parts|
  {
    if |parts| == 1 {
      assert Front(parts) == [];
    } else {
      var first, rest := parts[0], parts[1..];
      assert parts == [first] + rest && first in parts;
      SplitJoined(rest, tail, c);
      SplitAtFirst(first, c, Join(rest, c) + tail);
      JoinCons(first, rest, tail, c);
      FrontCons(first, rest, Split(Last(rest) + tail, c));
    }
  }

  /** Splitting a concatenation: the last part of the first half is where the two meet. */
  lemma SplitConcat(a: string, b: string, c: char)
    ensures Split(a + b, c) == Front(Split(a, c)) + Split(Last(Split(a, c)) + b, c)
  {
    PartsWithout(a, c);
    JoinSplit(a, c);
    SplitJoined(Split(a, c), b, c);
  }
}
