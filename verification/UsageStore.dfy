/** The in-memory usage log: events are appended with consecutive ids, and queries scan it
    backward. */
module UsageStore {
  import opened Keys

  datatype UsageEvent = UsageEvent(
    id: int, org: string, bucket: string, requestID: string, reserved: int, actual: int, outcome: string)

  const DEFAULT_LIMIT := 50

  /** The matching events, oldest first. */
  function Matching(events: seq<UsageEvent>, keep: UsageEvent -> bool): seq<UsageEvent> {
    if events == [] then []
    else
      var rest := Matching(events[..|events| - 1], keep);
      if keep(events[|events| - 1]) then rest + [events[|events| - 1]] else rest
  }

  function Reverse<T>(s: seq<T>): seq<T> {
    if s == [] then [] else [s[|s| - 1]] + Reverse(s[..|s| - 1])
  }

  function Take<T>(s: seq<T>, n: nat): seq<T> {
    if n < |s| then s[..n] else s
  }

  /** What a query answers: the matching events, newest first, cut at the limit. */
  function Query(events: seq<UsageEvent>, keep: UsageEvent -> bool, limit: int): seq<UsageEvent> {
    Take(Reverse(Matching(events, keep)), if limit <= 0 then DEFAULT_LIMIT else limit)
  }

  function InBucket(bucket: string): UsageEvent -> bool {
    (e: UsageEvent) => bucket == "" || e.bucket == bucket
  }

  function OfOrg(org: string): UsageEvent -> bool {
    (e: UsageEvent) => e.org == org
  }

  /** The log with one more event, under the next id, on the default organisation if it names
      none. */
  function Appended(events: seq<UsageEvent>, e: UsageEvent): seq<UsageEvent> {
    events + [e.(id := |events| + 1, org := OrgOrDefault(e.org))]
  }

  ghost predicate Numbered(events: seq<UsageEvent>) {
    forall i :: 0 <= i < |events| ==> events[i].id == i + 1
  }

  lemma {:induction false} ReverseLength<T>(s: seq<T>)
    ensures |Reverse(s)| == |s|
  {
    if s != [] {
      ReverseLength(s[..|s| - 1]);
    }
  }

  /** What the backward scan finds among the first `n` events. */
  function Scan(events: seq<UsageEvent>, keep: UsageEvent -> bool, n: nat): seq<UsageEvent>
    requires n <= |events|
  {
    if n == 0 then []
    else
      var rest := Scan(events, keep, n - 1);
      if keep(events[n - 1]) then [events[n - 1]] + rest else rest
  }

  lemma {:induction false} ScanIsReversed(events: seq<UsageEvent>, keep: UsageEvent -> bool, n: nat)
    requires n <= |events|
    ensures Scan(events, keep, n) == Reverse(Matching(events[..n], keep))
  {
    if n > 0 {
      ScanIsReversed(events, keep, n - 1);
      assert events[..n][..n - 1] == events[..n - 1];
      var rest := Matching(events[..n - 1], keep);
      assert (rest + [events[n - 1]])[..|rest|] == rest;
    }
  }

  lemma ScanIsQuery(events: seq<UsageEvent>, keep: UsageEvent -> bool, limit: int)
    ensures Query(events, keep, limit)
      == Take(Scan(events, keep, |events|), if limit <= 0 then DEFAULT_LIMIT else limit)
  {
    ScanIsReversed(events, keep, |events|);
    assert events[..|events|] == events;
  }

  class MemoryUsageStore {
    var nextID: int
    var events: seq<UsageEvent>

    ghost predicate Valid()
      reads this
    {
      nextID == |events| && Numbered(events)
    }

    constructor ()
      ensures Valid() && events == []
    {
      nextID, events := 0, [];
    }

    method InsertUsage(e: UsageEvent)
      requires Valid()
      modifies this
      ensures Valid()
      ensures events == Appended(old(events), e)
      ensures var n := |old(events)|;
              && |events| == n + 1 && events[..n] == old(events)
              && events[n].id == n + 1 && events[n].org == (if e.org == "" then "default" else e.org)
              && events[n].bucket == e.bucket && events[n].requestID == e.requestID
              && events[n].reserved == e.reserved && events[n].actual == e.actual && events[n].outcome == e.outcome
    {
      nextID := nextID + 1;
      var stored := e.(id := nextID);
      if stored.org == "" {
        stored := stored.(org := DEFAULT_ORG);
      }
      events := events + [stored];
    }

    method ListUsage(bucket: string, limit: int) returns (out: seq<UsageEvent>)
      ensures out == Query(events, InBucket(bucket), limit)
    {
      var cut := if limit <= 0 then DEFAULT_LIMIT else limit;
      out := [];
      var i := |events| - 1;
      ScanIsQuery(events, InBucket(bucket), limit);
      while i >= 0 && |out| < cut
        invariant -1 <= i < |events| && |out| <= cut
        invariant Scan(events, InBucket(bucket), |events|) == out + Scan(events, InBucket(bucket), i + 1)
        decreases i
      {
        var e := events[i];
        i := i - 1;
        if bucket != "" && e.bucket != bucket {
          continue;
        }
        assert out + ([e] + Scan(events, InBucket(bucket), i + 1)) == out + [e] + Scan(events, InBucket(bucket), i + 1);
        out := out + [e];
      }
    }

    method ListUsageByOrg(org: string, limit: int) returns (out: seq<UsageEvent>)
      ensures out == Query(events, OfOrg(org), limit)
    {
      var cut := if limit <= 0 then DEFAULT_LIMIT else limit;
      out := [];
      var i := |events| - 1;
      ScanIsQuery(events, OfOrg(org), limit);
      while i >= 0 && |out| < cut
        invariant -1 <= i < |events| && |out| <= cut
        invariant Scan(events, OfOrg(org), |events|) == out + Scan(events, OfOrg(org), i + 1)
        decreases i
      {
        var e := events[i];
        i := i - 1;
        if e.org != org {
          continue;
        }
        assert out + ([e] + Scan(events, OfOrg(org), i + 1)) == out + [e] + Scan(events, OfOrg(org), i + 1);
        out := out + [e];
      }
    }
  }

  // ---- What an answer holds ----

  lemma {:induction false} MatchingExactly(events: seq<UsageEvent>, keep: UsageEvent -> bool, e: UsageEvent)
    ensures e in Matching(events, keep) <==> e in events && keep(e)
  {
    if events != [] {
      var n := |events| - 1;
      MatchingExactly(events[..n], keep, e);
      assert events == events[..n] + [events[n]];
    }
  }

  lemma {:induction false} MatchingIncreasing(events: seq<UsageEvent>, keep: UsageEvent -> bool)
    requires Numbered(events)
    ensures forall i, j :: 0 <= i < j < |Matching(events, keep)| ==> Matching(events, keep)[i].id < Matching(events, keep)[j].id
    ensures forall e :: e in Matching(events, keep) ==> e.id <= |events|
  {
    if events != [] {
      MatchingIncreasing(events[..|events| - 1], keep);
    }
  }

  lemma {:induction false} ReverseAt<T>(s: seq<T>, i: nat)
    requires i < |s|
    ensures |Reverse(s)| == |s| && Reverse(s)[i] == s[|s| - 1 - i]
  {
    ReverseLength(s);
    if i > 0 {
      ReverseAt(s[..|s| - 1], i - 1);
    }
  }

  /** An answer is made of the latest matching events, latest first. */
  lemma QueryShape(events: seq<UsageEvent>, keep: UsageEvent -> bool, limit: int)
    ensures var all, out := Matching(events, keep), Query(events, keep, limit);
            && |out| <= |all|
            && (|out| < |all| ==> |out| == if limit <= 0 then DEFAULT_LIMIT else limit)
            && |out| <= (if limit <= 0 then DEFAULT_LIMIT else limit)
            && (forall i :: 0 <= i < |out| ==> out[i] == all[|all| - 1 - i])
  {
    var all := Matching(events, keep);
    ReverseLength(all);
    forall i | 0 <= i < |all| ensures Reverse(all)[i] == all[|all| - 1 - i] {
      ReverseAt(all, i);
    }
  }

  lemma LateMatchIsAnswered(events: seq<UsageEvent>, keep: UsageEvent -> bool, limit: int, k: nat)
    requires k < |Matching(events, keep)| && |Matching(events, keep)| - 1 - k < |Query(events, keep, limit)|
    ensures Matching(events, keep)[k] in Query(events, keep, limit)
  {
    QueryShape(events, keep, limit);
    assert Query(events, keep, limit)[|Matching(events, keep)| - 1 - k] == Matching(events, keep)[k];
  }

  /** A matching event that an answer leaves out is older than everything in it. */
  lemma LeftOutIsOlder(events: seq<UsageEvent>, keep: UsageEvent -> bool, limit: int, e: UsageEvent, i: nat)
    requires Numbered(events) && e in events && keep(e) && e !in Query(events, keep, limit)
    ensures |Query(events, keep, limit)| == if limit <= 0 then DEFAULT_LIMIT else limit
    ensures i < |Query(events, keep, limit)| ==> Query(events, keep, limit)[i].id > e.id
  {
    var all, out := Matching(events, keep), Query(events, keep, limit);
    QueryShape(events, keep, limit);
    MatchingIncreasing(events, keep);
    MatchingExactly(events, keep, e);
    var k :| 0 <= k < |all| && all[k] == e;
    if |all| - 1 - k < |out| {
      LateMatchIsAnswered(events, keep, limit, k);
    }
  }

  lemma AnswerIsLogged(events: seq<UsageEvent>, keep: UsageEvent -> bool, limit: int, i: nat)
    requires i < |Query(events, keep, limit)|
    ensures Query(events, keep, limit)[i] in events && keep(Query(events, keep, limit)[i])
  {
    QueryShape(events, keep, limit);
    var all := Matching(events, keep);
    assert Query(events, keep, limit)[i] == all[|all| - 1 - i];
    MatchingExactly(events, keep, all[|all| - 1 - i]);
  }

  /** Every event of an answer is a logged event that matches; ids strictly fall, so nothing is
      repeated; the limit is kept; and what is missing is older than everything answered. */
  lemma QueryNewestFirst(events: seq<UsageEvent>, keep: UsageEvent -> bool, limit: int)
    requires Numbered(events)
    ensures var out := Query(events, keep, limit);
            && (forall i :: 0 <= i < |out| ==> out[i] in events && keep(out[i]))
            && (forall i, j :: 0 <= i < j < |out| ==> out[i].id > out[j].id)
            && |out| <= (if limit <= 0 then DEFAULT_LIMIT else limit)
            && (forall e, i :: e in events && keep(e) && e !in out && 0 <= i < |out| ==> out[i].id > e.id)
            && (forall e :: e in events && keep(e) && e !in out ==> |out| == if limit <= 0 then DEFAULT_LIMIT else limit)
  {
    var out := Query(events, keep, limit);
    QueryShape(events, keep, limit);
    MatchingIncreasing(events, keep);
    forall i | 0 <= i < |out| ensures out[i] in events && keep(out[i]) {
      AnswerIsLogged(events, keep, limit, i);
    }
    forall e, i | e in events && keep(e) && e !in out && 0 <= i < |out| ensures out[i].id > e.id {
      LeftOutIsOlder(events, keep, limit, e, i);
    }
    forall e | e in events && keep(e) && e !in out ensures |out| == if limit <= 0 then DEFAULT_LIMIT else limit {
      LeftOutIsOlder(events, keep, limit, e, 0);
    }
  }

  /** The answer for a bucket, or without one for all: events of that bucket only, at most the limit
      or 50, and short of that all of them. */
  lemma BucketAnswer(events: seq<UsageEvent>, bucket: string, limit: int)
    requires Numbered(events)
    ensures var out, cut := Query(events, InBucket(bucket), limit), if limit <= 0 then 50 else limit;
            && |out| <= cut
            && (forall i :: 0 <= i < |out| ==> out[i] in events && (bucket == "" || out[i].bucket == bucket))
            && (|out| < cut ==> forall e :: e in events && (bucket == "" || e.bucket == bucket) ==> e in out)
  {
    QueryNewestFirst(events, InBucket(bucket), limit);
  }

  /** And for an organisation. */
  lemma OrgAnswer(events: seq<UsageEvent>, org: string, limit: int)
    requires Numbered(events)
    ensures var out, cut := Query(events, OfOrg(org), limit), if limit <= 0 then 50 else limit;
            && |out| <= cut
            && (forall i :: 0 <= i < |out| ==> out[i] in events && out[i].org == org)
            && (|out| < cut ==> forall e :: e in events && e.org == org ==> e in out)
  {
    QueryNewestFirst(events, OfOrg(org), limit);
  }
}
