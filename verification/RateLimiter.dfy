/** The admin API's sliding-window rate limiter: a slice of admission times per client key,
    compacted in place on every call. */
module RateLimiter {

  // ---- What a call does to the admission times of its key ----

  /** The times after `cutoff`, in order. */
  function After(times: seq<int>, cutoff: int): seq<int> {
    if times == [] then []
    else if times[0] > cutoff then [times[0]] + After(times[1..], cutoff)
    else After(times[1..], cutoff)
  }

  predicate Admits(times: seq<int>, limit: int, window: int, now: int) {
    |After(times, now - window)| < limit
  }

  function Record(times: seq<int>, limit: int, window: int, now: int): seq<int> {
    var kept := After(times, now - window);
    if Admits(times, limit, window, now) then kept + [now] else kept
  }

  lemma {:induction false} AfterConcat(s: seq<int>, t: seq<int>, cutoff: int)
    ensures After(s + t, cutoff) == After(s, cutoff) + After(t, cutoff)
  {
    if s == [] {
      assert s + t == t;
    } else {
      AfterConcat(s[1..], t, cutoff);
      assert (s + t)[0] == s[0] && (s + t)[1..] == s[1..] + t;
      assert [s[0]] + (After(s[1..], cutoff) + After(t, cutoff)) == [s[0]] + After(s[1..], cutoff) + After(t, cutoff);
    }
  }

  /** Of each time after the cutoff all occurrences are kept, and of any other none. */
  lemma {:induction false} AfterExactly(times: seq<int>, cutoff: int, x: int)
    ensures multiset(After(times, cutoff))[x] == if x > cutoff then multiset(times)[x] else 0
  {
    if times != [] {
      AfterExactly(times[1..], cutoff, x);
      assert times == [times[0]] + times[1..];
    }
  }

  // ---- The limiter object ----

  /** A Go slice: the first `len` elements of a backing array. */
  datatype Slice = Slice(data: array<int>, len: nat)

  class RateLimiter {
    const limit: int
    const window: int
    var hits: map<string, Slice>

    ghost predicate Valid()
      reads this, set k | k in hits :: hits[k].data
    {
      && (forall k :: k in hits ==> hits[k].len <= hits[k].data.Length)
      && (forall j, k :: j in hits && k in hits && j != k ==> hits[j].data != hits[k].data)
    }

    /** The stored times of a key. */
    function Times(key: string): seq<int>
      requires Valid()
      reads this, set k | k in hits :: hits[k].data
    {
      if key in hits then hits[key].data[..hits[key].len] else []
    }

    constructor (limit: int, window: int)
      ensures Valid() && hits == map[]
      ensures this.limit == limit && this.window == window
    {
      this.limit, this.window := limit, window;
      hits := map[];
    }

    /** Moves the elements after `cutoff` to the front of the slice, in order. */
    static method Compact(times: array<int>, len: nat, cutoff: int) returns (i: nat)
      requires len <= times.Length
      modifies times
      ensures i <= len && times[..i] == After(old(times[..len]), cutoff)
    {
      ghost var before := times[..len];
      i := 0;
      for n := 0 to len
        invariant i <= n
        invariant times[..i] == After(before[..n], cutoff)
        invariant forall k :: n <= k < len ==> times[k] == before[k]
      {
        var ts := times[n];
        assert before[..n + 1] == before[..n] + [ts];
        AfterConcat(before[..n], [ts], cutoff);
        if ts > cutoff {
          times[i] := ts;
          i := i + 1;
          assert times[..i] == times[..i - 1] + [ts];
        }
      }
      assert before[..len] == before;
    }

    /** append: in place while the array has room, else into a larger one. */
    static method Append(times: array<int>, len: nat, now: int) returns (s: Slice)
      requires len <= times.Length
      modifies times
      ensures s.len == len + 1 <= s.data.Length
      ensures s.data == times || fresh(s.data)
      ensures s.data[..s.len] == old(times[..len]) + [now]
    {
      ghost var before := times[..len];
      var data := times;
      if len == times.Length {
        data := new int[2 * len + 1];
        for k := 0 to len
          invariant data.Length == 2 * len + 1 && fresh(data)
          invariant times[..len] == before && data[..k] == before[..k]
        {
          data[k] := times[k];
          assert data[..k + 1] == data[..k] + [times[k]] && before[..k + 1] == before[..k] + [times[k]];
        }
        assert before[..len] == before;
      }
      assert data[..len] == before;
      data[len] := now;
      assert data[..len] == before && data[..len + 1] == data[..len] + [now];
      s := Slice(data, len + 1);
    }

    /** Storing a slice for `key` whose array no other key uses. */
    method Store(key: string, s: Slice)
      requires Valid() && s.len <= s.data.Length
      requires forall other :: other in hits && other != key ==> hits[other].data != s.data
      modifies this`hits
      ensures Valid()
      ensures hits == old(hits)[key := s]
      ensures Times(key) == s.data[..s.len]
    {
      hits := hits[key := s];
    }

    /** Whether a call of `key` at time `now` is admitted. */
    method Allow(key: string, now: int) returns (ok: bool)
      requires Valid()
      modifies this`hits, if key in hits then {hits[key].data} else {}
      ensures Valid()
      ensures ok == Admits(old(Times(key)), limit, window, now)
      ensures Times(key) == Record(old(Times(key)), limit, window, now)
      ensures forall other :: other != key ==> Times(other) == old(Times(other))
    {
      var cutoff := now - window;
      var times: array<int>;
      var len: nat := 0;
      if key in hits {
        times, len := hits[key].data, hits[key].len;
      } else {
        times := new int[0];
      }
      ghost var kept := After(times[..len], cutoff);
      var i := Compact(times, len, cutoff);
      assert times[..i] == kept;
      if i >= limit {
        Store(key, Slice(times, i));
        ok := false;
      } else {
        var s := Append(times, i, now);
        Store(key, s);
        ok := true;
      }
    }
  }

  // ---- Runs ----

  datatype Call = Call(key: string, now: int)

  /** The stored times of every key after a run. */
  function Run(limit: int, window: int, calls: seq<Call>, key: string): seq<int> {
    if calls == [] then []
    else
      var before, last := calls[..|calls| - 1], calls[|calls| - 1];
      if last.key == key then Record(Run(limit, window, before, key), limit, window, last.now)
      else Run(limit, window, before, key)
  }

  /** The times at which `key` was ever admitted. */
  function Admitted(limit: int, window: int, calls: seq<Call>, key: string): seq<int> {
    if calls == [] then []
    else
      var before, last := calls[..|calls| - 1], calls[|calls| - 1];
      var admitted := Admitted(limit, window, before, key);
      if last.key == key && Admits(Run(limit, window, before, key), limit, window, last.now)
      then admitted + [last.now] else admitted
  }

  /** The clock readings of one key do not go backwards, in the order the lock is taken. */
  ghost predicate ClockNondecreasing(calls: seq<Call>, key: string) {
    forall i, j :: 0 <= i < j < |calls| && calls[i].key == key && calls[j].key == key ==> calls[i].now <= calls[j].now
  }

  lemma EarlierReadings(calls: seq<Call>, key: string)
    requires calls != [] && calls[|calls| - 1].key == key && ClockNondecreasing(calls, key)
    ensures forall c :: c in calls[..|calls| - 1] && c.key == key ==> c.now <= calls[|calls| - 1].now
  {
  }

  lemma {:induction false} AfterAfter(times: seq<int>, c: int, d: int)
    requires c <= d
    ensures After(After(times, c), d) == After(times, d)
  {
    if times != [] {
      AfterAfter(times[1..], c, d);
      if times[0] > c {
        assert ([times[0]] + After(times[1..], c))[1..] == After(times[1..], c);
      }
    }
  }

  /** Nothing is dropped that a later cutoff would keep. */
  lemma {:induction false} KeptFromRun(limit: int, window: int, calls: seq<Call>, key: string, cutoff: int)
    requires forall c :: c in calls && c.key == key ==> c.now - window <= cutoff
    ensures After(Run(limit, window, calls, key), cutoff) == After(Admitted(limit, window, calls, key), cutoff)
    decreases calls
  {
    if calls != [] {
      var before, last := calls[..|calls| - 1], calls[|calls| - 1];
      KeptFromRun(limit, window, before, key, cutoff);
      if last.key == key {
        assert last in calls;
        var stored, admitted := Run(limit, window, before, key), Admitted(limit, window, before, key);
        var added := if Admits(stored, limit, window, last.now) then [last.now] else [];
        AfterAfter(stored, last.now - window, cutoff);
        AfterConcat(After(stored, last.now - window), added, cutoff);
        AfterConcat(admitted, added, cutoff);
        assert Run(limit, window, calls, key) == After(stored, last.now - window) + added;
        assert Admitted(limit, window, calls, key) == admitted + added;
        assert After(stored, cutoff) == After(admitted, cutoff);
      }
    }
  }

  /** At a call whose clock reading is not before any earlier one of its key, the times it
      keeps are the earlier admitted times in its window. */
  lemma KeptIsWindow(limit: int, window: int, calls: seq<Call>, key: string, now: int)
    requires forall c :: c in calls && c.key == key ==> c.now <= now
    ensures After(Run(limit, window, calls, key), now - window) == After(Admitted(limit, window, calls, key), now - window)
  {
    KeptFromRun(limit, window, calls, key, now - window);
  }

  /** After a call, what is stored for its key is exactly the admitted times still in the
      window, in order of admission. */
  lemma StoredIsWindow(limit: int, window: int, calls: seq<Call>, key: string, now: int)
    requires window > 0
    requires forall c :: c in calls && c.key == key ==> c.now <= now
    ensures var all := calls + [Call(key, now)];
            Run(limit, window, all, key) == After(Admitted(limit, window, all, key), now - window)
  {
    KeptIsWindow(limit, window, calls, key, now);
    assert (calls + [Call(key, now)])[..|calls|] == calls;
    var added := if Admits(Run(limit, window, calls, key), limit, window, now) then [now] else [];
    AfterConcat(Admitted(limit, window, calls, key), added, now - window);
    assert After(added, now - window) == added;
    assert Admitted(limit, window, calls + [Call(key, now)], key) == Admitted(limit, window, calls, key) + added;
  }

  /** How many of the times lie in the interval (t - window, t]. */
  function InWindow(times: seq<int>, window: int, t: int): nat {
    if times == [] then 0
    else (if t - window < times[0] <= t then 1 else 0) + InWindow(times[1..], window, t)
  }

  lemma {:induction false} InWindowConcat(s: seq<int>, u: seq<int>, window: int, t: int)
    ensures InWindow(s + u, window, t) == InWindow(s, window, t) + InWindow(u, window, t)
  {
    if s == [] {
      assert s + u == u;
    } else {
      InWindowConcat(s[1..], u, window, t);
      assert (s + u)[1..] == s[1..] + u;
    }
  }

  lemma {:induction false} InWindowIsAfter(times: seq<int>, window: int, now: int)
    requires forall i :: 0 <= i < |times| ==> times[i] <= now
    ensures InWindow(times, window, now) == |After(times, now - window)|
  {
    if times != [] {
      InWindowIsAfter(times[1..], window, now);
    }
  }

  lemma {:induction false} AdmittedAreReadings(limit: int, window: int, calls: seq<Call>, key: string, now: int)
    requires forall c :: c in calls && c.key == key ==> c.now <= now
    ensures forall i :: 0 <= i < |Admitted(limit, window, calls, key)| ==> Admitted(limit, window, calls, key)[i] <= now
  {
    if calls != [] {
      var before, last := calls[..|calls| - 1], calls[|calls| - 1];
      assert last in calls;
      AdmittedAreReadings(limit, window, before, key, now);
    }
  }

  /** A call is refused exactly when at least `limit` calls of its key were already admitted in
      the window that ends with it. */
  lemma RefusedExactlyWhenFull(limit: int, window: int, calls: seq<Call>, key: string, now: int)
    requires forall c :: c in calls && c.key == key ==> c.now <= now
    ensures Admits(Run(limit, window, calls, key), limit, window, now)
      <==> InWindow(Admitted(limit, window, calls, key), window, now) < limit
  {
    KeptIsWindow(limit, window, calls, key, now);
    AdmittedAreReadings(limit, window, calls, key, now);
    InWindowIsAfter(Admitted(limit, window, calls, key), window, now);
  }

  lemma {:induction false} InWindowAtMostAfter(times: seq<int>, window: int, t: int, cutoff: int)
    requires cutoff <= t - window
    ensures InWindow(times, window, t) <= |After(times, cutoff)|
  {
    if times != [] {
      InWindowAtMostAfter(times[1..], window, t, cutoff);
    }
  }

  /** A limiter with a negative limit admits nothing, like one with limit zero. */
  function Cap(limit: int): int {
    if limit < 0 then 0 else limit
  }

  /** A call that is admitted fits into every window, when no earlier reading is later. */
  lemma AdmittedCallFits(limit: int, window: int, before: seq<Call>, key: string, now: int, t: int)
    requires forall c :: c in before && c.key == key ==> c.now <= now
    requires Admits(Run(limit, window, before, key), limit, window, now)
    requires InWindow(Admitted(limit, window, before, key), window, t) <= Cap(limit)
    ensures InWindow(Admitted(limit, window, before, key) + [now], window, t) <= Cap(limit)
  {
    var admitted := Admitted(limit, window, before, key);
    InWindowConcat(admitted, [now], window, t);
    assert InWindow([now], window, t) == if t - window < now <= t then 1 else 0;
    if t - window < now <= t {
      // The window may start after the call's own: count it from the call's cutoff.
      KeptIsWindow(limit, window, before, key, now);
      InWindowAtMostAfter(admitted, window, t, now - window);
    }
  }

  /** No window of any run, wherever it ends, holds more than `limit` admitted calls of a key
      whose clock readings do not go backwards. */
  lemma {:induction false} SlidingWindowBound(limit: int, window: int, calls: seq<Call>, key: string, t: int)
    requires ClockNondecreasing(calls, key)
    ensures InWindow(Admitted(limit, window, calls, key), window, t) <= Cap(limit)
    decreases calls
  {
    if calls != [] {
      var before, last := calls[..|calls| - 1], calls[|calls| - 1];
      assert ClockNondecreasing(before, key);
      SlidingWindowBound(limit, window, before, key, t);
      if last.key == key && Admits(Run(limit, window, before, key), limit, window, last.now) {
        EarlierReadings(calls, key);
        AdmittedCallFits(limit, window, before, key, last.now, t);
      }
    }
  }

  // ---- Without anything known about the clock ----

  lemma {:induction false} NothingAdmitted(limit: int, window: int, calls: seq<Call>, key: string)
    requires limit <= 0
    ensures Admitted(limit, window, calls, key) == []
  {
    if calls != [] {
      NothingAdmitted(limit, window, calls[..|calls| - 1], key);
    }
  }

  lemma {:induction false} EmptyWindow(times: seq<int>, window: int, t: int)
    requires window <= 0
    ensures InWindow(times, window, t) == 0
  {
    if times != [] {
      EmptyWindow(times[1..], window, t);
    }
  }

  lemma {:induction false} NoneInWindow(times: seq<int>, window: int, t: int)
    requires forall i :: 0 <= i < |times| ==> times[i] <= t - window
    ensures InWindow(times, window, t) == 0
  {
    if times != [] {
      NoneInWindow(times[1..], window, t);
    }
  }

  /** What one more call does to a run. */
  lemma RunSnoc(limit: int, window: int, calls: seq<Call>, key: string, now: int)
    ensures Run(limit, window, calls + [Call(key, now)], key) == Record(Run(limit, window, calls, key), limit, window, now)
    ensures Admitted(limit, window, calls + [Call(key, now)], key)
      == Admitted(limit, window, calls, key) + if Admits(Run(limit, window, calls, key), limit, window, now) then [now] else []
  {
    assert (calls + [Call(key, now)])[..|calls|] == calls;
    assert Admitted(limit, window, calls, key) + [] == Admitted(limit, window, calls, key);
  }

  lemma RecordAlone(stored: seq<int>, window: int, now: int)
    requires |stored| <= 1
    ensures Admits(stored, 1, window, now) <==> stored == [] || stored[0] <= now - window
    ensures Record(stored, 1, window, now) == if Admits(stored, 1, window, now) then [now] else stored
  {
    if stored != [] {
      assert stored[1..] == [] && After(stored[1..], now - window) == [];
    }
  }

  /** With limit one the only stored time is the last admitted one, and admitted times are at
      least a window apart, whatever the readings. */
  lemma {:induction false} OneAtATime(window: int, calls: seq<Call>, key: string, t: int)
    requires window > 0
    ensures var stored, admitted := Run(1, window, calls, key), Admitted(1, window, calls, key);
            && (admitted == [] ==> stored == [])
            && (admitted != [] ==> stored == [admitted[|admitted| - 1]])
            && (forall i :: 0 <= i < |admitted| ==> admitted[i] <= admitted[|admitted| - 1])
            && InWindow(admitted, window, t) <= 1
    decreases calls
  {
    if calls != [] {
      var before, last := calls[..|calls| - 1], calls[|calls| - 1];
      OneAtATime(window, before, key, t);
      var stored, admitted := Run(1, window, before, key), Admitted(1, window, before, key);
      if last.key == key {
        assert calls == before + [Call(key, last.now)];
        RunSnoc(1, window, before, key, last.now);
        RecordAlone(stored, window, last.now);
        if Admits(stored, 1, window, last.now) {
          InWindowConcat(admitted, [last.now], window, t);
          assert [] + [last.now] == [last.now];
          assert InWindow([last.now], window, t) == if t - window < last.now <= t then 1 else 0;
          if t - window < last.now <= t {
            NoneInWindow(admitted, window, t);
          }
        }
      }
    }
  }

  /** The first `n` of these calls fill the window that ends with the last; the call after them
      discards them all, and the stale reading that follows is admitted beside them. */
  function StaleCalls(n: nat, window: int, key: string): seq<Call> {
    Repeated(n, Call(key, 0)) + [Call(key, window)] + [Call(key, window - 1)]
  }

  function Repeated<T>(n: nat, x: T): seq<T> {
    if n == 0 then [] else Repeated(n - 1, x) + [x]
  }

  lemma {:induction false} AfterRepeated(n: nat, x: int, cutoff: int)
    ensures After(Repeated(n, x), cutoff) == if x > cutoff then Repeated(n, x) else []
  {
    if n > 0 {
      AfterRepeated(n - 1, x, cutoff);
      AfterConcat(Repeated(n - 1, x), [x], cutoff);
      assert After([x], cutoff) == if x > cutoff then [x] else [];
    }
  }

  lemma {:induction false} RepeatedLength<T>(n: nat, x: T)
    ensures |Repeated(n, x)| == n
  {
    if n > 0 {
      RepeatedLength(n - 1, x);
    }
  }

  lemma {:induction false} RepeatedInWindow(n: nat, x: int, window: int, t: int)
    requires t - window < x <= t
    ensures InWindow(Repeated(n, x), window, t) == n
  {
    if n > 0 {
      RepeatedInWindow(n - 1, x, window, t);
      InWindowConcat(Repeated(n - 1, x), [x], window, t);
      assert InWindow([x], window, t) == 1;
    }
  }

  lemma RecordRepeated(limit: int, window: int, n: nat)
    requires n < limit && window > 0
    ensures Admits(Repeated(n, 0), limit, window, 0)
    ensures Record(Repeated(n, 0), limit, window, 0) == Repeated(n + 1, 0)
  {
    AfterRepeated(n, 0, -window);
    RepeatedLength(n, 0);
  }

  lemma {:induction false} FillWindow(limit: int, window: int, n: nat, key: string)
    requires n <= limit && window > 0
    ensures var calls := Repeated(n, Call(key, 0));
            Run(limit, window, calls, key) == Repeated(n, 0) == Admitted(limit, window, calls, key)
  {
    if n > 0 {
      var before := Repeated(n - 1, Call(key, 0));
      FillWindow(limit, window, n - 1, key);
      RecordRepeated(limit, window, n - 1);
      RunSnoc(limit, window, before, key, 0);
      assert Repeated(n, Call(key, 0)) == before + [Call(key, 0)];
    }
  }

  /** For every limit above one and every window, one stale reading is enough to have more than
      `limit` calls admitted in one window. */
  lemma StaleReadingBreaksBound(limit: int, window: int, key: string)
    requires limit >= 2 && window > 0
    ensures InWindow(Admitted(limit, window, StaleCalls(limit, window, key), key), window, window - 1) == limit + 1
  {
    var fill := Repeated(limit, Call(key, 0));
    FillWindow(limit, window, limit, key);
    AfterRepeated(limit, 0, 0);
    RunSnoc(limit, window, fill, key, window);
    assert Run(limit, window, fill + [Call(key, window)], key) == [window];
    assert After([window], -1) == [window];
    RunSnoc(limit, window, fill + [Call(key, window)], key, window - 1);
    RepeatedInWindow(limit, 0, window, window - 1);
    InWindowConcat(Repeated(limit, 0), [window], window, window - 1);
    InWindowConcat(Repeated(limit, 0) + [window], [window - 1], window, window - 1);
    assert InWindow([window], window, window - 1) == 0 && InWindow([window - 1], window, window - 1) == 1;
  }

  /** So whatever the clock does, the bound holds in every run exactly for limiters that admit
      at most one call at a time, or whose window is empty. */
  lemma BoundWithoutClock(limit: int, window: int)
    ensures (forall calls, key, t :: InWindow(Admitted(limit, window, calls, key), window, t) <= Cap(limit))
      <==> limit <= 1 || window <= 0
  {
    if limit <= 1 || window <= 0 {
      forall calls, key, t ensures InWindow(Admitted(limit, window, calls, key), window, t) <= Cap(limit) {
        if window <= 0 {
          EmptyWindow(Admitted(limit, window, calls, key), window, t);
        } else if limit <= 0 {
          NothingAdmitted(limit, window, calls, key);
        } else {
          OneAtATime(window, calls, key, t);
        }
      }
    } else {
      StaleReadingBreaksBound(limit, window, "k");
    }
  }
}
