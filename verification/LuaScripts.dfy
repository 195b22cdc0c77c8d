/** The four scripts as they compute: every number a script reads goes through a double, and
    Redis refuses an INCRBY or DECRBY whose argument, stored value or result is outside the 64-bit
    range, which aborts the script before it has written anything. */
module LuaScripts {
  import opened Conservation
  import opened Ledger
  import opened LuaNumber

  /** What INCRBY accepts. */
  predicate CanIncr(l: Ledger, b: Bucket, amount: int) {
    IsInt64(l.Balance(b)) && IsInt64(amount) && IsInt64(l.Balance(b) + amount)
  }

  /** What DECRBY accepts; it negates its argument, so that may not be the smallest int64. */
  predicate CanDecr(l: Ledger, b: Bucket, amount: int) {
    IsInt64(l.Balance(b)) && -TWO63 < amount < TWO63 && IsInt64(l.Balance(b) - amount)
  }

  function LuaStep(l: Ledger, op: Op): (Ledger, Reply) {
    match op
    case Reserve(b, id, estimate) =>
      if id in l.holds then
        (l, Reserved(true, Double(l.holds[id].reserved), Double(l.Balance(l.holds[id].bucket))))
      else if Double(l.Balance(b)) >= Double(estimate) then
        var l' := l.Add(b, -Double(estimate));
        if !CanDecr(l, b, Double(estimate)) then (l, Error)
        else (l'.(holds := l'.holds[id := Hold(b, Double(estimate))]),
              Reserved(true, Double(estimate), Double(l'.Balance(b))))
      else
        (l, Reserved(false, 0, Double(l.Balance(b))))
    case Settle(id, actual) =>
      if id !in l.holds then (l, Finished(0))
      else SettleBy(l, id, Double(Double(actual) - Double(l.holds[id].reserved)))
    case Release(id) =>
      if id !in l.holds then (l, Finished(0))
      else
        var reserved := Double(l.holds[id].reserved);
        var l' := l.Add(l.holds[id].bucket, reserved);
        if !CanIncr(l, l.holds[id].bucket, reserved) then (l, Error) else (l'.Drop(id), Finished(reserved))
    case SetBalance(b, value) =>
      (l.(balances := l.balances[b := Double(value)]), NewBalance(Double(value)))
    case Topup(b, amount) =>
      if Double(amount) <= 0 then (l, Error)
      else
        var l' := l.Add(b, Double(amount));
        if !CanIncr(l, b, Double(amount)) then (l, Error) else (l', NewBalance(Double(l'.Balance(b))))
    case Expire(id) =>
      (l.Drop(id), Finished(0))
  }

  /** The end of a settlement that differs by `delta` from its hold. */
  function SettleBy(l: Ledger, id: RequestId, delta: int): (Ledger, Reply)
    requires id in l.holds
  {
    var b := l.holds[id].bucket;
    if delta > 0 && !CanDecr(l, b, delta) then (l, Error)
    else if delta < 0 && !CanIncr(l, b, -delta) then (l, Error)
    else ((if delta == 0 then l else l.Add(b, -delta)).Drop(id), Finished(delta))
  }

  function LuaNext(l: Ledger, op: Op): Ledger { LuaStep(l, op).0 }

  function LuaExec(l: Ledger, ops: seq<Op>): Ledger
    decreases ops
  {
    if ops == [] then l else LuaExec(LuaNext(l, ops[0]), ops[1..])
  }

  /** Every number of the state is small enough to be a double. */
  ghost predicate Small(l: Ledger) {
    && (forall b :: -TWO53 < l.Balance(b) < TWO53)
    && (forall id :: id in l.holds ==> 0 <= l.holds[id].reserved < TWO53)
  }

  /** The amount an administrator or a settlement brings in is small enough too; nothing is
      asked of the estimate of a reserve. */
  predicate SmallInput(l: Ledger, op: Op) {
    match op
    case Settle(id, actual) => id in l.holds ==> 0 <= actual < TWO53
    case SetBalance(_, value) => 0 <= value < TWO53
    case Topup(_, amount) => amount < TWO53
    case Reserve(_, _, estimate) => estimate >= 0
    case _ => true
  }

  /** On small numbers a script's step is the ledger's step, reply included. */
  lemma LuaStepExact(l: Ledger, op: Op)
    requires Small(l) && Small(Next(l, op)) && SmallInput(l, op)
    ensures LuaStep(l, op) == Step(l, op)
  {
    var b := match op
      case Settle(id, _) => if id in l.holds then l.holds[id].bucket else ""
      case Release(id) => if id in l.holds then l.holds[id].bucket else ""
      case Expire(_) => ""
      case _ => op.bucket;
    assert -TWO53 < l.Balance(b) < TWO53 && -TWO53 < Next(l, op).Balance(b) < TWO53;
  }

  /** Tallies of non-negative quantities only grow along a run. */
  lemma PrefixTallies(ops: seq<Op>, i: nat, b: Bucket)
    requires i <= |ops|
    requires AllNonNegative(ops)
    ensures 0 <= Tally(SupplyTo(b), EMPTY, ops[..i]) <= Tally(SupplyTo(b), EMPTY, ops)
    ensures 0 <= Tally(OverrunOf(b), EMPTY, ops[..i]) <= Tally(OverrunOf(b), EMPTY, ops)
  {
    assert ops == ops[..i] + ops[i..];
    TallyAppend(SupplyTo(b), EMPTY, ops[..i], ops[i..]);
    TallyAppend(OverrunOf(b), EMPTY, ops[..i], ops[i..]);
    TalliesNonNegative(EMPTY, ops[..i], b);
    TalliesNonNegative(Exec(EMPTY, ops[..i]), ops[i..], b);
  }

  lemma {:induction false} TalliesNonNegative(l: Ledger, ops: seq<Op>, b: Bucket)
    requires AllNonNegative(ops)
    ensures Tally(SupplyTo(b), l, ops) >= 0 && Tally(OverrunOf(b), l, ops) >= 0
    decreases ops
  {
    if ops != [] {
      assert NonNegative(ops[0]);
      TalliesNonNegative(Next(l, ops[0]), ops[1..], b);
    }
  }

  /** What was ever supplied to each bucket, plus the overruns on it, stays below a limit. */
  ghost predicate VolumeBelow(ops: seq<Op>, limit: int) {
    forall b :: Tally(SupplyTo(b), EMPTY, ops) + Tally(OverrunOf(b), EMPTY, ops) < limit
  }

  ghost predicate BoundedVolume(ops: seq<Op>) { VolumeBelow(ops, TWO53) }

  lemma ReachableIsSmall(ops: seq<Op>, i: nat)
    requires i <= |ops|
    requires AllNonNegative(ops)
    requires BoundedVolume(ops)
    ensures Small(Exec(EMPTY, ops[..i]))
  {
    var l := Exec(EMPTY, ops[..i]);
    forall b
      ensures -TWO53 < l.Balance(b) < TWO53
      ensures HoldsNonNegative(l)
      ensures forall id :: l.Live(id, b) ==> l.holds[id].reserved < TWO53
    {
      PrefixTallies(ops, i, b);
      SupplyBound(ops[..i], b);
      DebtBound(ops[..i], b);
      SupplyBoundFrom(EMPTY, ops[..i], b, 0);
      HeldNonNegative(l, b);
    }
    forall id | id in l.holds ensures 0 <= l.holds[id].reserved < TWO53 {
      assert l.Live(id, l.holds[id].bucket);
      PrefixTallies(ops, i, l.holds[id].bucket);
      SupplyBoundFrom(EMPTY, ops[..i], l.holds[id].bucket, 0);
      HeldNonNegative(l, l.holds[id].bucket);
    }
  }

  lemma InputIsSmall(ops: seq<Op>, i: nat)
    requires i < |ops|
    requires AllNonNegative(ops)
    requires BoundedVolume(ops)
    ensures SmallInput(Exec(EMPTY, ops[..i]), ops[i])
  {
    var l, op := Exec(EMPTY, ops[..i]), ops[i];
    assert NonNegative(op);
    assert ops[..i + 1] == ops[..i] + [op];
    var b := if op.SetBalance? || op.Topup? then op.bucket
             else if op.Settle? && op.id in l.holds then l.holds[op.id].bucket else "";
    PrefixTallies(ops, i, b);
    PrefixTallies(ops, i + 1, b);
    TallyAppend(SupplyTo(b), EMPTY, ops[..i], [op]);
    TallyAppend(OverrunOf(b), EMPTY, ops[..i], [op]);
    assert Tally(SupplyTo(b), l, [op]) == SupplyTo(b)(l, op);
    assert Tally(OverrunOf(b), l, [op]) == OverrunOf(b)(l, op);
    if op.Settle? && op.id in l.holds {
      assert l.Live(op.id, b);
      SupplyBoundFrom(EMPTY, ops[..i], b, 0);
      HeldNonNegative(l, b);
    }
  }

  lemma {:induction false} SameStepsSameRun(l: Ledger, ops: seq<Op>)
    requires forall i :: 0 <= i < |ops| ==> LuaStep(Exec(l, ops[..i]), ops[i]) == Step(Exec(l, ops[..i]), ops[i])
    ensures LuaExec(l, ops) == Exec(l, ops)
    decreases ops
  {
    if ops != [] {
      assert ops[..0] == [];
      assert LuaStep(Exec(l, ops[..0]), ops[0]) == Step(l, ops[0]);
      forall i | 0 <= i < |ops[1..]|
        ensures LuaStep(Exec(Next(l, ops[0]), ops[1..][..i]), ops[1..][i])
             == Step(Exec(Next(l, ops[0]), ops[1..][..i]), ops[1..][i])
      {
        assert ops[..i + 1][1..] == ops[1..][..i];
        assert Exec(l, ops[..i + 1]) == Exec(Next(l, ops[0]), ops[1..][..i]);
      }
      SameStepsSameRun(Next(l, ops[0]), ops[1..]);
    }
  }

  /** As long as the volume of a bucket stays below 2^53, the scripts compute the exact
      ledger: the same states and the same replies at every step of every run. */
  lemma LuaMatchesLedger(ops: seq<Op>)
    requires AllNonNegative(ops)
    requires BoundedVolume(ops)
    ensures LuaExec(EMPTY, ops) == Exec(EMPTY, ops)
    ensures forall i :: 0 <= i < |ops| ==>
      LuaStep(Exec(EMPTY, ops[..i]), ops[i]) == Step(Exec(EMPTY, ops[..i]), ops[i])
  {
    forall i | 0 <= i < |ops|
      ensures LuaStep(Exec(EMPTY, ops[..i]), ops[i]) == Step(Exec(EMPTY, ops[..i]), ops[i])
    {
      ReachableIsSmall(ops, i);
      ReachableIsSmall(ops, i + 1);
      InputIsSmall(ops, i);
      assert ops[..i + 1] == ops[..i] + [ops[i]];
      ExecAppend(EMPTY, ops[..i], [ops[i]]);
      assert Exec(Exec(EMPTY, ops[..i]), [ops[i]]) == Next(Exec(EMPTY, ops[..i]), ops[i]);
      LuaStepExact(Exec(EMPTY, ops[..i]), ops[i]);
    }
    SameStepsSameRun(EMPTY, ops);
  }

  /** A bucket supplied with 2^53 grants a reserve of one more: rounded, the estimate is the
      balance.  The exact ledger refuses it. */
  lemma LuaGrantsTooMuchAtLimit(b: Bucket)
    ensures var ops := [SetBalance(b, TWO53), Reserve(b, "r", TWO53 + 1)];
            && AllNonNegative(ops) && VolumeBelow(ops, TWO53 + 1)
            && LuaExec(EMPTY, ops).Balance(b) == 0 && Exec(EMPTY, ops).Balance(b) == TWO53
  {
    var ops := [SetBalance(b, TWO53), Reserve(b, "r", TWO53 + 1)];
    DoubleInexactAboveLimit();
    assert ops[1..] == [ops[1]];
    var l := Next(EMPTY, ops[0]);
    assert LuaNext(EMPTY, ops[0]) == l && Next(l, ops[1]) == l;
    assert LuaExec(l, [ops[1]]) == LuaExec(LuaNext(l, ops[1]), []);
    assert Exec(l, [ops[1]]) == Exec(l, []);
    forall c ensures Tally(SupplyTo(c), EMPTY, ops) + Tally(OverrunOf(c), EMPTY, ops) < TWO53 + 1 {
      assert Tally(SupplyTo(c), l, [ops[1]]) == 0 == Tally(OverrunOf(c), l, [ops[1]]);
    }
  }

  /** 2^53 is exactly the limit: all runs of volume below `limit` are exact if and only if it is
      not above 2^53. */
  lemma VolumeLimitIsTight(limit: int)
    ensures (forall ops :: AllNonNegative(ops) && VolumeBelow(ops, limit) ==> LuaExec(EMPTY, ops) == Exec(EMPTY, ops))
      <==> limit <= TWO53
  {
    if limit <= TWO53 {
      forall ops | AllNonNegative(ops) && VolumeBelow(ops, limit) ensures LuaExec(EMPTY, ops) == Exec(EMPTY, ops) {
        LuaMatchesLedger(ops);
      }
    } else {
      LuaGrantsTooMuchAtLimit("b");
      var ops := [SetBalance("b", TWO53), Reserve("b", "r", TWO53 + 1)];
      assert VolumeBelow(ops, limit);
    }
  }
}
