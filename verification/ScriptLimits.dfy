/** What the scripts make of numbers that are negative or near the end of the 64-bit range, where
    DECRBY and INCRBY refuse and the exact ledger does not. */
module ScriptLimits {
  import opened Conservation
  import opened Ledger
  import opened LuaNumber
  import opened LuaScripts

  /** An estimate that DECRBY refuses whatever the balance: as a double it is -2^63. */
  predicate Refused(estimate: int) { Double(estimate) <= -TWO63 }

  /** A reserve of such an estimate changes nothing; unless a hold answers it, the script aborts. */
  lemma RefusedReserve(l: Ledger, b: Bucket, id: RequestId, estimate: int)
    requires Refused(estimate)
    ensures LuaNext(l, Reserve(b, id, estimate)) == l
    ensures id !in l.holds && IsInt64(l.Balance(b)) ==> LuaStep(l, Reserve(b, id, estimate)) == (l, Error)
  {
    if l.Balance(b) < -TWO53 && IsInt64(l.Balance(b)) {
      RoundsToLimit(-l.Balance(b));
    }
  }

  /** A script that aborts has changed nothing; it aborts only where Redis refuses a number, or on
      a topup that is not positive. */
  lemma AbortChangesNothing(l: Ledger, op: Op)
    ensures LuaStep(l, op).1.Error? ==> LuaNext(l, op) == l
    ensures LuaStep(l, op).1.Error? && !(op.Topup? && Double(op.amount) <= 0) ==>
      var b := if op.Settle? || op.Release? then l.holds[op.id].bucket else op.bucket;
      var change := match op
        case Reserve(_, _, estimate) => Double(estimate)
        case Settle(id, actual) => Double(Double(actual) - Double(l.holds[id].reserved))
        case Release(id) => Double(l.holds[id].reserved)
        case _ => Double(op.amount);
      !IsInt64(l.Balance(b)) || !(-TWO63 < change < TWO63)
        || !IsInt64(l.Balance(b) - if op.Reserve? || op.Settle? then change else -change)
  {
  }

  lemma LuaExecThree(l: Ledger, x: Op, y: Op, z: Op)
    ensures LuaExec(l, [x, y, z]) == LuaNext(LuaNext(LuaNext(l, x), y), z)
  {
    assert [x, y, z][1..] == [y, z] && [y, z][1..] == [z];
    assert LuaExec(LuaNext(LuaNext(l, x), y), [z]) == LuaExec(LuaNext(LuaNext(LuaNext(l, x), y), z), []);
  }

  /** In the scripts every negative estimate leaves the debt it is rounded to, without a
      settlement, except those that DECRBY refuses. */
  lemma NegativeEstimateInScripts(b: Bucket, id: RequestId, estimate: int)
    requires estimate < 0
    ensures LuaExec(EMPTY, [Reserve(b, id, estimate), SetBalance(b, 0), Release(id)]).Balance(b)
      == if Refused(estimate) then 0 else Double(estimate)
  {
    LuaExecThree(EMPTY, Reserve(b, id, estimate), SetBalance(b, 0), Release(id));
    var l1 := LuaNext(EMPTY, Reserve(b, id, estimate));
    if Refused(estimate) {
      RefusedReserve(EMPTY, b, id, estimate);
    } else {
      DoubleIdempotent(estimate);
      assert l1.holds == map[id := Hold(b, Double(estimate))];
    }
  }

  /** A settlement at a negative usage gives back more than was held, except where the difference
      is one that INCRBY refuses. */
  lemma NegativeUsageInScripts(b: Bucket, id: RequestId, estimate: int, usage: int)
    requires 0 <= estimate <= TWO53 && usage < 0
    ensures var ops := [SetBalance(b, estimate), Reserve(b, id, estimate), Settle(id, usage)];
            var delta := Double(Double(usage) - estimate);
            && LuaExec(EMPTY, ops).Balance(b) == (if delta <= -TWO63 then 0 else -delta)
            && (delta > -TWO63 ==> LuaExec(EMPTY, ops).holds == map[])
  {
    LuaExecThree(EMPTY, SetBalance(b, estimate), Reserve(b, id, estimate), Settle(id, usage));
    var l1 := LuaNext(EMPTY, SetBalance(b, estimate));
    var l2 := LuaNext(l1, Reserve(b, id, estimate));
    assert l2.holds == map[id := Hold(b, estimate)];
    assert l2.holds - {id} == map[];
  }

  // ---- The debt bound, for the scripts ----

  /** The steps of a run without the reserves that are refused. */
  function Effective(ops: seq<Op>): seq<Op> {
    if ops == [] then []
    else if ops[0].Reserve? && Refused(ops[0].estimate) then Effective(ops[1..])
    else [ops[0]] + Effective(ops[1..])
  }

  lemma {:induction false} EffectiveIsEnough(l: Ledger, ops: seq<Op>)
    ensures LuaExec(l, ops) == LuaExec(l, Effective(ops))
    decreases ops
  {
    if ops != [] {
      EffectiveIsEnough(LuaNext(l, ops[0]), ops[1..]);
      if ops[0].Reserve? && Refused(ops[0].estimate) {
        RefusedReserve(l, ops[0].bucket, ops[0].id, ops[0].estimate);
      } else {
        assert ([ops[0]] + Effective(ops[1..]))[1..] == Effective(ops[1..]);
      }
    }
  }

  lemma {:induction false} EffectiveDraws(ops: seq<Op>, estimates: iset<int>, usages: iset<int>)
    requires Drawn(ops, estimates, usages) && NoneNegative(usages)
    requires forall e :: e in estimates ==> e >= 0 || Refused(e)
    ensures AllNonNegative(Effective(ops))
  {
    if ops != [] {
      assert ops[0] in ops && forall op :: op in ops[1..] ==> op in ops;
      EffectiveDraws(ops[1..], estimates, usages);
    }
  }

  ghost predicate ScriptDebtBounded(ops: seq<Op>, b: Bucket) {
    LuaExec(EMPTY, ops).Balance(b) >= -Tally(OverrunOf(b), EMPTY, Effective(ops))
  }

  lemma NegativeEstimateRun(b: Bucket, id: RequestId, estimate: int)
    requires estimate < 0 && !Refused(estimate)
    ensures var ops := [Reserve(b, id, estimate), SetBalance(b, 0), Release(id)];
            Effective(ops) == ops && VolumeBelow(ops, TWO53)
  {
    var ops := [Reserve(b, id, estimate), SetBalance(b, 0), Release(id)];
    assert ops[1..] == [ops[1], ops[2]] && ops[1..][1..] == [ops[2]];
    assert Effective([ops[2]]) == [ops[2]] + [];
    forall c ensures Tally(SupplyTo(c), EMPTY, ops) + Tally(OverrunOf(c), EMPTY, ops) < TWO53 {
      TallyThree(SupplyTo(c), EMPTY, ops[0], ops[1], ops[2]);
      TallyThree(OverrunOf(c), EMPTY, ops[0], ops[1], ops[2]);
    }
  }

  lemma TallyThree(f: (Ledger, Op) -> int, l: Ledger, x: Op, y: Op, z: Op)
    ensures Tally(f, l, [x, y, z]) == f(l, x) + f(Next(l, x), y) + f(Next(Next(l, x), y), z)
  {
    assert [x, y, z][1..] == [y, z] && [y, z][1..] == [z];
    var l2 := Next(Next(l, x), y);
    assert Tally(f, l2, [z]) == f(l2, z) + Tally(f, Next(l2, z), []);
  }

  /** With usages that are not negative and the volume of every bucket below 2^53, no script run
      that draws on these estimates leaves a balance below minus the overruns, exactly if every
      negative one among them is refused. */
  lemma ScriptDebtBoundExactly(estimates: iset<int>, usages: iset<int>)
    requires NoneNegative(usages)
    ensures (forall ops: seq<Op>, b: Bucket ::
              Drawn(ops, estimates, usages) && VolumeBelow(Effective(ops), TWO53) ==> ScriptDebtBounded(ops, b))
      <==> (forall e :: e in estimates ==> e >= 0 || Refused(e))
  {
    if forall e :: e in estimates ==> e >= 0 || Refused(e) {
      forall ops: seq<Op>, b: Bucket | Drawn(ops, estimates, usages) && VolumeBelow(Effective(ops), TWO53)
        ensures ScriptDebtBounded(ops, b)
      {
        EffectiveIsEnough(EMPTY, ops);
        EffectiveDraws(ops, estimates, usages);
        LuaMatchesLedger(Effective(ops));
        DebtBound(Effective(ops), b);
      }
    } else {
      var e :| e in estimates && e < 0 && !Refused(e);
      var ops := [Reserve("b", "r", e), SetBalance("b", 0), Release("r")];
      NegativeEstimateInScripts("b", "r", e);
      NegativeEstimateRun("b", "r", e);
      NegativeEstimateBreaksDebtBound("b", "r", e);
      assert Drawn(ops, estimates, usages) && !ScriptDebtBounded(ops, "b");
    }
  }
}
