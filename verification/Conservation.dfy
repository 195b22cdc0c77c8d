/** Conservation, debt and supply bounds over every run of the ledger. */
module Conservation {
  import opened Ledger
  import opened MapSum

  lemma DropHeld(l: Ledger, id: RequestId, b: Bucket)
    ensures Held(l.Drop(id), b) == Held(l, b) - (if l.Live(id, b) then l.holds[id].reserved else 0)
  {
    if id in l.holds {
      SumRemove(l.holds, ReservedOn(b), id);
    } else {
      assert l.holds - {id} == l.holds;
    }
  }

  /** How one step moves the sum of the live holds on `b`. */
  lemma StepHeld(l: Ledger, op: Op, b: Bucket)
    ensures Held(Next(l, op), b) == Held(l, b)
      + (if op.Reserve? && op.bucket == b && op.id !in l.holds && l.Balance(b) >= op.estimate then op.estimate else 0)
      - (if (op.Settle? || op.Release? || op.Expire?) && l.Live(op.id, b) then l.holds[op.id].reserved else 0)
  {
    match op
    case Reserve(_, id, estimate) =>
      if id !in l.holds {
        SumInsert(l.holds, ReservedOn(b), id, Hold(op.bucket, estimate));
      }
    case Settle(id, _) => DropHeld(l, id, b);
    case Release(id) => DropHeld(l, id, b);
    case Expire(id) => DropHeld(l, id, b);
    case SetBalance(_, _) =>
    case Topup(_, _) =>
  }

  /** One step conserves tokens. */
  lemma StepConserves(l: Ledger, op: Op, b: Bucket)
    ensures l.Balance(b) + Held(l, b) + CreditTo(b)(l, op)
         == Next(l, op).Balance(b) + Held(Next(l, op), b) + ChargeTo(b)(l, op) + ForfeitOf(b)(l, op)
  {
    StepHeld(l, op, b);
  }

  /** In every run and for every bucket: what was there plus net credits equals the
      balance plus the live holds plus the settled usage plus the holds that expired. */
  lemma {:induction false} TokensConserved(l: Ledger, ops: seq<Op>, b: Bucket)
    ensures l.Balance(b) + Held(l, b) + Tally(CreditTo(b), l, ops)
         == Exec(l, ops).Balance(b) + Held(Exec(l, ops), b) + Tally(ChargeTo(b), l, ops) + Tally(ForfeitOf(b), l, ops)
    decreases ops
  {
    if ops != [] {
      StepConserves(l, ops[0], b);
      TokensConserved(Next(l, ops[0]), ops[1..], b);
    }
  }

  /** The signs that the bounds below depend on.  Of these the code itself guards only the sets:
      the admin endpoint rejects a negative balance, whereas an estimate is negative when the
      configured default or buffer makes it so, or when max_tokens plus a large buffer overflows,
      and a usage is what the provider reports. */
  predicate NonNegative(op: Op) {
    match op
    case Reserve(_, _, estimate) => estimate >= 0
    case Settle(_, actual) => actual >= 0
    case SetBalance(_, value) => value >= 0
    case _ => true
  }

  predicate AllNonNegative(ops: seq<Op>) {
    forall op :: op in ops ==> NonNegative(op)
  }

  /** As NonNegative, but nothing is asked of settlements. */
  predicate NonNegativeInput(op: Op) {
    op.Settle? || NonNegative(op)
  }

  ghost predicate HoldsNonNegative(l: Ledger) {
    forall id :: id in l.holds ==> l.holds[id].reserved >= 0
  }

  lemma HeldNonNegative(l: Ledger, b: Bucket)
    requires HoldsNonNegative(l)
    ensures Held(l, b) >= 0
    ensures forall id :: l.Live(id, b) ==> l.holds[id].reserved <= Held(l, b)
  {
    SumNonNegative(l.holds, ReservedOn(b));
    forall id | l.Live(id, b) ensures l.holds[id].reserved <= Held(l, b) {
      TermAtMostSum(l.holds, ReservedOn(b), id);
    }
  }

  /** A balance can be driven below its starting point's debt only by settlements that
      exceed their hold, and by no more than the excess. */
  lemma {:induction false} DebtBoundFrom(l: Ledger, ops: seq<Op>, b: Bucket, debt: int)
    requires HoldsNonNegative(l) && l.Balance(b) >= -debt && debt >= 0
    requires forall op :: op in ops ==> NonNegativeInput(op)
    ensures HoldsNonNegative(Exec(l, ops))
    ensures Exec(l, ops).Balance(b) >= -(debt + Tally(OverrunOf(b), l, ops))
    ensures Tally(OverrunOf(b), l, ops) >= 0
    decreases ops
  {
    if ops != [] {
      assert NonNegativeInput(ops[0]);
      DebtBoundFrom(Next(l, ops[0]), ops[1..], b, debt + OverrunOf(b)(l, ops[0]));
    }
  }

  /** Every reachable balance is at least minus the overruns so far. */
  lemma DebtBound(ops: seq<Op>, b: Bucket)
    requires forall op :: op in ops ==> NonNegativeInput(op)
    ensures Exec(EMPTY, ops).Balance(b) >= -Tally(OverrunOf(b), EMPTY, ops)
  {
    DebtBoundFrom(EMPTY, ops, b, 0);
  }

  /** No settlement of the run exceeds the hold it settles. */
  predicate NoOverrun(l: Ledger, ops: seq<Op>)
    decreases ops
  {
    ops == [] ||
    ((ops[0].Settle? && ops[0].id in l.holds ==> ops[0].actual <= l.holds[ops[0].id].reserved)
     && NoOverrun(Next(l, ops[0]), ops[1..]))
  }

  lemma {:induction false} NoOverrunNoExcess(l: Ledger, ops: seq<Op>, b: Bucket)
    requires NoOverrun(l, ops)
    ensures Tally(OverrunOf(b), l, ops) == 0
    decreases ops
  {
    if ops != [] {
      NoOverrunNoExcess(Next(l, ops[0]), ops[1..], b);
    }
  }

  /** If no settlement exceeds its hold, no balance is ever negative. */
  lemma NeverNegative(ops: seq<Op>, b: Bucket)
    requires forall op :: op in ops ==> NonNegativeInput(op)
    requires NoOverrun(EMPTY, ops)
    ensures Exec(EMPTY, ops).Balance(b) >= 0
  {
    DebtBound(ops, b);
    NoOverrunNoExcess(EMPTY, ops, b);
  }

  // ---- Exactly which signs the bounds need ----

  /** The steps of a run that makes its estimates and usages from two given sets, with sets of
      balances as the admin endpoint lets them through. */
  ghost predicate Drawn(ops: seq<Op>, estimates: iset<int>, usages: iset<int>) {
    forall op :: op in ops ==>
      match op
      case Reserve(_, _, estimate) => estimate in estimates
      case Settle(_, actual) => actual in usages
      case SetBalance(_, value) => value >= 0
      case _ => true
  }

  ghost predicate NoneNegative(s: iset<int>) {
    forall x :: x in s ==> x >= 0
  }

  predicate DebtBounded(ops: seq<Op>, b: Bucket) {
    Exec(EMPTY, ops).Balance(b) >= -Tally(OverrunOf(b), EMPTY, ops)
  }

  /** A hold of a negative estimate is granted on an empty bucket, and releasing it leaves a debt
      of that size although nothing was overrun. */
  lemma NegativeEstimateBreaksDebtBound(b: Bucket, id: RequestId, estimate: int)
    requires estimate < 0
    ensures var ops := [Reserve(b, id, estimate), SetBalance(b, 0), Release(id)];
            Exec(EMPTY, ops).Balance(b) == estimate && Tally(OverrunOf(b), EMPTY, ops) == 0
  {
    var ops := [Reserve(b, id, estimate), SetBalance(b, 0), Release(id)];
    var l1 := Next(EMPTY, ops[0]);
    var l2 := Next(l1, ops[1]);
    assert ops[1..][0] == ops[1] && ops[1..][1..] == [ops[2]];
    assert Exec(l2, [ops[2]]) == Exec(Next(l2, ops[2]), []);
    assert Tally(OverrunOf(b), l2, [ops[2]]) == 0;
  }

  /** The debt bound holds for every run that draws on these estimates exactly if none of them is
      negative, whatever the usages. */
  lemma DebtBoundExactly(estimates: iset<int>, usages: iset<int>)
    ensures (forall ops: seq<Op>, b: Bucket :: Drawn(ops, estimates, usages) ==> DebtBounded(ops, b)) <==> NoneNegative(estimates)
  {
    if NoneNegative(estimates) {
      forall ops: seq<Op>, b: Bucket | Drawn(ops, estimates, usages) ensures DebtBounded(ops, b) {
        DebtBound(ops, b);
      }
    } else {
      var e :| e in estimates && e < 0;
      var ops := [Reserve("b", "r", e), SetBalance("b", 0), Release("r")];
      NegativeEstimateBreaksDebtBound("b", "r", e);
      assert Drawn(ops, estimates, usages) && !DebtBounded(ops, "b");
    }
  }

  lemma {:induction false} SupplyBoundFrom(l: Ledger, ops: seq<Op>, b: Bucket, supply: int)
    requires HoldsNonNegative(l)
    requires Held(l, b) <= supply && l.Balance(b) + Held(l, b) <= supply
    requires AllNonNegative(ops)
    ensures HoldsNonNegative(Exec(l, ops))
    ensures Held(Exec(l, ops), b) <= supply + Tally(SupplyTo(b), l, ops)
    ensures Exec(l, ops).Balance(b) + Held(Exec(l, ops), b) <= supply + Tally(SupplyTo(b), l, ops)
    ensures Tally(SupplyTo(b), l, ops) >= 0
    decreases ops
  {
    if ops != [] {
      assert NonNegative(ops[0]);
      StepHeld(l, ops[0], b);
      HeldNonNegative(l, b);
      SupplyBoundFrom(Next(l, ops[0]), ops[1..], b, supply + SupplyTo(b)(l, ops[0]));
    }
  }

  /** No tokens appear from nothing: the live holds on a bucket, and its balance plus its
      live holds, never exceed what was ever set or topped up on it. */
  lemma SupplyBound(ops: seq<Op>, b: Bucket)
    requires AllNonNegative(ops)
    ensures 0 <= Held(Exec(EMPTY, ops), b) <= Tally(SupplyTo(b), EMPTY, ops)
    ensures Exec(EMPTY, ops).Balance(b) + Held(Exec(EMPTY, ops), b) <= Tally(SupplyTo(b), EMPTY, ops)
  {
    SupplyBoundFrom(EMPTY, ops, b, 0);
    HeldNonNegative(Exec(EMPTY, ops), b);
  }

  ghost predicate SupplyBounded(ops: seq<Op>, b: Bucket) {
    && 0 <= Held(Exec(EMPTY, ops), b) <= Tally(SupplyTo(b), EMPTY, ops)
    && Exec(EMPTY, ops).Balance(b) + Held(Exec(EMPTY, ops), b) <= Tally(SupplyTo(b), EMPTY, ops)
  }

  /** Where no estimate is available nothing is ever held, and usages do not matter. */
  lemma {:induction false} SupplyWithoutHolds(l: Ledger, ops: seq<Op>, b: Bucket)
    requires l.holds == map[]
    requires forall op :: op in ops ==> !op.Reserve? && (op.SetBalance? ==> op.value >= 0)
    ensures Exec(l, ops).holds == map[]
    ensures Exec(l, ops).Balance(b) <= (if l.Balance(b) < 0 then 0 else l.Balance(b)) + Tally(SupplyTo(b), l, ops)
    ensures Tally(SupplyTo(b), l, ops) >= 0
    decreases ops
  {
    if ops != [] {
      assert !ops[0].Reserve? && (ops[0].SetBalance? ==> ops[0].value >= 0);
      assert Next(l, ops[0]).holds == map[];
      SupplyWithoutHolds(Next(l, ops[0]), ops[1..], b);
    }
  }

  /** A settlement at a negative usage gives back more than was held. */
  lemma NegativeUsageBreaksSupplyBound(b: Bucket, id: RequestId, estimate: int, usage: int)
    requires estimate >= 0 && usage < 0
    ensures var ops := [SetBalance(b, estimate), Reserve(b, id, estimate), Settle(id, usage)];
            Exec(EMPTY, ops).Balance(b) == estimate - usage && Tally(SupplyTo(b), EMPTY, ops) == estimate
            && Exec(EMPTY, ops).holds == map[]
  {
    var ops := [SetBalance(b, estimate), Reserve(b, id, estimate), Settle(id, usage)];
    var l1 := Next(EMPTY, ops[0]);
    var l2 := Next(l1, ops[1]);
    assert ops[1..][0] == ops[1] && ops[1..][1..] == [ops[2]];
    assert l2.holds == map[id := Hold(b, estimate)];
    assert l2.holds - {id} == map[];
    assert Exec(l2, [ops[2]]) == Exec(Next(l2, ops[2]), []);
    assert Tally(SupplyTo(b), l2, [ops[2]]) == 0;
  }

  /** A hold of a negative estimate is itself below nothing. */
  lemma NegativeEstimateBreaksSupplyBound(b: Bucket, id: RequestId, estimate: int)
    requires estimate < 0
    ensures Held(Exec(EMPTY, [Reserve(b, id, estimate)]), b) == estimate
  {
    var l := Next(EMPTY, Reserve(b, id, estimate));
    assert Exec(EMPTY, [Reserve(b, id, estimate)]) == Exec(l, []);
    StepHeld(EMPTY, Reserve(b, id, estimate), b);
  }

  /** The supply bound holds for every run that draws on these estimates and usages exactly if
      none of the estimates is negative, and none of the usages is either unless there are no
      estimates at all. */
  lemma SupplyBoundExactly(estimates: iset<int>, usages: iset<int>)
    ensures (forall ops: seq<Op>, b: Bucket :: Drawn(ops, estimates, usages) ==> SupplyBounded(ops, b))
      <==> NoneNegative(estimates) && (estimates == iset{} || NoneNegative(usages))
  {
    if !NoneNegative(estimates) {
      var e :| e in estimates && e < 0;
      NegativeEstimateBreaksSupplyBound("b", "r", e);
      assert Drawn([Reserve("b", "r", e)], estimates, usages) && !SupplyBounded([Reserve("b", "r", e)], "b");
    } else if forall e :: e !in estimates {
      assert estimates == iset{};
      forall ops: seq<Op>, b: Bucket | Drawn(ops, estimates, usages) ensures SupplyBounded(ops, b) {
        assert forall op: Op :: op in ops ==> !op.Reserve? && (op.SetBalance? ==> op.value >= 0);
        SupplyWithoutHolds(EMPTY, ops, b);
      }
    } else if !NoneNegative(usages) {
      var e :| e in estimates;
      var u :| u in usages && u < 0;
      var ops := [SetBalance("b", e), Reserve("b", "r", e), Settle("r", u)];
      NegativeUsageBreaksSupplyBound("b", "r", e, u);
      assert Drawn(ops, estimates, usages) && !SupplyBounded(ops, "b");
    } else {
      forall ops: seq<Op>, b: Bucket | Drawn(ops, estimates, usages) ensures SupplyBounded(ops, b) {
        SupplyBound(ops, b);
      }
    }
  }
}
