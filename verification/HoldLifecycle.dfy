/** What happens to one hold over a run: it is created once, removed at most once per
    creation, and what comes after its removal has no effect on it.  The steps that end
    holds commute, so their order over different requests does not matter. */
module HoldLifecycle {
  import opened Ledger
  import opened MapSum

  predicate Finishes(op: Op, id: RequestId) {
    (op.Settle? || op.Release? || op.Expire?) && op.id == id
  }

  predicate Reserves(op: Op, id: RequestId) {
    op.Reserve? && op.id == id
  }

  /** One when the step creates a hold for `id`. */
  function CreationOf(id: RequestId): (Ledger, Op) -> int {
    (l: Ledger, op: Op) => if id !in l.holds && id in Next(l, op).holds then 1 else 0
  }

  /** One when the step removes the hold of `id`. */
  function RemovalOf(id: RequestId): (Ledger, Op) -> int {
    (l: Ledger, op: Op) => if id in l.holds && Finishes(op, id) then 1 else 0
  }

  /** Creations and removals of one id alternate: since it holds for every run, it holds for
      every prefix of a run, so no hold is removed twice. */
  lemma {:induction false} RemovedAtMostOnce(l: Ledger, ops: seq<Op>, id: RequestId)
    ensures (if id in l.holds then 1 else 0) + Tally(CreationOf(id), l, ops)
         == Tally(RemovalOf(id), l, ops) + (if id in Exec(l, ops).holds then 1 else 0)
    decreases ops
  {
    if ops != [] {
      RemovedAtMostOnce(Next(l, ops[0]), ops[1..], id);
    }
  }

  /** A reserve is granted exactly when a hold of its id is there afterwards; the reply tells that
      hold's amount and its bucket's balance.  A refusal changes nothing and means that the balance
      it tells is too small. */
  lemma ReserveReplyTellsTheHold(l: Ledger, op: Op)
    requires op.Reserve?
    ensures var (l', reply) := Step(l, op);
            && reply.Reserved? && (reply.allowed <==> op.id in l'.holds)
            && (reply.allowed ==> reply.reserved == l'.holds[op.id].reserved
                                  && reply.remaining == l'.Balance(l'.holds[op.id].bucket))
            && (!reply.allowed ==> l' == l && reply.reserved == 0 && reply.remaining == l.Balance(op.bucket) < op.estimate)
            && (op.id !in l.holds && reply.allowed ==>
                 l'.holds[op.id] == Hold(op.bucket, op.estimate)
                 && l.Balance(op.bucket) == l'.Balance(op.bucket) + op.estimate >= op.estimate)
  {
  }

  /** What an administrator's step does: a set leaves the balance at its value, a topup adds a
      positive amount and is refused otherwise; the reply tells the new balance, and no other balance
      and no hold changes. */
  lemma AdminReplyTellsBalance(l: Ledger, op: Op)
    requires op.SetBalance? || op.Topup?
    ensures var (l', reply) := Step(l, op);
            && (reply.Error? <==> op.Topup? && op.amount <= 0)
            && (reply.Error? ==> l' == l)
            && (!reply.Error? ==> reply == NewBalance(l'.Balance(op.bucket)))
            && (op.SetBalance? ==> l'.Balance(op.bucket) == op.value)
            && (op.Topup? && op.amount > 0 ==> l'.Balance(op.bucket) == l.Balance(op.bucket) + op.amount)
            && l'.holds == l.holds && forall b :: b != op.bucket ==> l'.Balance(b) == l.Balance(b)
  {
  }

  /** A step that ends the hold of `id` changes no balance but that of the bucket the hold
      was taken from, and no other hold. */
  lemma FinishTouchesOnlyItsBucket(l: Ledger, op: Op, id: RequestId)
    requires Finishes(op, id)
    ensures Next(l, op).holds == l.holds - {id}
    ensures forall b :: !l.Live(id, b) ==> Next(l, op).Balance(b) == l.Balance(b)
    ensures forall b :: l.Live(id, b) ==>
      Next(l, op).Balance(b) == l.Balance(b)
        + (if op.Expire? then 0 else l.holds[id].reserved) - (if op.Settle? then op.actual else 0)
    ensures forall b :: l.Live(id, b) && op.Settle? ==> Step(l, op).1 == Finished(l.Balance(b) - Next(l, op).Balance(b))
    ensures forall b :: l.Live(id, b) && op.Release? ==> Step(l, op).1 == Finished(Next(l, op).Balance(b) - l.Balance(b))
    ensures id !in l.holds ==> Step(l, op) == (l, Finished(0))
  {
    if id !in l.holds {
      assert l.holds - {id} == l.holds;
    }
  }

  /** A hold stays as it was created until something ends it. */
  lemma {:induction false} HoldPersists(l: Ledger, ops: seq<Op>, id: RequestId)
    requires id in l.holds
    requires forall op :: op in ops ==> !Finishes(op, id)
    ensures id in Exec(l, ops).holds && Exec(l, ops).holds[id] == l.holds[id]
    decreases ops
  {
    if ops != [] {
      assert !Finishes(ops[0], id);
      HoldPersists(Next(l, ops[0]), ops[1..], id);
    }
  }

  /** While the hold lives, any reserve of its id, whatever its estimate or bucket, is told
      the original amount and the balance of the original bucket, and changes nothing. */
  lemma RepeatReserveIsIdempotent(l: Ledger, ops: seq<Op>, again: Op)
    requires again.Reserve? && again.id in l.holds
    requires forall op :: op in ops ==> !Finishes(op, again.id)
    ensures var now := Exec(l, ops);
            Step(now, again) == (now, Reserved(true, l.holds[again.id].reserved, now.Balance(l.holds[again.id].bucket)))
  {
    HoldPersists(l, ops, again.id);
  }

  /** `id` is not reserved again once something has ended its hold. */
  predicate NotReservedAgain(ops: seq<Op>, id: RequestId, ended: bool) {
    ops == [] ||
    ((ended ==> !Reserves(ops[0], id)) && NotReservedAgain(ops[1..], id, ended || Finishes(ops[0], id)))
  }

  /** The run without the steps that come to end `id` after the first one. */
  function FirstFinishOnly(ops: seq<Op>, id: RequestId, ended: bool): seq<Op> {
    if ops == [] then []
    else if ended && Finishes(ops[0], id) then FirstFinishOnly(ops[1..], id, ended)
    else [ops[0]] + FirstFinishOnly(ops[1..], id, ended || Finishes(ops[0], id))
  }

  /** The steps of a run that end `id`, and all the others. */
  function FinishesOf(ops: seq<Op>, id: RequestId): seq<Op> {
    if ops == [] then []
    else if Finishes(ops[0], id) then [ops[0]] + FinishesOf(ops[1..], id) else FinishesOf(ops[1..], id)
  }

  function OthersOf(ops: seq<Op>, id: RequestId): seq<Op> {
    if ops == [] then []
    else if Finishes(ops[0], id) then OthersOf(ops[1..], id) else [ops[0]] + OthersOf(ops[1..], id)
  }

  /** It keeps the first step that ends `id`, unless that came before the run, and all others in
      their order. */
  lemma {:induction false} FirstFinishOnlyExactly(ops: seq<Op>, id: RequestId, ended: bool)
    ensures var kept := FirstFinishOnly(ops, id, ended);
            && OthersOf(kept, id) == OthersOf(ops, id)
            && FinishesOf(kept, id) == if ended || FinishesOf(ops, id) == [] then [] else [FinishesOf(ops, id)[0]]
  {
    if ops != [] {
      var later := ended || Finishes(ops[0], id);
      FirstFinishOnlyExactly(ops[1..], id, later);
      assert ([ops[0]] + FirstFinishOnly(ops[1..], id, later))[1..] == FirstFinishOnly(ops[1..], id, later);
    }
  }

  /** Settle and release are idempotent under any interleaving: whatever else happens in
      between, only the first step that ends `id` counts. */
  lemma {:induction false} FirstFinishWins(l: Ledger, ops: seq<Op>, id: RequestId, ended: bool)
    requires ended ==> id !in l.holds
    requires NotReservedAgain(ops, id, ended)
    ensures Exec(l, ops) == Exec(l, FirstFinishOnly(ops, id, ended))
    decreases ops
  {
    if ops != [] {
      if ended && Finishes(ops[0], id) {
        assert l.Drop(id) == l;
      } else {
        assert ([ops[0]] + FirstFinishOnly(ops[1..], id, ended || Finishes(ops[0], id)))[1..]
            == FirstFinishOnly(ops[1..], id, ended || Finishes(ops[0], id));
      }
      FirstFinishWins(Next(l, ops[0]), ops[1..], id, ended || Finishes(ops[0], id));
    }
  }

  // ---- Requests that share an id ----

  /** One when the step settles the hold of `id`, and that was taken from `b`. */
  function SettlementOf(id: RequestId, b: Bucket): (Ledger, Op) -> int {
    (l: Ledger, op: Op) => if op.Settle? && op.id == id && l.Live(id, b) then 1 else 0
  }

  lemma {:induction false} TallyNonNegative(f: (Ledger, Op) -> int, l: Ledger, ops: seq<Op>)
    requires forall k, op :: f(k, op) >= 0
    ensures Tally(f, l, ops) >= 0
    decreases ops
  {
    if ops != [] {
      TallyNonNegative(f, Next(l, ops[0]), ops[1..]);
    }
  }

  lemma {:induction false} NoHoldNoSettlement(l: Ledger, ops: seq<Op>, id: RequestId, b: Bucket)
    requires id !in l.holds && Tally(CreationOf(id), l, ops) == 0
    ensures Tally(SettlementOf(id, b), l, ops) == 0
    decreases ops
  {
    if ops != [] {
      TallyNonNegative(CreationOf(id), Next(l, ops[0]), ops[1..]);
      NoHoldNoSettlement(Next(l, ops[0]), ops[1..], id, b);
    }
  }

  /** However many requests use the id of a live hold, of whichever organisation and bucket and
      with whatever estimates, until a new hold is created they are settled at most once between
      them, and that on the bucket of the first. */
  lemma {:induction false} SharedHoldSettledOnce(l: Ledger, ops: seq<Op>, id: RequestId, b: Bucket)
    requires id in l.holds && Tally(CreationOf(id), l, ops) == 0
    ensures 0 <= Tally(SettlementOf(id, b), l, ops) <= if l.holds[id].bucket == b then 1 else 0
    decreases ops
  {
    if ops != [] {
      var l' := Next(l, ops[0]);
      TallyNonNegative(CreationOf(id), l', ops[1..]);
      if id in l'.holds {
        assert l'.holds[id] == l.holds[id];
        SharedHoldSettledOnce(l', ops[1..], id, b);
      } else {
        NoHoldNoSettlement(l', ops[1..], id, b);
      }
    }
  }

  /** One when the step settles the hold of `id`, wherever it was taken from. */
  function AnySettlementOf(id: RequestId): (Ledger, Op) -> int {
    (l: Ledger, op: Op) => if op.Settle? && op.id == id && id in l.holds then 1 else 0
  }

  /** Over any run an id is settled at most as often as a hold was created for it. */
  lemma {:induction false} OneSettlementPerHold(l: Ledger, ops: seq<Op>, id: RequestId)
    ensures Tally(AnySettlementOf(id), l, ops) <= (if id in l.holds then 1 else 0) + Tally(CreationOf(id), l, ops)
    decreases ops
  {
    if ops != [] {
      OneSettlementPerHold(Next(l, ops[0]), ops[1..], id);
    }
  }

  // ---- Steps that commute ----

  /** The steps whose effect does not depend on any balance. */
  predicate Unconditional(op: Op) {
    op.Settle? || op.Release? || op.Expire? || op.Topup?
  }

  /** Two such steps that do not end the same hold in two different ways. */
  predicate Independent(a: Op, b: Op) {
    Unconditional(a) && Unconditional(b) && (a == b || a.Topup? || b.Topup? || a.id != b.id)
  }

  /** The effect of an unconditional step: a write to one balance, if any, and the id whose
      hold it ends, if any. */
  datatype Effect = Effect(writes: bool, bucket: Bucket, amount: int, ended: set<RequestId>) {
    function Apply(l: Ledger): Ledger {
      var l' := if writes then l.Add(bucket, amount) else l;
      l'.(holds := l'.holds - ended)
    }
  }

  function EffectOf(l: Ledger, op: Op): Effect
    requires Unconditional(op)
  {
    match op
    case Topup(b, amount) => Effect(amount > 0, b, amount, {})
    case Settle(id, actual) =>
      if id in l.holds then
        Effect(actual != l.holds[id].reserved, l.holds[id].bucket, l.holds[id].reserved - actual, {id})
      else Effect(false, "", 0, {id})
    case Release(id) =>
      if id in l.holds then Effect(true, l.holds[id].bucket, l.holds[id].reserved, {id})
      else Effect(false, "", 0, {id})
    case _ => Effect(false, "", 0, {op.id})
  }

  lemma StepIsEffect(l: Ledger, op: Op)
    requires Unconditional(op)
    ensures Next(l, op) == EffectOf(l, op).Apply(l)
  {
    if op.Topup? {
      assert l.holds - {} == l.holds;
    } else if op.id !in l.holds {
      assert l.holds - {op.id} == l.holds;
    }
  }

  lemma EffectIsStable(l: Ledger, a: Op, b: Op)
    requires Independent(a, b) && a != b
    ensures EffectOf(Next(l, a), b) == EffectOf(l, b)
  {
    StepIsEffect(l, a);
  }

  lemma EffectsCommute(l: Ledger, e: Effect, f: Effect)
    ensures e.Apply(f.Apply(l)) == f.Apply(e.Apply(l))
  {
    var x, y := e.Apply(f.Apply(l)), f.Apply(e.Apply(l));
    assert x.holds == y.holds;
    assert x.balances == y.balances;
  }

  lemma IndependentStepsCommute(l: Ledger, a: Op, b: Op)
    requires Independent(a, b)
    ensures Next(Next(l, a), b) == Next(Next(l, b), a)
  {
    if a != b {
      EffectIsStable(l, a, b);
      EffectIsStable(l, b, a);
      StepIsEffect(l, a);
      StepIsEffect(l, b);
      StepIsEffect(Next(l, a), b);
      StepIsEffect(Next(l, b), a);
      EffectsCommute(l, EffectOf(l, a), EffectOf(l, b));
    }
  }

  ghost predicate PairwiseIndependent(ops: seq<Op>) {
    forall i, j :: 0 <= i < j < |ops| ==> Independent(ops[i], ops[j])
  }

  /** A step may be moved to the front past steps it is independent of. */
  lemma {:induction false} MoveToFront(l: Ledger, before: seq<Op>, op: Op, after: seq<Op>)
    requires forall other :: other in before ==> Independent(other, op)
    ensures Exec(l, before + [op] + after) == Exec(Next(l, op), before + after)
    decreases before
  {
    if before == [] {
      assert before + [op] + after == [op] + after;
      assert before + after == after;
    } else {
      MoveToFront(Next(l, before[0]), before[1..], op, after);
      assert (before + [op] + after)[1..] == before[1..] + [op] + after;
      assert (before + after)[1..] == before[1..] + after;
      assert Independent(before[0], op);
      IndependentStepsCommute(l, before[0], op);
    }
  }

  lemma IndependentWithout(ops: seq<Op>, i: nat)
    requires PairwiseIndependent(ops) && i < |ops|
    ensures PairwiseIndependent(ops[..i] + ops[i + 1..])
  {
    var rest := ops[..i] + ops[i + 1..];
    forall j, k | 0 <= j < k < |rest| ensures Independent(rest[j], rest[k]) {
      var j', k' := if j < i then j else j + 1, if k < i then k else k + 1;
      assert rest[j] == ops[j'] && rest[k] == ops[k'];
    }
  }

  lemma StepMovedToFront(l: Ledger, ops: seq<Op>, i: nat)
    requires PairwiseIndependent(ops) && i < |ops|
    ensures Exec(l, ops) == Exec(Next(l, ops[i]), ops[..i] + ops[i + 1..])
  {
    forall other | other in ops[..i] ensures Independent(other, ops[i]) {
      var j :| 0 <= j < i && ops[j] == other;
    }
    MoveToFront(l, ops[..i], ops[i], ops[i + 1..]);
    assert ops == ops[..i] + [ops[i]] + ops[i + 1..];
  }

  /** Two runs of the same settlements, releases, expiries and topups over different requests
      end in the same ledger, in whatever order the steps come. */
  lemma {:induction false} FinishOrderIrrelevant(l: Ledger, ops: seq<Op>, others: seq<Op>)
    requires PairwiseIndependent(ops) && PairwiseIndependent(others)
    requires multiset(ops) == multiset(others)
    ensures Exec(l, ops) == Exec(l, others)
    decreases |ops|
  {
    if ops == [] {
      PermutationEmpty(others);
    } else {
      var i := PermutationPick(ops, others);
      StepMovedToFront(l, others, i);
      IndependentWithout(others, i);
      IndependentWithout(ops, 0);
      assert ops[..0] + ops[1..] == ops[1..];
      FinishOrderIrrelevant(Next(l, ops[0]), ops[1..], others[..i] + others[i + 1..]);
    }
  }
}
