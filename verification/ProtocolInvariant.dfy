/** The invariant of the protocol: what the ledger, the log and the request table have to do with
    each other in every reachable state, whatever is lost and whatever expires. */
module ProtocolInvariant {
  import opened BodyTap
  import opened Keys
  import opened Ledger
  import opened MapSum
  import opened Protocol
  import opened Retry
  import opened UsageStore

  /** What a request was charged, if it was charged on bucket `b`. */
  function ChargeShare(b: Bucket): Proc -> int {
    (p: Proc) => if p.fate.Charged? && p.req.Scoped() == b then p.fate.actual else 0
  }

  /** What the log says a request used, if it names a bucket and that is `b`. */
  function LogShare(b: Bucket): Proc -> int {
    (p: Proc) => if p.phase.Settled? && p.req.bucket != "" && p.req.Scoped() == b then p.phase.actual else 0
  }

  /** What a request's hold cost bucket `b` by expiring unsettled. */
  function ForfeitShare(b: Bucket): Proc -> int {
    (p: Proc) => if p.fate.Forfeited? && p.req.Scoped() == b then p.fate.amount else 0
  }

  function EntryShare(b: Bucket): UsageEvent -> int {
    (e: UsageEvent) => if e.bucket != "" && ScopedBucketID(e.org, e.bucket) == b then e.actual else 0
  }

  /** The usage logged on bucket `b`. */
  function LoggedOn(log: seq<UsageEvent>, b: Bucket): int { SeqSum(log, EntryShare(b)) }

  /** What the ledger has charged to bucket `b`, and for one request. */
  function ChargedOn(s: Sys, b: Bucket): int { Tally(ChargeTo(b), EMPTY, s.ops) }

  function ForfeitedOn(s: Sys, b: Bucket): int { Tally(ForfeitOf(b), EMPTY, s.ops) }

  function ChargedFor(s: Sys, id: RequestId): int { Tally(ChargeBy(id), EMPTY, s.ops) }

  /** Which fates go with which phase. */
  predicate Compatible(p: Proc) {
    && (p.failOpen ==> p.carried == 0)
    && match p.phase
       case Denied => p.fate.NoHold?
       case Settling(due, tries) => tries < ATTEMPTS && !p.fate.Refunded? && (p.fate.Charged? ==> p.fate.actual == due.actual)
       case Abandoned(due) => !p.fate.Refunded? && (p.fate.Charged? ==> p.fate.actual == due.actual)
       case Settled(actual) => !p.fate.Refunded? && !p.fate.Held? && (p.fate.Charged? ==> p.fate.actual == actual)
       case Released => !p.fate.Charged? && !p.fate.Held?
       case NotReleased => !p.fate.Charged?
       case _ => !p.fate.Charged? && !p.fate.Refunded?
  }

  /** The ledger is the result of the steps sent to it, and its holds are those of the requests
      whose fate is still open. */
  ghost predicate LedgerInv(s: Sys) {
    && s.ledger == Exec(EMPTY, s.ops)
    && (forall id :: id in s.ledger.holds <==> id in s.procs && s.procs[id].fate.Held?)
    && (forall id :: id in s.ledger.holds ==> s.ledger.holds[id] == Hold(s.procs[id].req.Scoped(), s.procs[id].fate.amount))
  }

  ghost predicate ProcsInv(s: Sys) {
    forall id :: id in s.procs ==> Compatible(s.procs[id])
  }

  ghost predicate SumsInv(s: Sys) {
    && (forall b :: ChargedOn(s, b) == Sum(s.procs, ChargeShare(b)))
    && (forall b :: ForfeitedOn(s, b) == Sum(s.procs, ForfeitShare(b)))
    && (forall b :: LoggedOn(s.log, b) == Sum(s.procs, LogShare(b)))
    && (forall id :: ChargedFor(s, id) == if id in s.procs && s.procs[id].fate.Charged? then s.procs[id].fate.actual else 0)
  }

  ghost predicate Inv(s: Sys) { LedgerInv(s) && ProcsInv(s) && SumsInv(s) }

  // ---- How a sent step moves the sums ----

  lemma SendTallies(s: Sys, op: Op, d: Delivery, b: Bucket, id: RequestId)
    requires s.ledger == Exec(EMPTY, s.ops)
    ensures var s' := Send(s, op, d);
            && s'.ledger == Exec(EMPTY, s'.ops)
            && ChargedOn(s', b) == ChargedOn(s, b) + (if d.NotApplied? then 0 else ChargeTo(b)(s.ledger, op))
            && ForfeitedOn(s', b) == ForfeitedOn(s, b) + (if d.NotApplied? then 0 else ForfeitOf(b)(s.ledger, op))
            && ChargedFor(s', id) == ChargedFor(s, id) + (if d.NotApplied? then 0 else ChargeBy(id)(s.ledger, op))
  {
    if !d.NotApplied? {
      ExecAppend(EMPTY, s.ops, [op]);
      TallyAppend(ChargeTo(b), EMPTY, s.ops, [op]);
      TallyAppend(ForfeitOf(b), EMPTY, s.ops, [op]);
      TallyAppend(ChargeBy(id), EMPTY, s.ops, [op]);
      assert Exec(s.ledger, [op]) == Next(s.ledger, op);
      assert Tally(ChargeTo(b), s.ledger, [op]) == ChargeTo(b)(s.ledger, op);
      assert Tally(ForfeitOf(b), s.ledger, [op]) == ForfeitOf(b)(s.ledger, op);
      assert Tally(ChargeBy(id), s.ledger, [op]) == ChargeBy(id)(s.ledger, op);
    }
  }

  lemma PutShares(procs: map<RequestId, Proc>, id: RequestId, p: Proc, f: Proc -> int)
    ensures Sum(procs[id := p], f) == Sum(procs, f) + f(p) - (if id in procs then f(procs[id]) else 0)
  {
    if id in procs {
      SumUpdate(procs, f, id, p);
    } else {
      SumInsert(procs, f, id, p);
    }
  }

  lemma LogShares(s: Sys, id: RequestId, p: Proc, actual: int, outcome: string, b: Bucket)
    ensures LoggedOn(Log(s, id, p, actual, outcome).log, b)
      == LoggedOn(s.log, b) + (if p.req.bucket != "" && p.req.Scoped() == b then actual else 0)
  {
    var e := UsageEvent(0, OrgOrDefault(p.req.org), p.req.bucket, id, p.carried, actual, outcome);
    SeqSumAppend(s.log, Appended([], e), EntryShare(b));
    var entry := Log(s, id, p, actual, outcome).log[|s.log|];
    SeqSumAppend(s.log, [entry], EntryShare(b));
    assert SeqSum([entry], EntryShare(b)) == EntryShare(b)(entry);
  }

  /** A step sent for a request that then becomes `p`, with an entry in the log or without: the
      sums stay right if the request's shares move as the step and the entry say. */
  lemma SumsKept(s: Sys, t: Sys, id: RequestId, p: Proc, op: Op, d: Delivery)
    requires LedgerInv(s) && SumsInv(s)
    requires t.procs == s.procs[id := p] && t.ops == Send(s, op, d).ops
    requires forall b ::
      ChargeShare(b)(p) - (if id in s.procs then ChargeShare(b)(s.procs[id]) else 0)
        == if d.NotApplied? then 0 else ChargeTo(b)(s.ledger, op)
    requires forall b ::
      ForfeitShare(b)(p) - (if id in s.procs then ForfeitShare(b)(s.procs[id]) else 0)
        == if d.NotApplied? then 0 else ForfeitOf(b)(s.ledger, op)
    requires forall b ::
      LoggedOn(t.log, b) - LoggedOn(s.log, b)
        == LogShare(b)(p) - (if id in s.procs then LogShare(b)(s.procs[id]) else 0)
    requires forall j :: j != id ==> ChargeBy(j)(s.ledger, op) == 0
    requires (if p.fate.Charged? then p.fate.actual else 0)
      - (if id in s.procs && s.procs[id].fate.Charged? then s.procs[id].fate.actual else 0)
      == if d.NotApplied? then 0 else ChargeBy(id)(s.ledger, op)
    ensures SumsInv(t)
  {
    forall b ensures ChargedOn(t, b) == Sum(t.procs, ChargeShare(b)) {
      SendTallies(s, op, d, b, id);
      PutShares(s.procs, id, p, ChargeShare(b));
    }
    forall b ensures ForfeitedOn(t, b) == Sum(t.procs, ForfeitShare(b)) {
      SendTallies(s, op, d, b, id);
      PutShares(s.procs, id, p, ForfeitShare(b));
    }
    forall b ensures LoggedOn(t.log, b) == Sum(t.procs, LogShare(b)) {
      PutShares(s.procs, id, p, LogShare(b));
    }
    forall j ensures ChargedFor(t, j) == if j in t.procs && t.procs[j].fate.Charged? then t.procs[j].fate.actual else 0 {
      SendTallies(s, op, d, "", j);
    }
  }

  /** A step sent for a request that then becomes `p`: the ledger and the request table stay in
      step if the request's hold is what `p` says and no other hold moves. */
  lemma LedgerKept(s: Sys, t: Sys, id: RequestId, p: Proc, op: Op, d: Delivery)
    requires LedgerInv(s) && ProcsInv(s) && Compatible(p)
    requires t.procs == s.procs[id := p] && t.ledger == Send(s, op, d).ledger && t.ops == Send(s, op, d).ops
    requires t.ledger.holds - {id} == s.ledger.holds - {id}
    requires id in t.ledger.holds <==> p.fate.Held?
    requires id in t.ledger.holds ==> t.ledger.holds[id] == Hold(p.req.Scoped(), p.fate.amount)
    ensures LedgerInv(t) && ProcsInv(t)
  {
    SendTallies(s, op, d, "", id);
    forall j | j != id
      ensures j in t.ledger.holds <==> j in s.ledger.holds
      ensures j in t.ledger.holds ==> t.ledger.holds[j] == s.ledger.holds[j]
    {
      assert j in t.ledger.holds - {id} <==> j in s.ledger.holds - {id};
      assert j in t.ledger.holds ==> (t.ledger.holds - {id})[j] == (s.ledger.holds - {id})[j];
    }
  }

  // ---- Each action keeps the invariant ----

  lemma ArriveKeepsLedger(s: Sys, id: RequestId, req: Request, d: Delivery)
    requires Inv(s) && id !in s.procs
    ensures LedgerInv(Arrived(s, id, req, d)) && ProcsInv(Arrived(s, id, req, d))
  {
    var t := Arrived(s, id, req, d);
    assert t.ledger.holds - {id} == s.ledger.holds - {id};
    LedgerKept(s, t, id, t.procs[id], ReserveOp(id, req), if Checks(s.mode, req) then d else NotApplied);
  }

  lemma ArriveKeepsInv(s: Sys, id: RequestId, req: Request, d: Delivery)
    requires Inv(s) && id !in s.procs
    ensures Inv(Arrived(s, id, req, d))
  {
    ArriveKeepsLedger(s, id, req, d);
    var t := Arrived(s, id, req, d);
    SumsKept(s, t, id, t.procs[id], ReserveOp(id, req), if Checks(s.mode, req) then d else NotApplied);
  }

  lemma ReleaseKeepsLedger(s: Sys, id: RequestId, d: Delivery)
    requires Inv(s) && id in s.procs && s.procs[id].phase.InFlight?
    ensures LedgerInv(ReleaseSent(s, id, d)) && ProcsInv(ReleaseSent(s, id, d))
  {
    var t := ReleaseSent(s, id, d);
    assert Compatible(s.procs[id]);
    assert t.ledger.holds - {id} == s.ledger.holds - {id};
    LedgerKept(s, t, id, t.procs[id], Op.Release(id), d);
  }

  lemma ReleaseKeepsInv(s: Sys, id: RequestId, d: Delivery)
    requires Inv(s) && id in s.procs && s.procs[id].phase.InFlight?
    ensures Inv(ReleaseSent(s, id, d))
  {
    ReleaseKeepsLedger(s, id, d);
    var t := ReleaseSent(s, id, d);
    assert Compatible(s.procs[id]);
    forall b ensures LoggedOn(t.log, b) == LoggedOn(s.log, b) {
      LogShares(s, id, s.procs[id], 0, "released", b);
    }
    SumsKept(s, t, id, t.procs[id], Op.Release(id), d);
  }

  lemma AttemptKeepsLedger(s: Sys, id: RequestId, d: Delivery)
    requires Inv(s) && id in s.procs && s.procs[id].phase.Settling?
    ensures LedgerInv(Attempted(s, id, d)) && ProcsInv(Attempted(s, id, d))
  {
    var t := Attempted(s, id, d);
    assert Compatible(s.procs[id]);
    assert t.ledger.holds - {id} == s.ledger.holds - {id};
    LedgerKept(s, t, id, t.procs[id], Op.Settle(id, s.procs[id].phase.due.actual), d);
  }

  lemma AttemptKeepsInv(s: Sys, id: RequestId, d: Delivery)
    requires Inv(s) && id in s.procs && s.procs[id].phase.Settling?
    ensures Inv(Attempted(s, id, d))
  {
    AttemptKeepsLedger(s, id, d);
    var t := Attempted(s, id, d);
    var due := s.procs[id].phase.due;
    assert Compatible(s.procs[id]);
    forall b ensures LoggedOn(t.log, b) - LoggedOn(s.log, b) == LogShare(b)(t.procs[id]) - LogShare(b)(s.procs[id]) {
      LogShares(s, id, s.procs[id], due.actual, due.outcome, b);
    }
    SumsKept(s, t, id, t.procs[id], Op.Settle(id, due.actual), d);
  }

  /** A change of phase alone. */
  lemma PhaseKeepsInv(s: Sys, id: RequestId, phase: Phase)
    requires Inv(s) && id in s.procs && !s.procs[id].phase.Settled? && !phase.Settled?
    requires Compatible(s.procs[id].(phase := phase))
    ensures Inv(Put(s, id, s.procs[id].(phase := phase)))
  {
    var t := Put(s, id, s.procs[id].(phase := phase));
    SumsKept(s, t, id, t.procs[id], Expire(id), NotApplied);
  }

  lemma ExpireKeepsInv(s: Sys, id: RequestId)
    requires Inv(s) && id in s.ledger.holds
    ensures Inv(Act(s, ExpireHold(id)))
  {
    var t := Act(s, ExpireHold(id));
    assert Compatible(s.procs[id]);
    assert t.ledger.holds - {id} == s.ledger.holds - {id};
    LedgerKept(s, t, id, t.procs[id], Expire(id), Acknowledged);
    SumsKept(s, t, id, t.procs[id], Expire(id), Acknowledged);
  }

  lemma AdminKeepsInv(s: Sys, op: Op)
    requires Inv(s) && (op.SetBalance? || op.Topup?)
    ensures Inv(Send(s, op, Acknowledged))
  {
    var t := Send(s, op, Acknowledged);
    SendTallies(s, op, Acknowledged, "", "");
    forall b ensures ChargedOn(t, b) == ChargedOn(s, b) && ForfeitedOn(t, b) == ForfeitedOn(s, b) {
      SendTallies(s, op, Acknowledged, b, "");
    }
    forall id ensures ChargedFor(t, id) == ChargedFor(s, id) {
      SendTallies(s, op, Acknowledged, "", id);
    }
    assert t.ledger.holds == s.ledger.holds;
  }

  lemma ActKeepsInv(s: Sys, a: Action)
    requires Inv(s)
    ensures Inv(Act(s, a))
  {
    match a
    case Arrive(id, req, d) =>
      if id !in s.procs { ArriveKeepsInv(s, id, req, d); }
    case Respond(id, up, d) =>
      if id in s.procs && s.procs[id].phase.InFlight? {
        assert Compatible(s.procs[id]);
        if s.mode.Off? {
          PhaseKeepsInv(s, id, Passed);
        } else if up.TransportError? || up.code >= 400 {
          ReleaseKeepsInv(s, id, d);
        } else {
          PhaseKeepsInv(s, id, if up.code == 200 && up.wrapped then Reading else Passed);
        }
      }
    case BodyEnd(id, due) =>
      if id in s.procs && s.procs[id].phase.Reading? {
        assert Compatible(s.procs[id]);
        PhaseKeepsInv(s, id, Settling(due, 0));
      }
    case Attempt(id, d) =>
      if id in s.procs && s.procs[id].phase.Settling? { AttemptKeepsInv(s, id, d); }
    case ExpireHold(id) =>
      if id in s.ledger.holds { ExpireKeepsInv(s, id); }
    case AdminSet(bucket, value) => AdminKeepsInv(s, SetBalance(bucket, value));
    case AdminTopup(bucket, amount) => AdminKeepsInv(s, Topup(bucket, amount));
  }

  lemma ActKeepsMode(s: Sys, a: Action)
    ensures Act(s, a).mode == s.mode
  {
  }

  lemma {:induction false} RunKeepsMode(s: Sys, actions: seq<Action>)
    ensures Run(s, actions).mode == s.mode
    decreases actions
  {
    if actions != [] {
      ActKeepsMode(s, actions[0]);
      RunKeepsMode(Act(s, actions[0]), actions[1..]);
    }
  }

  lemma {:induction false} RunKeepsInv(s: Sys, actions: seq<Action>)
    requires Inv(s)
    ensures Inv(Run(s, actions))
    decreases actions
  {
    if actions != [] {
      ActKeepsInv(s, actions[0]);
      RunKeepsInv(Act(s, actions[0]), actions[1..]);
    }
  }

  /** The invariant holds in every reachable state. */
  lemma ReachableInv(mode: Mode, actions: seq<Action>)
    ensures Inv(Run(Init(mode), actions)) && Run(Init(mode), actions).mode == mode
  {
    assert Inv(Init(mode)) by {
      assert forall b :: Sum(Init(mode).procs, ChargeShare(b)) == 0 == Sum(Init(mode).procs, LogShare(b));
      assert forall b :: Sum(Init(mode).procs, ForfeitShare(b)) == 0 == LoggedOn([], b);
    }
    RunKeepsInv(Init(mode), actions);
    RunKeepsMode(Init(mode), actions);
  }
}
