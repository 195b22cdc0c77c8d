/** Settlement over an unreliable connection, tried up to three times while everybody else goes
    on using the ledger. */
module Retry {
  import opened HoldLifecycle
  import opened Keys
  import opened Ledger
  import opened UsageStore

  /** What becomes of a call to Redis: it is not applied; it is applied and acknowledged; or it
      is applied and the reply is lost.  The caller cannot tell the first from the last. */
  datatype Delivery = NotApplied | Acknowledged | ReplyLost

  function Sent(op: Op, d: Delivery): seq<Op> {
    if d.NotApplied? then [] else [op]
  }

  /** One attempt, and what others do to the ledger before it. */
  datatype Attempt = Attempt(meanwhile: seq<Op>, delivery: Delivery)

  const ATTEMPTS := 3

  /** The steps the ledger sees from the first attempt to the acknowledged or last one. */
  function RetryOps(settle: Op, attempts: seq<Attempt>): seq<Op> {
    if attempts == [] then []
    else
      attempts[0].meanwhile + Sent(settle, attempts[0].delivery)
      + if attempts[0].delivery.Acknowledged? then [] else RetryOps(settle, attempts[1..])
  }

  predicate Succeeds(attempts: seq<Attempt>) {
    attempts != [] && (attempts[0].delivery.Acknowledged? || Succeeds(attempts[1..]))
  }

  /** How many attempts fail before the acknowledged one, or altogether. */
  function Failures(attempts: seq<Attempt>): nat {
    if attempts == [] || attempts[0].delivery.Acknowledged? then 0 else 1 + Failures(attempts[1..])
  }

  predicate Applied(attempts: seq<Attempt>) {
    attempts != [] && (!attempts[0].delivery.NotApplied? || Applied(attempts[1..]))
  }

  /** What these say of the deliveries: success means some acknowledgement, and the failures are the
      attempts before the first; an attempt counts as applied even if its reply was lost. */
  lemma {:induction false} DeliveriesDecide(attempts: seq<Attempt>)
    ensures Succeeds(attempts) <==> exists i :: 0 <= i < |attempts| && attempts[i].delivery.Acknowledged?
    ensures Applied(attempts) <==>
      exists i :: 0 <= i < |attempts| && (attempts[i].delivery.Acknowledged? || attempts[i].delivery.ReplyLost?)
    ensures Failures(attempts) <= |attempts|
    ensures forall i :: 0 <= i < Failures(attempts) ==> !attempts[i].delivery.Acknowledged?
    ensures Failures(attempts) < |attempts| ==> attempts[Failures(attempts)].delivery.Acknowledged?
  {
    if attempts != [] {
      DeliveriesDecide(attempts[1..]);
      assert forall i :: 0 < i < |attempts| ==> attempts[i] == attempts[1..][i - 1];
    }
  }

  /** What others do before the first applied attempt, and after it until the retries stop. */
  function BeforeApplied(attempts: seq<Attempt>): seq<Op> {
    if attempts == [] then []
    else attempts[0].meanwhile + if attempts[0].delivery.NotApplied? then BeforeApplied(attempts[1..]) else []
  }

  function AfterApplied(attempts: seq<Attempt>): seq<Op> {
    if attempts == [] || attempts[0].delivery.Acknowledged? then []
    else if attempts[0].delivery.NotApplied? then AfterApplied(attempts[1..])
    else Meanwhile(attempts[1..])
  }

  function Meanwhile(attempts: seq<Attempt>): seq<Op> {
    if attempts == [] then []
    else attempts[0].meanwhile + if attempts[0].delivery.Acknowledged? then [] else Meanwhile(attempts[1..])
  }

  /** Others may end the hold of `id` between the attempts, but do not reserve under it again. */
  ghost predicate NoReserve(ops: seq<Op>, id: RequestId) {
    forall op :: op in ops ==> !Reserves(op, id)
  }

  ghost predicate NotReservedAgain(attempts: seq<Attempt>, id: RequestId) {
    forall i :: 0 <= i < |attempts| ==> NoReserve(attempts[i].meanwhile, id)
  }

  lemma {:induction false} GoneStaysGone(l: Ledger, ops: seq<Op>, id: RequestId)
    requires id !in l.holds && NoReserve(ops, id)
    ensures id !in Exec(l, ops).holds
    ensures Tally(ChargeBy(id), l, ops) == 0
    decreases ops
  {
    if ops != [] {
      assert !Reserves(ops[0], id);
      GoneStaysGone(Next(l, ops[0]), ops[1..], id);
    }
  }

  lemma InertWhenGone(l: Ledger, settle: Op, d: Delivery)
    requires settle.Settle? && settle.id !in l.holds
    ensures Exec(l, Sent(settle, d)) == l && Tally(ChargeBy(settle.id), l, Sent(settle, d)) == 0
  {
    assert Next(l, settle) == l && ChargeBy(settle.id)(l, settle) == 0;
    assert Exec(l, [settle]) == Exec(Next(l, settle), []);
    assert Tally(ChargeBy(settle.id), l, [settle]) == ChargeBy(settle.id)(l, settle) + Tally(ChargeBy(settle.id), Next(l, settle), []);
  }

  /** Once the settlement has been applied, applying it again changes nothing. */
  lemma {:induction false} LaterAttemptsInert(l: Ledger, settle: Op, attempts: seq<Attempt>)
    requires settle.Settle? && settle.id !in l.holds && NotReservedAgain(attempts, settle.id)
    ensures Exec(l, RetryOps(settle, attempts)) == Exec(l, Meanwhile(attempts))
    ensures Tally(ChargeBy(settle.id), l, RetryOps(settle, attempts)) == 0
    decreases attempts
  {
    if attempts != [] {
      var first, d := attempts[0].meanwhile, attempts[0].delivery;
      var l1 := Exec(l, first);
      GoneStaysGone(l, first, settle.id);
      InertWhenGone(l1, settle, d);
      var rest := if d.Acknowledged? then [] else RetryOps(settle, attempts[1..]);
      var others := if d.Acknowledged? then [] else Meanwhile(attempts[1..]);
      assert RetryOps(settle, attempts) == first + Sent(settle, d) + rest;
      ExecAppend(l, first + Sent(settle, d), rest);
      ExecAppend(l, first, Sent(settle, d));
      TallyAppend(ChargeBy(settle.id), l, first + Sent(settle, d), rest);
      TallyAppend(ChargeBy(settle.id), l, first, Sent(settle, d));
      ExecAppend(l, first, others);
      if !d.Acknowledged? {
        LaterAttemptsInert(l1, settle, attempts[1..]);
      }
    }
  }

  /** An attempt that was not applied only lets the others' steps pass. */
  lemma SkipAttempt(l: Ledger, settle: Op, attempts: seq<Attempt>)
    requires attempts != [] && attempts[0].delivery.NotApplied?
    ensures var l1, rest := Exec(l, attempts[0].meanwhile), attempts[1..];
            && Exec(l, RetryOps(settle, attempts)) == Exec(l1, RetryOps(settle, rest))
            && Exec(l, BeforeApplied(attempts)) == Exec(l1, BeforeApplied(rest))
            && Exec(l, BeforeApplied(attempts) + [settle] + AfterApplied(attempts))
               == Exec(l1, BeforeApplied(rest) + [settle] + AfterApplied(rest))
  {
    var first, rest := attempts[0].meanwhile, attempts[1..];
    assert RetryOps(settle, attempts) == first + RetryOps(settle, rest);
    ExecAppend(l, first, RetryOps(settle, rest));
    ExecAppend(l, first, BeforeApplied(rest));
    assert first + BeforeApplied(rest) + [settle] + AfterApplied(rest)
        == first + (BeforeApplied(rest) + [settle] + AfterApplied(rest));
    ExecAppend(l, first, BeforeApplied(rest) + [settle] + AfterApplied(rest));
  }

  lemma SkipAttemptTally(f: (Ledger, Op) -> int, l: Ledger, settle: Op, attempts: seq<Attempt>)
    requires attempts != [] && attempts[0].delivery.NotApplied?
    ensures var l1, rest := Exec(l, attempts[0].meanwhile), attempts[1..];
            && Tally(f, l, RetryOps(settle, attempts)) == Tally(f, l, attempts[0].meanwhile) + Tally(f, l1, RetryOps(settle, rest))
            && Tally(f, l, BeforeApplied(attempts)) == Tally(f, l, attempts[0].meanwhile) + Tally(f, l1, BeforeApplied(rest))
  {
    var first, rest := attempts[0].meanwhile, attempts[1..];
    assert RetryOps(settle, attempts) == first + RetryOps(settle, rest);
    TallyAppend(f, l, first, RetryOps(settle, rest));
    TallyAppend(f, l, first, BeforeApplied(rest));
  }

  /** The first applied attempt settles, and the later ones are inert. */
  lemma FirstAppliedAttempt(l: Ledger, settle: Op, attempts: seq<Attempt>)
    requires attempts != [] && !attempts[0].delivery.NotApplied?
    requires settle.Settle? && NotReservedAgain(attempts, settle.id)
    ensures Exec(l, RetryOps(settle, attempts)) == Exec(l, BeforeApplied(attempts) + [settle] + AfterApplied(attempts))
    ensures Tally(ChargeBy(settle.id), l, RetryOps(settle, attempts))
         == Tally(ChargeBy(settle.id), l, BeforeApplied(attempts))
            + ChargeBy(settle.id)(Exec(l, BeforeApplied(attempts)), settle)
  {
    var first, d := attempts[0].meanwhile, attempts[0].delivery;
    var rest := if d.Acknowledged? then [] else RetryOps(settle, attempts[1..]);
    var l2 := Exec(l, first + [settle]);
    assert RetryOps(settle, attempts) == first + [settle] + rest;
    assert BeforeApplied(attempts) == first;
    SettledIsGone(l, first, settle);
    ExecAppend(l, first + [settle], rest);
    ExecAppend(l, first + [settle], AfterApplied(attempts));
    TallyAppend(ChargeBy(settle.id), l, first + [settle], rest);
    if !d.Acknowledged? {
      LaterAttemptsInert(l2, settle, attempts[1..]);
    }
  }

  lemma SettledIsGone(l: Ledger, ops: seq<Op>, settle: Op)
    requires settle.Settle?
    ensures settle.id !in Exec(l, ops + [settle]).holds
    ensures Tally(ChargeBy(settle.id), l, ops + [settle])
      == Tally(ChargeBy(settle.id), l, ops) + ChargeBy(settle.id)(Exec(l, ops), settle)
  {
    var l1 := Exec(l, ops);
    ExecAppend(l, ops, [settle]);
    TallyAppend(ChargeBy(settle.id), l, ops, [settle]);
    assert Exec(l1, [settle]) == Next(l1, settle);
    assert Tally(ChargeBy(settle.id), l1, [settle]) == ChargeBy(settle.id)(l1, settle);
  }

  /** However the attempts are delivered and whatever others do in between, short of reserving
      under the id again: if any attempt is applied the ledger ends as if the settlement had been
      made once, at the first applied attempt; if none is, as if it had never been made.  Besides
      what others charged the request before, it is charged exactly if an attempt was applied and
      the first of them still found the hold. */
  lemma {:induction false} RetryChargesOnce(l: Ledger, settle: Op, attempts: seq<Attempt>)
    requires settle.Settle? && NotReservedAgain(attempts, settle.id)
    ensures Exec(l, RetryOps(settle, attempts))
      == Exec(l, BeforeApplied(attempts) + if Applied(attempts) then [settle] + AfterApplied(attempts) else [])
    ensures Tally(ChargeBy(settle.id), l, RetryOps(settle, attempts))
      == Tally(ChargeBy(settle.id), l, BeforeApplied(attempts))
         + if Applied(attempts) && settle.id in Exec(l, BeforeApplied(attempts)).holds then settle.actual else 0
    decreases attempts
  {
    if attempts == [] {
      assert BeforeApplied(attempts) + [] == [];
    } else if attempts[0].delivery.NotApplied? {
      var l1, rest := Exec(l, attempts[0].meanwhile), attempts[1..];
      SkipAttempt(l, settle, attempts);
      SkipAttemptTally(ChargeBy(settle.id), l, settle, attempts);
      RetryChargesOnce(l1, settle, rest);
      Regroup(BeforeApplied(rest), settle, AfterApplied(rest));
      Regroup(BeforeApplied(attempts), settle, AfterApplied(attempts));
    } else {
      FirstAppliedAttempt(l, settle, attempts);
      Regroup(BeforeApplied(attempts), settle, AfterApplied(attempts));
    }
  }

  lemma Regroup(before: seq<Op>, settle: Op, after: seq<Op>)
    ensures before + ([settle] + after) == before + [settle] + after
    ensures before + [] == before
  {
  }

  ghost predicate NoSettle(ops: seq<Op>, id: RequestId) {
    forall op :: op in ops && op.Settle? ==> op.id != id
  }

  lemma {:induction false} NoSettleNoCharge(l: Ledger, ops: seq<Op>, id: RequestId)
    requires NoSettle(ops, id)
    ensures Tally(ChargeBy(id), l, ops) == 0
    decreases ops
  {
    if ops != [] {
      assert ops[0] in ops;
      NoSettleNoCharge(Next(l, ops[0]), ops[1..], id);
    }
  }

  lemma {:induction false} BeforeAppliedNoSettle(attempts: seq<Attempt>, id: RequestId)
    requires forall i :: 0 <= i < |attempts| ==> NoSettle(attempts[i].meanwhile, id)
    ensures NoSettle(BeforeApplied(attempts), id)
  {
    if attempts != [] {
      BeforeAppliedNoSettle(attempts[1..], id);
    }
  }

  /** If nobody else settles the request it is charged all of its usage, once, or nothing: the
      usage exactly if an attempt was applied and the hold had not been ended before. */
  lemma RetryChargesAllOrNothing(l: Ledger, settle: Op, attempts: seq<Attempt>)
    requires settle.Settle? && NotReservedAgain(attempts, settle.id)
    requires forall i :: 0 <= i < |attempts| ==> NoSettle(attempts[i].meanwhile, settle.id)
    ensures Tally(ChargeBy(settle.id), l, RetryOps(settle, attempts))
      == if Applied(attempts) && settle.id in Exec(l, BeforeApplied(attempts)).holds then settle.actual else 0
  {
    RetryChargesOnce(l, settle, attempts);
    BeforeAppliedNoSettle(attempts, settle.id);
    NoSettleNoCharge(l, BeforeApplied(attempts), settle.id);
  }

  // ---- The retry loop ----

  datatype Params = Params(requestID: string, org: string, bucket: string, reserved: int)

  function EventFor(p: Params, actual: int, outcome: string): UsageEvent {
    UsageEvent(0, OrgOrDefault(p.org), p.bucket, p.requestID, p.reserved, actual, outcome)
  }

  class Settler {
    var ledger: Ledger
    var settleSuccess: nat
    var settleRetry: nat
    const log: MemoryUsageStore

    constructor (ledger: Ledger, log: MemoryUsageStore)
      ensures this.ledger == ledger && this.log == log && settleSuccess == settleRetry == 0
    {
      this.ledger, this.log := ledger, log;
      settleSuccess, settleRetry := 0, 0;
    }

    /** One call of Settle, after whatever others did first. */
    method Settle(p: Params, actual: int, attempt: Attempt) returns (ok: bool)
      modifies this`ledger
      ensures ok == attempt.delivery.Acknowledged?
      ensures ledger == Exec(old(ledger), attempt.meanwhile + Sent(Op.Settle(p.requestID, actual), attempt.delivery))
    {
      ExecAppend(ledger, attempt.meanwhile, Sent(Op.Settle(p.requestID, actual), attempt.delivery));
      ledger := Exec(ledger, attempt.meanwhile);
      if !attempt.delivery.NotApplied? {
        ledger := Next(ledger, Op.Settle(p.requestID, actual));
      }
      ok := attempt.delivery.Acknowledged?;
    }

    /** settleWithRetrySync: the loop stops at the first acknowledged attempt.  Success is counted
        and the usage logged only then; a retry is counted for each failure but the third.
        Without a request id nothing is done. */
    method SettleWithRetry(p: Params, actual: int, outcome: string, attempts: seq<Attempt>)
      requires |attempts| == 3 && log.Valid()
      modifies this, log
      ensures log.Valid()
      ensures p.requestID == "" ==>
        ledger == old(ledger) && settleSuccess == old(settleSuccess) && settleRetry == old(settleRetry) && log.events == old(log.events)
      ensures p.requestID != "" ==> ledger == Exec(old(ledger), RetryOps(Op.Settle(p.requestID, actual), attempts))
      ensures p.requestID != "" ==> settleSuccess == old(settleSuccess) + if Succeeds(attempts) then 1 else 0
      ensures p.requestID != "" ==> settleRetry == old(settleRetry) + if Failures(attempts) < 2 then Failures(attempts) else 2
      ensures p.requestID != "" ==>
        log.events == if Succeeds(attempts) then Appended(old(log.events), EventFor(p, actual, outcome)) else old(log.events)
      ensures p.requestID != "" && Succeeds(attempts) ==>
        var n := |old(log.events)|;
        && |log.events| == n + 1 && log.events[..n] == old(log.events)
        && log.events[n].id == n + 1 && log.events[n].requestID == p.requestID
        && log.events[n].org == (if p.org == "" then "default" else p.org) && log.events[n].bucket == p.bucket
        && log.events[n].reserved == p.reserved && log.events[n].actual == actual && log.events[n].outcome == outcome
    {
      if p.requestID == "" {
        return;
      }
      var settle := Op.Settle(p.requestID, actual);
      for attempt := 0 to ATTEMPTS
        invariant log.Valid() && log.events == old(log.events) && settleSuccess == old(settleSuccess)
        invariant Exec(old(ledger), RetryOps(settle, attempts)) == Exec(ledger, RetryOps(settle, attempts[attempt..]))
        invariant Succeeds(attempts) == Succeeds(attempts[attempt..])
        invariant Failures(attempts) == attempt + Failures(attempts[attempt..])
        invariant settleRetry == old(settleRetry) + if attempt < 2 then attempt else 2
      {
        var a := attempts[attempt];
        ghost var before := ledger;
        ghost var rest := if a.delivery.Acknowledged? then [] else RetryOps(settle, attempts[attempt + 1..]);
        assert attempts[attempt..][1..] == attempts[attempt + 1..];
        ExecAppend(before, a.meanwhile + Sent(settle, a.delivery), rest);
        var ok := Settle(p, actual, a);
        if ok {
          settleSuccess := settleSuccess + 1;
          log.InsertUsage(EventFor(p, actual, outcome));
          return;
        }
        if attempt < 2 {
          settleRetry := settleRetry + 1;
        }
      }
    }
  }
}
