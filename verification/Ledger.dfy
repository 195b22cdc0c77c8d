/** The token-budget ledger that the four Lua scripts act on, with exact integers:
    one balance per bucket and one hold per request id.  A run is any sequence of
    operations, so it covers every interleaving of any number of requests. */
module Ledger {
  import opened MapSum

  /** A bucket is named by its organisation-scoped id, "org:bucket". */
  type Bucket = string
  type RequestId = string

  /** The reservation hash: the bucket the tokens were taken from, and how many. */
  datatype Hold = Hold(bucket: Bucket, reserved: int)

  /** What a script returns to its caller. */
  datatype Reply =
    | Reserved(allowed: bool, reserved: int, remaining: int)
    | Finished(amount: int)
    | NewBalance(value: int)
    | Error

  datatype Ledger = Ledger(balances: map<Bucket, int>, holds: map<RequestId, Hold>) {

    /** A balance that was never written reads as zero. */
    function Balance(b: Bucket): int {
      if b in balances then balances[b] else 0
    }

    /** INCRBY, or DECRBY when `amount` is negative. */
    function Add(b: Bucket, amount: int): Ledger {
      this.(balances := balances[b := Balance(b) + amount])
    }

    function Drop(id: RequestId): Ledger {
      this.(holds := holds - {id})
    }

    predicate Live(id: RequestId, b: Bucket) {
      id in holds && holds[id].bucket == b
    }
  }

  const EMPTY := Ledger(map[], map[])

  datatype Op =
    | Reserve(bucket: Bucket, id: RequestId, estimate: int)
    | Settle(id: RequestId, actual: int)
    | Release(id: RequestId)
    | SetBalance(bucket: Bucket, value: int)
    | Topup(bucket: Bucket, amount: int)
    | Expire(id: RequestId)  // the key's time to live runs out; no script runs

  /** One atomic step. */
  function Step(l: Ledger, op: Op): (Ledger, Reply) {
    match op
    case Reserve(b, id, estimate) =>
      if id in l.holds then
        (l, Reserved(true, l.holds[id].reserved, l.Balance(l.holds[id].bucket)))
      else if l.Balance(b) >= estimate then
        var l' := l.Add(b, -estimate);
        (l'.(holds := l'.holds[id := Hold(b, estimate)]), Reserved(true, estimate, l'.Balance(b)))
      else
        (l, Reserved(false, 0, l.Balance(b)))
    case Settle(id, actual) =>
      if id !in l.holds then (l, Finished(0))
      else
        var delta := actual - l.holds[id].reserved;
        ((if delta == 0 then l else l.Add(l.holds[id].bucket, -delta)).Drop(id), Finished(delta))
    case Release(id) =>
      if id !in l.holds then (l, Finished(0))
      else (l.Add(l.holds[id].bucket, l.holds[id].reserved).Drop(id), Finished(l.holds[id].reserved))
    case SetBalance(b, value) =>
      (l.(balances := l.balances[b := value]), NewBalance(value))
    case Topup(b, amount) =>
      if amount <= 0 then (l, Error)
      else (l.Add(b, amount), NewBalance(l.Balance(b) + amount))
    case Expire(id) =>
      (l.Drop(id), Finished(0))
  }

  function Next(l: Ledger, op: Op): Ledger { Step(l, op).0 }

  /** The ledger after a run. */
  function Exec(l: Ledger, ops: seq<Op>): Ledger
    decreases ops
  {
    if ops == [] then l else Exec(Next(l, ops[0]), ops[1..])
  }

  lemma {:induction false} ExecAppend(l: Ledger, ops: seq<Op>, more: seq<Op>)
    ensures Exec(l, ops + more) == Exec(Exec(l, ops), more)
    decreases ops
  {
    if ops == [] {
      assert ops + more == more;
    } else {
      ExecAppend(Next(l, ops[0]), ops[1..], more);
      assert (ops + more)[1..] == ops[1..] + more;
    }
  }

  /** A quantity accumulated over a run, step by step. */
  function Tally(f: (Ledger, Op) -> int, l: Ledger, ops: seq<Op>): int
    decreases ops
  {
    if ops == [] then 0 else f(l, ops[0]) + Tally(f, Next(l, ops[0]), ops[1..])
  }

  lemma {:induction false} TallyAppend(f: (Ledger, Op) -> int, l: Ledger, ops: seq<Op>, more: seq<Op>)
    ensures Tally(f, l, ops + more) == Tally(f, l, ops) + Tally(f, Exec(l, ops), more)
    decreases ops
  {
    if ops == [] {
      assert ops + more == more;
    } else {
      TallyAppend(f, Next(l, ops[0]), ops[1..], more);
      assert (ops + more)[1..] == ops[1..] + more;
    }
  }

  /** Tokens an administrator put into bucket `b`, net: a topup adds its amount,
      a set moves the balance to its value. */
  function CreditTo(b: Bucket): (Ledger, Op) -> int {
    (l: Ledger, op: Op) =>
      if op.SetBalance? && op.bucket == b then op.value - l.Balance(b)
      else if op.Topup? && op.bucket == b && op.amount > 0 then op.amount
      else 0
  }

  /** Tokens a settlement charges to bucket `b`: the whole actual usage. */
  function ChargeTo(b: Bucket): (Ledger, Op) -> int {
    (l: Ledger, op: Op) => if op.Settle? && l.Live(op.id, b) then op.actual else 0
  }

  /** Tokens lost to bucket `b` because a hold on it expired unsettled. */
  function ForfeitOf(b: Bucket): (Ledger, Op) -> int {
    (l: Ledger, op: Op) => if op.Expire? && l.Live(op.id, b) then l.holds[op.id].reserved else 0
  }

  /** Everything ever set or topped up on `b`, with no deduction for what a set overwrites. */
  function SupplyTo(b: Bucket): (Ledger, Op) -> int {
    (_: Ledger, op: Op) =>
      if op.SetBalance? && op.bucket == b then op.value
      else if op.Topup? && op.bucket == b && op.amount > 0 then op.amount
      else 0
  }

  /** By how much a settlement on `b` exceeds its hold. */
  function OverrunOf(b: Bucket): (Ledger, Op) -> int {
    (l: Ledger, op: Op) =>
      if op.Settle? && l.Live(op.id, b) && op.actual > l.holds[op.id].reserved
      then op.actual - l.holds[op.id].reserved else 0
  }

  /** Tokens charged in the name of one request, on whichever bucket. */
  function ChargeBy(id: RequestId): (Ledger, Op) -> int {
    (l: Ledger, op: Op) => if op.Settle? && op.id == id && id in l.holds then op.actual else 0
  }

  function ReservedOn(b: Bucket): Hold -> int {
    (h: Hold) => if h.bucket == b then h.reserved else 0
  }

  /** The sum of the live holds on bucket `b`. */
  ghost function Held(l: Ledger, b: Bucket): int {
    Sum(l.holds, ReservedOn(b))
  }
}
