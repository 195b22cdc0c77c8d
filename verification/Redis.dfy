/** The scripts themselves, statement by statement, over the one string-keyed Redis
    database, and the Go client calls that run them. */
module Redis {
  import opened Keys
  import opened Ledger
  import opened LuaNumber
  import opened LuaScripts

  datatype Value = Number(n: int) | Hash(bucketId: string, reserved: int)

  /** A reserve step followed by EXPIRE: a time to live that is not positive deletes the key at
      once, so a hold made with it is forfeited as soon as it is made. */
  function ReserveFor(l: Ledger, b: Bucket, id: RequestId, estimate: int, ttl: int): (Ledger, Reply) {
    var (after, reply) := LuaStep(l, Op.Reserve(b, id, estimate));
    if id !in l.holds && id in after.holds && ttl <= 0 then (LuaNext(after, Expire(id)), reply) else (after, reply)
  }

  /** With a positive time to live a reserve is the script's step.  With any other the reply and
      the balances are the same, and no new hold is left. */
  lemma ReserveForExactly(l: Ledger, b: Bucket, id: RequestId, estimate: int, ttl: int)
    ensures var (step, reply) := LuaStep(l, Op.Reserve(b, id, estimate));
            var (after, answer) := ReserveFor(l, b, id, estimate, ttl);
            && answer == reply && after.balances == step.balances
            && after.holds == if ttl > 0 then step.holds else l.holds
    ensures ttl > 0 ==> ReserveFor(l, b, id, estimate, ttl) == LuaStep(l, Op.Reserve(b, id, estimate))
  {
    var step := LuaNext(l, Op.Reserve(b, id, estimate));
    if id !in l.holds && id in step.holds {
      assert step.holds - {id} == l.holds;
    }
  }

  /** And on small numbers it is the exact step of the ledger. */
  lemma ReserveForIsExact(l: Ledger, b: Bucket, id: RequestId, estimate: int, ttl: int)
    requires ttl > 0 && estimate >= 0
    requires Small(l) && Small(Next(l, Op.Reserve(b, id, estimate)))
    ensures ReserveFor(l, b, id, estimate, ttl) == Step(l, Op.Reserve(b, id, estimate))
  {
    LuaStepExact(l, Op.Reserve(b, id, estimate));
  }

  class Redis {
    var db: map<string, Value>
    /** The typed ledger that the database stands for. */
    ghost var ledger: Ledger

    ghost predicate Valid()
      reads this
    {
      && (forall b :: b in ledger.balances ==> BUDGET + b in db && db[BUDGET + b] == Number(ledger.balances[b]))
      && (forall id :: id in ledger.holds ==>
        ReservationKey(id) in db && db[ReservationKey(id)] == Hash(ledger.holds[id].bucket, ledger.holds[id].reserved))
      && (forall k :: k in db ==>
        || (BUDGET <= k && k[|BUDGET|..] in ledger.balances)
        || (RESERVATION <= k && k[|RESERVATION|..] in ledger.holds))
    }

    constructor ()
      ensures Valid() && ledger == EMPTY
    {
      db := map[];
      ledger := EMPTY;
    }

    lemma BudgetEntry(b: Bucket)
      requires Valid()
      ensures BUDGET + b in db <==> b in ledger.balances
      ensures BUDGET + b in db ==> db[BUDGET + b] == Number(ledger.balances[b])
    {
      PrefixesDiffer(BUDGET + b);
      if BUDGET + b in db {
        assert (BUDGET + b)[|BUDGET|..] == b;
      }
    }

    lemma ReservationEntry(id: RequestId)
      requires Valid()
      ensures ReservationKey(id) in db <==> id in ledger.holds
      ensures id in ledger.holds ==>
        db[ReservationKey(id)] == Hash(ledger.holds[id].bucket, ledger.holds[id].reserved)
    {
      PrefixesDiffer(ReservationKey(id));
      if ReservationKey(id) in db {
        assert ReservationKey(id)[|RESERVATION|..] == id;
      }
    }

    /** tonumber(redis.call('GET', key) or '0') */
    method Get(b: Bucket) returns (n: int)
      requires Valid()
      ensures n == Double(ledger.Balance(b))
    {
      BudgetEntry(b);
      if BUDGET + b in db {
        n := Double(db[BUDGET + b].n);
      } else {
        n := 0;
      }
    }

    /** EXISTS key, and HMGET key 'bucket_id' 'reserved' */
    method Fetch(id: RequestId) returns (found: bool, hold: Hold)
      requires Valid()
      ensures found == (id in ledger.holds)
      ensures found ==> hold == ledger.holds[id]
    {
      ReservationEntry(id);
      found := ReservationKey(id) in db;
      if found {
        hold := Hold(db[ReservationKey(id)].bucketId, db[ReservationKey(id)].reserved);
      } else {
        hold := Hold("", 0);
      }
    }

    /** The integer under a key; one that was never written is zero. */
    method Stored(b: Bucket) returns (n: int)
      requires Valid()
      ensures n == ledger.Balance(b)
    {
      BudgetEntry(b);
      n := if BUDGET + b in db then db[BUDGET + b].n else 0;
    }

    /** INCRBY key amount */
    method IncrBy(b: Bucket, amount: int) returns (ok: bool, n: int)
      requires Valid()
      modifies this
      ensures Valid()
      ensures ok == CanIncr(old(ledger), b, amount)
      ensures ledger == if ok then old(ledger).Add(b, amount) else old(ledger)
      ensures ok ==> n == ledger.Balance(b)
    {
      var before := Stored(b);
      n := before + amount;
      ok := IsInt64(before) && IsInt64(amount) && IsInt64(n);
      if ok {
        Write(b, n);
      }
    }

    /** DECRBY key amount */
    method DecrBy(b: Bucket, amount: int) returns (ok: bool, n: int)
      requires Valid()
      modifies this
      ensures Valid()
      ensures ok == CanDecr(old(ledger), b, amount)
      ensures ledger == if ok then old(ledger).Add(b, -amount) else old(ledger)
      ensures ok ==> n == ledger.Balance(b)
    {
      var before := Stored(b);
      n := before - amount;
      ok := IsInt64(before) && -TWO63 < amount < TWO63 && IsInt64(n);
      if ok {
        Write(b, n);
      }
    }

    /** SET key value */
    method Write(b: Bucket, n: int)
      requires Valid()
      modifies this
      ensures Valid()
      ensures ledger == old(ledger).(balances := old(ledger).balances[b := n])
    {
      db := db[BUDGET + b := Number(n)];
      ledger := ledger.(balances := ledger.balances[b := n]);
      assert (BUDGET + b)[|BUDGET|..] == b;
      forall c | c in ledger.balances
        ensures BUDGET + c in db && db[BUDGET + c] == Number(ledger.balances[c])
      {
        PrefixInjective(BUDGET, b, c);
      }
      forall id | id in ledger.holds
        ensures ReservationKey(id) in db && db[ReservationKey(id)] == Hash(ledger.holds[id].bucket, ledger.holds[id].reserved)
      {
        KeyspacesDisjoint(b, id);
      }
    }

    /** HSET key 'bucket_id' b 'reserved' n */
    method SetHold(id: RequestId, b: Bucket, reserved: int)
      requires Valid()
      modifies this
      ensures Valid()
      ensures ledger == old(ledger).(holds := old(ledger).holds[id := Hold(b, reserved)])
    {
      db := db[ReservationKey(id) := Hash(b, reserved)];
      ledger := ledger.(holds := ledger.holds[id := Hold(b, reserved)]);
      assert ReservationKey(id)[|RESERVATION|..] == id;
      forall c | c in ledger.balances
        ensures BUDGET + c in db && db[BUDGET + c] == Number(ledger.balances[c])
      {
        KeyspacesDisjoint(c, id);
      }
      forall other | other in ledger.holds
        ensures ReservationKey(other) in db
        ensures db[ReservationKey(other)] == Hash(ledger.holds[other].bucket, ledger.holds[other].reserved)
      {
        PrefixInjective(RESERVATION, other, id);
      }
    }

    /** DEL key; also what Redis does by itself when the key's time to live runs out. */
    method Del(id: RequestId)
      requires Valid()
      modifies this
      ensures Valid()
      ensures ledger == old(ledger).Drop(id)
    {
      db := db - {ReservationKey(id)};
      ledger := ledger.Drop(id);
      forall c | c in ledger.balances
        ensures BUDGET + c in db && db[BUDGET + c] == Number(ledger.balances[c])
      {
        KeyspacesDisjoint(c, id);
      }
      forall other | other in ledger.holds
        ensures ReservationKey(other) in db
        ensures db[ReservationKey(other)] == Hash(ledger.holds[other].bucket, ledger.holds[other].reserved)
      {
        PrefixInjective(RESERVATION, other, id);
      }
      forall k | k in db
        ensures (BUDGET <= k && k[|BUDGET|..] in ledger.balances)
             || (RESERVATION <= k && k[|RESERVATION|..] in ledger.holds)
      {
        if RESERVATION <= k {
          assert k == RESERVATION + k[|RESERVATION|..];
        }
      }
    }

    /** The success path of a reservation: DECRBY, HSET, EXPIRE. */
    method TakeHold(b: Bucket, id: RequestId, amount: int, ttl: int) returns (ok: bool, newBalance: int)
      requires Valid()
      modifies this
      ensures Valid()
      ensures var taken := old(ledger).Add(b, -amount);
              && ok == CanDecr(old(ledger), b, amount)
              && (!ok ==> ledger == old(ledger))
              && (ok ==> newBalance == taken.Balance(b))
              && (ok ==> ledger == var held := taken.(holds := taken.holds[id := Hold(b, amount)]);
                                   if ttl <= 0 then held.Drop(id) else held)
    {
      ok, newBalance := DecrBy(b, amount);
      if ok {
        SetHold(id, b, amount);
        if ttl <= 0 {
          Del(id);
        }
      }
    }

    /** reserve_budget.lua, where no hold answers: the balance is compared, and the hold taken. */
    method TakeOrRefuse(b: Bucket, id: RequestId, estimate: int, ttl: int) returns (reply: Reply)
      requires Valid() && id !in ledger.holds
      modifies this
      ensures Valid()
      ensures (ledger, reply) == ReserveFor(old(ledger), b, id, estimate, ttl)
    {
      var amount := Double(estimate);
      var balance := Get(b);
      if balance < amount {
        return Reserved(false, 0, balance);
      }
      var ok, newBalance := TakeHold(b, id, amount, ttl);
      return if ok then Reserved(true, amount, Double(newBalance)) else Error;
    }

    /** reserve_budget.lua */
    method ReserveBudget(b: Bucket, id: RequestId, estimate: int, ttl: int) returns (reply: Reply)
      requires Valid()
      modifies this
      ensures Valid()
      ensures (ledger, reply) == ReserveFor(old(ledger), b, id, estimate, ttl)
      ensures ttl > 0 ==> (ledger, reply) == LuaStep(old(ledger), Op.Reserve(b, id, estimate))
    {
      ReserveForExactly(ledger, b, id, estimate, ttl);
      var found, hold := Fetch(id);
      if found {
        var remaining := Get(hold.bucket);
        reply := Reserved(true, Double(hold.reserved), remaining);
      } else {
        reply := TakeOrRefuse(b, id, estimate, ttl);
      }
    }

    /** The three-way branch of a settlement: DECRBY an excess, INCRBY a remainder. */
    method Charge(b: Bucket, delta: int) returns (ok: bool)
      requires Valid()
      modifies this
      ensures Valid()
      ensures ok == if delta > 0 then CanDecr(old(ledger), b, delta)
                    else delta == 0 || CanIncr(old(ledger), b, -delta)
      ensures ledger == if ok && delta != 0 then old(ledger).Add(b, -delta) else old(ledger)
    {
      ok := true;
      var n: int;
      if delta > 0 {
        ok, n := DecrBy(b, delta);
      } else if delta < 0 {
        ok, n := IncrBy(b, -delta);
      }
    }

    /** The end of a settlement: the balance moves, and the hold is deleted. */
    method ChargeAndDelete(id: RequestId, hold: Hold, delta: int) returns (reply: Reply)
      requires Valid() && id in ledger.holds && hold == ledger.holds[id]
      modifies this
      ensures Valid()
      ensures (ledger, reply) == SettleBy(old(ledger), id, delta)
    {
      reply := Error;
      var ok := Charge(hold.bucket, delta);
      if ok {
        Del(id);
        reply := Finished(delta);
      }
    }

    /** settle_budget.lua */
    method SettleBudget(id: RequestId, actual: int) returns (reply: Reply)
      requires Valid()
      modifies this
      ensures Valid()
      ensures (ledger, reply) == LuaStep(old(ledger), Settle(id, actual))
    {
      var found, hold := Fetch(id);
      if found {
        reply := ChargeAndDelete(id, hold, Double(Double(actual) - Double(hold.reserved)));
      } else {
        reply := Finished(0);
      }
    }

    /** release_budget.lua */
    method ReleaseBudget(id: RequestId) returns (reply: Reply)
      requires Valid()
      modifies this
      ensures Valid()
      ensures (ledger, reply) == LuaStep(old(ledger), Release(id))
    {
      var found, hold := Fetch(id);
      if !found {
        return Finished(0);
      }
      var ok, _ := IncrBy(hold.bucket, Double(hold.reserved));
      if !ok {
        return Error;
      }
      Del(id);
      return Finished(Double(hold.reserved));
    }

    /** set_budget.lua with op "set" */
    method Set(b: Bucket, value: int) returns (reply: Reply)
      requires Valid()
      modifies this
      ensures Valid()
      ensures (ledger, reply) == LuaStep(old(ledger), SetBalance(b, value))
    {
      Write(b, Double(value));
      return NewBalance(Double(value));
    }

    /** set_budget.lua with op "topup" */
    method TopupBudget(b: Bucket, amount: int) returns (reply: Reply)
      requires Valid()
      modifies this
      ensures Valid()
      ensures (ledger, reply) == LuaStep(old(ledger), Topup(b, amount))
    {
      if Double(amount) <= 0 {
        return Error;
      }
      var ok, n := IncrBy(b, Double(amount));
      if !ok {
        return Error;
      }
      return NewBalance(Double(n));
    }
  }

  /** The outcome of RedisBudgetChecker.Reserve: an error, or what the script answered. */
  datatype CheckResult = Failed | Checked(allowed: bool, reserved: int)

  function Decode(reply: Reply): CheckResult {
    match reply
    case Reserved(ok, reserved, _) => Checked(ok, if ok then reserved else 0)
    case _ => Failed
  }

  class BudgetChecker {
    const redis: Redis
    const ttl: int
    var allowed: nat
    var denied: nat

    constructor (redis: Redis, ttl: int)
      ensures this.redis == redis && this.ttl == ttl && allowed == 0 && denied == 0
    {
      this.redis, this.ttl := redis, ttl;
      allowed, denied := 0, 0;
    }

    /** Without a bucket or a request id nothing is sent to Redis; otherwise the reply of the
        script is decoded, and counted as allowed or denied. */
    method Reserve(org: string, bucket: string, id: RequestId, estimate: int) returns (r: CheckResult)
      requires redis.Valid()
      modifies this, redis
      ensures redis.Valid()
      ensures bucket == "" || id == "" ==>
        r == Failed && redis.ledger == old(redis.ledger) && redis.db == old(redis.db)
      ensures bucket != "" && id != "" ==>
        var step := ReserveFor(old(redis.ledger), ScopedBucketID(org, bucket), id, estimate, ttl);
        redis.ledger == step.0 && r == Decode(step.1)
      ensures bucket != "" && id != "" ==>
        var reply := LuaStep(old(redis.ledger), Op.Reserve(ScopedBucketID(org, bucket), id, estimate)).1;
        && (reply.Error? ==> r == Failed)
        && (reply.Reserved? && reply.allowed ==> r == Checked(true, reply.reserved))
        && (reply.Reserved? && !reply.allowed ==> r == Checked(false, 0))
      ensures allowed == old(allowed) + (if r.Checked? && r.allowed then 1 else 0)
      ensures denied == old(denied) + (if r.Checked? && !r.allowed then 1 else 0)
    {
      if bucket == "" || id == "" {
        return Failed;
      }
      ReserveForExactly(redis.ledger, ScopedBucketID(org, bucket), id, estimate, ttl);
      var reply := redis.ReserveBudget(ScopedBucketID(org, bucket), id, estimate, ttl);
      r := Decode(reply);
      if r.Checked? {
        if r.allowed {
          allowed := allowed + 1;
        } else {
          denied := denied + 1;
        }
      }
    }
  }
}
