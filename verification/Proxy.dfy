/** The HTTP handler's part in the protocol, method by method: ServeHTTP up to forwarding, and what
    is done with the upstream's answer.  The request table is only there for the specification;
    what the methods know of a request is the context that was attached to it. */
module Proxy {
  import opened Keys
  import opened Ledger
  import opened Protocol
  import opened Retry
  import opened UsageStore

  /** The values attached to a forwarded request. */
  datatype Context = Context(id: RequestId, org: string, bucket: string, reserved: int)

  class Handler {
    const mode: Mode
    const log: MemoryUsageStore
    var ledger: Ledger
    var failOpens: nat
    ghost var procs: map<RequestId, Proc>
    ghost var ops: seq<Op>

    constructor (mode: Mode, log: MemoryUsageStore)
      requires log.Valid() && log.events == []
      ensures this.mode == mode && this.log == log && Value() == Init(mode) && failOpens == 0
    {
      this.mode, this.log := mode, log;
      ledger, failOpens, procs, ops := EMPTY, 0, map[], [];
    }

    ghost function Value(): Sys
      reads this, log
    {
      Sys(mode, ledger, procs, log.events, ops)
    }

    /** Whether `ctx` is the context of a request that was forwarded and not yet answered. */
    ghost predicate Forwarded(ctx: Context)
      reads this
    {
      && ctx.id in procs && procs[ctx.id].phase.InFlight?
      && ctx == Context(ctx.id, procs[ctx.id].req.org, procs[ctx.id].req.bucket, procs[ctx.id].carried)
    }

    /** A script call that may be lost on the way or on the way back. */
    method Call(op: Op, d: Delivery) returns (reply: Reply, ok: bool)
      modifies this`ledger, this`ops
      ensures Value() == Send(old(Value()), op, d)
      ensures ok == d.Acknowledged?
      ensures ok ==> reply == Step(old(ledger), op).1
    {
      reply, ok := Error, d.Acknowledged?;
      if !d.NotApplied? {
        reply := Step(ledger, op).1;
        ledger := Next(ledger, op);
        ops := ops + [op];
      }
    }

    /** Answers 429 exactly when the request is denied; otherwise the request goes on, with what
        it carries for later.  The id comes from a header and may have been seen before; then there
        is no new entry in the request table, but the reservation is sent all the same. */
    method ServeHTTP(id: RequestId, req: Request, d: Delivery) returns (forward: bool, ctx: Context)
      modifies this
      ensures id !in old(procs) ==>
        && Value() == Act(old(Value()), Arrive(id, req, d))
        && (forward <==> procs[id].phase.InFlight?)
        && (forward ==> Forwarded(ctx))
      ensures id in old(procs) ==>
        Value() == if Checks(mode, req) then Send(old(Value()), ReserveOp(id, req), d) else old(Value())
      ensures var admission := Admission(old(Value()), id, req, d);
              && forward == admission.allowed && ctx == Context(id, req.org, req.bucket, admission.reserved)
              && failOpens == old(failOpens) + if admission.failOpen then 1 else 0
    {
      ghost var before := Value();
      ghost var fate := if TookEffect(before, id, req, d) then Held(req.estimate) else NoHold;
      var result: PreCheckResult;
      if req.bucket == "" && mode != Off {
        result := PreCheckResult(true, true, 0);
      } else {
        result := RunPreCheck(id, req, d);
      }
      if result.failOpen {
        failOpens := failOpens + 1;
      }
      if id !in procs {
        procs := procs[id := Proc(req, result.reserved, result.failOpen, if result.allowed then InFlight else Denied, fate)];
      }
      forward := result.allowed;
      ctx := Context(id, req.org, req.bucket, result.reserved);
    }

    /** Enforcement.PreCheck: nothing is sent when enforcement is off, an error fails open, and
        only enforce mode turns a denial away. */
    method RunPreCheck(id: RequestId, req: Request, d: Delivery) returns (result: PreCheckResult)
      requires Checks(mode, req) || mode.Off?
      modifies this`ledger, this`ops
      ensures result == PreCheck(mode, AnswerOf(old(Value()), id, req, d))
      ensures Value() == if Checks(mode, req) then Send(old(Value()), ReserveOp(id, req), d) else old(Value())
    {
      if mode == Off {
        return PreCheckResult(true, false, 0);
      }
      var reply, ok := Call(ReserveOp(id, req), d);
      if d.NotApplied? {
        return PreCheckResult(true, true, 0);
      }
      if !ok {
        // the deadline passed, or the reply was lost, after the script had run
        return PreCheckResult(true, true, 0);
      }
      if !reply.allowed && mode == Enforce {
        return PreCheckResult(false, false, reply.reserved);
      }
      return PreCheckResult(true, false, reply.reserved);
    }

    /** Releases on an error status, has the body read for settlement on 200, else does neither. */
    method ModifyResponse(ctx: Context, code: int, wrapped: bool, d: Delivery) returns (reading: bool)
      requires Forwarded(ctx) && log.Valid()
      modifies this, log
      ensures log.Valid()
      ensures Value() == Act(old(Value()), Respond(ctx.id, Status(code, wrapped), d))
      ensures reading <==> procs[ctx.id].phase.Reading?
    {
      if mode == Off {
        procs := procs[ctx.id := procs[ctx.id].(phase := Passed)];
        return false;
      }
      if code >= 400 {
        ReleaseHold(ctx, d);
        return false;
      }
      reading := code == 200 && wrapped;
      procs := procs[ctx.id := procs[ctx.id].(phase := if reading then Reading else Passed)];
    }

    /** A transport error releases like an error status. */
    method ErrorHandler(ctx: Context, d: Delivery)
      requires Forwarded(ctx) && log.Valid()
      modifies this, log
      ensures log.Valid()
      ensures Value() == Act(old(Value()), Respond(ctx.id, TransportError, d))
    {
      if mode == Off {
        procs := procs[ctx.id := procs[ctx.id].(phase := Passed)];
        return;
      }
      ReleaseHold(ctx, d);
    }

    /** A release is logged, at no usage, when it is acknowledged. */
    method ReleaseHold(ctx: Context, d: Delivery)
      requires Forwarded(ctx) && log.Valid()
      modifies this, log
      ensures log.Valid() && failOpens == old(failOpens)
      ensures Value() == ReleaseSent(old(Value()), ctx.id, d)
    {
      ghost var p := procs[ctx.id];
      var _, ok := Call(Op.Release(ctx.id), d);
      procs := procs[ctx.id := p.(phase := if d.Acknowledged? then Released else NotReleased,
                                  fate := Ended(p, d, amount => Refunded(amount)))];
      if ok {
        log.InsertUsage(UsageEvent(0, OrgOrDefault(ctx.org), ctx.bucket, ctx.id, ctx.reserved, 0, "released"));
      }
    }
  }
}
