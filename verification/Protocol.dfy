/** The life of a request through the proxy, for any number of requests at once: pre-check and
    reservation, the upstream's answer, the end of the body, settlement attempts and release,
    with calls to Redis that may be lost, holds that may expire and an administrator at work. */
module Protocol {
  import opened BodyTap
  import opened Keys
  import opened Ledger
  import opened Retry
  import opened UsageStore

  datatype Mode = Off | Shadow | Enforce

  // ---- The pre-check ----

  datatype PreCheckResult = PreCheckResult(allowed: bool, failOpen: bool, reserved: int)

  /** What the checker's Reserve comes back with: an error, an answer after the deadline, or an
      answer in time. */
  datatype Answer = Failed | Late | InTime(allowed: bool, reserved: int)

  function PreCheck(mode: Mode, answer: Answer): PreCheckResult {
    if mode.Off? then PreCheckResult(true, false, 0)
    else match answer
      case Failed => PreCheckResult(true, true, 0)
      case Late => PreCheckResult(true, true, 0)
      case InTime(allowed, reserved) => PreCheckResult(allowed || mode.Shadow?, false, reserved)
  }

  // ---- Requests ----

  datatype Request = Request(org: string, bucket: string, estimate: int) {
    function Scoped(): Bucket { ScopedBucketID(org, bucket) }
  }

  datatype Phase =
    | InFlight                                 // forwarded, the upstream has not answered
    | Denied                                   // answered 429, never forwarded
    | Reading                                  // status 200, the body is being read
    | Settling(due: Settlement, tries: nat)
    | Settled(actual: int)                     // an attempt was acknowledged
    | Abandoned(due: Settlement)               // three attempts without acknowledgement
    | Released                                 // the release was acknowledged
    | NotReleased                              // it was not
    | Passed                                   // neither settled nor released

  /** What has become of the hold of a request.  The proxy does not see this. */
  datatype Fate = NoHold | Held(amount: int) | Charged(amount: int, actual: int) | Refunded(amount: int) | Forfeited(amount: int)

  /** A request: what its context carries, how far it is, and the fate of its hold. */
  datatype Proc = Proc(req: Request, carried: int, failOpen: bool, phase: Phase, fate: Fate)

  datatype Sys = Sys(mode: Mode, ledger: Ledger, procs: map<RequestId, Proc>, log: seq<UsageEvent>, ops: seq<Op>)

  function Init(mode: Mode): Sys { Sys(mode, EMPTY, map[], [], []) }

  /** An upstream's answer; `wrapped` says whether a body wrapper fits its content type. */
  datatype Upstream = TransportError | Status(code: int, wrapped: bool)

  datatype Action =
    | Arrive(id: RequestId, req: Request, delivery: Delivery)
    | Respond(id: RequestId, upstream: Upstream, delivery: Delivery)
    | BodyEnd(id: RequestId, due: Settlement)
    | Attempt(id: RequestId, delivery: Delivery)
    | ExpireHold(id: RequestId)
    | AdminSet(bucket: Bucket, value: int)
    | AdminTopup(bucket: Bucket, amount: int)

  /** A ledger step, if the call carrying it is applied. */
  function Send(s: Sys, op: Op, d: Delivery): Sys {
    if d.NotApplied? then s else s.(ledger := Next(s.ledger, op), ops := s.ops + [op])
  }

  function Put(s: Sys, id: RequestId, p: Proc): Sys { s.(procs := s.procs[id := p]) }

  function Log(s: Sys, id: RequestId, p: Proc, actual: int, outcome: string): Sys {
    s.(log := Appended(s.log, UsageEvent(0, OrgOrDefault(p.req.org), p.req.bucket, id, p.carried, actual, outcome)))
  }

  /** The reservation a request makes. */
  function ReserveOp(id: RequestId, req: Request): Op {
    Op.Reserve(req.Scoped(), id, req.estimate)
  }

  /** Whether the pre-check sends a reservation at all. */
  predicate Checks(mode: Mode, req: Request) {
    !mode.Off? && req.bucket != ""
  }

  /** Whether a reservation is applied and granted. */
  predicate TookEffect(s: Sys, id: RequestId, req: Request, d: Delivery) {
    Checks(s.mode, req) && !d.NotApplied? && id !in s.ledger.holds && s.ledger.Balance(req.Scoped()) >= req.estimate
  }

  function AnswerOf(s: Sys, id: RequestId, req: Request, d: Delivery): Answer {
    var reply := Step(s.ledger, ReserveOp(id, req)).1;
    match d
    case Acknowledged => InTime(reply.allowed, reply.reserved)
    case ReplyLost => Late
    case NotApplied => Failed
  }

  function Admission(s: Sys, id: RequestId, req: Request, d: Delivery): PreCheckResult {
    if req.bucket == "" && !s.mode.Off? then PreCheckResult(true, true, 0)
    else PreCheck(s.mode, AnswerOf(s, id, req, d))
  }

  /** ServeHTTP up to forwarding, for an id not seen before. */
  function Arrived(s: Sys, id: RequestId, req: Request, d: Delivery): Sys {
    var result := Admission(s, id, req, d);
    var s' := if Checks(s.mode, req) then Send(s, ReserveOp(id, req), d) else s;
    Put(s', id, Proc(req, result.reserved, result.failOpen, if result.allowed then InFlight else Denied,
                     if TookEffect(s, id, req, d) then Held(req.estimate) else NoHold))
  }

  /** What an applied settlement or release makes of the fate. */
  function Ended(p: Proc, d: Delivery, fate: int -> Fate): Fate {
    if d.NotApplied? || !p.fate.Held? then p.fate else fate(p.fate.amount)
  }

  function ReleaseSent(s: Sys, id: RequestId, d: Delivery): Sys
    requires id in s.procs
  {
    var p := s.procs[id];
    var p' := p.(phase := if d.Acknowledged? then Released else NotReleased,
                 fate := Ended(p, d, amount => Refunded(amount)));
    var s' := Put(Send(s, Op.Release(id), d), id, p');
    if d.Acknowledged? then Log(s', id, p, 0, "released") else s'
  }

  /** modifyResponse and errorHandler.  Only status 200 settles and only an error releases; the
      hold of any other answer is left to expire. */
  function Responded(s: Sys, id: RequestId, up: Upstream, d: Delivery): Sys
    requires id in s.procs
  {
    var p := s.procs[id];
    if s.mode.Off? then Put(s, id, p.(phase := Passed))
    else if up.TransportError? || up.code >= 400 then ReleaseSent(s, id, d)
    else Put(s, id, p.(phase := if up.code == 200 && up.wrapped then Reading else Passed))
  }

  /** One pass of the settlement loop. */
  function Attempted(s: Sys, id: RequestId, d: Delivery): Sys
    requires id in s.procs && s.procs[id].phase.Settling?
  {
    var p := s.procs[id];
    var (due, tries) := (p.phase.due, p.phase.tries);
    var phase := if d.Acknowledged? then Settled(due.actual)
                 else if tries + 1 < ATTEMPTS then Settling(due, tries + 1) else Abandoned(due);
    var p' := p.(phase := phase, fate := Ended(p, d, amount => Charged(amount, due.actual)));
    var s' := Put(Send(s, Op.Settle(id, due.actual), d), id, p');
    if d.Acknowledged? then Log(s', id, p, due.actual, due.outcome) else s'
  }

  /** One action; one that is not possible changes nothing. */
  function Act(s: Sys, a: Action): Sys {
    match a
    case Arrive(id, req, d) =>
      if id in s.procs then s else Arrived(s, id, req, d)
    case Respond(id, up, d) =>
      if id in s.procs && s.procs[id].phase.InFlight? then Responded(s, id, up, d) else s
    case BodyEnd(id, due) =>
      if id in s.procs && s.procs[id].phase.Reading? then Put(s, id, s.procs[id].(phase := Settling(due, 0))) else s
    case Attempt(id, d) =>
      if id in s.procs && s.procs[id].phase.Settling? then Attempted(s, id, d) else s
    case ExpireHold(id) =>
      if id in s.ledger.holds && id in s.procs && s.procs[id].fate.Held? then
        Put(Send(s, Expire(id), Acknowledged), id, s.procs[id].(fate := Forfeited(s.procs[id].fate.amount)))
      else s
    case AdminSet(bucket, value) =>
      if value < 0 then s else Send(s, SetBalance(bucket, value), Acknowledged)
    case AdminTopup(bucket, amount) =>
      if amount <= 0 then s else Send(s, Topup(bucket, amount), Acknowledged)
  }

  function Run(s: Sys, actions: seq<Action>): Sys
    decreases actions
  {
    if actions == [] then s else Run(Act(s, actions[0]), actions[1..])
  }

  lemma {:induction false} RunConcat(s: Sys, actions: seq<Action>, more: seq<Action>)
    ensures Run(s, actions + more) == Run(Run(s, actions), more)
    decreases actions
  {
    if actions == [] {
      assert actions + more == more;
    } else {
      RunConcat(Act(s, actions[0]), actions[1..], more);
      assert (actions + more)[1..] == actions[1..] + more;
    }
  }
}
