/** One request over a run, whatever is lost, whatever expires and whatever others do meanwhile:
    how it starts, which way it goes, and what it is charged in the end. */
module RequestCharges {
  import opened BodyTap
  import opened Ledger
  import opened Protocol
  import opened ProtocolInvariant
  import opened Retry
  import opened Sse
  import opened Wrappers

  /** The phases of a request whose response is settled. */
  predicate Settles(phase: Phase) {
    phase.Reading? || phase.Settling? || phase.Settled? || phase.Abandoned?
  }

  /** How a request may change: its inputs never, its hold at most once, its phase only forward. */
  predicate Evolves(p: Proc, q: Proc) {
    && q.req == p.req && q.carried == p.carried && q.failOpen == p.failOpen
    && (p.fate.NoHold? <==> q.fate.NoHold?)
    && (!p.fate.NoHold? && !p.fate.Held? ==> q.fate == p.fate)
    && (q.phase.Denied? <==> p.phase.Denied?)
    && (Settles(p.phase) ==> Settles(q.phase))
    && (p.phase.Settling? ==>
         || (q.phase.Settling? && q.phase.due == p.phase.due)
         || q.phase == Settled(p.phase.due.actual)
         || q.phase == Abandoned(p.phase.due))
    && (Over(p.phase) ==> q.phase == p.phase)
  }

  /** The phases a request does not leave. */
  predicate Over(phase: Phase) {
    !phase.InFlight? && !phase.Reading? && !phase.Settling?
  }

  lemma ActEvolves(s: Sys, a: Action, id: RequestId)
    requires id in s.procs
    ensures id in Act(s, a).procs && Evolves(s.procs[id], Act(s, a).procs[id])
    ensures a != ExpireHold(id) && !s.procs[id].fate.Forfeited? ==> !Act(s, a).procs[id].fate.Forfeited?
  {
    match a
    case Respond(_, up, d) =>
      if a.id == id && s.procs[id].phase.InFlight? { RespondEvolves(s, id, up, d); }
    case Attempt(_, d) =>
      if a.id == id && s.procs[id].phase.Settling? { AttemptEvolves(s, id, d); }
    case _ =>
  }

  lemma RespondEvolves(s: Sys, id: RequestId, up: Upstream, d: Delivery)
    requires id in s.procs && s.procs[id].phase.InFlight?
    ensures var t := Responded(s, id, up, d);
            id in t.procs && Evolves(s.procs[id], t.procs[id])
            && (!s.procs[id].fate.Forfeited? ==> !t.procs[id].fate.Forfeited?)
  {
  }

  lemma AttemptEvolves(s: Sys, id: RequestId, d: Delivery)
    requires id in s.procs && s.procs[id].phase.Settling?
    ensures var t := Attempted(s, id, d);
            id in t.procs && Evolves(s.procs[id], t.procs[id])
            && (!s.procs[id].fate.Forfeited? ==> !t.procs[id].fate.Forfeited?)
  {
  }

  lemma {:induction false} RunEvolves(s: Sys, actions: seq<Action>, id: RequestId)
    requires id in s.procs
    ensures id in Run(s, actions).procs && Evolves(s.procs[id], Run(s, actions).procs[id])
    ensures ExpireHold(id) !in actions && !s.procs[id].fate.Forfeited? ==> !Run(s, actions).procs[id].fate.Forfeited?
    decreases actions
  {
    if actions != [] {
      ActEvolves(s, actions[0], id);
      RunEvolves(Act(s, actions[0]), actions[1..], id);
    }
  }

  lemma NestedRun(s: Sys, middle: seq<Action>, a: Action, after: seq<Action>)
    ensures Run(s, middle + [a] + after) == Run(Act(Run(s, middle), a), after)
  {
    RunConcat(s, middle + [a], after);
    RunConcat(s, middle, [a]);
    assert Run(Run(s, middle), [a]) == Act(Run(s, middle), a);
  }

  // ---- The start, and the upstream's answer ----

  /** What the pre-check made of a request, for the rest of the run: it is turned away exactly if
      enforcement got a refusal in time, and then the ledger is as it was; it failed open exactly
      if enforcement is on and no answer came in time, or no bucket was named; and what it carries
      is its estimate if that is known to be reserved, else nothing. */
  lemma ArrivalDecides(mode: Mode, before: seq<Action>, id: RequestId, req: Request, d: Delivery, after: seq<Action>)
    requires id !in Run(Init(mode), before).procs
    ensures var s0 := Run(Init(mode), before);
            var s := Run(Init(mode), before + [Arrive(id, req, d)] + after);
            var tooSmall := s0.ledger.Balance(req.Scoped()) < req.estimate;
            && id in s.procs && s.procs[id].req == req
            && (s.procs[id].phase.Denied? <==> mode.Enforce? && req.bucket != "" && d.Acknowledged? && tooSmall)
            && (s.procs[id].phase.Denied? ==> Act(s0, Arrive(id, req, d)).ledger == s0.ledger)
            && (s.procs[id].failOpen <==> !mode.Off? && (req.bucket == "" || !d.Acknowledged?))
            && s.procs[id].carried == (if !mode.Off? && req.bucket != "" && d.Acknowledged? && !tooSmall then req.estimate else 0)
  {
    var s0 := Run(Init(mode), before);
    ReachableInv(mode, before);
    NestedRun(Init(mode), before, Arrive(id, req, d), after);
    RunEvolves(Act(s0, Arrive(id, req, d)), after, id);
  }

  /** A request under an id whose hold is live takes nothing: whatever its own bucket and estimate,
      it is admitted on that hold, and if it learns of that, carries the hold's amount. */
  lemma RepeatedIdSharesHold(s: Sys, id: RequestId, req: Request, d: Delivery)
    requires Inv(s) && id in s.ledger.holds && Checks(s.mode, req)
    ensures Send(s, ReserveOp(id, req), d).ledger == s.ledger
    ensures Admission(s, id, req, d).allowed
    ensures d.Acknowledged? ==> Admission(s, id, req, d) == PreCheckResult(true, false, s.procs[id].fate.amount)
  {
  }

  /** The first answer of the upstream to a request. */
  function FirstAnswer(actions: seq<Action>, id: RequestId): Option<Upstream> {
    if actions == [] then None
    else if actions[0].Respond? && actions[0].id == id then Some(actions[0].upstream)
    else FirstAnswer(actions[1..], id)
  }

  /** Over a whole run the first answer decides which way a forwarded request goes: only status 200
      with a body wrapper settles, only an error releases, and any other answer does neither. */
  lemma {:induction false} ResponseDecides(s: Sys, actions: seq<Action>, id: RequestId)
    requires id in s.procs && s.procs[id].phase.InFlight? && !s.mode.Off?
    ensures id in Run(s, actions).procs
    ensures var phase := Run(s, actions).procs[id].phase;
            match FirstAnswer(actions, id)
            case None => phase.InFlight?
            case Some(up) =>
              && (Settles(phase) <==> up == Status(200, true))
              && (phase.Released? || phase.NotReleased? <==> up.TransportError? || up.code >= 400)
              && (phase.Passed? <==> up.Status? && up.code < 400 && up != Status(200, true))
    decreases actions
  {
    if actions != [] {
      var t := Act(s, actions[0]);
      ActKeepsMode(s, actions[0]);
      if actions[0].Respond? && actions[0].id == id {
        RunEvolves(t, actions[1..], id);
      } else {
        assert t.procs[id].phase.InFlight?;
        ResponseDecides(t, actions[1..], id);
      }
    }
  }

  // ---- The charge ----

  /** A settlement attempt of the request that reaches the ledger, acknowledged or not. */
  predicate AppliedAttempt(s: Sys, a: Action, id: RequestId) {
    a.Attempt? && a.id == id && !a.delivery.NotApplied? && id in s.procs && s.procs[id].phase.Settling?
  }

  /** What the first attempt that is applied settles a request at, if that is before its hold
      expires. */
  function SettledInTime(s: Sys, actions: seq<Action>, id: RequestId): Option<int>
    decreases actions
  {
    if actions == [] || actions[0] == ExpireHold(id) then None
    else if AppliedAttempt(s, actions[0], id) then Some(s.procs[id].phase.due.actual)
    else SettledInTime(Act(s, actions[0]), actions[1..], id)
  }

  function OrZero(usage: Option<int>): int {
    if usage.Some? then usage.value else 0
  }

  lemma {:induction false} OverNeverSettles(s: Sys, actions: seq<Action>, id: RequestId)
    requires id in s.procs && Over(s.procs[id].phase)
    ensures SettledInTime(s, actions, id) == None
    decreases actions
  {
    if actions != [] {
      ActEvolves(s, actions[0], id);
      OverNeverSettles(Act(s, actions[0]), actions[1..], id);
    }
  }

  /** A request whose hold has ended keeps the charge it has. */
  lemma EndedHoldCharge(s: Sys, actions: seq<Action>, id: RequestId)
    requires Inv(s) && id in s.procs && !s.procs[id].fate.Held?
    ensures ChargedFor(Run(s, actions), id) == if s.procs[id].fate.Charged? then s.procs[id].fate.actual else 0
  {
    RunKeepsInv(s, actions);
    RunEvolves(s, actions, id);
  }

  lemma LiveHoldStep(s: Sys, a: Action, id: RequestId)
    requires Inv(s) && id in s.procs && s.procs[id].fate.Held?
    ensures id in Act(s, a).procs
    ensures var p := Act(s, a).procs[id];
            if a == ExpireHold(id) then p.fate.Forfeited?
            else if AppliedAttempt(s, a, id) then p.fate.Charged? && p.fate.actual == s.procs[id].phase.due.actual
            else p.fate.Held? || (p.fate.Refunded? && Over(p.phase))
  {
    if !a.AdminSet? && !a.AdminTopup? && a.id == id {
      match a
      case Respond(_, _, _) =>
      case Attempt(_, _) =>
      case ExpireHold(_) =>
      case _ =>
    }
  }

  /** While its hold is live, what comes first decides what a request is charged: a settlement
      that is applied, even if its reply is lost, or the hold's expiry. */
  lemma {:induction false} LiveHoldCharge(s: Sys, actions: seq<Action>, id: RequestId)
    requires Inv(s) && id in s.procs && s.procs[id].fate.Held?
    ensures ChargedFor(Run(s, actions), id) == OrZero(SettledInTime(s, actions, id))
    decreases actions
  {
    if actions != [] {
      var a, t := actions[0], Act(s, actions[0]);
      ActKeepsInv(s, a);
      LiveHoldStep(s, a, id);
      if t.procs[id].fate.Held? {
        LiveHoldCharge(t, actions[1..], id);
      } else {
        EndedHoldCharge(t, actions[1..], id);
        if t.procs[id].fate.Refunded? {
          OverNeverSettles(t, actions[1..], id);
        }
      }
    }
  }

  /** What a request is charged over a whole run, with calls lost on the way or on the way back: it
      depends on whether its reservation took effect, not on whether the proxy learned of it.  If
      it did, the request is charged what the first applied settlement says, unless the hold had
      expired by then; if it did not, because the call failed or shadow mode forwarded a denial,
      nothing. */
  lemma FailOpenAccounting(mode: Mode, before: seq<Action>, id: RequestId, req: Request, d: Delivery, after: seq<Action>)
    requires id !in Run(Init(mode), before).procs
    ensures var s0 := Run(Init(mode), before);
            var s1 := Act(s0, Arrive(id, req, d));
            var s := Run(Init(mode), before + [Arrive(id, req, d)] + after);
            && id in s.procs
            && ChargedFor(s, id) == (if TookEffect(s0, id, req, d) then OrZero(SettledInTime(s1, after, id)) else 0)
            && (s.procs[id].phase.Settled? ==>
                 ChargedFor(s, id) == if TookEffect(s0, id, req, d) && !s.procs[id].fate.Forfeited? then s.procs[id].phase.actual else 0)
  {
    var s0 := Run(Init(mode), before);
    var s1 := Act(s0, Arrive(id, req, d));
    ReachableInv(mode, before);
    ActKeepsInv(s0, Arrive(id, req, d));
    NestedRun(Init(mode), before, Arrive(id, req, d), after);
    RunEvolves(s1, after, id);
    RunKeepsInv(s1, after);
    if TookEffect(s0, id, req, d) {
      LiveHoldCharge(s1, after, id);
    } else {
      EndedHoldCharge(s1, after, id);
    }
    assert Compatible(Run(s1, after).procs[id]);
  }

  /** An attempt that is applied while the hold is live is enough: whether or not it is ever
      acknowledged, and whatever comes after. */
  lemma {:induction false} AppliedAttemptSettles(s: Sys, middle: seq<Action>, id: RequestId, d: Delivery, after: seq<Action>)
    requires id in s.procs && ExpireHold(id) !in middle && !d.NotApplied?
    requires var t := Run(s, middle); id in t.procs && t.procs[id].phase.Settling?
    ensures SettledInTime(s, middle + [Action.Attempt(id, d)] + after, id) == Some(Run(s, middle).procs[id].phase.due.actual)
    decreases middle
  {
    var all := middle + [Action.Attempt(id, d)] + after;
    if middle == [] {
      assert all[0] == Action.Attempt(id, d);
    } else {
      assert all[0] == middle[0] && all[1..] == middle[1..] + [Action.Attempt(id, d)] + after;
      ActEvolves(s, middle[0], id);
      if AppliedAttempt(s, middle[0], id) {
        RunEvolves(s, middle, id);
      } else {
        AppliedAttemptSettles(Act(s, middle[0]), middle[1..], id, d, after);
      }
    }
  }

  /** And without one nothing is charged to a request that was not charged before. */
  lemma {:induction false} NoAppliedAttempt(s: Sys, actions: seq<Action>, id: RequestId)
    requires forall a :: a in actions && a.Attempt? && a.id == id ==> a.delivery.NotApplied?
    ensures SettledInTime(s, actions, id) == None
    ensures Inv(s) && id in s.procs && !s.procs[id].fate.Charged? ==> ChargedFor(Run(s, actions), id) == 0
    decreases actions
  {
    if actions != [] {
      assert actions[0] in actions;
      NoAppliedAttempt(Act(s, actions[0]), actions[1..], id);
    }
    if Inv(s) && id in s.procs && !s.procs[id].fate.Charged? {
      if s.procs[id].fate.Held? {
        LiveHoldCharge(s, actions, id);
      } else {
        EndedHoldCharge(s, actions, id);
      }
    }
  }

  /** What is settled was decided when the body ended. */
  lemma {:induction false} SettledAsDue(s: Sys, actions: seq<Action>, id: RequestId)
    requires id in s.procs && s.procs[id].phase.Settling?
    ensures SettledInTime(s, actions, id).Some? ==> SettledInTime(s, actions, id).value == s.procs[id].phase.due.actual
    decreases actions
  {
    if actions != [] {
      ActEvolves(s, actions[0], id);
      if Act(s, actions[0]).procs[id].phase.Settling? {
        SettledAsDue(Act(s, actions[0]), actions[1..], id);
      } else {
        OverNeverSettles(Act(s, actions[0]), actions[1..], id);
      }
    }
  }

  /** A request that is being read and whose reservation took effect still has its hold, unless
      that expired, and carries its estimate if the proxy learned of the hold. */
  lemma ReadingHasHold(s: Sys, id: RequestId, req: Request, d: Delivery, middle: seq<Action>)
    requires Inv(s) && id !in s.procs && TookEffect(s, id, req, d) && ExpireHold(id) !in middle
    requires var t := Run(Act(s, Arrive(id, req, d)), middle); id in t.procs && t.procs[id].phase.Reading?
    ensures var t := Run(Act(s, Arrive(id, req, d)), middle);
            Inv(t) && t.procs[id].fate.Held? && t.procs[id].carried == if d.Acknowledged? then req.estimate else 0
  {
    var s1 := Act(s, Arrive(id, req, d));
    ActKeepsInv(s, Arrive(id, req, d));
    RunEvolves(s1, middle, id);
    RunKeepsInv(s1, middle);
    assert Compatible(Run(s1, middle).procs[id]);
  }

  /** From the bytes of a stream to the ledger: a request whose reservation took effect and whose
      event stream was read to its end in whatever chunks is charged as soon as an attempt is
      applied before the hold expires, and then the last usage in the stream; without usage in it,
      its whole estimate if the proxy knew of the hold, and nothing at all if it had failed open. */
  lemma StreamedRequestCharge(mode: Mode, before: seq<Action>, id: RequestId, req: Request, d: Delivery,
                              middle: seq<Action>, due: Settlement, after: seq<Action>,
                              extract: Extractor, chunks: seq<string>, last: string, calls: seq<Call>)
    requires id !in Run(Init(mode), before).procs && TookEffect(Run(Init(mode), before), id, req, d)
    requires var s := Run(Act(Run(Init(mode), before), Arrive(id, req, d)), middle);
             id in s.procs && s.procs[id].phase.Reading?
             && TapRun(extract, s.procs[id].carried, FRESH_TAP, Reads(chunks) + [Read(last, true)] + calls).settlements == [due]
    requires ExpireHold(id) !in middle
    ensures var s := Act(Run(Act(Run(Init(mode), before), Arrive(id, req, d)), middle), BodyEnd(id, due));
            var charge, events := ChargedFor(Run(s, after), id), EventsOf(Concat(chunks) + last);
            && (SettledInTime(s, after, id).None? ==> charge == 0)
            && (SettledInTime(s, after, id).Some? ==>
                 && (forall u :: EndsWithUsage(extract, events, u) ==> charge == u)
                 && (NoUsageFrom(extract, events, 0) ==> charge == if d.Acknowledged? then req.estimate else 0))
            && (EndsWithUsage(extract, events, charge) || NoUsageFrom(extract, events, 0) || SettledInTime(s, after, id).None?)
  {
    var s0 := Run(Init(mode), before);
    var s := Run(Act(s0, Arrive(id, req, d)), middle);
    ReachableInv(mode, before);
    ReadingHasHold(s0, id, req, d, middle);
    StreamAmountIgnoresChunking(extract, s.procs[id].carried, chunks, last, calls);
    var t := Act(s, BodyEnd(id, due));
    ActKeepsInv(s, BodyEnd(id, due));
    LiveHoldCharge(t, after, id);
    SettledAsDue(t, after, id);
    var events := EventsOf(Concat(chunks) + last);
    LastUsageExactly(extract, events, due.actual);
  }

  /** The hold of a request that was answered with neither 200 nor an error is there for good,
      unless it expires; nothing is ever charged or refunded for it. */
  lemma {:induction false} PassedHoldStays(s: Sys, actions: seq<Action>, id: RequestId)
    requires Inv(s) && id in s.ledger.holds && s.procs[id].phase.Passed? && ExpireHold(id) !in actions
    ensures var t := Run(s, actions);
            id in t.ledger.holds && t.ledger.holds[id] == s.ledger.holds[id] && ChargedFor(t, id) == ChargedFor(s, id) == 0
    decreases actions
  {
    if actions != [] {
      LiveHoldStep(s, actions[0], id);
      ActEvolves(s, actions[0], id);
      ActKeepsInv(s, actions[0]);
      assert Act(s, actions[0]).procs[id] == s.procs[id];
      PassedHoldStays(Act(s, actions[0]), actions[1..], id);
    }
  }

  // ---- The attempts of one request among the steps of all ----

  lemma ActAppends(s: Sys, a: Action)
    ensures Act(s, a).ops == s.ops + StepsOf(s, a)
    ensures Act(s, a).ledger == Exec(s.ledger, StepsOf(s, a))
  {
    assert s.ops[|s.ops|..] == [];
    forall op: Op ensures (s.ops + [op])[|s.ops|..] == [op] && Exec(s.ledger, [op]) == Next(s.ledger, op) {
      assert Exec(s.ledger, [op]) == Exec(Next(s.ledger, op), []);
    }
  }

  /** The ledger steps an action sends. */
  function StepsOf(s: Sys, a: Action): seq<Op> {
    if s.ops <= Act(s, a).ops then Act(s, a).ops[|s.ops|..] else []
  }

  function StepsOfRun(s: Sys, actions: seq<Action>): seq<Op>
    decreases actions
  {
    if actions == [] then [] else StepsOf(s, actions[0]) + StepsOfRun(Act(s, actions[0]), actions[1..])
  }

  /** Two stretches of a run, one after the other. */
  lemma StretchesAppend(s: Sys, t: Sys, u: Sys, steps: seq<Op>, more: seq<Op>)
    requires t.ops == s.ops + steps && t.ledger == Exec(s.ledger, steps)
    requires u.ops == t.ops + more && u.ledger == Exec(t.ledger, more)
    ensures u.ops == s.ops + (steps + more) && u.ledger == Exec(s.ledger, steps + more)
  {
    ExecAppend(s.ledger, steps, more);
  }

  lemma {:induction false} RunAppends(s: Sys, actions: seq<Action>)
    ensures Run(s, actions).ops == s.ops + StepsOfRun(s, actions)
    ensures Run(s, actions).ledger == Exec(s.ledger, StepsOfRun(s, actions))
    decreases actions
  {
    if actions != [] {
      var t := Act(s, actions[0]);
      ActAppends(s, actions[0]);
      RunAppends(t, actions[1..]);
      StretchesAppend(s, t, Run(t, actions[1..]), StepsOf(s, actions[0]), StepsOfRun(t, actions[1..]));
    }
  }

  /** The settlement attempts of a request in a run, each with the steps of everybody else since
      the one before, and the steps after the last; `pending` are those before the run. */
  function AttemptsIn(s: Sys, actions: seq<Action>, id: RequestId, pending: seq<Op>): (seq<Retry.Attempt>, seq<Op>)
    decreases actions
  {
    if actions == [] then ([], pending)
    else
      var a, t := actions[0], Act(s, actions[0]);
      if a.Attempt? && a.id == id && id in s.procs && s.procs[id].phase.Settling? then
        var (attempts, tail) := AttemptsIn(t, actions[1..], id, []);
        ([Retry.Attempt(pending, a.delivery)] + attempts, tail)
      else AttemptsIn(t, actions[1..], id, pending + StepsOf(s, a))
  }

  lemma {:induction false} OverMakesNoAttempt(s: Sys, actions: seq<Action>, id: RequestId, pending: seq<Op>)
    requires id in s.procs && Over(s.procs[id].phase)
    ensures AttemptsIn(s, actions, id, pending) == ([], pending + StepsOfRun(s, actions))
    decreases actions
  {
    if actions == [] {
      assert pending + [] == pending;
    } else {
      var t := Act(s, actions[0]);
      ActEvolves(s, actions[0], id);
      OverMakesNoAttempt(t, actions[1..], id, pending + StepsOf(s, actions[0]));
      assert pending + StepsOf(s, actions[0]) + StepsOfRun(t, actions[1..]) == pending + (StepsOf(s, actions[0]) + StepsOfRun(t, actions[1..]));
    }
  }

  /** The phase that attempts leave a request in. */
  function PhaseAfter(due: Settlement, tries: nat, attempts: seq<Retry.Attempt>): Phase {
    if Succeeds(attempts) then Settled(due.actual)
    else if tries + |attempts| < ATTEMPTS then Settling(due, tries + |attempts|)
    else Abandoned(due)
  }

  lemma OneMoreAttempt(due: Settlement, tries: nat, pending: seq<Op>, d: Delivery, attempts: seq<Retry.Attempt>)
    ensures var all := [Retry.Attempt(pending, d)] + attempts;
            && (d.Acknowledged? ==> PhaseAfter(due, tries, all) == Settled(due.actual))
            && (!d.Acknowledged? ==> PhaseAfter(due, tries, all) == PhaseAfter(due, tries + 1, attempts))
    ensures forall settle ::
      RetryOps(settle, [Retry.Attempt(pending, d)] + attempts)
        == pending + Sent(settle, d) + if d.Acknowledged? then [] else RetryOps(settle, attempts)
  {
    assert ([Retry.Attempt(pending, d)] + attempts)[1..] == attempts;
  }

  lemma AttemptPhase(s: Sys, id: RequestId, d: Delivery)
    requires id in s.procs && s.procs[id].phase.Settling?
    ensures var t := Act(s, Action.Attempt(id, d));
            var (due, tries) := (s.procs[id].phase.due, s.procs[id].phase.tries);
            id in t.procs && t.procs[id].phase
              == if d.Acknowledged? then Settled(due.actual)
                 else if tries + 1 < ATTEMPTS then Settling(due, tries + 1) else Abandoned(due)
  {
  }

  /** What a run of the protocol sends is what the retry loop sends, with everybody else in
      between; at most three attempts are made, and how they were delivered decides the phase. */
  lemma {:induction false} RunIsRetry(s: Sys, actions: seq<Action>, id: RequestId, pending: seq<Op>)
    requires id in s.procs && s.procs[id].phase.Settling? && s.procs[id].phase.tries < ATTEMPTS
    ensures var (due, tries) := (s.procs[id].phase.due, s.procs[id].phase.tries);
            var (attempts, tail) := AttemptsIn(s, actions, id, pending);
            && pending + StepsOfRun(s, actions) == RetryOps(Op.Settle(id, due.actual), attempts) + tail
            && tries + |attempts| <= 3
            && id in Run(s, actions).procs && Run(s, actions).procs[id].phase == PhaseAfter(due, tries, attempts)
            && (Run(s, actions).procs[id].phase.Abandoned? ==> tries + |attempts| == 3)
    decreases actions, 1
  {
    if actions == [] {
      assert pending + [] == [] + pending;
    } else if actions[0].Attempt? && actions[0].id == id {
      RunIsRetryAttempt(s, actions, id, pending);
    } else {
      OtherKeepsSettling(s, actions[0], id);
      RunIsRetry(Act(s, actions[0]), actions[1..], id, pending + StepsOf(s, actions[0]));
      OtherAction(s, actions, id, pending);
    }
  }

  /** The steps of somebody else are pending until the next attempt. */
  lemma OtherAction(s: Sys, actions: seq<Action>, id: RequestId, pending: seq<Op>)
    requires actions != [] && !(actions[0].Attempt? && actions[0].id == id)
    ensures var t := Act(s, actions[0]);
            && AttemptsIn(s, actions, id, pending) == AttemptsIn(t, actions[1..], id, pending + StepsOf(s, actions[0]))
            && pending + StepsOfRun(s, actions) == pending + StepsOf(s, actions[0]) + StepsOfRun(t, actions[1..])
            && Run(s, actions) == Run(t, actions[1..])
  {
  }

  lemma OtherKeepsSettling(s: Sys, a: Action, id: RequestId)
    requires id in s.procs && s.procs[id].phase.Settling? && !(a.Attempt? && a.id == id)
    ensures id in Act(s, a).procs && Act(s, a).procs[id].phase == s.procs[id].phase
  {
  }

  lemma {:induction false} RunIsRetryAttempt(s: Sys, actions: seq<Action>, id: RequestId, pending: seq<Op>)
    requires id in s.procs && s.procs[id].phase.Settling? && s.procs[id].phase.tries < ATTEMPTS
    requires actions != [] && actions[0].Attempt? && actions[0].id == id
    ensures var (due, tries) := (s.procs[id].phase.due, s.procs[id].phase.tries);
            var (attempts, tail) := AttemptsIn(s, actions, id, pending);
            && pending + StepsOfRun(s, actions) == RetryOps(Op.Settle(id, due.actual), attempts) + tail
            && tries + |attempts| <= 3
            && id in Run(s, actions).procs && Run(s, actions).procs[id].phase == PhaseAfter(due, tries, attempts)
            && (Run(s, actions).procs[id].phase.Abandoned? ==> tries + |attempts| == 3)
    decreases actions, 0
  {
    var (due, tries) := (s.procs[id].phase.due, s.procs[id].phase.tries);
    var settle, d, t := Op.Settle(id, due.actual), actions[0].delivery, Act(s, actions[0]);
    var (attempts, tail) := AttemptsIn(t, actions[1..], id, []);
    var later := StepsOfRun(t, actions[1..]);
    AttemptPhase(s, id, d);
    AttemptSends(s, id, d);
    OneMoreAttempt(due, tries, pending, d, attempts);
    if t.procs[id].phase.Settling? {
      RunIsRetry(t, actions[1..], id, []);
      Regroup3(pending, Sent(settle, d), later, RetryOps(settle, attempts), tail);
    } else {
      OverMakesNoAttempt(t, actions[1..], id, []);
      RunEvolves(t, actions[1..], id);
      Regroup3(pending, Sent(settle, d), later, [], tail);
    }
  }

  lemma AttemptSends(s: Sys, id: RequestId, d: Delivery)
    requires id in s.procs && s.procs[id].phase.Settling?
    ensures StepsOf(s, Action.Attempt(id, d)) == Sent(Op.Settle(id, s.procs[id].phase.due.actual), d)
  {
    var settle := Op.Settle(id, s.procs[id].phase.due.actual);
    assert s.ops[|s.ops|..] == [] && (s.ops + [settle])[|s.ops|..] == [settle];
  }

  lemma Regroup3(pending: seq<Op>, sent: seq<Op>, later: seq<Op>, retried: seq<Op>, tail: seq<Op>)
    requires [] + later == retried + tail
    ensures pending + (sent + later) == (pending + sent + retried) + tail
  {
    assert [] + later == later;
  }

  /** So over any run from the end of its body a request is settled as by one settlement, at its
      first applied attempt, or as by none. */
  lemma RunSettlesOnce(s: Sys, actions: seq<Action>, id: RequestId)
    requires id in s.procs && s.procs[id].phase.Settling? && s.procs[id].phase.tries == 0
    ensures var settle := Op.Settle(id, s.procs[id].phase.due.actual);
            var (attempts, tail) := AttemptsIn(s, actions, id, []);
            Run(s, actions).ledger
              == Exec(Exec(s.ledger, BeforeApplied(attempts) + if Applied(attempts) then [settle] + AfterApplied(attempts) else []), tail)
  {
    var settle := Op.Settle(id, s.procs[id].phase.due.actual);
    var (attempts, tail) := AttemptsIn(s, actions, id, []);
    RunIsRetry(s, actions, id, []);
    RunAppends(s, actions);
    assert [] + StepsOfRun(s, actions) == StepsOfRun(s, actions);
    ExecAppend(s.ledger, RetryOps(settle, attempts), tail);
    AttemptsNotReserved(s, actions, id, []);
    RetryChargesOnce(s.ledger, settle, attempts);
  }

  /** A request that is on its way does not reserve again. */
  lemma {:induction false} AttemptsNotReserved(s: Sys, actions: seq<Action>, id: RequestId, pending: seq<Op>)
    requires id in s.procs && NoReserve(pending, id)
    ensures NotReservedAgain(AttemptsIn(s, actions, id, pending).0, id)
    decreases actions
  {
    if actions != [] {
      var a, t := actions[0], Act(s, actions[0]);
      ActEvolves(s, a, id);
      ActReservesNothing(s, a, id);
      if a.Attempt? && a.id == id && s.procs[id].phase.Settling? {
        AttemptsNotReserved(t, actions[1..], id, []);
      } else {
        AttemptsNotReserved(t, actions[1..], id, pending + StepsOf(s, a));
      }
    }
  }

  lemma ActReservesNothing(s: Sys, a: Action, id: RequestId)
    requires id in s.procs
    ensures NoReserve(StepsOf(s, a), id)
  {
    assert s.ops[|s.ops|..] == [];
    forall op: Op ensures (s.ops + [op])[|s.ops|..] == [op] {
    }
  }
}
