/** What the numbers that come in have to be like: from request bodies and reported usage, through
    the steps that are sent, to the scripts computing on doubles. */
module ProtocolNumbers {
  import opened Conservation
  import opened Estimate
  import opened Keys
  import opened Ledger
  import opened LuaNumber
  import opened LuaScripts
  import opened Protocol
  import opened ProtocolInvariant
  import opened Retry
  import opened ScriptLimits
  import opened Wrappers

  /** Which body each request came with. */
  type Bodies = RequestId -> Body

  /** Estimates are made from bodies with which they are not negative, and what a body is settled
      at is not negative. */
  predicate GoodInput(a: Action, bodies: Bodies, cfg: Config) {
    match a
    case Arrive(id, req, _) =>
      WellTyped(bodies(id), cfg) && Reasonable(bodies(id), cfg) && req.estimate == EstimateFromBody(bodies(id), cfg)
    case BodyEnd(_, due) => due.actual >= 0
    case _ => true
  }

  /** Nothing negative was sent, and nothing negative is about to be. */
  ghost predicate CleanState(s: Sys) {
    && AllNonNegative(s.ops)
    && forall id :: id in s.procs && s.procs[id].phase.Settling? ==> s.procs[id].phase.due.actual >= 0
  }

  lemma ActStaysClean(s: Sys, a: Action, bodies: Bodies, cfg: Config)
    requires CleanState(s) && GoodInput(a, bodies, cfg)
    ensures CleanState(Act(s, a))
  {
    if a.Arrive? {
      EstimateNonNegative(bodies(a.id), cfg);
    }
  }

  lemma {:induction false} RunStaysClean(s: Sys, actions: seq<Action>, bodies: Bodies, cfg: Config)
    requires CleanState(s) && forall a :: a in actions ==> GoodInput(a, bodies, cfg)
    ensures CleanState(Run(s, actions))
    decreases actions
  {
    if actions != [] {
      assert actions[0] in actions;
      ActStaysClean(s, actions[0], bodies, cfg);
      RunStaysClean(Act(s, actions[0]), actions[1..], bodies, cfg);
    }
  }

  /** In every run on good inputs, whatever fails, in which what each bucket was supplied plus
      overruns stays below 2^53, the scripts as they compute, on doubles, are in the state that the
      protocol's ledger is in, and gave the same reply to every step. */
  lemma ScriptsRunTheProtocol(mode: Mode, actions: seq<Action>, bodies: Bodies, cfg: Config)
    requires forall a :: a in actions ==> GoodInput(a, bodies, cfg)
    requires BoundedVolume(Run(Init(mode), actions).ops)
    ensures var s := Run(Init(mode), actions);
            && LuaExec(EMPTY, s.ops) == s.ledger
            && forall i :: 0 <= i < |s.ops| ==>
                 LuaStep(LuaExec(EMPTY, s.ops[..i]), s.ops[i]) == Step(Exec(EMPTY, s.ops[..i]), s.ops[i])
  {
    var s := Run(Init(mode), actions);
    ReachableInv(mode, actions);
    RunStaysClean(Init(mode), actions, bodies, cfg);
    LuaMatchesLedger(s.ops);
    forall i | 0 <= i < |s.ops|
      ensures LuaStep(LuaExec(EMPTY, s.ops[..i]), s.ops[i]) == Step(Exec(EMPTY, s.ops[..i]), s.ops[i])
    {
      PrefixMatches(s.ops, i);
    }
  }

  lemma PrefixMatches(ops: seq<Op>, i: nat)
    requires i <= |ops| && AllNonNegative(ops) && BoundedVolume(ops)
    ensures LuaExec(EMPTY, ops[..i]) == Exec(EMPTY, ops[..i])
  {
    forall b ensures Tally(SupplyTo(b), EMPTY, ops[..i]) + Tally(OverrunOf(b), EMPTY, ops[..i]) < TWO53 {
      PrefixTallies(ops, i, b);
    }
    LuaMatchesLedger(ops[..i]);
  }

  /** On good inputs no reachable balance is further below zero than settlements exceeded their
      holds, and no more is held or left on a bucket than it was ever given. */
  lemma ProtocolBounds(mode: Mode, actions: seq<Action>, bodies: Bodies, cfg: Config, b: Bucket)
    requires forall a :: a in actions ==> GoodInput(a, bodies, cfg)
    ensures DebtBounded(Run(Init(mode), actions).ops, b) && SupplyBounded(Run(Init(mode), actions).ops, b)
  {
    RunStaysClean(Init(mode), actions, bodies, cfg);
    DebtBound(Run(Init(mode), actions).ops, b);
    SupplyBound(Run(Init(mode), actions).ops, b);
  }

  // ---- Negative estimates ----

  /** A request on a bucket that is then set to zero, answered with an error. */
  function FailedRun(org: string, bucket: string, estimate: int): seq<Action> {
    [Arrive("r", Request(org, bucket, estimate), Acknowledged), AdminSet(ScopedBucketID(org, bucket), 0),
     Respond("r", Status(500, false), Acknowledged)]
  }

  /** For every body that makes the estimate negative, the steps that the proxy sends take the
      bucket into debt by the estimate as rounded, without any settlement, unless DECRBY refuses
      it; the exact ledger would refuse none. */
  lemma NegativeEstimateLeavesDebt(org: string, bucket: string, body: Body, cfg: Config)
    requires bucket != "" && EstimateFromBody(body, cfg) < 0
    ensures var estimate, b := EstimateFromBody(body, cfg), ScopedBucketID(org, bucket);
            var s := Run(Init(Enforce), FailedRun(org, bucket, estimate));
            && LuaExec(EMPTY, s.ops).Balance(b) == (if Refused(estimate) then 0 else Double(estimate))
            && s.ledger.Balance(b) == estimate
            && forall op :: op in s.ops ==> !op.Settle?
  {
    var estimate, b := EstimateFromBody(body, cfg), ScopedBucketID(org, bucket);
    var actions := FailedRun(org, bucket, estimate);
    var req := Request(org, bucket, estimate);
    var s1 := Act(Init(Enforce), actions[0]);
    assert s1.procs["r"].phase.InFlight? && s1.ledger.holds == map["r" := Hold(b, estimate)];
    var s2 := Act(s1, actions[1]);
    var s3 := Act(s2, actions[2]);
    assert s3.ops == [ReserveOp("r", req), SetBalance(b, 0), Op.Release("r")];
    assert actions[1..] == [actions[1], actions[2]] && actions[1..][1..] == [actions[2]];
    assert Run(s2, [actions[2]]) == Run(s3, []);
    NegativeEstimateInScripts(b, "r", estimate);
  }

  /** With a buffer of at most 513 every overflow of max_tokens plus the buffer is refused by the
      script, on every ledger without a hold to answer it: the request fails open and nothing is
      taken.  With a larger buffer not every one is. */
  lemma OverflowIsRefused(cfg: Config)
    requires IsInt64(cfg.defaultEstimate) && IsInt64(cfg.promptBuffer)
    ensures (forall body :: WellTyped(body, cfg) && !Fits(body, cfg) ==> Refused(EstimateFromBody(body, cfg)))
      <==> cfg.promptBuffer <= 513
  {
    if cfg.promptBuffer <= 513 {
      forall body | WellTyped(body, cfg) && !Fits(body, cfg) ensures Refused(EstimateFromBody(body, cfg)) {
        EstimateNonNegative(body, cfg);
        RoundsToLimit(-EstimateFromBody(body, cfg));
      }
    } else {
      var body := Decoded(Some(TWO63 - 1));
      EstimateNonNegative(body, cfg);
      RoundsToLimit(-EstimateFromBody(body, cfg));
      assert WellTyped(body, cfg) && !Fits(body, cfg) && !Refused(EstimateFromBody(body, cfg));
    }
  }

  /** So under the default buffer of 512 the reservation of a request whose max_tokens overflows
      aborts: on every ledger, unless a hold answers it, the reply is an error and nothing changes. */
  lemma OverflowAborts(l: Ledger, id: RequestId, req: Request, body: Body, cfg: Config)
    requires WellTyped(body, cfg) && !Fits(body, cfg) && cfg.promptBuffer <= 513
    requires req.estimate == EstimateFromBody(body, cfg) && id !in l.holds && IsInt64(l.Balance(req.Scoped()))
    ensures LuaStep(l, ReserveOp(id, req)) == (l, Error)
  {
    OverflowIsRefused(cfg);
    RefusedReserve(l, req.Scoped(), id, req.estimate);
  }
}
