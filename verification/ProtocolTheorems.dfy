/** What the protocol promises of all requests together: how far the log and the ledger agree, what
    the balances are when everything has come to rest, and that the order does not matter. */
module ProtocolTheorems {
  import opened BodyTap
  import opened Conservation
  import opened Keys
  import opened Ledger
  import opened MapSum
  import opened Protocol
  import opened ProtocolInvariant
  import opened RequestCharges
  import opened Retry
  import opened UsageStore

  /** The step an action sends, if any. */
  lemma ActStep(s: Sys, a: Action) returns (sent: bool, op: Op)
    requires Inv(s) && !a.AdminSet?
    ensures Act(s, a).ledger == if sent then Next(s.ledger, op) else s.ledger
    ensures Act(s, a).ops == if sent then s.ops + [op] else s.ops
    ensures sent ==> !op.SetBalance? && (op.Expire? ==> a.ExpireHold?)
    ensures sent && op.Topup? <==> a.AdminTopup? && a.amount > 0
    ensures sent && op.Topup? ==> op == Topup(a.bucket, a.amount)
    ensures sent && op.Reserve? && op.id !in s.ledger.holds && s.ledger.Balance(op.bucket) >= op.estimate ==>
      op.id in Act(s, a).procs && Act(s, a).procs[op.id].fate.Held? && Act(s, a).procs[op.id].req.Scoped() == op.bucket
  {
    match a
    case Arrive(id, req, d) =>
      sent, op := id !in s.procs && Checks(s.mode, req) && !d.NotApplied?, ReserveOp(id, req);
    case Respond(id, up, d) =>
      sent := id in s.procs && s.procs[id].phase.InFlight? && !s.mode.Off? && (up.TransportError? || up.code >= 400) && !d.NotApplied?;
      op := Op.Release(id);
    case BodyEnd(id, _) => sent, op := false, Expire(id);
    case Attempt(id, d) =>
      sent := id in s.procs && s.procs[id].phase.Settling? && !d.NotApplied?;
      op := if sent then Op.Settle(id, s.procs[id].phase.due.actual) else Expire(id);
    case ExpireHold(id) => sent, op := id in s.ledger.holds, Expire(id);
    case AdminTopup(bucket, amount) => sent, op := amount > 0, Topup(bucket, amount);
  }

  /** What the admin handlers let through: a balance that is not negative replaces the old one, a
      positive amount is added, anything else does nothing; requests and holds are untouched. */
  lemma AdminDecides(s: Sys, bucket: Bucket, value: int)
    ensures var t := Act(s, AdminSet(bucket, value));
            && (value < 0 ==> t == s)
            && (value >= 0 ==> t.ledger.Balance(bucket) == value && SameBut(s, t, bucket))
    ensures var t := Act(s, AdminTopup(bucket, value));
            && (value <= 0 ==> t == s)
            && (value > 0 ==> t.ledger.Balance(bucket) == s.ledger.Balance(bucket) + value && SameBut(s, t, bucket))
  {
  }

  ghost predicate SameBut(s: Sys, t: Sys, bucket: Bucket) {
    && t.procs == s.procs && t.log == s.log && t.mode == s.mode && t.ledger.holds == s.ledger.holds
    && forall b :: b != bucket ==> t.ledger.Balance(b) == s.ledger.Balance(b)
  }

  // ---- The log and the ledger ----

  /** By how much the log exceeds the ledger on account of one request. */
  function GapShare(b: Bucket): Proc -> int {
    (p: Proc) => LogShare(b)(p) - ChargeShare(b)(p)
  }

  /** In every run, whatever fails, the log and the ledger differ by what single requests were
      logged and not charged, or charged and not logged. */
  lemma LogGap(mode: Mode, actions: seq<Action>, b: Bucket)
    ensures var s := Run(Init(mode), actions);
            LoggedOn(s.log, b) - ChargedOn(s, b) == Sum(s.procs, GapShare(b))
  {
    ReachableInv(mode, actions);
    SumDifference(Run(Init(mode), actions).procs, LogShare(b), ChargeShare(b), GapShare(b));
  }

  // ---- Runs without failures ----

  /** Every reply arrives, and no hold expires that could still be settled or released. */
  predicate Reliable(s: Sys, a: Action) {
    match a
    case Arrive(_, _, d) => d.Acknowledged?
    case Respond(_, _, d) => d.Acknowledged?
    case Attempt(_, d) => d.Acknowledged?
    case ExpireHold(id) => id in s.procs && s.procs[id].fate.Held? ==> s.procs[id].phase.Passed?
    case _ => true
  }

  predicate AllReliable(s: Sys, actions: seq<Action>)
    decreases actions
  {
    actions == [] || (Reliable(s, actions[0]) && AllReliable(Act(s, actions[0]), actions[1..]))
  }

  /** Without failures the phase of a request with a hold tells the hold's fate; in enforce mode
      only a denied request, or one that names no bucket, has none.  With enforcement off none has
      one, and nothing is ever settled. */
  predicate PhaseTellsFate(mode: Mode, p: Proc) {
    && (p.req.bucket == "" ==> p.fate.NoHold?)
    && (mode.Off? ==> p.fate.NoHold? && (p.phase.InFlight? || p.phase.Passed?))
    && if p.fate.NoHold? then mode.Enforce? && p.req.bucket != "" ==> p.phase.Denied?
       else
         && p.fate.amount == p.req.estimate
         && match p.phase
            case Denied => false
            case Settled(actual) => p.fate.Charged? && p.fate.actual == actual
            case Released => p.fate.Refunded?
            case NotReleased => false
            case Abandoned(_) => false
            case Passed => p.fate.Held? || p.fate.Forfeited?
            case _ => p.fate.Held?
  }

  ghost predicate Smooth(s: Sys) {
    forall id :: id in s.procs ==> PhaseTellsFate(s.mode, s.procs[id])
  }

  /** The request an action is about. */
  predicate About(a: Action, id: RequestId) {
    !a.AdminSet? && !a.AdminTopup? && a.id == id
  }

  lemma OthersUnchanged(s: Sys, a: Action, id: RequestId)
    requires !About(a, id)
    ensures id in Act(s, a).procs <==> id in s.procs
    ensures id in s.procs ==> Act(s, a).procs[id] == s.procs[id]
  {
  }

  lemma ReliableProc(s: Sys, a: Action, id: RequestId)
    requires Inv(s) && Smooth(s) && Reliable(s, a)
    requires About(a, id) && id in Act(s, a).procs
    ensures PhaseTellsFate(s.mode, Act(s, a).procs[id])
  {
    if id in s.procs {
      assert PhaseTellsFate(s.mode, s.procs[id]);
    }
  }

  lemma ReliableAct(s: Sys, a: Action)
    requires Inv(s) && Smooth(s) && Reliable(s, a)
    ensures Smooth(Act(s, a))
  {
    ActKeepsMode(s, a);
    forall id | id in Act(s, a).procs ensures PhaseTellsFate(s.mode, Act(s, a).procs[id]) {
      if About(a, id) {
        ReliableProc(s, a, id);
      } else {
        OthersUnchanged(s, a, id);
        assert PhaseTellsFate(s.mode, s.procs[id]);
      }
    }
  }

  lemma {:induction false} ReliableRun(s: Sys, actions: seq<Action>)
    requires Inv(s) && Smooth(s) && AllReliable(s, actions)
    ensures Smooth(Run(s, actions))
    decreases actions
  {
    if actions != [] {
      ReliableAct(s, actions[0]);
      ActKeepsInv(s, actions[0]);
      ReliableRun(Act(s, actions[0]), actions[1..]);
    }
  }

  lemma ReliableReachable(mode: Mode, actions: seq<Action>)
    requires AllReliable(Init(mode), actions)
    ensures Inv(Run(Init(mode), actions)) && Smooth(Run(Init(mode), actions))
    ensures Run(Init(mode), actions).mode == mode
  {
    ReachableInv(mode, []);
    ReachableInv(mode, actions);
    ReliableRun(Init(mode), actions);
  }

  /** What a request used that had no hold: its reservation was refused, and it was forwarded all
      the same. */
  function UncoveredShare(b: Bucket): Proc -> int {
    (p: Proc) => if p.fate.NoHold? then LogShare(b)(p) else 0
  }

  /** Without failures the log exceeds the ledger exactly by the usage of requests whose
      reservation was refused, in whatever mode. */
  lemma ReliableLogGap(mode: Mode, actions: seq<Action>, b: Bucket)
    requires AllReliable(Init(mode), actions)
    ensures var s := Run(Init(mode), actions);
            LoggedOn(s.log, b) == ChargedOn(s, b) + Sum(s.procs, UncoveredShare(b))
  {
    ReliableReachable(mode, actions);
    var s := Run(Init(mode), actions);
    LogGap(mode, actions, b);
    forall id | id in s.procs ensures GapShare(b)(s.procs[id]) == UncoveredShare(b)(s.procs[id]) {
      assert PhaseTellsFate(s.mode, s.procs[id]) && Compatible(s.procs[id]);
    }
    SumEqual(s.procs, GapShare(b), s.procs, UncoveredShare(b));
  }

  /** In enforce mode, and with enforcement off, without failures, the usage logged on every bucket
      is at every moment what the ledger has charged to it. */
  lemma LogAgreesWithLedger(mode: Mode, actions: seq<Action>, b: Bucket)
    requires !mode.Shadow? && AllReliable(Init(mode), actions)
    ensures var s := Run(Init(mode), actions);
            LoggedOn(s.log, b) == ChargedOn(s, b)
    ensures Sum(Run(Init(mode), actions).procs, UncoveredShare(b)) == 0
  {
    ReliableReachable(mode, actions);
    var s := Run(Init(mode), actions);
    ReliableLogGap(mode, actions, b);
    forall id | id in s.procs ensures UncoveredShare(b)(s.procs[id]) == 0 {
      assert PhaseTellsFate(s.mode, s.procs[id]);
    }
    SumZero(s.procs, UncoveredShare(b));
  }

  ghost predicate NothingUncovered(s: Sys, b: Bucket) {
    forall id :: id in s.procs && s.procs[id].fate.NoHold? ==> LogShare(b)(s.procs[id]) == 0
  }

  /** In any mode, if usages are not negative, log and ledger agree on a bucket exactly if every
      request on it that was settled although its reservation was refused used nothing. */
  lemma LogAgreesExactly(mode: Mode, actions: seq<Action>, b: Bucket)
    requires AllReliable(Init(mode), actions)
    requires var s := Run(Init(mode), actions);
             forall id :: id in s.procs && s.procs[id].phase.Settled? ==> s.procs[id].phase.actual >= 0
    ensures var s := Run(Init(mode), actions);
            LoggedOn(s.log, b) == ChargedOn(s, b) <==> NothingUncovered(s, b)
  {
    var s := Run(Init(mode), actions);
    ReliableLogGap(mode, actions, b);
    if NothingUncovered(s, b) {
      SumZero(s.procs, UncoveredShare(b));
    } else {
      var id :| id in s.procs && s.procs[id].fate.NoHold? && LogShare(b)(s.procs[id]) != 0;
      TermAtMostSum(s.procs, UncoveredShare(b), id);
    }
  }

  /** The sum over the entries of one organisation and bucket. */
  function PairShare(org: string, bucket: string): UsageEvent -> int {
    (e: UsageEvent) => if OrgOrDefault(e.org) == OrgOrDefault(org) && e.bucket == bucket then e.actual else 0
  }

  /** The scoped sum is the sum over the pair, as long as no organisation in the log clashes with
      this one; none does if they have no colon. */
  lemma {:induction false} LogByPair(log: seq<UsageEvent>, org: string, bucket: string)
    requires bucket != "" && forall e :: e in log ==> !Clash(OrgOrDefault(org), OrgOrDefault(e.org))
    ensures LoggedOn(log, ScopedBucketID(org, bucket)) == SeqSum(log, PairShare(org, bucket))
  {
    if log != [] {
      var e := log[0];
      assert e in log;
      if ScopedBucketID(e.org, e.bucket) == ScopedBucketID(org, bucket) {
        ScopedRebuildsBudgetKey(e.org, e.bucket);
        ScopedRebuildsBudgetKey(org, bucket);
        BudgetKeyInjective(org, bucket, e.org, e.bucket);
      }
      LogByPair(log[1..], org, bucket);
    }
  }

  /** A request up to its settlement at `u`. */
  function SettledRun(req: Request, d: Delivery, u: int): seq<Action> {
    [Arrive("r", req, d), Respond("r", Status(200, true), Acknowledged)]
    + [BodyEnd("r", Settlement("settled", u)), Action.Attempt("r", Acknowledged)]
  }

  lemma RunTwo(s: Sys, a: Action, b: Action)
    ensures Run(s, [a, b]) == Act(Act(s, a), b)
  {
    assert [a, b][1..] == [b];
    assert Run(Act(s, a), [b]) == Run(Act(Act(s, a), b), []);
  }

  /** A request that goes on without a hold: denied in shadow mode, or, with enforcement on, one
      whose reservation was lost. */
  predicate Unheld(mode: Mode, req: Request, d: Delivery) {
    req.bucket != "" && !mode.Off? && (d.NotApplied? || (mode.Shadow? && d.Acknowledged? && req.estimate > 0))
  }

  lemma UnheldRunEnds(mode: Mode, req: Request, d: Delivery, u: int)
    requires Unheld(mode, req, d)
    ensures var s := Run(Init(mode), SettledRun(req, d, u));
            s.procs.Keys == {"r"} && s.procs["r"] == Proc(req, 0, d.NotApplied?, Settled(u), NoHold)
  {
    var a := [Arrive("r", req, d), Respond("r", Status(200, true), Acknowledged)];
    var b := [BodyEnd("r", Settlement("settled", u)), Action.Attempt("r", Acknowledged)];
    RunConcat(Init(mode), a, b);
    RunTwo(Init(mode), a[0], a[1]);
    var s2 := Run(Init(mode), a);
    assert s2.procs == map["r" := Proc(req, 0, d.NotApplied?, Reading, NoHold)] && s2.mode == mode;
    RunTwo(s2, b[0], b[1]);
  }

  /** Where the log and the ledger part: a request that went on without a hold, after a denial in
      shadow mode or a lost reservation in any, is logged at its usage and charged nothing. */
  lemma UnheldIsLoggedUncharged(mode: Mode, req: Request, d: Delivery, u: int)
    requires Unheld(mode, req, d)
    ensures var s := Run(Init(mode), SettledRun(req, d, u));
            LoggedOn(s.log, req.Scoped()) == u && ChargedOn(s, req.Scoped()) == 0
  {
    ReachableInv(mode, SettledRun(req, d, u));
    UnheldRunEnds(mode, req, d, u);
    var s := Run(Init(mode), SettledRun(req, d, u));
    SumRemove(s.procs, LogShare(req.Scoped()), "r");
    SumRemove(s.procs, ChargeShare(req.Scoped()), "r");
    assert s.procs - {"r"} == map[];
  }

  ghost predicate LogAgrees(mode: Mode, actions: seq<Action>, b: Bucket) {
    LoggedOn(Run(Init(mode), actions).log, b) == ChargedOn(Run(Init(mode), actions), b)
  }

  lemma SettledRunIsReliable(s: Sys, req: Request, u: int)
    ensures AllReliable(s, SettledRun(req, Acknowledged, u))
  {
    var run := SettledRun(req, Acknowledged, u);
    assert run[1..] == [run[1], run[2], run[3]] && run[1..][1..] == [run[2], run[3]] && run[1..][1..][1..] == [run[3]];
    var s3 := Act(Act(Act(s, run[0]), run[1]), run[2]);
    assert AllReliable(Act(s3, run[3]), []);
    assert AllReliable(s3, [run[3]]);
    assert AllReliable(Act(Act(s, run[0]), run[1]), [run[2], run[3]]);
    assert AllReliable(Act(s, run[0]), [run[1], run[2], run[3]]);
  }

  /** Which modes can be trusted: without failures the log agrees with the ledger on every bucket in
      every run exactly if the mode is not shadow. */
  lemma LogAgreesUnlessShadow(mode: Mode)
    ensures (forall actions: seq<Action>, b: Bucket :: AllReliable(Init(mode), actions) ==> LogAgrees(mode, actions, b))
      <==> !mode.Shadow?
  {
    if mode.Shadow? {
      var req := Request("", "b", 1);
      SettledRunIsReliable(Init(mode), req, 1);
      UnheldIsLoggedUncharged(mode, req, Acknowledged, 1);
      assert !LogAgrees(mode, SettledRun(req, Acknowledged, 1), req.Scoped());
    } else {
      forall actions: seq<Action>, b: Bucket | AllReliable(Init(mode), actions) ensures LogAgrees(mode, actions, b) {
        LogAgreesWithLedger(mode, actions, b);
      }
    }
  }

  // ---- At rest ----

  /** In every reachable state, whatever the mode and whatever failed: a balance with its live holds
      is what was credited less what requests were charged and less the holds that expired. */
  lemma BalanceAccount(mode: Mode, actions: seq<Action>, b: Bucket)
    ensures var s := Run(Init(mode), actions);
            s.ledger.Balance(b) + Sum(s.ledger.holds, ReservedOn(b))
              == Tally(CreditTo(b), EMPTY, s.ops) - Sum(s.procs, ChargeShare(b)) - Sum(s.procs, ForfeitShare(b))
  {
    ReachableInv(mode, actions);
    TokensConserved(EMPTY, Run(Init(mode), actions).ops, b);
  }

  /** Every request was denied, settled or released, or passed on with its hold gone. */
  ghost predicate AtRest(s: Sys) {
    forall id :: id in s.procs ==>
      var p := s.procs[id];
      p.phase.Denied? || p.phase.Settled? || p.phase.Released? || (p.phase.Passed? && !p.fate.Held?)
  }

  /** At rest, without failures, in whatever mode, there are no holds left and every balance is what
      was credited less what the settled requests used, not counting those that shadow mode
      forwarded after a refusal, and less the holds of requests that were answered with neither
      200 nor an error. */
  lemma BalancesAtRest(mode: Mode, actions: seq<Action>, b: Bucket)
    requires AllReliable(Init(mode), actions) && AtRest(Run(Init(mode), actions))
    ensures var s := Run(Init(mode), actions);
            && s.ledger.holds == map[]
            && s.ledger.Balance(b)
               == Tally(CreditTo(b), EMPTY, s.ops)
                  - (Sum(s.procs, LogShare(b)) - Sum(s.procs, UncoveredShare(b))) - Sum(s.procs, ForfeitShare(b))
            && (!mode.Shadow? ==> Sum(s.procs, UncoveredShare(b)) == 0)
            && ((forall id :: id in s.procs ==> !s.procs[id].phase.Passed?) ==> Sum(s.procs, ForfeitShare(b)) == 0)
  {
    ReliableReachable(mode, actions);
    var s := Run(Init(mode), actions);
    NoHoldsAtRest(s);
    BalanceAccount(mode, actions, b);
    ReliableLogGap(mode, actions, b);
    if !mode.Shadow? {
      LogAgreesWithLedger(mode, actions, b);
    }
    if forall id :: id in s.procs ==> !s.procs[id].phase.Passed? {
      forall id | id in s.procs ensures ForfeitShare(b)(s.procs[id]) == 0 {
        assert PhaseTellsFate(s.mode, s.procs[id]);
      }
      SumZero(s.procs, ForfeitShare(b));
    }
  }

  lemma NoHoldsAtRest(s: Sys)
    requires Inv(s) && Smooth(s) && AtRest(s)
    ensures s.ledger.holds == map[]
  {
    forall id ensures id !in s.ledger.holds {
      if id in s.procs {
        assert PhaseTellsFate(s.mode, s.procs[id]);
      }
    }
    assert s.ledger.holds.Keys == {};
  }

  // ---- The same requests in another order ----

  /** The topups of a run that the admin handler lets through. */
  function Topups(actions: seq<Action>): seq<Action> {
    if actions == [] then []
    else if actions[0].AdminTopup? && actions[0].amount > 0 then [actions[0]] + Topups(actions[1..])
    else Topups(actions[1..])
  }

  function AmountOn(b: Bucket): Action -> int {
    (a: Action) => if a.AdminTopup? && a.bucket == b then a.amount else 0
  }

  ghost predicate NoSets(actions: seq<Action>) {
    forall a :: a in actions ==> !a.AdminSet?
  }

  lemma ActCredits(s: Sys, a: Action, b: Bucket)
    requires Inv(s) && !a.AdminSet?
    ensures Tally(CreditTo(b), EMPTY, Act(s, a).ops)
      == Tally(CreditTo(b), EMPTY, s.ops) + (if a.AdminTopup? && a.amount > 0 then AmountOn(b)(a) else 0)
  {
    var sent, op := ActStep(s, a);
    if sent {
      TallyAppend(CreditTo(b), EMPTY, s.ops, [op]);
      assert Tally(CreditTo(b), s.ledger, [op]) == CreditTo(b)(s.ledger, op);
    }
  }

  lemma {:induction false} RunCredits(s: Sys, actions: seq<Action>, b: Bucket)
    requires Inv(s) && NoSets(actions)
    ensures Tally(CreditTo(b), EMPTY, Run(s, actions).ops)
      == Tally(CreditTo(b), EMPTY, s.ops) + SeqSum(Topups(actions), AmountOn(b))
    decreases actions
  {
    if actions != [] {
      ActCredits(s, actions[0], b);
      ActKeepsInv(s, actions[0]);
      RunCredits(Act(s, actions[0]), actions[1..], b);
    }
  }

  /** A bucket has a balance of its own exactly if it was topped up or a hold was taken on it. */
  ghost predicate Touched(s: Sys, b: Bucket) {
    exists id :: id in s.procs && !s.procs[id].fate.NoHold? && s.procs[id].req.Scoped() == b
  }

  ghost predicate ToppedUp(actions: seq<Action>, b: Bucket) {
    exists a :: a in actions && a.AdminTopup? && a.amount > 0 && a.bucket == b
  }

  /** Which step gives a bucket a balance of its own. */
  predicate Grants(l: Ledger, op: Op, b: Bucket) {
    op.Reserve? && op.id !in l.holds && op.bucket == b && l.Balance(b) >= op.estimate
  }

  lemma StepKeys(l: Ledger, op: Op, b: Bucket)
    requires !op.SetBalance?
    requires (op.Settle? || op.Release?) && op.id in l.holds ==> l.holds[op.id].bucket in l.balances
    ensures b in Next(l, op).balances
      <==> b in l.balances || (op.Topup? && op.amount > 0 && op.bucket == b) || Grants(l, op, b)
  {
  }

  lemma TouchedAfter(s: Sys, a: Action, b: Bucket)
    requires Inv(s) && !a.AdminSet?
    ensures Touched(s, b) ==> Touched(Act(s, a), b)
    ensures Touched(Act(s, a), b) && !Touched(s, b) ==> b in Act(s, a).ledger.balances
  {
    var t := Act(s, a);
    if Touched(s, b) {
      var id :| id in s.procs && !s.procs[id].fate.NoHold? && s.procs[id].req.Scoped() == b;
      ActEvolves(s, a, id);
      assert t.procs[id].req.Scoped() == b;
    } else if Touched(t, b) {
      var id :| id in t.procs && !t.procs[id].fate.NoHold? && t.procs[id].req.Scoped() == b;
      if id in s.procs {
        ActEvolves(s, a, id);
      }
    }
  }

  lemma ActTouches(s: Sys, a: Action, b: Bucket)
    requires Inv(s) && !a.AdminSet?
    requires forall c :: Touched(s, c) ==> c in s.ledger.balances
    ensures Touched(Act(s, a), b) ==> b in Act(s, a).ledger.balances
    ensures b in Act(s, a).ledger.balances
      <==> b in s.ledger.balances || Touched(Act(s, a), b) || (a.AdminTopup? && a.amount > 0 && a.bucket == b)
  {
    var sent, op := ActStep(s, a);
    forall id | id in s.ledger.holds ensures s.ledger.holds[id].bucket in s.ledger.balances {
      assert s.procs[id].fate.Held?;
      assert Touched(s, s.ledger.holds[id].bucket);
    }
    if sent {
      StepKeys(s.ledger, op, b);
      if Grants(s.ledger, op, b) {
        assert !Act(s, a).procs[op.id].fate.NoHold?;
        assert Touched(Act(s, a), b);
      }
    }
    TouchedAfter(s, a, b);
  }

  lemma {:induction false} RunTouches(s: Sys, actions: seq<Action>, b: Bucket)
    requires Inv(s) && NoSets(actions)
    requires forall c :: Touched(s, c) ==> c in s.ledger.balances
    ensures b in Run(s, actions).ledger.balances
      <==> b in s.ledger.balances || Touched(Run(s, actions), b) || ToppedUp(actions, b)
    decreases actions
  {
    if actions != [] {
      var t := Act(s, actions[0]);
      forall c ensures Touched(t, c) ==> c in t.ledger.balances {
        ActTouches(s, actions[0], c);
      }
      ActTouches(s, actions[0], b);
      ActKeepsInv(s, actions[0]);
      RunTouches(t, actions[1..], b);
      if Touched(t, b) {
        TouchedStays(t, actions[1..], b);
      }
      assert forall a :: a in actions <==> a == actions[0] || a in actions[1..];
    }
  }

  lemma TouchedStays(s: Sys, actions: seq<Action>, b: Bucket)
    requires Touched(s, b)
    ensures Touched(Run(s, actions), b)
  {
    var id :| id in s.procs && !s.procs[id].fate.NoHold? && s.procs[id].req.Scoped() == b;
    RunEvolves(s, actions, id);
  }

  lemma {:induction false} ToppedUpByTopups(actions: seq<Action>, b: Bucket)
    ensures ToppedUp(actions, b) <==> ToppedUp(Topups(actions), b)
  {
    if actions != [] {
      ToppedUpByTopups(actions[1..], b);
      assert forall a :: a in actions <==> a == actions[0] || a in actions[1..];
    }
  }

  /** The same requests, and the same has become of their holds. */
  predicate SameFates(s: Sys, t: Sys) {
    s.procs.Keys == t.procs.Keys
    && forall id :: id in s.procs ==> s.procs[id].req == t.procs[id].req && s.procs[id].fate == t.procs[id].fate
  }

  /** Two runs without sets, in whatever modes, whatever failed, at rest or not: if they saw the same
      requests and topups and the same has become of every hold, they are in the same ledger, however
      their actions were interleaved. */
  lemma InterleavingIrrelevant(mode: Mode, actions: seq<Action>, mode': Mode, others: seq<Action>)
    requires NoSets(actions) && NoSets(others)
    requires SameFates(Run(Init(mode), actions), Run(Init(mode'), others))
    requires multiset(Topups(actions)) == multiset(Topups(others))
    ensures Run(Init(mode), actions).ledger == Run(Init(mode'), others).ledger
  {
    var s, t := Run(Init(mode), actions), Run(Init(mode'), others);
    ReachableInv(mode, actions);
    ReachableInv(mode', others);
    SameHolds(s, t);
    forall b ensures s.ledger.Balance(b) == t.ledger.Balance(b) && (b in s.ledger.balances <==> b in t.ledger.balances) {
      SameBalance(mode, actions, mode', others, b);
      SameKey(mode, actions, mode', others, b);
    }
    assert s.ledger.balances.Keys == t.ledger.balances.Keys;
    forall b | b in s.ledger.balances ensures s.ledger.balances[b] == t.ledger.balances[b] {
      assert s.ledger.Balance(b) == t.ledger.Balance(b);
    }
    assert s.ledger.balances == t.ledger.balances;
  }

  lemma SameHolds(s: Sys, t: Sys)
    requires Inv(s) && Inv(t) && SameFates(s, t)
    ensures s.ledger.holds == t.ledger.holds
  {
    assert forall id :: id in s.procs <==> id in t.procs;
    assert forall id :: id in s.ledger.holds <==> id in t.ledger.holds;
  }

  lemma SameBalance(mode: Mode, actions: seq<Action>, mode': Mode, others: seq<Action>, b: Bucket)
    requires NoSets(actions) && NoSets(others)
    requires SameFates(Run(Init(mode), actions), Run(Init(mode'), others))
    requires Run(Init(mode), actions).ledger.holds == Run(Init(mode'), others).ledger.holds
    requires multiset(Topups(actions)) == multiset(Topups(others))
    ensures Run(Init(mode), actions).ledger.Balance(b) == Run(Init(mode'), others).ledger.Balance(b)
  {
    var s, t := Run(Init(mode), actions), Run(Init(mode'), others);
    BalanceAccount(mode, actions, b);
    BalanceAccount(mode', others, b);
    ReachableInv(mode, []);
    ReachableInv(mode', []);
    RunCredits(Init(mode), actions, b);
    RunCredits(Init(mode'), others, b);
    SeqSumPermutation(Topups(actions), Topups(others), AmountOn(b));
    SumEqual(s.procs, ChargeShare(b), t.procs, ChargeShare(b));
    SumEqual(s.procs, ForfeitShare(b), t.procs, ForfeitShare(b));
  }

  lemma SameKey(mode: Mode, actions: seq<Action>, mode': Mode, others: seq<Action>, b: Bucket)
    requires NoSets(actions) && NoSets(others)
    requires SameFates(Run(Init(mode), actions), Run(Init(mode'), others))
    requires multiset(Topups(actions)) == multiset(Topups(others))
    ensures b in Run(Init(mode), actions).ledger.balances <==> b in Run(Init(mode'), others).ledger.balances
  {
    ReachableInv(mode, []);
    ReachableInv(mode', []);
    RunTouches(Init(mode), actions, b);
    RunTouches(Init(mode'), others, b);
    ToppedUpByTopups(actions, b);
    ToppedUpByTopups(others, b);
    assert forall a :: a in Topups(actions) <==> a in multiset(Topups(actions));
    assert forall a :: a in Topups(others) <==> a in multiset(Topups(others));
  }

  /** The same requests with the same outcomes, and, which matters in shadow mode only, the same
      ones refused. */
  predicate SameOutcomes(s: Sys, t: Sys) {
    s.procs.Keys == t.procs.Keys
    && forall id :: id in s.procs ==>
         && s.procs[id].req == t.procs[id].req && s.procs[id].phase == t.procs[id].phase
         && (s.mode.Shadow? || t.mode.Shadow? ==> (s.procs[id].fate.NoHold? <==> t.procs[id].fate.NoHold?))
  }

  /** Without failures and at rest, outcomes are enough: in any mode two such runs with the same
      outcome for every request and the same topups end in the same ledger. */
  lemma OutcomesDecide(mode: Mode, actions: seq<Action>, others: seq<Action>)
    requires AllReliable(Init(mode), actions) && AllReliable(Init(mode), others) && NoSets(actions) && NoSets(others)
    requires AtRest(Run(Init(mode), actions)) && AtRest(Run(Init(mode), others))
    requires SameOutcomes(Run(Init(mode), actions), Run(Init(mode), others))
    requires multiset(Topups(actions)) == multiset(Topups(others))
    ensures Run(Init(mode), actions).ledger == Run(Init(mode), others).ledger
  {
    var s, t := Run(Init(mode), actions), Run(Init(mode), others);
    ReliableReachable(mode, actions);
    ReliableReachable(mode, others);
    forall id | id in s.procs ensures s.procs[id].fate == t.procs[id].fate {
      SameFate(mode, s.procs[id], t.procs[id]);
    }
    InterleavingIrrelevant(mode, actions, mode, others);
  }

  lemma SameFate(mode: Mode, p: Proc, q: Proc)
    requires PhaseTellsFate(mode, p) && PhaseTellsFate(mode, q) && p.req == q.req && p.phase == q.phase
    requires p.phase.Denied? || p.phase.Settled? || p.phase.Released? || (p.phase.Passed? && !p.fate.Held? && !q.fate.Held?)
    requires mode.Shadow? ==> (p.fate.NoHold? <==> q.fate.NoHold?)
    ensures p.fate == q.fate
  {
  }
}
