/** What is in the log: one entry for each request that was settled or released, and none other. */
module LogEntries {
  import opened BodyTap
  import opened Keys
  import opened Ledger
  import opened Protocol
  import opened ProtocolInvariant
  import opened RequestCharges
  import opened Retry
  import opened UsageStore

  /** The entry of a request tells its organisation, its bucket, what it carried as reserved, and
      what it was settled at; a released one used nothing. */
  predicate EntryOf(e: UsageEvent, id: RequestId, p: Proc) {
    && e.requestID == id && e.bucket == p.req.bucket && e.reserved == p.carried
    && e.org == (if p.req.org == "" then "default" else p.req.org)
    && match p.phase
       case Settled(actual) => e.actual == actual
       case Released => e.actual == 0 && e.outcome == "released"
       case _ => false
  }

  predicate Ended(phase: Phase) { phase.Settled? || phase.Released? }

  ghost predicate Logged(s: Sys, id: RequestId) {
    exists i :: 0 <= i < |s.log| && s.log[i].requestID == id
  }

  ghost predicate LogInv(s: Sys) {
    && Numbered(s.log)
    && (forall i :: 0 <= i < |s.log| ==>
         s.log[i].requestID in s.procs && EntryOf(s.log[i], s.log[i].requestID, s.procs[s.log[i].requestID]))
    && (forall i, j :: 0 <= i < j < |s.log| ==> s.log[i].requestID != s.log[j].requestID)
    && (forall id :: id in s.procs && Ended(s.procs[id].phase) ==> Logged(s, id))
  }

  /** The retry loop's entry is the protocol's, field by field. */
  lemma LoopLogsAsProtocol(s: Sys, id: RequestId, p: Proc, due: Settlement)
    ensures Log(s, id, p, due.actual, due.outcome).log
      == Appended(s.log, EventFor(Params(id, p.req.org, p.req.bucket, p.carried), due.actual, due.outcome))
  {
  }

  /** An action logs at most one entry, for the request that it settles or releases. */
  lemma ActLogs(s: Sys, a: Action) returns (logs: bool, id: RequestId)
    ensures logs ==> id in s.procs && !Over(s.procs[id].phase) && id in Act(s, a).procs
    ensures logs ==>
      var t := Act(s, a);
      && |t.log| == |s.log| + 1 && t.log[..|s.log|] == s.log && t.log[|s.log|].id == |s.log| + 1
      && EntryOf(t.log[|s.log|], id, t.procs[id])
      && (a.Attempt? ==> t.log[|s.log|].outcome == s.procs[id].phase.due.outcome)
    ensures !logs ==> Act(s, a).log == s.log
    ensures forall j :: j in Act(s, a).procs && Ended(Act(s, a).procs[j].phase) ==>
      (logs && j == id) || (j in s.procs && Ended(s.procs[j].phase))
  {
    logs, id := false, "";
    match a
    case Respond(j, up, d) =>
      if j in s.procs && s.procs[j].phase.InFlight? && !s.mode.Off? && (up.TransportError? || up.code >= 400) && d.Acknowledged? {
        logs, id := true, j;
      }
    case Attempt(j, d) =>
      if j in s.procs && s.procs[j].phase.Settling? && d.Acknowledged? {
        logs, id := true, j;
      }
    case _ =>
  }

  lemma KeepsLogged(s: Sys, t: Sys, logs: bool, id: RequestId)
    requires LogInv(s) && (if logs then |t.log| == |s.log| + 1 && t.log[|s.log|].requestID == id else t.log == s.log)
    requires forall i :: 0 <= i < |s.log| ==> t.log[i] == s.log[i]
    requires forall j :: j in t.procs && Ended(t.procs[j].phase) ==>
      (logs && j == id) || (j in s.procs && Ended(s.procs[j].phase))
    ensures forall j :: j in t.procs && Ended(t.procs[j].phase) ==> Logged(t, j)
  {
    forall j | j in t.procs && Ended(t.procs[j].phase) ensures Logged(t, j) {
      if logs && j == id {
        assert t.log[|s.log|].requestID == j;
      } else {
        assert Logged(s, j);
        var i :| 0 <= i < |s.log| && s.log[i].requestID == j;
        assert t.log[i].requestID == j;
      }
    }
  }

  /** A log that grew by at most one entry, for a request that had none. */
  lemma GrownLog(s: Sys, t: Sys, logs: bool, id: RequestId)
    requires LogInv(s)
    requires if logs then |t.log| == |s.log| + 1 && t.log[|s.log|].id == |s.log| + 1 else |t.log| == |s.log|
    requires logs ==> id in t.procs && EntryOf(t.log[|s.log|], id, t.procs[id])
    requires forall i :: 0 <= i < |s.log| ==>
      && t.log[i] == s.log[i] && s.log[i].requestID in t.procs
      && EntryOf(s.log[i], s.log[i].requestID, t.procs[s.log[i].requestID])
      && (logs ==> s.log[i].requestID != id)
    requires forall j :: j in t.procs && Ended(t.procs[j].phase) ==>
      (logs && j == id) || (j in s.procs && Ended(s.procs[j].phase))
    ensures LogInv(t)
  {
    assert logs ==> t.log[|s.log|].requestID == id;
    KeepsLogged(s, t, logs, id);
  }

  lemma ActKeepsLogInv(s: Sys, a: Action)
    requires LogInv(s)
    ensures LogInv(Act(s, a))
  {
    var logs, id := ActLogs(s, a);
    forall i | 0 <= i < |s.log| ensures OldEntry(s, Act(s, a), logs, id, i) {
      ActKeepsEntry(s, a, logs, id, i);
    }
    assert forall i :: 0 <= i < |s.log| ==> OldEntry(s, Act(s, a), logs, id, i);
    GrownLog(s, Act(s, a), logs, id);
  }

  predicate OldEntry(s: Sys, t: Sys, logs: bool, id: RequestId, i: nat)
    requires i < |s.log|
  {
    && i < |t.log| && t.log[i] == s.log[i] && s.log[i].requestID in t.procs
    && EntryOf(s.log[i], s.log[i].requestID, t.procs[s.log[i].requestID])
    && (logs ==> s.log[i].requestID != id)
  }

  /** An entry stays, and so does the request it is about, which is over. */
  lemma ActKeepsEntry(s: Sys, a: Action, logs: bool, id: RequestId, i: nat)
    requires LogInv(s) && i < |s.log|
    requires logs ==> id in s.procs && !Over(s.procs[id].phase)
    requires if logs then |Act(s, a).log| == |s.log| + 1 && Act(s, a).log[..|s.log|] == s.log else Act(s, a).log == s.log
    ensures OldEntry(s, Act(s, a), logs, id, i)
  {
    assert EntryOf(s.log[i], s.log[i].requestID, s.procs[s.log[i].requestID]);
    ActEvolves(s, a, s.log[i].requestID);
    assert logs ==> Act(s, a).log[..|s.log|][i] == Act(s, a).log[i];
  }

  lemma {:induction false} RunKeepsLogInv(s: Sys, actions: seq<Action>)
    requires LogInv(s)
    ensures LogInv(Run(s, actions))
    decreases actions
  {
    if actions != [] {
      ActKeepsLogInv(s, actions[0]);
      RunKeepsLogInv(Act(s, actions[0]), actions[1..]);
    }
  }

  /** In every run, whatever fails, the log holds exactly one entry for every request that was
      settled or released with acknowledgement, with its fields, and nothing else. */
  lemma OneEntryPerEndedRequest(mode: Mode, actions: seq<Action>)
    ensures var s := Run(Init(mode), actions);
            && (forall i :: 0 <= i < |s.log| ==>
                 s.log[i].id == i + 1 && s.log[i].requestID in s.procs
                 && EntryOf(s.log[i], s.log[i].requestID, s.procs[s.log[i].requestID]))
            && (forall i, j :: 0 <= i < j < |s.log| ==> s.log[i].requestID != s.log[j].requestID)
            && (forall id :: id in s.procs && (s.procs[id].phase.Settled? || s.procs[id].phase.Released?) ==> Logged(s, id))
  {
    RunKeepsLogInv(Init(mode), actions);
  }
}
