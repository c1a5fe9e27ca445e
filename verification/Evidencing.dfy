/** The evidence phase of a reconciliation: role runs, findings and their blockers, written row by row. */
module Evidencing {
  import opened Schema
  import opened Queries
  import opened Results
  import opened Reconciliation
  import opened Managed
  import opened Histories
  import opened Evidence
  import opened Relations
  import opened ControlPlane
  import opened Guards
  import opened Lifecycle
  import opened Licences

  /** The runs of the first k packets are in, and their heads agreed with Git's. */
  predicate Reported(
      s0: Tables, d0: Draft, db: Tables, t: Uuid, packets: seq<Packet>, head: Sha, specialized: map<Role, Uuid>) {
    && Became(s0, db, t, WithRoleResults(d0, packets, head))
    && specialized == SpecializedRuns(packets, d0.next)
    && HeadsAgree(packets, head)
  }

  lemma ReportStep(d: Draft, packets: seq<Packet>, k: nat, head: Sha)
    requires k < |packets|
    ensures WithRoleResults(d, packets[..k + 1], head) ==
      WithRoleResult(WithRoleResults(d, packets[..k], head), packets[k], head)
    ensures WithRoleResults(d, packets[..k], head).next == d.next + k
    ensures HeadsAgree(packets[..k + 1], head) <==>
      HeadsAgree(packets[..k], head) && packets[k].head in {None, Some(head)}
    ensures !HeadsAgree(packets[..k + 1], head) ==> !HeadsAgree(packets, head)
  {
    TakeOneMore(packets, k);
    RoleResultsTouch(d, packets[..k], head);
    assert packets[..k + 1][k] == packets[k];
  }

  lemma OneMoreRun(packets: seq<Packet>, k: nat, first: Uuid, runs: map<Role, Uuid>, id: Uuid)
    requires k < |packets| && id == first + k && runs == SpecializedRuns(packets[..k], first)
    ensures runs[packets[k].role := id] == SpecializedRuns(packets[..k + 1], first)
  {
    TakeOneMore(packets, k);
  }

  lemma ReportedMore(
      s0: Tables, d0: Draft, s1: Tables, s2: Tables, t: Uuid, packets: seq<Packet>, k: nat, head: Sha,
      specialized: map<Role, Uuid>, id: Uuid)
    requires k < |packets| && packets[k].head in {None, Some(head)}
    requires Reported(s0, d0, s1, t, packets[..k], head, specialized)
    requires id == s1.next && Became(s1, s2, t, WithRoleResult(DraftOf(s1, t), packets[k], head))
    ensures Reported(s0, d0, s2, t, packets[..k + 1], head, specialized[packets[k].role := id])
  {
    ReportStep(d0, packets, k, head);
    var d1, d2 := WithRoleResults(d0, packets[..k], head), WithRoleResults(d0, packets[..k + 1], head);
    assert DraftOf(s1, t) == d1 && d2 == WithRoleResult(d1, packets[k], head);
    BecameTransitive(s0, s1, s2, t, d1, d2);
    OneMoreRun(packets, k, d0.next, specialized, id);
  }

  /** The specialized runs, one per packet, each packet's head checked against Git's first. */
  method InsertRoleResults(db: ControlPlaneDatabase, t: Uuid, packets: seq<Packet>, head: Sha)
    returns (ok: bool, specialized: map<Role, Uuid>)
    requires db.Holds(t)
    modifies db
    ensures ok <==> HeadsAgree(packets, head)
    ensures ok ==> specialized == SpecializedRuns(packets, old(db.next))
    ensures ok ==> Became(old(db.Rows()), db.Rows(), t, WithRoleResults(old(db.View(t)), packets, head))
  {
    ghost var s0, d0 := db.Rows(), db.View(t);
    specialized := map[];
    BecameSelf(s0, t);
    for k := 0 to |packets|
      invariant db.Holds(t)
      invariant Reported(s0, d0, db.Rows(), t, packets[..k], head, specialized)
    {
      ReportStep(d0, packets, k, head);
      if packets[k].head.Some? && packets[k].head != Some(head) {
        return false, specialized;
      }
      ghost var s1 := db.Rows();
      var id := InsertRoleResult(db, t, packets[k], head);
      ReportedMore(s0, d0, s1, db.Rows(), t, packets, k, head, specialized, id);
      specialized := specialized[packets[k].role := id];
    }
    TakeAll(packets);
    ok := true;
  }

  /** All findings, each under the run of its role or else under the Architect's. */
  method InsertFindings(
      db: ControlPlaneDatabase, t: Uuid, fs: seq<Finding>, specialized: map<Role, Uuid>, architect: Uuid,
      round: Option<nat>)
    requires db.Holds(t) && forall k :: 0 <= k < |fs| ==> KindMatches(fs[k])
    modifies db
    ensures Became(old(db.Rows()), db.Rows(), t, WithFindings(old(db.View(t)), fs, specialized, architect, round))
  {
    ghost var s0, d0 := db.Rows(), db.View(t);
    BecameSelf(s0, t);
    for k := 0 to |fs|
      invariant db.Holds(t)
      invariant Became(s0, db.Rows(), t, WithFindings(d0, fs[..k], specialized, architect, round))
    {
      TakeOneMore(fs, k);
      ghost var s1, d1 := db.Rows(), db.View(t);
      var runId := RunOf(specialized, fs[k].role, architect);
      InsertFinding(db, t, runId, fs[k], round);
      BecameTransitive(s0, s1, db.Rows(), t, d1, WithFinding(d1, fs[k], runId, round));
    }
    TakeAll(fs);
  }

  /** Adding evidence does not change which acceptances are current. */
  lemma {:induction false} AcceptancesUnmoved(events: seq<EventRow>, longer: seq<EventRow>, what: Occurrence)
    requires Extends(events, longer) && !Neutral(what) && !what.HeadChanged?
    ensures CurrentAcceptance(longer, what) <==> CurrentAcceptance(events, what)
    decreases |longer|
  {
    if |longer| == |events| {
      assert longer == events;
    } else {
      assert events <= Init(longer);
      AcceptancesUnmoved(events, Init(longer), what);
      AcceptanceStep(longer, what);
    }
  }

  method CheckAcceptances(db: ControlPlaneDatabase, t: Uuid, outcome: Outcome, head: Sha) returns (ok: bool)
    requires db.Holds(t)
    ensures ok <==> AcceptancesFit(db.View(t).file.events, outcome, head)
  {
    var events := db.View(t).file.events;
    if outcome in {AdversaryPass, ValidationPass, ArchiveComplete} {
      var reviewed := FindAcceptance(events, ReviewAccepted(head));
      if !reviewed {
        return false;
      }
    }
    if outcome in {ValidationPass, ArchiveComplete} {
      var passed := FindAcceptance(events, AdversaryAccepted(head));
      if !passed {
        return false;
      }
    }
    ok := true;
  }

  /** The evidence phase: runs, then the checks on rulings, then findings with their blockers. */
  method WriteEvidence(
      db: ControlPlaneDatabase, r: LifecycleResult, head: Sha)
    returns (ok: bool, specialized: map<Role, Uuid>)
    requires db.Holds(r.taskId) && WellFormed(r)
    modifies db
    ensures ok <==> HeadsAgree(r.packets, head) && RulingsFit(old(db.View(r.taskId)).file.task.state, r)
    ensures ok ==> specialized == SpecializedRuns(r.packets, old(db.next))
    ensures ok ==> Became(old(db.Rows()), db.Rows(), r.taskId, Evidenced(old(db.View(r.taskId)), r, head))
  {
    var t := r.taskId;
    ghost var s0, d0 := db.Rows(), db.View(t);
    var state := db.tasks[t].state;
    var round := CorrectionRound(db.View(t).file, r.outcome);
    ok, specialized := InsertRoleResults(db, t, r.packets, head);
    if !ok {
      return;
    }
    ok := CheckRulings(state, r);
    if !ok {
      return;
    }
    ghost var s1, d1 := db.Rows(), db.View(t);
    AllKindsMatch(r);
    InsertFindings(db, t, AllFindings(r), specialized, r.runId, round);
    BecameTransitive(s0, s1, db.Rows(), t, d1, WithFindings(d1, AllFindings(r), specialized, r.runId, round));
  }

  lemma AllKindsMatch(r: LifecycleResult)
    requires WellFormed(r)
    ensures forall k :: 0 <= k < |AllFindings(r)| ==> KindMatches(AllFindings(r)[k])
  {
    PacketFindingsSpeakForPackets(r.packets);
    assert forall k :: 0 <= k < |r.findings| ==> AllFindings(r)[k] == r.findings[k];
    assert forall k :: |r.findings| <= k < |AllFindings(r)| ==>
      AllFindings(r)[k] == PacketFindings(r.packets)[k - |r.findings|];
  }

  /** The evidence leaves licences, acceptances and the implementer's round where the checks expect them. */
  lemma EvidenceReads(d: Draft, r: LifecycleResult, head: Sha)
    requires WellFormed(r) && HeadFits(d.file, r, head) && RulingsFit(d.file.task.state, r)
    requires RolesFit(d.file.task.state, HasLicensed(d.file.findings), r)
    ensures var e := Evidenced(d, r, head);
      && e.file.task == d.file.task && e.file.workpad == d.file.workpad
      && (AcceptancesFit(e.file.events, r.outcome, head) <==> AcceptancesFit(d.file.events, r.outcome, head))
      && (r.outcome != CorrectionRequired ==>
            && LicensedIds(e.file.findings) == LicensedIds(d.file.findings)
            && LicensedRows(e.file.findings) == LicensedRows(d.file.findings)
            && (HasLicensed(e.file.findings) <==> HasLicensed(d.file.findings))
            && forall n: nat :: LicensedAt(e.file.findings, n) <==> LicensedAt(d.file.findings, n))
  {
    var w := WithRoleResults(d, r.packets, head);
    var all, runs, round := AllFindings(r), SpecializedRuns(r.packets, d.next), CorrectionRound(d.file, r.outcome);
    RoleResultsTouch(d, r.packets, head);
    FindingsTouch(w, all, runs, r.runId, round);
    FindingsLicense(w, all, runs, r.runId, round);
    if NoLicence(all) {
      UnlicensedRowsKept(w, all, runs, r.runId, round);
    }
    ExtendsTransitive(d.file.events, w.file.events, Evidenced(d, r, head).file.events);
    AcceptancesUnmoved(d.file.events, Evidenced(d, r, head).file.events, ReviewAccepted(head));
    AcceptancesUnmoved(d.file.events, Evidenced(d, r, head).file.events, AdversaryAccepted(head));
  }

  lemma {:induction false} UnlicensedRowsKept(
      d: Draft, fs: seq<Finding>, runs: map<Role, Uuid>, architect: Uuid, round: Option<nat>)
    requires NoLicence(fs)
    ensures LicensedRows(WithFindings(d, fs, runs, architect, round).file.findings) == LicensedRows(d.file.findings)
  {
    if fs != [] {
      NoneBlockingStep(fs);
      UnlicensedRowsKept(d, Init(fs), runs, architect, round);
      var mid := WithFindings(d, Init(fs), runs, architect, round);
      FindingStep(mid, Last(fs), RunOf(runs, Last(fs).role, architect), round);
      InitOfAppend(mid.file.findings, Last(WithFindings(d, fs, runs, architect, round).file.findings));
    }
  }
}
