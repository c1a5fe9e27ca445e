/** The last phases of a reconciliation: licences are settled, a block is made visible, the task moves on. */
module Concluding {
  import opened Schema
  import opened Queries
  import opened Results
  import opened Reconciliation
  import opened Managed
  import opened Histories
  import opened Evidence
  import opened Preservation
  import opened Relations
  import opened ControlPlane
  import opened Guards
  import opened Lifecycle
  import opened Licences
  import opened Evidencing

  /* ---------- The runs just inserted, read back by key ---------- */

  lemma {:induction false} SpecializedRunsMean(packets: seq<Packet>, first: Uuid)
    requires DistinctRoles(packets)
    ensures forall i :: 0 <= i < |packets| ==>
      packets[i].role in SpecializedRuns(packets, first)
        && SpecializedRuns(packets, first)[packets[i].role] == first + i
  {
    if packets != [] {
      SpecializedRunsMean(Init(packets), first);
      assert forall i :: 0 <= i < |packets| - 1 ==>
        Init(packets)[i] == packets[i] && packets[i].role != Last(packets).role;
    }
  }

  lemma RunFound(db: Tables, t: Uuid, run: RunRow)
    requires TablesOk(db) && t in db.tasks && run in CaseOf(db, t).runs
    ensures FindRun(db.runs, run.id) == Some(run)
  {
    RunsOfMeans(db.runs, t);
    FoundRun(db.runs, run.id);
  }

  predicate HasRun(runs: seq<RunRow>, id: Uuid, round: nat) {
    exists i :: 0 <= i < |runs| && runs[i].id == id && runs[i].round == round
  }

  lemma RunRecorded(d: Draft, packets: seq<Packet>, head: Sha, role: Role)
    requires DistinctRoles(packets) && HasRole(packets, role)
    ensures role in SpecializedRuns(packets, d.next)
    ensures HasRun(WithRoleResults(d, packets, head).file.runs, SpecializedRuns(packets, d.next)[role],
      NextRound(d.file.runs, role))
  {
    var i :| 0 <= i < |packets| && packets[i].role == role;
    SpecializedRunsMean(packets, d.next);
    RoleResultsAdded(d, packets, head);
    assert RunAdded(d, packets[i], i, WithRoleResults(d, packets, head).file.runs[|d.file.runs| + i]);
  }

  /** The run recorded for a role that reported has the round that was next before the evidence. */
  lemma RunReadBack(db: Tables, t: Uuid, d: Draft, packets: seq<Packet>, head: Sha, role: Role)
    requires TablesOk(db) && t in db.tasks && DistinctRoles(packets) && HasRole(packets, role)
    requires CaseOf(db, t).runs == WithRoleResults(d, packets, head).file.runs
    ensures role in SpecializedRuns(packets, d.next)
    ensures var run := FindRun(db.runs, SpecializedRuns(packets, d.next)[role]);
      run.Some? && run.value.round == NextRound(d.file.runs, role)
  {
    RunRecorded(d, packets, head, role);
    var ours, id := CaseOf(db, t).runs, SpecializedRuns(packets, d.next)[role];
    var i :| 0 <= i < |ours| && ours[i].id == id && ours[i].round == NextRound(d.file.runs, role);
    RunFound(db, t, ours[i]);
  }

  /* ---------- Licences ---------- */

  /** The evidence with a completed correction's licences spent. */
  function Resolved(d: Draft, r: LifecycleResult, head: Sha): Draft {
    var e := Evidenced(d, r, head);
    if r.outcome == CorrectionComplete then Draft(e.file.(findings := ResolveLicensed(e.file.findings)), e.next) else e
  }

  lemma CorrectionReports(c: CaseFile, r: LifecycleResult)
    requires WellFormed(r) && RolesFit(c.task.state, HasLicensed(c.findings), r)
    ensures r.outcome == CorrectionComplete ==> HasRole(r.packets, Implementer)
    ensures r.outcome == CorrectionRequired ==> Correctable(c.task.state)
  {
    SoleRole(r.packets, Implementer);
  }

  lemma EvidenceKeepsRoleRuns(d: Draft, r: LifecycleResult, head: Sha)
    ensures Evidenced(d, r, head).file.runs == WithRoleResults(d, r.packets, head).file.runs
  {
    FindingsTouch(WithRoleResults(d, r.packets, head), AllFindings(r), SpecializedRuns(r.packets, d.next),
                  r.runId, CorrectionRound(d.file, r.outcome));
  }

  /** After the evidence, a review still finds no licence and a correction demand one: these guards never fire. */
  lemma EvidenceGuards(d: Draft, r: LifecycleResult, head: Sha)
    requires WellFormed(r) && EarlyGuards(d.file, r, head) && RulingsFit(d.file.task.state, r)
    ensures r.outcome == ReviewApproved ==> !HasLicensed(Evidenced(d, r, head).file.findings)
    ensures r.outcome == CorrectionRequired ==> !NoLicence(AllFindings(r))
    ensures r.outcome == CorrectionComplete ==> HasRole(r.packets, Implementer)
  {
    EvidenceReads(d, r, head);
    CorrectionReports(d.file, r);
    if r.outcome == CorrectionRequired && d.file.task.state == AdversarialReview {
      ArchitectFindingsAreTopLevel(r);
    }
  }

  /** The checks made on what the findings and the log say after the evidence. */
  method CheckEvidence(db: ControlPlaneDatabase, r: LifecycleResult, head: Sha, ghost d0: Draft) returns (ok: bool)
    requires db.Holds(r.taskId) && WellFormed(r) && EarlyGuards(d0.file, r, head) && RulingsFit(d0.file.task.state, r)
    requires db.View(r.taskId) == Evidenced(d0, r, head)
    ensures ok <==> AcceptancesFit(d0.file.events, r.outcome, head)
  {
    EvidenceGuards(d0, r, head);
    EvidenceReads(d0, r, head);
    if r.outcome == ReviewApproved && HasLicensed(db.View(r.taskId).file.findings) {
      return false;
    }
    ok := CheckAcceptances(db, r.taskId, r.outcome, head);
    if !ok {
      return;
    }
    if r.outcome == CorrectionRequired && NoLicence(AllFindings(r)) {
      return false;
    }
  }

  lemma ResolutionsUnmoved(d: Draft, r: LifecycleResult, head: Sha)
    requires WellFormed(r) && EarlyGuards(d.file, r, head) && RulingsFit(d.file.task.state, r)
    requires r.outcome == CorrectionComplete
    ensures var e := Evidenced(d, r, head);
      ResolutionsFit(d.file, r) <==>
        NamesExactly(r.requested, e.file.findings) && LicensedAt(e.file.findings, NextRound(d.file.runs, Implementer))
  {
    EvidenceReads(d, r, head);
  }

  /** A completed correction's resolutions, at the round its IMPLEMENTER run was given. */
  method SettleRequested(
      db: ControlPlaneDatabase, r: LifecycleResult, specialized: map<Role, Uuid>, head: Sha, ghost s0: Tables,
      ghost d0: Draft)
    returns (ok: bool)
    requires db.Holds(r.taskId) && WellFormed(r) && EarlyGuards(d0.file, r, head) && RulingsFit(d0.file.task.state, r)
    requires Became(s0, db.Rows(), r.taskId, Evidenced(d0, r, head))
    requires specialized == SpecializedRuns(r.packets, d0.next)
    modifies db
    ensures ok <==> ResolutionsFit(d0.file, r)
    ensures ok ==> Became(s0, db.Rows(), r.taskId, Resolved(d0, r, head))
  {
    if r.outcome != CorrectionComplete {
      return r.requested == [];
    }
    ghost var s1, e := db.Rows(), Evidenced(d0, r, head);
    ResolutionsUnmoved(d0, r, head);
    CorrectionReports(d0.file, r);
    EvidenceKeepsRoleRuns(d0, r, head);
    RunReadBack(db.Rows(), r.taskId, d0, r.packets, head, Implementer);
    var round := FindRun(db.runs, specialized[Implementer]).value.round;
    ok := ResolveRequested(db, r.taskId, r.requested, round);
    if ok {
      BecameTransitive(s0, s1, db.Rows(), r.taskId, e, Resolved(d0, r, head));
    }
  }

  /* ---------- A blocked attempt ---------- */

  /** The round a blocked IMPLEMENTER with licences is about to use up. */
  function BlockedRound(c: CaseFile, r: LifecycleResult): Option<nat> {
    if r.outcome == Blocked && HasLicensed(c.findings) && HasRole(r.packets, Implementer)
    then Some(NextRound(c.runs, Implementer)) else None
  }

  lemma MovingNothing(findings: seq<FindingRow>, round: nat)
    requires !HasLicensed(findings)
    ensures MoveLicensed(findings, round) == findings
  {
    MovingKeepsEveryLicence(findings, round);
  }

  /** What a blocked attempt settles to: the fallback blocker first, then the licences moved on. */
  lemma SettledWhenBlocked(d: Draft, r: LifecycleResult, head: Sha)
    requires WellFormed(r) && EarlyGuards(d.file, r, head) && RulingsFit(d.file.task.state, r) && r.outcome == Blocked
    ensures var s := Stopped(Evidenced(d, r, head), r);
      Settled(d, r, head) ==
        if BlockedRound(d.file, r).Some?
        then Draft(s.file.(findings := MoveLicensed(s.file.findings, NextRound(s.file.runs, Implementer))), s.next)
        else s
  {
    EvidenceReads(d, r, head);
    var e := Evidenced(d, r, head);
    if !HasLicensed(d.file.findings) {
      MovingNothing(e.file.findings, NextRound(e.file.runs, Implementer));
    }
  }

  /** A blocked attempt leaves some open blocker, made from its evidence if no finding raised one. */
  method EnsureBlocked(db: ControlPlaneDatabase, r: LifecycleResult, ghost s0: Tables, ghost d: Draft)
    requires db.Holds(r.taskId) && Became(s0, db.Rows(), r.taskId, d)
    modifies db
    ensures Became(s0, db.Rows(), r.taskId, Stopped(d, r))
  {
    if r.outcome == Blocked && !HasOpenBlocker(db.View(r.taskId).file.blockers) {
      ghost var s1 := db.Rows();
      var _ := db.InsertBlocker(r.taskId, Infrastructure, Results.Evidence(r.packets, r.summary));
      BecameTransitive(s0, s1, db.Rows(), r.taskId, d, Stopped(d, r));
    }
  }

  lemma StoppedIsBlocked(d: Draft, r: LifecycleResult)
    requires r.outcome == Blocked
    ensures HasOpenBlocker(Stopped(d, r).file.blockers)
  {
    var after := Stopped(d, r).file.blockers;
    if !HasOpenBlocker(d.file.blockers) {
      assert after[|d.file.blockers|].open;
    }
  }

  /** Stopped, a blocked IMPLEMENTER's case still shows the licences read before the evidence, at the round it used. */
  lemma StoppedReads(d: Draft, r: LifecycleResult, head: Sha, stopped: Draft, round: nat)
    requires WellFormed(r) && EarlyGuards(d.file, r, head) && RulingsFit(d.file.task.state, r)
    requires stopped == Stopped(Evidenced(d, r, head), r) && BlockedRound(d.file, r) == Some(round)
    ensures HasRole(r.packets, Implementer) && round == NextRound(d.file.runs, Implementer)
    ensures stopped.file.runs == WithRoleResults(d, r.packets, head).file.runs
    ensures LicensedRows(stopped.file.findings) == LicensedRows(d.file.findings)
    ensures HasLicensed(stopped.file.findings) && LicensedAt(stopped.file.findings, round)
  {
    EvidenceReads(d, r, head);
    EvidenceKeepsRoleRuns(d, r, head);
  }

  /** The licences of a blocked IMPLEMENTER, as read before the evidence, move to its next round. */
  method MoveOn(
      db: ControlPlaneDatabase, r: LifecycleResult, specialized: map<Role, Uuid>, rows: seq<FindingRow>, round: nat,
      head: Sha, ghost s0: Tables, ghost d0: Draft)
    returns (ok: bool)
    requires db.Holds(r.taskId) && WellFormed(r) && EarlyGuards(d0.file, r, head) && RulingsFit(d0.file.task.state, r)
    requires Became(s0, db.Rows(), r.taskId, Stopped(Evidenced(d0, r, head), r))
    requires specialized == SpecializedRuns(r.packets, d0.next)
    requires rows == LicensedRows(d0.file.findings) && BlockedRound(d0.file, r) == Some(round)
    modifies db
    ensures ok
    ensures Became(s0, db.Rows(), r.taskId, Settled(d0, r, head))
  {
    ghost var s1, stopped, settled := db.Rows(), db.View(r.taskId), Settled(d0, r, head);
    StoppedReads(d0, r, head, stopped, round);
    SettledWhenBlocked(d0, r, head);
    RunReadBack(s1, r.taskId, d0, r.packets, head, Implementer);
    if FindRun(db.runs, specialized[Implementer]).value.round != round {
      return false;
    }
    assert Draft(stopped.file.(findings :=
      MoveLicensed(stopped.file.findings, NextRound(stopped.file.runs, Implementer))),
                 stopped.next) == settled;
    ok := RolloverBlockedCorrection(db, r.taskId, rows, specialized[Implementer]);
    BecameTransitive(s0, s1, db.Rows(), r.taskId, stopped, settled);
  }

  /** Blocked or not, what is left after this phase is the settled draft. */
  method SettleBlock(
      db: ControlPlaneDatabase, r: LifecycleResult, specialized: map<Role, Uuid>, rows: seq<FindingRow>,
      blocked: Option<nat>,
      head: Sha, ghost s0: Tables, ghost d0: Draft)
    returns (ok: bool)
    requires db.Holds(r.taskId) && WellFormed(r) && EarlyGuards(d0.file, r, head) && RulingsFit(d0.file.task.state, r)
    requires Became(s0, db.Rows(), r.taskId, Resolved(d0, r, head))
    requires specialized == SpecializedRuns(r.packets, d0.next)
    requires rows == LicensedRows(d0.file.findings) && blocked == BlockedRound(d0.file, r)
    modifies db
    ensures ok
    ensures Became(s0, db.Rows(), r.taskId, Settled(d0, r, head))
  {
    EnsureBlocked(db, r, s0, Resolved(d0, r, head));
    if r.outcome == Blocked {
      StoppedIsBlocked(Evidenced(d0, r, head), r);
      SettledWhenBlocked(d0, r, head);
      if !HasOpenBlocker(db.View(r.taskId).file.blockers) {
        return false;
      }
      if blocked.Some? {
        ok := MoveOn(db, r, specialized, rows, blocked.value, head, s0, d0);
        return;
      }
    }
    ok := true;
  }

  /* ---------- The task moves on ---------- */

  method MoveHead(db: ControlPlaneDatabase, r: LifecycleResult, head: Sha, implementing: bool)
    requires db.Holds(r.taskId)
    requires !implementing ==> head == SelectedHead(db.View(r.taskId).file.task)
    modifies db
    ensures Became(old(db.Rows()), db.Rows(), r.taskId,
      Draft(Moved(old(db.View(r.taskId)).file, r, head), old(db.next)))
  {
    var t := r.taskId;
    ghost var s0 := db.Rows();
    BecameSelf(s0, t);
    if implementing && SelectedHead(db.tasks[t]) != head {
      db.UpdateTask(t, db.tasks[t].(currentHead := Some(head)));
      ghost var s1, d1 := db.Rows(), db.View(t);
      db.InsertEvent(t, HeadChanged(head), Some(r.runId));
      BecameTransitive(s0, s1, db.Rows(), t, d1, db.View(t));
    }
  }

  method MoveState(db: ControlPlaneDatabase, r: LifecycleResult)
    requires db.Holds(r.taskId)
    modifies db
    ensures var c := old(db.View(r.taskId)).file;
      Became(old(db.Rows()), db.Rows(), r.taskId,
             Draft(c.(task := c.task.(state := NextState(r.outcome, c.task.state))), old(db.next)))
  {
    BecameSelf(db.Rows(), r.taskId);
    if r.outcome != Blocked && r.outcome != CorrectionRequired {
      var task := db.tasks[r.taskId];
      db.UpdateTask(r.taskId, task.(state := NextState(r.outcome, task.state)));
    }
  }

  /** The acceptance an outcome records, and the run it is recorded under. */
  function Acceptance(r: LifecycleResult, head: Sha, specialized: map<Role, Uuid>): Option<(Occurrence, Uuid)> {
    match r.outcome
    case ReviewApproved => Some((ReviewAccepted(head), RunOf(specialized, Reviewer, r.runId)))
    case AdversaryPass => Some((AdversaryAccepted(head), RunOf(specialized, Adversary, r.runId)))
    case ValidationPass => Some((Occurrence.ValidationPassed(head), r.runId))
    case _ => None
  }

  lemma AdvancedIs(c: CaseFile, r: LifecycleResult, head: Sha, specialized: map<Role, Uuid>)
    ensures var c1 := c.(task := c.task.(state := NextState(r.outcome, c.task.state)));
      var acceptance := Acceptance(r, head, specialized);
      Advanced(c, r, head, specialized) ==
        if acceptance.Some? then WithEvent(c1, acceptance.value.0, Some(acceptance.value.1)) else c1
  {
  }

  method Advance(db: ControlPlaneDatabase, r: LifecycleResult, head: Sha, specialized: map<Role, Uuid>)
    requires db.Holds(r.taskId)
    modifies db
    ensures Became(old(db.Rows()), db.Rows(), r.taskId,
                   Draft(Advanced(old(db.View(r.taskId)).file, r, head, specialized), old(db.next)))
  {
    ghost var s0 := db.Rows();
    AdvancedIs(db.View(r.taskId).file, r, head, specialized);
    ghost var after := Draft(Advanced(db.View(r.taskId).file, r, head, specialized), db.next);
    MoveState(db, r);
    ghost var s1, d1 := db.Rows(), db.View(r.taskId);
    var acceptance := Acceptance(r, head, specialized);
    if acceptance.Some? {
      db.InsertEvent(r.taskId, acceptance.value.0, Some(acceptance.value.1));
      BecameTransitive(s0, s1, db.Rows(), r.taskId, d1, after);
    }
  }

  method CheckMarker(body: string) returns (ok: bool)
    ensures ok <==> WORKPAD_MARKER <= body
  {
    ok := |WORKPAD_MARKER| <= |body| && body[..|WORKPAD_MARKER|] == WORKPAD_MARKER;
  }

  /** The compare-and-set on the workpad: its version must still be the expected one. */
  method RewriteWorkpad(db: ControlPlaneDatabase, r: LifecycleResult) returns (ok: bool)
    requires db.Holds(r.taskId)
    modifies db
    ensures var c := old(db.View(r.taskId)).file;
      ok <==> c.workpad.Some? && c.workpad.value.version == r.expectedVersion
    ensures ok ==> Became(old(db.Rows()), db.Rows(), r.taskId,
                          Draft(Rewritten(old(db.View(r.taskId)).file, r.workpadBody), old(db.next)))
  {
    var t := r.taskId;
    if t !in db.workpads || db.workpads[t].version != r.expectedVersion {
      return false;
    }
    ghost var c := db.View(t).file;
    assert Rewritten(c, r.workpadBody) == c.(workpad := Some(Workpad(r.workpadBody, r.expectedVersion + 1)));
    db.WriteWorkpad(t, Workpad(r.workpadBody, r.expectedVersion + 1));
    ok := true;
  }
}
