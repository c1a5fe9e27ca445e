/** Reconciling one hostile result in one transaction, and the other ways an attempt begins or ends. */
module Broker {
  import opened Schema
  import opened Queries
  import opened Results
  import opened Reconciliation
  import opened Managed
  import opened Histories
  import opened Evidence
  import opened Invariants
  import opened Preservation
  import opened Relations
  import opened ControlPlane
  import opened Guards
  import opened Lifecycle
  import opened Licences
  import opened Evidencing
  import opened Concluding

  /** Every guard that comes before the first write. */
  method CheckEarly(db: ControlPlaneDatabase, r: LifecycleResult, head: Sha) returns (ok: bool)
    requires TablesOk(db.Rows())
    ensures ok <==> r.taskId in db.tasks && EarlyGuards(db.View(r.taskId).file, r, head)
  {
    ok := CheckCurrent(db, r);
    if !ok {
      return;
    }
    var c := db.View(r.taskId).file;
    ok := CheckRoles(c.task.state, HasLicensed(c.findings), r);
    if !ok {
      return;
    }
    ok := CheckVerdicts(r);
    if !ok {
      return;
    }
    ok := CheckHead(c, r, head);
  }

  /** The evidence, the checks made on it, and the licences: what is left is the settled draft. */
  method Settle(
      db: ControlPlaneDatabase, r: LifecycleResult, head: Sha)
    returns (ok: bool, specialized: map<Role, Uuid>)
    requires db.Holds(r.taskId) && WellFormed(r) && EarlyGuards(db.View(r.taskId).file, r, head)
    modifies db
    ensures var c := old(db.View(r.taskId)).file;
      ok <==> HeadsAgree(r.packets, head) && RulingsFit(c.task.state, r)
              && AcceptancesFit(c.events, r.outcome, head) && ResolutionsFit(c, r)
    ensures ok ==> specialized == SpecializedRuns(r.packets, old(db.next))
    ensures ok ==> Became(old(db.Rows()), db.Rows(), r.taskId, Settled(old(db.View(r.taskId)), r, head))
  {
    ghost var s0, d0 := db.Rows(), db.View(r.taskId);
    var c := db.View(r.taskId).file;
    var rows, blocked := LicensedRows(c.findings), BlockedRound(c, r);
    ok, specialized := WriteEvidence(db, r, head);
    if !ok {
      return;
    }
    ok := CheckEvidence(db, r, head, d0);
    if !ok {
      return;
    }
    ok := SettleRequested(db, r, specialized, head, s0, d0);
    if !ok {
      return;
    }
    ok := SettleBlock(db, r, specialized, rows, blocked, head, s0, d0);
  }

  /** The head and the state move. */
  method MoveOnward(
      db: ControlPlaneDatabase, r: LifecycleResult, specialized: map<Role, Uuid>, head: Sha, implementing: bool)
    requires db.Holds(r.taskId)
    requires !implementing ==> head == SelectedHead(db.View(r.taskId).file.task)
    modifies db
    ensures Became(old(db.Rows()), db.Rows(), r.taskId,
                   Draft(Advanced(Moved(old(db.View(r.taskId)).file, r, head), r, head, specialized), old(db.next)))
  {
    ghost var s0 := db.Rows();
    MoveHead(db, r, head, implementing);
    ghost var s1, d1 := db.Rows(), db.View(r.taskId);
    Advance(db, r, head, specialized);
    BecameTransitive(s0, s1, db.Rows(), r.taskId, d1, Draft(Advanced(d1.file, r, head, specialized), d1.next));
  }

  /** The attempt finishes, and the workpad is rewritten under its version. */
  method EndAttempt(db: ControlPlaneDatabase, r: LifecycleResult, head: Sha) returns (ok: bool)
    requires db.Holds(r.taskId) && HasStarted(db.View(r.taskId).file.runs, r.runId)
    requires var w := db.View(r.taskId).file.workpad; w.Some? && w.value.version == r.expectedVersion
    modifies db
    ensures ok <==> WORKPAD_MARKER <= r.workpadBody
    ensures ok ==> Became(old(db.Rows()), db.Rows(), r.taskId,
                          Draft(Rewritten(FinishArchitect(old(db.View(r.taskId)).file, r.runId, Finished, r.summary,
                            head), r.workpadBody),
                                old(db.next)))
  {
    ghost var s0 := db.Rows();
    ok := Finish(db, r.taskId, r.runId, Finished, r.summary, head);
    ghost var s1, d1 := db.Rows(), db.View(r.taskId);
    ok := CheckMarker(r.workpadBody);
    if !ok {
      return;
    }
    ok := RewriteWorkpad(db, r);
    BecameTransitive(s0, s1, db.Rows(), r.taskId, d1, Draft(Rewritten(d1.file, r.workpadBody), d1.next));
  }

  lemma OnwardKeepsAttempt(c: CaseFile, r: LifecycleResult, head: Sha, runs: map<Role, Uuid>)
    ensures var after := Advanced(Moved(c, r, head), r, head, runs);
      after.runs == c.runs && after.workpad == c.workpad && after.task.id == c.task.id
  {
  }

  method Conclude(
      db: ControlPlaneDatabase, r: LifecycleResult, specialized: map<Role, Uuid>, head: Sha, implementing: bool)
    returns (ok: bool)
    requires db.Holds(r.taskId) && HasStarted(db.View(r.taskId).file.runs, r.runId)
    requires !implementing ==> head == SelectedHead(db.View(r.taskId).file.task)
    requires var w := db.View(r.taskId).file.workpad; w.Some? && w.value.version == r.expectedVersion
    modifies db
    ensures ok <==> WORKPAD_MARKER <= r.workpadBody
    ensures ok ==> Became(old(db.Rows()), db.Rows(), r.taskId,
                          Draft(Concluded(old(db.View(r.taskId)).file, r, head, specialized), old(db.next)))
  {
    ghost var s0 := db.Rows();
    OnwardKeepsAttempt(db.View(r.taskId).file, r, head, specialized);
    ghost var after := Draft(Concluded(db.View(r.taskId).file, r, head, specialized), db.next);
    MoveOnward(db, r, specialized, head, implementing);
    ghost var s1, d1 := db.Rows(), db.View(r.taskId);
    ok := EndAttempt(db, r, head);
    if ok {
      BecameTransitive(s0, s1, db.Rows(), r.taskId, d1, after);
    }
  }

  /** The settled draft still has the attempt, the workpad and the task it started from. */
  lemma SettledKeeps(d: Draft, r: LifecycleResult, head: Sha)
    requires RowsOwned(d)
    ensures var s := Settled(d, r, head);
      && s.file.task == d.file.task && s.file.workpad == d.file.workpad
      && (HasStarted(d.file.runs, r.runId) ==> HasStarted(s.file.runs, r.runId))
  {
    SettlingFrame(d, r, head);
    SettlingKeepsRoleRuns(d, r, head);
    RoleResultsTouch(d, r.packets, head);
    if HasStarted(d.file.runs, r.runId) {
      HasStartedGrows(d.file.runs, Settled(d, r, head).file.runs, r.runId);
    }
  }

  predicate Implementing(c: CaseFile, r: LifecycleResult) {
    (c.task.state == Planned || (Correctable(c.task.state) && HasLicensed(c.findings)))
      && HasRole(r.packets, Implementer)
  }

  /** The body of the transaction: checks between writes, stopping at the first that fails. */
  method ReconcileBody(db: ControlPlaneDatabase, r: LifecycleResult, head: Sha) returns (ok: bool)
    requires TablesOk(db.Rows()) && WellFormed(r)
    modifies db
    ensures ok <==> r.taskId in old(db.tasks) && Admissible(old(db.View(r.taskId)).file, r, head)
    ensures ok ==> Became(old(db.Rows()), db.Rows(), r.taskId, Reconciled(old(db.View(r.taskId)), r, head))
  {
    ok := CheckEarly(db, r, head);
    if r.taskId !in db.tasks {
      return;
    }
    ghost var s0, d0 := db.Rows(), db.View(r.taskId);
    GuardsAreAdmissible(d0.file, r, head);
    if !ok {
      return;
    }
    var implementing := Implementing(db.View(r.taskId).file, r);
    var specialized;
    ok, specialized := Settle(db, r, head);
    if !ok {
      return;
    }
    ViewIsOwned(s0, r.taskId);
    SettledKeeps(d0, r, head);
    ghost var s1, settled := db.Rows(), db.View(r.taskId);
    ok := Conclude(db, r, specialized, head, implementing);
    if ok {
      BecameTransitive(s0, s1, db.Rows(), r.taskId, settled, Reconciled(d0, r, head));
    }
  }

  lemma AdmissibleIsEnabled(d: Draft, r: LifecycleResult, head: Sha)
    requires WellFormed(r) && r.taskId == d.file.task.id
    ensures Enabled(d.file, Op.Reconcile(r, head)) <==> Admissible(d.file, r, head)
    ensures Effect(d, Op.Reconcile(r, head)) == Reconciled(d, r, head)
  {
  }

  /** BEGIN IMMEDIATE ... COMMIT, or ROLLBACK when any check fails. */
  method Reconcile(db: ControlPlaneDatabase, r: LifecycleResult, head: Sha) returns (ok: bool)
    requires TablesOk(db.Rows()) && WellFormed(r)
    modifies db
    ensures ok <==> r.taskId in old(db.tasks) && Enabled(old(db.View(r.taskId)).file, Op.Reconcile(r, head))
    ensures ok ==> Became(old(db.Rows()), db.Rows(), r.taskId, Effect(old(db.View(r.taskId)), Op.Reconcile(r, head)))
    ensures !ok ==> db.Rows() == old(db.Rows())
  {
    var snapshot := db.Rows();
    if r.taskId in db.tasks {
      AdmissibleIsEnabled(db.View(r.taskId), r, head);
    }
    ok := ReconcileBody(db, r, head);
    if !ok {
      db.Rollback(snapshot);
    }
  }

  /* ---------- Allocating and failing attempts ---------- */

  datatype Allocation =
    | Granted(runId: Uuid, packet: InputPacket)
    | Lost
    | Faulty

  const ALLOCATION_FAILED := "allocation failed"

  /** The caller asked for this very task, and it is ready for an attempt as far as the first checks see. */
  predicate Eligible(c: CaseFile, project: string, identifier: string) {
    c.task.project == project && c.task.identifier == identifier && Active(c.task.state) && !HasOpenBlocker(c.blockers)
  }

  /**
   One transaction checks, allocates the round and the run, and stages the packet. A caller that lost a race
   or met an ordinary precondition leaves nothing behind; a broken invariant leaves a blocker.
   */
  method AllocateAttempt(db: ControlPlaneDatabase, t: Uuid, project: string, identifier: string, observed: Sha)
    returns (result: Allocation)
    requires TablesOk(db.Rows())
    modifies db
    ensures result.Granted? <==> t in old(db.tasks) && Eligible(old(db.View(t)).file, project, identifier)
                                 && NoneStarted(old(db.View(t)).file.runs)
    ensures result.Granted? ==> Became(old(db.Rows()), db.Rows(), t, Effect(old(db.View(t)), Allocate(observed)))
                                && result.runId == old(db.next) && result.packet == PacketOf(db.View(t).file)
    ensures result.Faulty? && t in old(db.tasks) ==>
      |StartedArchitects(old(db.View(t)).file.runs)| > 1
      && Became(old(db.Rows()), db.Rows(), t,
          Effect(old(db.View(t)), Op.RecordBlocker(Infrastructure, ALLOCATION_FAILED)))
    ensures result.Lost? || t !in old(db.tasks) ==> db.Rows() == old(db.Rows())
  {
    if t !in db.tasks {
      return Faulty;
    }
    var c := db.View(t).file;
    NoneStartedCount(c.runs);
    if !Eligible(c, project, identifier) || |StartedArchitects(c.runs)| == 1 {
      return Lost;
    }
    if |StartedArchitects(c.runs)| > 1 {
      var _ := db.RecordBlocker(t, Infrastructure, ALLOCATION_FAILED);
      return Faulty;
    }
    result := InsertAttempt(db, t, observed);
  }

  method InsertAttempt(db: ControlPlaneDatabase, t: Uuid, observed: Sha) returns (result: Allocation)
    requires db.Holds(t)
    modifies db
    ensures Became(old(db.Rows()), db.Rows(), t, Allocated(old(db.View(t)), observed))
    ensures result.Granted? && result.runId == old(db.next) && result.packet == PacketOf(db.View(t).file)
  {
    ghost var s0, after := db.Rows(), Allocated(db.View(t), observed);
    BecameSelf(s0, t);
    if t !in db.workpads {
      db.WriteWorkpad(t, Workpad(InitialWorkpad(db.tasks[t]), 1));
    }
    ghost var s1, d1 := db.Rows(), db.View(t);
    assert d1.file == WithWorkpad(CaseOf(s0, t));
    var c := db.View(t).file;
    var packet, round := PacketOf(c), NextRound(c.runs, Architect);
    var id := db.InsertRun(t, Architect, round, observed, Started, "");
    BecameTransitive(s0, s1, db.Rows(), t, d1, db.View(t));
    ghost var s2, d2 := db.Rows(), db.View(t);
    db.InsertEvent(t, ArchitectStarted(packet.state, packet.version, packet.action), Some(id));
    BecameTransitive(s0, s2, db.Rows(), t, d2, after);
    result := Granted(id, packet);
  }

  datatype Ending = Ended | NothingStarted | Unreadable

  /** Finish the one started attempt as failed, and keep a blocker that says why. */
  method FailAttempt(db: ControlPlaneDatabase, t: Uuid, detail: string) returns (ending: Ending)
    requires TablesOk(db.Rows())
    modifies db
    ensures ending.Ended? <==> t in old(db.tasks) && Enabled(old(db.View(t)).file, Op.FailAttempt(detail))
    ensures ending.Ended? ==> Became(old(db.Rows()), db.Rows(), t, Effect(old(db.View(t)), Op.FailAttempt(detail)))
    ensures ending.NothingStarted? <==> t in old(db.tasks) && NoneStarted(old(db.View(t)).file.runs)
    ensures !ending.Ended? ==> db.Rows() == old(db.Rows())
  {
    if t !in db.tasks {
      return Unreadable;
    }
    var c := db.View(t).file;
    var started := StartedArchitects(c.runs);
    NoneStartedCount(c.runs);
    if |started| > 1 {
      return Unreadable;
    }
    if started == [] {
      return NothingStarted;
    }
    FirstStartedIsStarted(c.runs);
    EndFailed(db, t, started[0].id, detail);
    ending := Ended;
  }

  method EndFailed(db: ControlPlaneDatabase, t: Uuid, id: Uuid, detail: string)
    requires db.Holds(t) && HasStarted(db.View(t).file.runs, id)
    modifies db
    ensures Became(old(db.Rows()), db.Rows(), t, AttemptFailed(old(db.View(t)), id, detail))
  {
    ghost var s0, after := db.Rows(), AttemptFailed(db.View(t), id, detail);
    var _ := Finish(db, t, id, Failed, detail, SelectedHead(db.tasks[t]));
    ghost var s1, d1 := db.Rows(), db.View(t);
    var _ := db.InsertBlocker(t, Infrastructure, detail);
    BecameTransitive(s0, s1, db.Rows(), t, d1, after);
  }
}
