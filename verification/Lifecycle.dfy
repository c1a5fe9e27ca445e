/** The lifecycle broker: it checks and writes step by step, and a failed check rolls every write back. */
module Lifecycle {
  import opened Schema
  import opened Queries
  import opened Results
  import opened Reconciliation
  import opened Managed
  import opened Histories
  import opened Evidence
  import opened Relations
  import opened Guards
  import opened ControlPlane

  /* ---------- Reading ---------- */

  /** Scan the log backwards, down to the last head change, for an acceptance. */
  method FindAcceptance(events: seq<EventRow>, what: Occurrence) returns (found: bool)
    requires !what.HeadChanged?
    ensures found <==> CurrentAcceptance(events, what)
  {
    var latest := -1;
    for i := 0 to |events|
      invariant -1 <= latest < i
      invariant latest >= 0 ==> events[latest].what.HeadChanged?
      invariant forall j :: latest < j < i ==> !events[j].what.HeadChanged?
    {
      if events[i].what.HeadChanged? {
        latest := i;
      }
    }
    var i := |events|;
    while i > 0
      invariant 0 <= i <= |events|
      invariant forall j :: latest < j < |events| && i <= j ==> events[j].what != what
      invariant latest < i
    {
      i := i - 1;
      if i <= latest {
        break;
      }
      if events[i].what == what {
        return true;
      }
    }
    found := false;
  }

  /** A run read by its key belongs to the task exactly when the task's own query would return it. */
  lemma StartedRunFound(db: Tables, t: Uuid, id: Uuid)
    requires TablesOk(db) && t in db.tasks
    ensures var run := FindRun(db.runs, id);
      HasStarted(CaseOf(db, t).runs, id) <==> run.Some? && run.value.taskId == t && IsStartedArchitect(run.value)
  {
    FoundRun(db.runs, id);
    RunsOfMeans(db.runs, t);
    var ours := CaseOf(db, t).runs;
    if HasStarted(ours, id) {
      var i :| 0 <= i < |ours| && ours[i].id == id && IsStartedArchitect(ours[i]);
      assert ours[i] in ours;
    }
    var run := FindRun(db.runs, id);
    if run.Some? && run.value.taskId == t && IsStartedArchitect(run.value) {
      assert run.value in ours;
    }
  }

  /** The result was produced for what is current. */
  method CheckCurrent(db: ControlPlaneDatabase, r: LifecycleResult) returns (ok: bool)
    requires TablesOk(db.Rows())
    ensures ok <==> r.taskId in db.tasks && Current(db.View(r.taskId).file, r)
  {
    if r.taskId !in db.tasks {
      return false;
    }
    var task := db.tasks[r.taskId];
    if task.identifier != r.identifier || task.state != r.expectedState {
      return false;
    }
    StartedRunFound(db.Rows(), r.taskId, r.runId);
    var run := FindRun(db.runs, r.runId);
    if run.None? || run.value.taskId != task.id || run.value.role != Architect || run.value.status != Started {
      return false;
    }
    if r.taskId !in db.workpads || db.workpads[r.taskId].version != r.expectedVersion {
      return false;
    }
    ok := SelectedHead(task) == r.expectedHead;
  }

  /* ---------- Writing ---------- */

  method InsertRoleResult(db: ControlPlaneDatabase, t: Uuid, p: Packet, head: Sha) returns (id: Uuid)
    requires db.Holds(t)
    modifies db
    ensures id == old(db.next)
    ensures Became(old(db.Rows()), db.Rows(), t, WithRoleResult(old(db.View(t)), p, head))
  {
    ghost var s0, d0 := db.Rows(), db.View(t);
    var round := NextRound(db.View(t).file.runs, p.role);
    var observed := if p.head.Some? then p.head.value else head;
    id := db.InsertRun(t, p.role, round, observed, Started, "");
    ghost var s1, d1 := db.Rows(), db.View(t);
    db.InsertEvent(t, RoleStarted(p.role, round), Some(id));
    BecameTransitive(s0, s1, db.Rows(), t, d1, db.View(t));
    ghost var s2, d2 := db.Rows(), db.View(t);
    db.UpdateRun(id, t, Finished, p.summary, observed);
    BecameTransitive(s0, s2, db.Rows(), t, d2, db.View(t));
    ghost var s3, d3 := db.Rows(), db.View(t);
    db.InsertEvent(t, RoleFinished(p.role, round, Finished), Some(id));
    BecameTransitive(s0, s3, db.Rows(), t, d3, db.View(t));
    ViewIsOwned(s0, t);
    FinishNewRun(d0.file.runs, RunRow(id, t, p.role, round, observed, Started, ""), Finished, p.summary, observed);
  }

  /** A run inserted as started and then finished is one finished row at the end. */
  lemma FinishNewRun(runs: seq<RunRow>, row: RunRow, status: RunStatus, summary: string, head: Sha)
    requires row.status == Started && forall i :: 0 <= i < |runs| ==> runs[i].id < row.id
    ensures FinishRuns(runs + [row], row.id, row.taskId, status, summary, head) ==
      runs + [row.(status := status, summary := summary, head := head)]
  {
    InitOfAppend(runs, row);
    FinishMisses(runs, row.id, row.taskId, status, summary, head);
  }

  /** The finding row and its event, before any blocker. */
  function WithFindingRow(d: Draft, f: Finding, runId: Uuid, round: Option<nat>): Draft {
    var status := StatusFor(f.ruling);
    var row := FindingRow(d.next, d.file.task.id, runId, f.body, status, if status == Licensed then round else None);
    Draft(WithEvent(d.file.(findings := d.file.findings + [row]), FindingRecorded(d.next, status), Some(runId)),
      d.next + 1)
  }

  method RecordFinding(db: ControlPlaneDatabase, t: Uuid, runId: Uuid, f: Finding, round: Option<nat>)
    requires db.Holds(t)
    modifies db
    ensures Became(old(db.Rows()), db.Rows(), t, WithFindingRow(old(db.View(t)), f, runId, round))
  {
    ghost var s0 := db.Rows();
    var status := StatusFor(f.ruling);
    var id := db.InsertFindingRow(t, runId, f.body, status, if status == Licensed then round else None);
    ghost var s1, d1 := db.Rows(), db.View(t);
    db.InsertEvent(t, FindingRecorded(id, status), Some(runId));
    BecameTransitive(s0, s1, db.Rows(), t, d1, db.View(t));
  }

  method InsertFinding(db: ControlPlaneDatabase, t: Uuid, runId: Uuid, f: Finding, round: Option<nat>)
    requires db.Holds(t) && KindMatches(f)
    modifies db
    ensures Became(old(db.Rows()), db.Rows(), t, WithFinding(old(db.View(t)), f, runId, round))
  {
    ghost var s0, d0 := db.Rows(), db.View(t);
    RecordFinding(db, t, runId, f, round);
    ghost var s1, d1 := db.Rows(), db.View(t);
    assert d1 == WithFindingRow(d0, f, runId, round);
    if f.ruling == InfrastructureCondition {
      var _ := db.InsertBlocker(t, Infrastructure, f.body);
      BecameTransitive(s0, s1, db.Rows(), t, d1, db.View(t));
    } else if f.ruling == ProjectDecision {
      var _ := db.InsertBlocker(t, f.blockerKind.value, f.body);
      BecameTransitive(s0, s1, db.Rows(), t, d1, db.View(t));
    }
  }

  method Finish(
      db: ControlPlaneDatabase, t: Uuid, id: Uuid, status: RunStatus, summary: string, head: Sha)
    returns (ok: bool)
    requires db.Holds(t) && status != Started
    modifies db
    ensures var c := old(db.View(t)).file;
      ok <==> exists i :: 0 <= i < |c.runs| && c.runs[i].id == id && c.runs[i].status == Started
    ensures ok ==> Became(old(db.Rows()), db.Rows(), t,
                          Draft(FinishArchitect(old(db.View(t)).file, id, status, summary, head), old(db.next)))
  {
    ghost var s0, c := db.Rows(), db.View(t).file;
    var run := FindRun(db.runs, id);
    FoundRun(db.runs, id);
    RunsOfMeans(db.runs, t);
    var changes := run.Some? && run.value.taskId == t && run.value.status == Started;
    assert changes <==> exists i :: 0 <= i < |c.runs| && c.runs[i].id == id && c.runs[i].status == Started by {
      if changes { assert run.value in c.runs; }
      assert forall i :: 0 <= i < |c.runs| ==> c.runs[i] in c.runs;
    }
    if run.None? {
      return false;
    }
    db.UpdateRun(id, t, status, summary, head);
    ghost var s1, d1 := db.Rows(), db.View(t);
    if !changes {
      return false;
    }
    RoundFound(c.runs, run.value);
    db.InsertEvent(t, RoleFinished(Architect, run.value.round, status), Some(id));
    BecameTransitive(s0, s1, db.Rows(), t, d1, db.View(t));
    ok := true;
  }

  lemma {:induction false} RoundFound(runs: seq<RunRow>, row: RunRow)
    requires row in runs && IncreasingRuns(runs)
    ensures RoundOf(runs, row.id) == row.round
  {
    var i :| 0 <= i < |runs| && runs[i] == row;
    if i < |runs| - 1 {
      assert runs[i].id < Last(runs).id;
      assert Init(runs)[i] == row;
      RoundFound(Init(runs), row);
    }
  }
}
