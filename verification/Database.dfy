/** The control database: statements on tables, and the transactional operations built from them. */
module ControlPlane {
  import opened Schema
  import opened Queries
  import opened Results
  import opened Reconciliation
  import opened Managed
  import opened Histories
  import opened Evidence
  import opened Relations
  import Identifiers

  class ControlPlaneDatabase {
    var tasks: map<Uuid, TaskRow>
    var workpads: map<Uuid, Workpad>
    var runs: seq<RunRow>
    var findings: seq<FindingRow>
    var blockers: seq<BlockerRow>
    var publications: map<Uuid, PublicationRow>
    var events: seq<EventRow>
    var next: Uuid

    constructor ()
      ensures Rows() == EMPTY && TablesOk(Rows())
    {
      tasks, workpads, runs, findings, blockers, publications, events, next := map[], map[], [], [], [], map[], [], 0;
    }

    function Rows(): Tables
      reads this
    {
      Tables(tasks, workpads, runs, findings, blockers, publications, events, next)
    }

    /** The task exists and the constraints hold. */
    predicate Holds(t: Uuid)
      reads this
    {
      TablesOk(Rows()) && t in tasks
    }

    function View(t: Uuid): Draft
      reads this
      requires t in tasks
    {
      DraftOf(Rows(), t)
    }

    /** ROLLBACK: every table is as it was when the transaction began. */
    method Rollback(snapshot: Tables)
      modifies this
      ensures Rows() == snapshot
    {
      tasks, workpads, runs, findings := snapshot.tasks, snapshot.workpads, snapshot.runs, snapshot.findings;
      blockers, publications, events, next := snapshot.blockers, snapshot.publications, snapshot.events, snapshot.next;
    }

    /* ---------- Statements ---------- */

    method InsertEvent(t: Uuid, what: Occurrence, runId: Option<Uuid>)
      requires Holds(t)
      modifies this`events
      ensures Became(old(Rows()), Rows(), t, Draft(WithEvent(old(View(t)).file, what, runId), old(next)))
    {
      EventInserted(Rows(), t, what, runId);
      events := events + [EventRow(t, what, runId)];
    }

    method InsertRun(t: Uuid, role: Role, round: nat, head: Sha, status: RunStatus, summary: string) returns (id: Uuid)
      requires Holds(t)
      modifies this`runs, this`next
      ensures id == old(next)
      ensures var c := old(View(t)).file;
        Became(old(Rows()), Rows(), t,
               Draft(c.(runs := c.runs + [RunRow(id, t, role, round, head, status, summary)]), id + 1))
    {
      id := next;
      var row := RunRow(id, t, role, round, head, status, summary);
      RunInserted(Rows(), row);
      ghost var after := Rows().(runs := runs + [row], next := next + 1);
      runs := runs + [row];
      next := next + 1;
      assert Rows() == after;
    }

    /** UPDATE role_runs ... WHERE id = ? AND task_id = ? AND status = 'started'. */
    method UpdateRun(id: Uuid, t: Uuid, status: RunStatus, summary: string, head: Sha)
      requires Holds(t)
      modifies this`runs
      ensures var c := old(View(t)).file;
        Became(old(Rows()), Rows(), t, Draft(c.(runs := FinishRuns(c.runs, id, t, status, summary, head)), old(next)))
    {
      RunFinished(Rows(), id, t, status, summary, head);
      runs := FinishRuns(runs, id, t, status, summary, head);
    }

    method InsertFindingRow(
        t: Uuid, runId: Uuid, body: string, status: FindingStatus, round: Option<nat>)
      returns (id: Uuid)
      requires Holds(t)
      modifies this`findings, this`next
      ensures id == old(next)
      ensures var c := old(View(t)).file;
        Became(old(Rows()), Rows(), t,
               Draft(c.(findings := c.findings + [FindingRow(id, t, runId, body, status, round)]), id + 1))
    {
      id := next;
      var row := FindingRow(id, t, runId, body, status, round);
      FindingInserted(Rows(), row);
      ghost var after := Rows().(findings := findings + [row], next := next + 1);
      findings := findings + [row];
      next := next + 1;
      assert Rows() == after;
    }

    /** UPDATE findings SET status = 'resolved' WHERE id = ?, for a row already read as the task's. */
    method ResolveFindingRow(id: Uuid, t: Uuid)
      requires Holds(t)
      requires FindFinding(findings, id).Some? && FindFinding(findings, id).value.taskId == t
      modifies this`findings
      ensures var c := old(View(t)).file;
        Became(old(Rows()), Rows(), t, Draft(c.(findings := ResolveFinding(c.findings, id)), old(next)))
    {
      FindingResolved(Rows(), id, t);
      findings := ResolveFinding(findings, id);
    }

    method MoveFindingRow(id: Uuid, t: Uuid, from: nat, to: nat)
      requires Holds(t)
      modifies this`findings
      ensures var c := old(View(t)).file;
        Became(old(Rows()), Rows(), t, Draft(c.(findings := MoveFinding(c.findings, id, t, from, to)), old(next)))
    {
      FindingMoved(Rows(), id, t, from, to);
      findings := MoveFinding(findings, id, t, from, to);
    }

    method UpdateTask(t: Uuid, row: TaskRow)
      requires Holds(t) && row.id == t
      modifies this`tasks
      ensures Became(old(Rows()), Rows(), t, Draft(old(View(t)).file.(task := row), old(next)))
    {
      TaskUpdated(Rows(), t, row);
      tasks := tasks[t := row];
    }

    method WriteWorkpad(t: Uuid, row: Workpad)
      requires Holds(t)
      modifies this`workpads
      ensures Became(old(Rows()), Rows(), t, Draft(old(View(t)).file.(workpad := Some(row)), old(next)))
    {
      WorkpadWritten(Rows(), t, row);
      workpads := workpads[t := row];
    }

    method WritePublication(t: Uuid, row: PublicationRow)
      requires Holds(t)
      modifies this`publications
      ensures Became(old(Rows()), Rows(), t, Draft(old(View(t)).file.(publication := Some(row)), old(next)))
    {
      PublicationWritten(Rows(), t, row);
      publications := publications[t := row];
    }

    method InsertBlockerRow(t: Uuid, kind: BlockerKind, body: string) returns (id: Uuid)
      requires Holds(t)
      modifies this`blockers, this`next
      ensures id == old(next)
      ensures var c := old(View(t)).file;
        Became(old(Rows()), Rows(), t,
          Draft(c.(blockers := c.blockers + [BlockerRow(id, t, kind, body, true)]), id + 1))
    {
      id := next;
      var row := BlockerRow(id, t, kind, body, true);
      BlockerInserted(Rows(), row);
      ghost var after := Rows().(blockers := blockers + [row], next := next + 1);
      blockers := blockers + [row];
      next := next + 1;
      assert Rows() == after;
    }

    /** A blocker row, and the event that announces it unless it is a project blocker. */
    method InsertBlocker(t: Uuid, kind: BlockerKind, body: string) returns (id: Uuid)
      requires Holds(t)
      modifies this`blockers, this`events, this`next
      ensures id == old(next)
      ensures Became(old(Rows()), Rows(), t, WithBlocker(old(View(t)), kind, body))
    {
      ghost var before, d := Rows(), View(t);
      id := InsertBlockerRow(t, kind, body);
      ghost var s1, d1 := Rows(), View(t);
      assert WithBlocker(d, kind, body) == Announced(d1, kind, id);
      if kind != Project {
        InsertEvent(t, if kind == Human then HumanBlock(id) else InfrastructureBlock(id), None);
        BecameTransitive(before, s1, Rows(), t, d1, Announced(d1, kind, id));
      }
    }

    /* ---------- Transactions ---------- */

    /** Create a prepared task under the next free identifier, or reject when none is left. */
    method CreateTask(
        project: string, baseRef: string, baseSha: Sha, uuidPrefix: string)
      returns (created: Option<Uuid>)
      requires TablesOk(Rows())
      modifies this`tasks, this`events, this`next
      ensures created.None? <==> MaxNumber(old(tasks), old(next)) >= Identifiers.LAST_NUMBER
      ensures created.None? ==> Rows() == old(Rows())
      ensures created.Some? ==>
        created.value == old(next) && TaskNumbered(old(Rows()), Rows(), project, baseRef, baseSha, uuidPrefix)
    {
      var number := MaxNumber(tasks, next) + 1;
      if number > Identifiers.LAST_NUMBER {
        return None;
      }
      created := Some(next);
      InsertTask(NewTask(next, number, project, baseRef, baseSha, uuidPrefix));
    }

    method InsertTask(row: TaskRow)
      requires TablesOk(Rows()) && row.id == next
      modifies this`tasks, this`events, this`next
      ensures TaskAdded(old(Rows()), Rows(), row)
    {
      TaskInserted(Rows(), row);
      tasks := tasks[row.id := row];
      events := events + [EventRow(row.id, TaskCreated, None)];
      next := next + 1;
      assert Rows() == WithTask(old(Rows()), row);
    }

    method QueueTask(t: Uuid, project: string) returns (ok: bool)
      requires TablesOk(Rows())
      modifies this
      ensures ok <==> t in old(tasks) && old(tasks)[t].project == project && Enabled(old(View(t)).file, Queue)
      ensures ok ==> Became(old(Rows()), Rows(), t, Effect(old(View(t)), Queue))
      ensures !ok ==> Rows() == old(Rows())
    {
      var snapshot := Rows();
      if t !in tasks || tasks[t].project != project || tasks[t].state != Prepared {
        Rollback(snapshot);
        return false;
      }
      ghost var d0 := View(t);
      UpdateTask(t, tasks[t].(state := State.Queued));
      ghost var s1, d1 := Rows(), View(t);
      InsertEvent(t, TaskQueued, None);
      BecameTransitive(snapshot, s1, Rows(), t, d1, View(t));
      ghost var s2, d2 := Rows(), View(t);
      if t !in workpads {
        WriteWorkpad(t, Workpad(InitialWorkpad(tasks[t]), 1));
        BecameTransitive(snapshot, s2, Rows(), t, d2, View(t));
      }
      ok := true;
    }

    method RecordBlocker(t: Uuid, kind: BlockerKind, body: string) returns (ok: bool)
      requires TablesOk(Rows())
      modifies this
      ensures ok <==> t in old(tasks)
      ensures ok ==> Became(old(Rows()), Rows(), t, Effect(old(View(t)), Op.RecordBlocker(kind, body)))
      ensures !ok ==> Rows() == old(Rows())
    {
      if t !in tasks {
        return false;
      }
      assert Effect(View(t), Op.RecordBlocker(kind, body)) == WithBlocker(View(t), kind, body);
      var _ := InsertBlocker(t, kind, body);
      ok := true;
    }

    /** Resolving names a blocker by its own key; the task it belongs to is found from the row. */
    method ResolveBlocker(id: Uuid) returns (owner: Option<Uuid>)
      requires TablesOk(Rows())
      modifies this
      ensures owner.Some? ==> owner.value in old(tasks) && Enabled(old(View(owner.value)).file, Op.ResolveBlocker(id))
      ensures owner.Some? ==>
        Became(old(Rows()), Rows(), owner.value, Effect(old(View(owner.value)), Op.ResolveBlocker(id)))
      ensures owner.None? ==> Rows() == old(Rows())
      ensures owner.None? ==> forall t :: t in old(tasks) ==> !Enabled(old(View(t)).file, Op.ResolveBlocker(id))
    {
      var row := FindBlocker(blockers, id);
      OpenBlockerFound(Rows(), id);
      if row.None? || !row.value.open {
        return None;
      }
      var t := row.value.taskId;
      BlockerClosed(Rows(), id, t);
      blockers := CloseBlocker(blockers, id);
      owner := Some(t);
    }

    /** Persist the exact publication intent before anything outside is touched. */
    method StartPublication(t: Uuid, head: Sha, branch: string) returns (ok: bool)
      requires TablesOk(Rows())
      modifies this
      ensures ok <==> t in old(tasks) && CanStartPublication(old(View(t)).file, head, branch)
      ensures ok ==> Became(old(Rows()), Rows(), t, Effect(old(View(t)), Op.StartPublication(head, branch)))
      ensures !ok ==> Rows() == old(Rows())
    {
      if t !in tasks {
        return false;
      }
      ok := CheckIntent(View(t).file, head, branch);
      if ok {
        WriteIntent(t, head, branch);
      }
    }

    /** An intent that already stands is kept; any other is written, with what is known of its pull request. */
    method WriteIntent(t: Uuid, head: Sha, branch: string)
      requires Holds(t)
      modifies this
      ensures Became(old(Rows()), Rows(), t, Effect(old(View(t)), Op.StartPublication(head, branch)))
    {
      var current := View(t).file.publication;
      ghost var before, c := Rows(), View(t).file;
      BecameSelf(before, t);
      if current.Some? && current.value.status == InProgress {
        return;
      }
      var row := PublicationRow(Some(head), Some(branch), if current.Some? then current.value.pr else None, InProgress);
      ghost var c1 := c.(publication := Some(row));
      assert PublicationBegun(c, head, branch) == WithEvent(c1, PublicationStarted(head, branch), None);
      WritePublication(t, row);
      ghost var s1 := Rows();
      InsertEvent(t, PublicationStarted(head, branch), None);
      BecameTransitive(before, s1, Rows(), t, Draft(c1, next), Draft(PublicationBegun(c, head, branch), next));
    }

    /** Publish and move ARCHIVIST to READY_FOR_HUMAN_MERGE in one transaction. */
    method FinalizePublication(t: Uuid, head: Sha, branch: string, number: nat) returns (ok: bool)
      requires TablesOk(Rows())
      modifies this
      ensures ok <==> t in old(tasks) && CanFinalize(old(View(t)).file, head, branch, number)
      ensures ok ==> Became(old(Rows()), Rows(), t, Effect(old(View(t)), Op.FinalizePublication(head, branch, number)))
      ensures !ok ==> Rows() == old(Rows())
    {
      if t !in tasks {
        return false;
      }
      ok := CheckFinalization(View(t).file, head, branch, number);
      if ok {
        WriteFinalization(t, head, branch, number);
      }
    }

    method WriteFinalization(t: Uuid, head: Sha, branch: string, number: nat)
      requires Holds(t)
      modifies this
      ensures Became(old(Rows()), Rows(), t, Effect(old(View(t)), Op.FinalizePublication(head, branch, number)))
    {
      ghost var before, c := Rows(), View(t).file;
      ghost var c1 := c.(publication := Some(PublicationRow(Some(head), Some(branch), Some(number), Published)));
      ghost var c2 := c1.(task := c1.task.(publishedHead := Some(head)));
      ghost var c3 := WithEvent(c2, PublicationFinished(head, branch, number), None);
      ghost var c4 := c3.(task := c3.task.(state := ReadyForHumanMerge));
      ghost var after := Draft(WithEvent(c4, MergeReady(head), None), next);
      assert Effect(View(t), Op.FinalizePublication(head, branch, number)) == after;
      WritePublication(t, PublicationRow(Some(head), Some(branch), Some(number), Published));
      ghost var s1 := Rows();
      UpdateTask(t, tasks[t].(publishedHead := Some(head)));
      BecameTransitive(before, s1, Rows(), t, Draft(c1, next), Draft(c2, next));
      ghost var s2 := Rows();
      InsertEvent(t, PublicationFinished(head, branch, number), None);
      BecameTransitive(before, s2, Rows(), t, Draft(c2, next), Draft(c3, next));
      ghost var s3 := Rows();
      UpdateTask(t, tasks[t].(state := ReadyForHumanMerge));
      BecameTransitive(before, s3, Rows(), t, Draft(c3, next), Draft(c4, next));
      ghost var s4 := Rows();
      InsertEvent(t, MergeReady(head), None);
      BecameTransitive(before, s4, Rows(), t, Draft(c4, next), after);
    }

    /** Record a failed publication without forgetting what was already known of it. */
    method FailPublication(
        t: Uuid, detail: string, tried: Option<Sha>, pushed: Option<string>, pr: Option<nat>)
      returns (ok: bool)
      requires TablesOk(Rows())
      modifies this
      ensures ok <==> t in old(tasks) && Enabled(old(View(t)).file, Op.FailPublication(detail, tried, pushed, pr))
      ensures ok ==> Became(old(Rows()), Rows(), t, Effect(old(View(t)), Op.FailPublication(detail, tried, pushed, pr)))
      ensures !ok ==> Rows() == old(Rows())
    {
      if pr == Some(0) || t !in tasks {
        return false;
      }
      var c := View(t).file;
      if c.task.state != Archivist || c.task.publishedHead != None {
        return false;
      }
      if c.publication.Some? && c.publication.value.status == Published {
        return false;
      }
      WriteFailure(t, detail, tried, pushed, pr);
      ok := true;
    }

    method WriteFailure(t: Uuid, detail: string, tried: Option<Sha>, pushed: Option<string>, pr: Option<nat>)
      requires Holds(t)
      modifies this
      ensures Became(old(Rows()), Rows(), t, Effect(old(View(t)), Op.FailPublication(detail, tried, pushed, pr)))
    {
      var known := View(t).file.publication;
      var prior := if known.Some? then known.value else PublicationRow(None, None, None, Unsuccessful);
      var row := PublicationRow(OrElse(tried, prior.head), OrElse(pushed, prior.branch), OrElse(pr, prior.pr),
        Unsuccessful);
      ghost var before, d0 := Rows(), View(t);
      ghost var d1 := d0.(file := d0.file.(publication := Some(row)));
      ghost var after := WithBlocker(d1, Infrastructure, detail);
      FailureIs(d0, detail, tried, pushed, pr);
      WritePublication(t, row);
      ghost var s1 := Rows();
      var _ := InsertBlocker(t, Infrastructure, detail);
      BecameTransitive(before, s1, Rows(), t, d1, after);
    }
  }

  /** The event that goes with a new blocker; a project blocker is not announced. */
  function Announced(d: Draft, kind: BlockerKind, id: Uuid): Draft {
    match kind
    case Human => d.(file := WithEvent(d.file, HumanBlock(id), None))
    case Infrastructure => d.(file := WithEvent(d.file, InfrastructureBlock(id), None))
    case Project => d
  }

  lemma FailureIs(d: Draft, detail: string, tried: Option<Sha>, pushed: Option<string>, pr: Option<nat>)
    ensures var prior :=
      if d.file.publication.Some? then d.file.publication.value else PublicationRow(None, None, None, Unsuccessful);
      var row := PublicationRow(OrElse(tried, prior.head), OrElse(pushed, prior.branch), OrElse(pr, prior.pr),
        Unsuccessful);
      Effect(d, Op.FailPublication(detail, tried, pushed, pr)) ==
        WithBlocker(d.(file := d.file.(publication := Some(row))), Infrastructure, detail)
  {
  }

  /** The checks before a publication intent, in order. */
  method CheckIntent(c: CaseFile, head: Sha, branch: string) returns (ok: bool)
    ensures ok <==> CanStartPublication(c, head, branch)
  {
    if c.task.state != Archivist || c.task.currentHead != Some(head) {
      return false;
    }
    if HasOpenBlocker(c.blockers) || !NoneStarted(c.runs) {
      return false;
    }
    var chain := [ReviewAccepted(head), AdversaryAccepted(head), Occurrence.ValidationPassed(head)];
    for i := 0 to |chain|
      invariant forall j :: 0 <= j < i ==> Logged(c.events, chain[j])
    {
      if !Logged(c.events, chain[i]) {
        return false;
      }
    }
    assert Logged(c.events, chain[0]) && Logged(c.events, chain[1]) && Logged(c.events, chain[2]);
    if !Archived(c.runs, head) {
      return false;
    }
    var current := c.publication;
    if current.Some? && current.value.status == Published {
      return false;
    }
    if current.Some? && current.value.status == InProgress {
      return current.value.head == Some(head) && current.value.branch == Some(branch);
    }
    ok := true;
  }

  /** The checks before a finalization, in order. */
  method CheckFinalization(c: CaseFile, head: Sha, branch: string, number: nat) returns (ok: bool)
    ensures ok <==> CanFinalize(c, head, branch, number)
  {
    if number < 1 {
      return false;
    }
    if c.task.state != Archivist || c.task.currentHead != Some(head) || HasOpenBlocker(c.blockers) {
      return false;
    }
    var intent := c.publication;
    if intent.None? || intent.value.status != InProgress {
      return false;
    }
    ok := intent.value.head == Some(head) && intent.value.branch == Some(branch);
  }

  /** The highest number among the identifiers in the table, 0 when there is none. */
  function MaxNumber(tasks: map<Uuid, TaskRow>, bound: Uuid): nat {
    if bound == 0 then 0
    else
      var rest := MaxNumber(tasks, bound - 1);
      if bound - 1 in tasks && Identifiers.Number(tasks[bound - 1].identifier) > rest
      then Identifiers.Number(tasks[bound - 1].identifier) else rest
  }

  /** A task as it is first inserted: prepared, named by its number, on its own branch. */
  function NewTask(id: Uuid, number: nat, project: string, baseRef: string, baseSha: Sha, uuidPrefix: string): TaskRow {
    var identifier := Identifiers.Print(number);
    TaskRow(id, identifier, project, Prepared, baseRef, baseSha, Identifiers.DeriveBranch(identifier, uuidPrefix),
      None, None)
  }

  /** One new task, just created; every other task's rows are as they were. */
  predicate TaskAdded(db: Tables, after: Tables, row: TaskRow) {
    && TablesOk(after) && row.id !in db.tasks && after.tasks.Keys == db.tasks.Keys + {row.id} && db.next <= after.next
    && (forall u :: u in db.tasks ==> CaseOf(after, u) == CaseOf(db, u))
    && CaseOf(after, row.id) == NewCase(row)
  }

  /** There was a number left, and the one new task has the next. */
  predicate TaskNumbered(
      db: Tables, after: Tables, project: string, baseRef: string, baseSha: Sha, uuidPrefix: string) {
    && MaxNumber(db.tasks, db.next) < Identifiers.LAST_NUMBER
    && TaskAdded(db, after, NewTask(db.next, MaxNumber(db.tasks, db.next) + 1, project, baseRef, baseSha, uuidPrefix))
  }

  lemma {:induction false} NothingOf(db: Tables, t: Uuid)
    requires TablesOk(db) && t !in db.tasks
    ensures RunsOf(db.runs, t) == [] && FindingsOf(db.findings, t) == [] && BlockersOf(db.blockers, t) == []
    ensures EventsOf(db.events, t) == []
  {
    RunsOfMeans(db.runs, t);
    FindingsOfMeans(db.findings, t);
    BlockersOfMeans(db.blockers, t);
    NoEventsOf(db.events, t);
    EmptyOrNot(RunsOf(db.runs, t));
    EmptyOrNot(FindingsOf(db.findings, t));
    EmptyOrNot(BlockersOf(db.blockers, t));
  }

  lemma EmptyOrNot<T>(s: seq<T>)
    ensures s == [] || s[0] in s
  {
  }

  lemma {:induction false} NoEventsOf(events: seq<EventRow>, t: Uuid)
    requires forall i :: 0 <= i < |events| ==> events[i].taskId != t
    ensures EventsOf(events, t) == []
  {
    if events != [] {
      NoEventsOf(Init(events), t);
    }
  }

  function WithTask(db: Tables, row: TaskRow): Tables {
    db.(tasks := db.tasks[row.id := row], events := db.events + [EventRow(row.id, TaskCreated, None)],
      next := db.next + 1)
  }

  lemma TaskAddedOk(db: Tables, row: TaskRow)
    requires TablesOk(db) && row.id == db.next
    ensures TablesOk(WithTask(db, row)) && row.id !in db.tasks
    ensures WithTask(db, row).tasks.Keys == db.tasks.Keys + {row.id}
  {
  }

  lemma TaskAddedView(db: Tables, row: TaskRow)
    requires TablesOk(db) && row.id == db.next
    ensures forall u :: u in db.tasks ==> CaseOf(WithTask(db, row), u) == CaseOf(db, u)
    ensures CaseOf(WithTask(db, row), row.id) == NewCase(row)
  {
    forall u | u in db.tasks
      ensures CaseOf(WithTask(db, row), u) == CaseOf(db, u)
    {
      InsertEventView(db.events, EventRow(row.id, TaskCreated, None), u);
    }
    NothingOf(db, row.id);
    InsertEventView(db.events, EventRow(row.id, TaskCreated, None), row.id);
  }

  lemma TaskInserted(db: Tables, row: TaskRow)
    requires TablesOk(db) && row.id == db.next
    ensures TaskAdded(db, WithTask(db, row), row)
  {
    TaskAddedOk(db, row);
    TaskAddedView(db, row);
  }

  /** Exactly one task sees an open blocker under its key, and none sees a missing or resolved one. */
  lemma OpenBlockerFound(db: Tables, id: Uuid)
    requires TablesOk(db)
    ensures var row := FindBlocker(db.blockers, id);
      && (row.Some? ==> row.value.taskId in db.tasks)
      && (row.Some? && row.value.open ==> IsOpen(BlockersOf(db.blockers, row.value.taskId), id))
      && (row.None? || !row.value.open ==> forall t :: t in db.tasks ==> !IsOpen(CaseOf(db, t).blockers, id))
  {
    FoundBlocker(db.blockers, id);
    var row := FindBlocker(db.blockers, id);
    if row.Some? && row.value.open {
      BlockersOfMeans(db.blockers, row.value.taskId);
      assert row.value in BlockersOf(db.blockers, row.value.taskId);
    }
    if row.None? || !row.value.open {
      forall t | t in db.tasks
        ensures !IsOpen(CaseOf(db, t).blockers, id)
      {
        BlockersOfMeans(db.blockers, t);
        var ours := BlockersOf(db.blockers, t);
        forall i | 0 <= i < |ours|
          ensures !(ours[i].id == id && ours[i].open)
        {
          assert ours[i] in ours;
        }
      }
    }
  }
}
