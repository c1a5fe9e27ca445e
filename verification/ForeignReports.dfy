/** A report that names another task than its workspace's: how it is reached, and that it is accepted. */
module ForeignReports {
  import opened Schema
  import opened Queries
  import opened Results
  import opened Reconciliation
  import opened Managed
  import opened Invariants
  import opened Preservation
  import opened Progress
  import opened Relations
  import opened ControlPlane
  import opened ControlRuns
  import opened Checkouts
  import opened Workspaces
  import opened Barriers
  import Broker
  import Concluding
  import Identifiers
  import Service

  /** Three commits: 3 was made on top of 1, and 2 stands alone. */
  const LINEAGE: (Sha, Sha) -> bool := (base, head) => base == head || (base == 1 && head == 3)

  const PROFILE := Profile("pilot", "origin")

  lemma {:induction false} NumbersUpTo(tasks: map<Uuid, TaskRow>, bound: Uuid, n: nat)
    requires forall t :: t in tasks ==> Identifiers.Number(tasks[t].identifier) <= n
    ensures MaxNumber(tasks, bound) <= n
  {
    if bound > 0 {
      NumbersUpTo(tasks, bound - 1, n);
    }
  }

  lemma OneNumber(tasks: map<Uuid, TaskRow>, t: Uuid, bound: Uuid, n: nat)
    requires tasks.Keys == {t} && Identifiers.Number(tasks[t].identifier) <= n
    ensures MaxNumber(tasks, bound) <= n
  {
    NumbersUpTo(tasks, bound, n);
  }

  /** The tasks that were there are as they were. */
  predicate OthersSame(s0: Tables, s: Tables) {
    forall u :: u in s0.tasks ==> u in s.tasks && CaseOf(s, u) == CaseOf(s0, u)
  }

  lemma StillSame(s0: Tables, s1: Tables, s: Tables, t: Uuid)
    requires OthersSame(s0, s1) && OnlyTask(s1, s, t) && t !in s0.tasks
    ensures OthersSame(s0, s)
  {
    forall u | u in s0.tasks
      ensures u in s.tasks && CaseOf(s, u) == CaseOf(s0, u)
    {
      assert CaseOf(s, u) == CaseOf(s1, u);
    }
  }

  /** An attempt is started on a task that has no head and no blocker yet. */
  predicate Underway(c: CaseFile, state: State, baseSha: Sha, run: Uuid) {
    && c.task.state == state && c.task.baseSha == baseSha && c.task.currentHead == None
    && c.task.project == PROFILE.slug
    && c.blockers == [] && HasStarted(c.runs, run)
  }

  /** A task as the operator just created it. */
  predicate NewlyMade(c: CaseFile, baseSha: Sha, number: nat) {
    && c == NewCase(c.task) && c.task.state == Prepared && c.task.currentHead == None && c.task.baseSha == baseSha
    && c.task.project == PROFILE.slug && Identifiers.Number(c.task.identifier) == number
  }

  method Make(db: ControlPlaneDatabase, baseSha: Sha, uuidPrefix: string) returns (t: Uuid)
    requires DbConsistent(db.Rows(), LINEAGE) && MaxNumber(db.tasks, db.next) < Identifiers.LAST_NUMBER
    modifies db
    ensures DbConsistent(db.Rows(), LINEAGE) && OthersSame(old(db.Rows()), db.Rows())
    ensures t !in old(db.tasks) && db.tasks.Keys == old(db.tasks).Keys + {t}
    ensures NewlyMade(db.View(t).file, baseSha, old(MaxNumber(db.tasks, db.next)) + 1)
  {
    ghost var s0 := db.Rows();
    var created := db.CreateTask(PROFILE.slug, "main", baseSha, uuidPrefix);
    t := created.value;
    Made(s0, db.Rows(), "main", baseSha, uuidPrefix);
  }

  lemma Made(s0: Tables, s: Tables, baseRef: string, baseSha: Sha, uuidPrefix: string)
    requires DbConsistent(s0, LINEAGE) && TaskNumbered(s0, s, PROFILE.slug, baseRef, baseSha, uuidPrefix)
    ensures DbConsistent(s, LINEAGE) && OthersSame(s0, s)
    ensures s0.next !in s0.tasks && s.tasks.Keys == s0.tasks.Keys + {s0.next}
    ensures NewlyMade(CaseOf(s, s0.next), baseSha, MaxNumber(s0.tasks, s0.next) + 1)
  {
    var row := NewTask(s0.next, MaxNumber(s0.tasks, s0.next) + 1, PROFILE.slug, baseRef, baseSha, uuidPrefix);
    MadeCase(row, MaxNumber(s0.tasks, s0.next) + 1, baseRef, baseSha, uuidPrefix);
    MadeAs(s0, s, row, baseSha, MaxNumber(s0.tasks, s0.next) + 1);
    Service.Created(s0, s, PROFILE.slug, baseRef, baseSha, uuidPrefix, LINEAGE);
  }

  lemma MadeAs(s0: Tables, s: Tables, row: TaskRow, baseSha: Sha, number: nat)
    requires TaskAdded(s0, s, row) && NewlyMade(NewCase(row), baseSha, number)
    ensures OthersSame(s0, s) && row.id !in s0.tasks && s.tasks.Keys == s0.tasks.Keys + {row.id}
    ensures NewlyMade(CaseOf(s, row.id), baseSha, number)
  {
  }

  lemma MadeCase(row: TaskRow, number: nat, baseRef: string, baseSha: Sha, uuidPrefix: string)
    requires number <= Identifiers.LAST_NUMBER
      && row == NewTask(row.id, number, PROFILE.slug, baseRef, baseSha, uuidPrefix)
    ensures NewlyMade(NewCase(row), baseSha, number)
  {
    Identifiers.PrintAndParse(number);
  }

  lemma QueueIsEnabled(d: Draft, baseSha: Sha, number: nat)
    requires NewlyMade(d.file, baseSha, number)
    ensures Enabled(d.file, Op.Queue) && Disciplined(d.file, Op.Queue, LINEAGE)
    ensures var c := Effect(d, Op.Queue).file;
      && c.task == d.file.task.(state := Queued) && c.blockers == [] && c.runs == []
  {
  }

  /** Nothing stands in the way of an attempt on the task, which has no head yet. */
  predicate Waiting(c: CaseFile, state: State) {
    && c.task.state == state && Active(state) && c.task.project == PROFILE.slug && c.task.currentHead == None
    && c.blockers == [] && NoneStarted(c.runs)
  }

  lemma AllocateIsEnabled(d: Draft, state: State, observed: Sha)
    requires Waiting(d.file, state)
    ensures Broker.Eligible(d.file, PROFILE.slug, d.file.task.identifier)
    ensures Enabled(d.file, Op.Allocate(observed)) && Disciplined(d.file, Op.Allocate(observed), LINEAGE)
    ensures var c := Effect(d, Op.Allocate(observed)).file;
      Underway(c, state, d.file.task.baseSha, d.next) && c.task == d.file.task
  {
    var c := Effect(d, Op.Allocate(observed)).file;
    assert c.runs[|d.file.runs|].id == d.next;
  }

  method Allocate(db: ControlPlaneDatabase, t: Uuid, ghost state: State) returns (run: Uuid)
    requires DbConsistent(db.Rows(), LINEAGE) && t in db.tasks && Waiting(db.View(t).file, state)
    modifies db
    ensures DbConsistent(db.Rows(), LINEAGE) && OnlyTask(old(db.Rows()), db.Rows(), t)
    ensures t in db.tasks && Underway(db.View(t).file, state, old(db.tasks)[t].baseSha, run)
    ensures db.tasks[t] == old(db.tasks)[t]
  {
    ghost var s0 := db.Rows();
    var observed := SelectedHead(db.tasks[t]);
    AllocateIsEnabled(db.View(t), state, observed);
    var allocation := Broker.AllocateAttempt(db, t, PROFILE.slug, db.tasks[t].identifier, observed);
    run := allocation.runId;
    Service.Operated(s0, db.Rows(), t, Op.Allocate(observed), LINEAGE);
    assert CaseOf(db.Rows(), t).task == db.tasks[t];
  }

  method Queue(db: ControlPlaneDatabase, t: Uuid, ghost baseSha: Sha, ghost number: nat)
    requires DbConsistent(db.Rows(), LINEAGE) && t in db.tasks && NewlyMade(db.View(t).file, baseSha, number)
    modifies db
    ensures DbConsistent(db.Rows(), LINEAGE) && OnlyTask(old(db.Rows()), db.Rows(), t)
    ensures t in db.tasks && Waiting(db.View(t).file, Queued)
    ensures db.tasks[t] == old(db.tasks)[t].(state := Queued)
  {
    ghost var s0 := db.Rows();
    QueueIsEnabled(db.View(t), baseSha, number);
    var _ := db.QueueTask(t, PROFILE.slug);
    Service.Operated(s0, db.Rows(), t, Op.Queue, LINEAGE);
    assert CaseOf(db.Rows(), t).task == db.tasks[t];
  }

  /** A new task, queued, with its first attempt started. */
  method Begin(db: ControlPlaneDatabase, baseSha: Sha, uuidPrefix: string) returns (t: Uuid, run: Uuid)
    requires DbConsistent(db.Rows(), LINEAGE) && MaxNumber(db.tasks, db.next) < Identifiers.LAST_NUMBER
    modifies db
    ensures DbConsistent(db.Rows(), LINEAGE) && OthersSame(old(db.Rows()), db.Rows())
    ensures t !in old(db.tasks) && db.tasks.Keys == old(db.tasks).Keys + {t}
    ensures Underway(db.View(t).file, Queued, baseSha, run)
    ensures Identifiers.Number(db.tasks[t].identifier) == old(MaxNumber(db.tasks, db.next)) + 1
  {
    ghost var s0, number := db.Rows(), MaxNumber(db.tasks, db.next) + 1;
    t := Make(db, baseSha, uuidPrefix);
    ghost var s1 := db.Rows();
    Queue(db, t, baseSha, number);
    ghost var s2 := db.Rows();
    StillSame(s0, s1, s2, t);
    run := Allocate(db, t, Queued);
    StillSame(s0, s2, db.Rows(), t);
  }

  lemma PlanningAccepted(d: Draft, run: Uuid, baseSha: Sha)
    requires Consistent(d, LINEAGE) && Underway(d.file, Queued, baseSha, run)
    ensures var r := AdvancingResult(d.file, run);
      && Enabled(d.file, Op.Reconcile(r, baseSha)) && Disciplined(d.file, Op.Reconcile(r, baseSha), LINEAGE)
    ensures var after := Reconciled(d, AdvancingResult(d.file, run), baseSha).file;
      && after.task == d.file.task.(state := Planned) && after.blockers == [] && NoneStarted(after.runs)
  {
    var r := AdvancingResult(d.file, run);
    NoAttemptIsWedged(d, run, baseSha + 1, LINEAGE);
    AcceptedEnds(d, r, baseSha, LINEAGE);
    SelectedHeadIsActual(d, r, baseSha, LINEAGE);
    HeadAfter(d, r, baseSha);
  }

  /** The first attempt's plan is accepted, and the next attempt, which is to implement it, is started. */
  method Plan(db: ControlPlaneDatabase, t: Uuid, run: Uuid) returns (next: Uuid)
    requires DbConsistent(db.Rows(), LINEAGE) && t in db.tasks
    requires Underway(db.View(t).file, Queued, db.tasks[t].baseSha, run)
    modifies db
    ensures DbConsistent(db.Rows(), LINEAGE) && OnlyTask(old(db.Rows()), db.Rows(), t)
    ensures t in db.tasks && Underway(db.View(t).file, Planned, old(db.tasks)[t].baseSha, next)
    ensures db.tasks[t].identifier == old(db.tasks)[t].identifier
  {
    ghost var s0 := db.Rows();
    var base, r := db.tasks[t].baseSha, AdvancingResult(db.View(t).file, run);
    PlanningAccepted(db.View(t), run, base);
    var _ := Broker.Reconcile(db, r, base);
    Service.Operated(s0, db.Rows(), t, Op.Reconcile(r, base), LINEAGE);
    ghost var s1 := db.Rows();
    assert CaseOf(s1, t).task == s1.tasks[t];
    next := Allocate(db, t, Planned);
    OnlyTaskTwice(s0, s1, db.Rows(), t);
  }

  lemma OnlyTaskTwice(s0: Tables, s1: Tables, s: Tables, t: Uuid)
    requires OnlyTask(s0, s1, t) && OnlyTask(s1, s, t)
    ensures OnlyTask(s0, s, t)
  {
    forall u | u in s0.tasks && u != t
      ensures CaseOf(s, u) == CaseOf(s0, u)
    {
      assert CaseOf(s1, u) == CaseOf(s0, u);
    }
  }

  /** The task whose identifier the workspace bears is the one its name stands for. */
  lemma BearsItsName(db: Tables, t: Uuid)
    requires DbConsistent(db, LINEAGE) && t in db.tasks && db.tasks[t].project == PROFILE.slug
    ensures TaskOf(db, db.tasks[t].identifier, PROFILE) == Some(t)
  {
    FoundTask(db.tasks, db.next, db.tasks[t].identifier, PROFILE.slug);
  }

  lemma MarkerLives(db: Tables, t: Uuid, state: State, baseSha: Sha, run: Uuid, marker: Marker)
    requires DbConsistent(db, LINEAGE) && t in db.tasks && Underway(CaseOf(db, t), state, baseSha, run)
    requires marker.run == Some(run)
    ensures MarkerIsLive(db, t, Some(marker))
  {
    var c := CaseOf(db, t);
    var i :| 0 <= i < |c.runs| && c.runs[i].id == run && IsStartedArchitect(c.runs[i]);
    assert c.runs[i] in c.runs;
    RunsOfMeans(db.runs, t);
    Concluding.RunFound(db, t, c.runs[i]);
  }

  /** A result for a planned task is admissible with any new head, wherever that head comes from. */
  lemma ImplementationAccepted(d: Draft, baseSha: Sha, run: Uuid, commit: Sha)
    requires Consistent(d, LINEAGE) && Underway(d.file, Planned, baseSha, run) && commit != baseSha
    ensures Enabled(d.file, Op.Reconcile(AdvancingResult(d.file, run), commit))
  {
    NoAttemptIsWedged(d, run, commit, LINEAGE);
  }

  /** A task whose plan was accepted, about to be implemented. */
  method PlannedTask(db: ControlPlaneDatabase, baseSha: Sha, uuidPrefix: string) returns (t: Uuid, run: Uuid)
    requires DbConsistent(db.Rows(), LINEAGE) && MaxNumber(db.tasks, db.next) < Identifiers.LAST_NUMBER
    modifies db
    ensures DbConsistent(db.Rows(), LINEAGE)
    ensures db.tasks.Keys == old(db.tasks).Keys + {t} && Underway(db.View(t).file, Planned, baseSha, run)
    ensures Identifiers.Number(db.tasks[t].identifier) == old(MaxNumber(db.tasks, db.next)) + 1
  {
    var planning;
    t, planning := Begin(db, baseSha, uuidPrefix);
    run := Plan(db, t, planning);
  }

  lemma NothingIsConsistent(s: Tables, number: nat)
    requires s == EMPTY && number >= 1
    ensures DbConsistent(s, LINEAGE) && MaxNumber(s.tasks, s.next) < number && s.tasks.Keys == {}
  {
  }

  lemma RoomForMore(s0: Tables, s: Tables, t: Uuid, number: nat)
    requires s0.tasks.Keys == {} && MaxNumber(s0.tasks, s0.next) < number && s.tasks.Keys == s0.tasks.Keys + {t}
    requires Identifiers.Number(s.tasks[t].identifier) == MaxNumber(s0.tasks, s0.next) + 1
    ensures t in s.tasks && MaxNumber(s.tasks, s.next) <= number
  {
    OneNumber(s.tasks, t, s.next, number);
  }

  method FirstTask(db: ControlPlaneDatabase, baseSha: Sha, ghost number: nat) returns (t: Uuid, run: Uuid)
    requires DbConsistent(db.Rows(), LINEAGE) && db.tasks.Keys == {}
    requires MaxNumber(db.tasks, db.next) < number < Identifiers.LAST_NUMBER
    modifies db
    ensures DbConsistent(db.Rows(), LINEAGE) && t in db.tasks && Underway(db.View(t).file, Planned, baseSha, run)
    ensures MaxNumber(db.tasks, db.next) <= number
  {
    ghost var s0 := db.Rows();
    t, run := PlannedTask(db, baseSha, "b");
    RoomForMore(s0, db.Rows(), t, number);
  }

  /** And another, on another base, whose planning is under way. */
  method TwoTasks() returns (db: ControlPlaneDatabase, own: Uuid, named: Uuid, run: Uuid, implementing: Uuid)
    ensures fresh(db) && DbConsistent(db.Rows(), LINEAGE) && own in db.tasks && named in db.tasks && own != named
    ensures Underway(db.View(own).file, Queued, 1, run) && Underway(db.View(named).file, Planned, 2, implementing)
  {
    db := new ControlPlaneDatabase();
    NothingIsConsistent(db.Rows(), 1);
    named, implementing := FirstTask(db, 2, 1);
    ghost var s1 := db.Rows();
    own, run := Begin(db, 1, "a");
    assert CaseOf(db.Rows(), named) == CaseOf(s1, named);
  }

  /** The workspace of one task, on a commit of its own, with a report that would implement the other. */
  method Misreporting(
      db: ControlPlaneDatabase, own: Uuid, named: Uuid, run: Uuid, implementing: Uuid)
    returns (ws: Workspace)
    requires own in db.tasks && named in db.tasks
    ensures fresh(ws) && ws.name == db.tasks[own].identifier && ws.head == 3
    ensures CheckoutOf(ws) == Checkout(PROFILE.remote, db.tasks[own].branch, 3, false, {3})
    ensures ws.marker.Some? && ws.marker.value.run == Some(run)
    ensures ReportOf(ws) == Some(AdvancingResult(db.View(named).file, implementing))
  {
    ws := new Workspace(db.tasks[own].identifier, PROFILE.remote, db.tasks[own].branch, 3);
    ws.marker := Some(Marker(own, ws.branch, db.tasks[own].baseSha, Some(run)));
    ws.outbox := map[run := AdvancingResult(db.View(named).file, implementing)];
  }

  lemma MisreportIsAcceptable(db: Tables, ws: Workspace, own: Uuid, named: Uuid, run: Uuid, implementing: Uuid)
    requires DbConsistent(db, LINEAGE) && own in db.tasks && named in db.tasks
    requires Underway(CaseOf(db, own), Queued, 1, run) && Underway(CaseOf(db, named), Planned, 2, implementing)
    requires ws.name == db.tasks[own].identifier && ws.marker.Some? && ws.marker.value.run == Some(run)
    requires CheckoutOf(ws) == Checkout(PROFILE.remote, db.tasks[own].branch, 3, false, {3})
    requires ReportOf(ws) == Some(AdvancingResult(CaseOf(db, named), implementing))
    ensures TaskOf(db, ws.name, PROFILE) == Some(own) && GitTruth(ws, PROFILE, db.tasks[own], LINEAGE)
    ensures ReportOf(ws).value.taskId == named && Acceptable(db, ws, PROFILE, LINEAGE)
    ensures !Rooted(db.tasks[named], ws.head, LINEAGE)
  {
    assert CaseOf(db, own).task == db.tasks[own] && CaseOf(db, named).task == db.tasks[named];
    BearsItsName(db, own);
    MarkerLives(db, own, Queued, 1, run, ws.marker.value);
    ImplementationAccepted(DraftOf(db, named), 2, implementing, 3);
  }

  /** A workspace that is true for its own task and whose report names another, where its head has no place. */
  ghost predicate Misreports(db: Tables, ws: Workspace, own: Uuid, named: Uuid)
    reads ws
  {
    && DbConsistent(db, LINEAGE) && own in db.tasks && named in db.tasks && own != named
    && TaskOf(db, ws.name, PROFILE) == Some(own) && GitTruth(ws, PROFILE, db.tasks[own], LINEAGE)
    && ReportOf(ws).Some? && ReportOf(ws).value.taskId == named && Acceptable(db, ws, PROFILE, LINEAGE)
    && !Rooted(db.tasks[named], ws.head, LINEAGE)
  }

  method Misreport() returns (db: ControlPlaneDatabase, ws: Workspace, own: Uuid, named: Uuid)
    ensures fresh(db) && Misreports(db.Rows(), ws, own, named)
  {
    var run, implementing;
    db, own, named, run, implementing := TwoTasks();
    ws := Misreporting(db, own, named, run, implementing);
    MisreportIsAcceptable(db.Rows(), ws, own, named, run, implementing);
  }

  /**
   From an empty database, by the broker's own operations, an attempt of one task reports for another: everything its
   reconciliation checks holds, so it is accepted, and then a head that does not descend from the other task's base is
   current there, while the attempt that reported stays started.
   */
  method ForeignReport()
    returns (db: ControlPlaneDatabase, ws: Workspace, own: Uuid, named: Uuid, ok: bool, ghost before: Tables)
    ensures Misreports(before, ws, own, named)
    ensures ok && !DbConsistent(db.Rows(), LINEAGE)
    ensures named in db.tasks && SelectedHead(db.tasks[named]) == ws.head && !LINEAGE(db.tasks[named].baseSha, ws.head)
    ensures own in db.tasks && !NoneStarted(db.View(own).file.runs)
  {
    db, ws, own, named := Misreport();
    before := db.Rows();
    ok := AttemptReturns(db, ws, PROFILE, own, false, false, LINEAGE);
  }
}
