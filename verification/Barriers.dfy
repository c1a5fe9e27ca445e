/**
 What preparing, running and reconciling guarantee together: the scheduler barrier and the handoff to the next attempt.
 */
module Barriers {
  import opened Schema
  import opened Queries
  import opened Results
  import opened Reconciliation
  import opened Managed
  import opened Histories
  import opened Evidence
  import opened Invariants
  import opened Preservation
  import opened Runs
  import opened Progress
  import opened Relations
  import opened ControlPlane
  import opened ControlRuns
  import opened Checkouts
  import opened Workspaces

  /* ---------- What acceptance keeps ---------- */

  /** A result that leaves the head where it is keeps every invariant whatever Git says about it. */
  lemma StillKeeps(d: Draft, r: LifecycleResult, head: Sha, descends: (Sha, Sha) -> bool)
    requires Consistent(d, descends) && Enabled(d.file, Reconcile(r, head)) && head == SelectedHead(d.file.task)
    ensures Consistent(Reconciled(d, r, head), descends)
  {
    if d.file.task.currentHead.Some? {
      ReconcileKeeps(d, r, head, descends);
    } else {
      var wider := (a: Sha, b: Sha) => descends(a, b) || b == head;
      ReconcileKeeps(d, r, head, wider);
      HeadAfter(d, r, head);
    }
  }

  lemma HeadAfter(d: Draft, r: LifecycleResult, head: Sha)
    requires WellFormed(r) && Admissible(d.file, r, head)
    requires RowsOwned(d) && RoundsExact(d.file.runs) && LicencesOk(d.file) && AttemptsOk(d.file)
    ensures var task := Reconciled(d, r, head).file.task;
      && task.baseSha == d.file.task.baseSha
      && task.currentHead == if head == SelectedHead(d.file.task) then d.file.task.currentHead else Some(head)
  {
    ReconcileConcludes(d, r, head);
  }

  /** The head stayed where the task had it, or it descends from the task's base. */
  predicate Rooted(task: TaskRow, head: Sha, descends: (Sha, Sha) -> bool) {
    head == SelectedHead(task) || descends(task.baseSha, head)
  }

  /** The workspace check against the named task's own base is exactly what keeps every invariant. */
  lemma AncestryIsTheHostsDuty(d: Draft, r: LifecycleResult, head: Sha, descends: (Sha, Sha) -> bool)
    requires Consistent(d, descends) && Enabled(d.file, Reconcile(r, head))
    ensures Consistent(Reconciled(d, r, head), descends) <==> Rooted(d.file.task, head, descends)
  {
    HeadAfter(d, r, head);
    if head == SelectedHead(d.file.task) {
      StillKeeps(d, r, head, descends);
    } else if descends(d.file.task.baseSha, head) {
      ReconcileKeeps(d, r, head, descends);
    }
  }

  /* ---------- After an attempt ---------- */

  /**
   An accepted result ends the attempt at the head Git showed; only a blocked one adds blockers, and it moves nothing
   else.
   */
  lemma AcceptedEnds(d: Draft, r: LifecycleResult, head: Sha, descends: (Sha, Sha) -> bool)
    requires Consistent(d, descends) && WellFormed(r) && Admissible(d.file, r, head)
    ensures var after := Reconciled(d, r, head).file;
      && NoneStarted(after.runs) && SelectedHead(after.task) == head
      && (r.outcome == Outcome.Blocked ==> after.task.state == d.file.task.state && HasOpenBlocker(after.blockers))
      && (r.outcome != Outcome.Blocked ==> after.blockers == d.file.blockers)
  {
    ReconcileConcludes(d, r, head);
    NoneStartedCount(Reconciled(d, r, head).file.runs);
  }

  lemma FailedEnds(d: Draft, detail: string, descends: (Sha, Sha) -> bool)
    requires Consistent(d, descends) && Enabled(d.file, FailAttempt(detail))
    ensures var after := Effect(d, FailAttempt(detail)).file;
      NoneStarted(after.runs) && after.task == d.file.task && HasOpenBlocker(after.blockers)
  {
    FailAttemptKeeps(d, detail, descends);
    NoneStartedCount(Effect(d, FailAttempt(detail)).file.runs);
  }

  lemma StartedIsArchitect(d: Draft, i: nat, descends: (Sha, Sha) -> bool)
    requires Consistent(d, descends) && i < |d.file.runs| && d.file.runs[i].status == Started
    ensures IsStartedArchitect(d.file.runs[i]) && CountAttempts(d.file.runs, Started) <= 1
  {
  }

  /** In a reachable state the run the marker names and the run an accepted result names are the same one. */
  lemma MarkerRunIsResultRun(
      db: Tables, t: Uuid, marker: Option<Marker>, r: LifecycleResult, head: Sha, descends: (Sha, Sha) -> bool)
    requires DbConsistent(db, descends) && t in db.tasks && MarkerIsLive(db, t, marker)
    requires r.taskId == t && Enabled(CaseOf(db, t), Reconcile(r, head))
    ensures r.runId == marker.value.run.value
  {
    var run, c := FindRun(db.runs, marker.value.run.value).value, CaseOf(db, t);
    FoundRun(db.runs, marker.value.run.value);
    RunsOfMeans(db.runs, t);
    assert run in c.runs;
    var i :| 0 <= i < |c.runs| && c.runs[i] == run;
    var j :| 0 <= j < |c.runs| && c.runs[j].id == r.runId && IsStartedArchitect(c.runs[j]);
    StartedIsArchitect(DraftOf(db, t), i, descends);
    OnlyOneStarted(c.runs, i, j);
  }

  lemma StartedCounts(runs: seq<RunRow>, i: nat)
    requires i < |runs| && IsStartedArchitect(runs[i])
    ensures CountAttempts(runs, Started) >= 1
  {
    NoneStartedCount(runs);
  }

  lemma {:induction false} OnlyOneStarted(runs: seq<RunRow>, i: nat, j: nat)
    requires i < |runs| && j < |runs| && IsStartedArchitect(runs[i]) && IsStartedArchitect(runs[j])
    requires CountAttempts(runs, Started) <= 1
    ensures i == j
  {
    var init := Init(runs);
    if i < |init| && j < |init| {
      OnlyOneStarted(init, i, j);
    } else if i != j {
      StartedCounts(init, if i < j then i else j);
    }
  }

  /** The task is where it was, and some blocker is open. */
  predicate Held(before: CaseFile, after: CaseFile) {
    after.task.state == before.task.state && HasOpenBlocker(after.blockers)
  }

  /** The attempt a live marker names stays started while another task's rows change. */
  lemma StaysStarted(
      s0: Tables, s: Tables, t: Uuid, u: Uuid, marker: Option<Marker>, descends: (Sha, Sha) -> bool)
    requires DbConsistent(s0, descends) && t in s0.tasks && MarkerIsLive(s0, t, marker) && OnlyTask(s0, s, u) && t != u
    ensures !NoneStarted(CaseOf(s, t).runs)
  {
    FoundRun(s0.runs, marker.value.run.value);
    RunsOfMeans(s0.runs, t);
    var run, c := FindRun(s0.runs, marker.value.run.value).value, CaseOf(s0, t);
    assert run in c.runs;
    var i :| 0 <= i < |c.runs| && c.runs[i] == run;
    StartedIsArchitect(DraftOf(s0, t), i, descends);
    assert CaseOf(s, t) == c;
  }

  /** A result that is accepted for the workspace's own task ends its attempt; for another task it leaves it started. */
  lemma AcceptedReturns(
      s0: Tables, s: Tables, t: Uuid, marker: Option<Marker>, r: LifecycleResult, head: Sha,
      descends: (Sha, Sha) -> bool)
    requires DbConsistent(s0, descends) && t in s0.tasks && MarkerIsLive(s0, t, marker)
    requires r.taskId in s0.tasks && Enabled(CaseOf(s0, r.taskId), Op.Reconcile(r, head))
    requires Became(s0, s, r.taskId, Effect(DraftOf(s0, r.taskId), Op.Reconcile(r, head)))
    ensures NoneStarted(CaseOf(s, t).runs) <==> r.taskId == t
    ensures r.taskId == t ==>
      if r.outcome == Outcome.Blocked then Held(CaseOf(s0, t), CaseOf(s, t))
        else CaseOf(s, t).blockers == CaseOf(s0, t).blockers
  {
    if r.taskId == t {
      AcceptedEnds(DraftOf(s0, t), r, head, descends);
    } else {
      StaysStarted(s0, s, t, r.taskId, marker, descends);
    }
  }

  /** A rejected attempt is failed: nothing is started, and a blocker holds the task where it was. */
  lemma RejectedReturns(s0: Tables, s: Tables, t: Uuid, detail: string, descends: (Sha, Sha) -> bool)
    requires DbConsistent(s0, descends) && t in s0.tasks
    requires if Enabled(CaseOf(s0, t), Op.FailAttempt(detail))
             then Became(s0, s, t, Effect(DraftOf(s0, t), Op.FailAttempt(detail))) else s == s0
    ensures DbConsistent(s, descends) && NoneStarted(CaseOf(s, t).runs)
    ensures !NoneStarted(CaseOf(s0, t).runs) ==> Held(CaseOf(s0, t), CaseOf(s, t))
  {
    NoneStartedCount(CaseOf(s0, t).runs);
    if Enabled(CaseOf(s0, t), Op.FailAttempt(detail)) {
      FailedEnds(DraftOf(s0, t), detail, descends);
      OpConsistent(s0, t, Op.FailAttempt(detail), s, descends);
    }
  }

  /** The head is the task's selected one now, over the same base. */
  predicate HeadTaken(before: TaskRow, after: TaskRow, head: Sha) {
    SelectedHead(after) == head && after.baseSha == before.baseSha
  }

  lemma HeadIsTaken(s0: Tables, s: Tables, r: LifecycleResult, head: Sha, descends: (Sha, Sha) -> bool)
    requires DbConsistent(s0, descends) && r.taskId in s0.tasks && Enabled(CaseOf(s0, r.taskId), Op.Reconcile(r, head))
    requires Became(s0, s, r.taskId, Effect(DraftOf(s0, r.taskId), Op.Reconcile(r, head)))
    ensures r.taskId in s.tasks && HeadTaken(s0.tasks[r.taskId], s.tasks[r.taskId], head)
  {
    HeadAfter(DraftOf(s0, r.taskId), r, head);
    assert s.tasks[r.taskId] == CaseOf(s, r.taskId).task;
  }

  /** An accepted result keeps the whole database consistent exactly when its head is rooted in the task it names. */
  lemma AcceptedKeeps(s0: Tables, s: Tables, r: LifecycleResult, head: Sha, descends: (Sha, Sha) -> bool)
    requires DbConsistent(s0, descends) && r.taskId in s0.tasks && Enabled(CaseOf(s0, r.taskId), Op.Reconcile(r, head))
    requires Became(s0, s, r.taskId, Effect(DraftOf(s0, r.taskId), Op.Reconcile(r, head)))
    ensures DbConsistent(s, descends) <==> Rooted(s0.tasks[r.taskId], head, descends)
  {
    var d := DraftOf(s0, r.taskId);
    AncestryIsTheHostsDuty(d, r, head, descends);
    if Rooted(d.file.task, head, descends) {
      OpKeepsNames(s0, s, r.taskId, Op.Reconcile(r, head), descends);
      OpStep(s0, s, r.taskId, Effect(d, Op.Reconcile(r, head)), descends);
    } else {
      assert !Consistent(DraftOf(s, r.taskId), descends);
    }
  }

  /**
   The scheduler barrier. When an attempt came back no attempt of the workspace's task is left started, exactly unless
   a result for another task was accepted or the failure could not be recorded. A rejected attempt whose failure was
   recorded, or a blocked one, leaves the state alone and a blocker open; an accepted, unblocked one adds no blocker.
   The database stays consistent exactly unless an accepted head is not rooted in the task its result names, which
   cannot be when that is the workspace's own.
   */
  method AttemptReturns(
      db: ControlPlaneDatabase, ws: Workspace, profile: Profile, t: Uuid, interrupted: bool, recordingFails: bool,
      descends: (Sha, Sha) -> bool)
    returns (ok: bool)
    requires DbConsistent(db.Rows(), descends) && TaskOf(db.Rows(), ws.name, profile) == Some(t)
    modifies db
    ensures ok <==> !interrupted && old(Acceptable(db.Rows(), ws, profile, descends))
    ensures t in old(db.tasks) && t in db.tasks
      && (ok ==> ReportOf(ws).Some? && ReportOf(ws).value.taskId in old(db.tasks))
    ensures NoneStarted(db.View(t).file.runs) <==>
      if ok then ReportOf(ws).value.taskId == t else !recordingFails || NoneStarted(old(db.View(t)).file.runs)
    ensures !ok && !recordingFails && !NoneStarted(old(db.View(t)).file.runs) ==>
      Held(old(db.View(t)).file, db.View(t).file)
    ensures ok && ReportOf(ws).value.taskId == t ==>
      if ReportOf(ws).value.outcome == Outcome.Blocked then Held(old(db.View(t)).file, db.View(t).file)
      else db.View(t).file.blockers == old(db.View(t)).file.blockers
    ensures ok ==>
      var named := ReportOf(ws).value.taskId;
      named in db.tasks && HeadTaken(old(db.tasks)[named], db.tasks[named], ws.head)
    ensures DbConsistent(db.Rows(), descends) <==>
      !ok || Rooted(old(db.tasks)[ReportOf(ws).value.taskId], ws.head, descends)
    ensures ok && ReportOf(ws).value.taskId == t ==> DbConsistent(db.Rows(), descends)
  {
    ghost var s0 := db.Rows();
    FoundTask(db.tasks, db.next, ws.name, profile.slug);
    ok := AfterRun(db, ws, profile, interrupted, recordingFails, descends);
    if ok {
      AcceptedReturns(s0, db.Rows(), t, ws.marker, ReportOf(ws).value, ws.head, descends);
      AcceptedKeeps(s0, db.Rows(), ReportOf(ws).value, ws.head, descends);
      HeadIsTaken(s0, db.Rows(), ReportOf(ws).value, ws.head, descends);
    } else if !recordingFails {
      RejectedReturns(s0, db.Rows(), t, RECONCILIATION_FAILED, descends);
    }
  }

  predicate Idle(move: Move) {
    move.Here? ==> !move.op.Allocate? && !move.op.StartPublication? && !move.op.FinalizePublication?
  }

  predicate AllIdle(moves: seq<Move>) {
    forall i :: 0 <= i < |moves| ==> Idle(moves[i])
  }

  lemma OneMoreMove(moves: seq<Move>, move: Move)
    requires moves != []
    ensures AllIdle(moves) <==> AllIdle(Init(moves)) && Idle(Last(moves))
    ensures move in moves <==> move in Init(moves) || move == Last(moves)
  {
    assert moves == Init(moves) + [Last(moves)];
  }

  /** While a blocker stays unresolved, no run of the task allocates, starts or finalizes anything. */
  lemma {:induction false} HeldUntilResolved(
      ds: seq<Draft>, moves: seq<Move>, blocker: Uuid, descends: (Sha, Sha) -> bool)
    requires Run(ds, moves, descends) && Consistent(ds[0], descends) && IsOpen(ds[0].file.blockers, blocker)
    requires Here(ResolveBlocker(blocker)) !in moves
    ensures IsOpen(Last(ds).file.blockers, blocker) && AllIdle(moves)
    decreases |moves|
  {
    if moves != [] {
      RunPrefix(ds, moves, descends);
      OneMoreMove(moves, Here(ResolveBlocker(blocker)));
      HeldUntilResolved(Init(ds), Init(moves), blocker, descends);
      RunsStayConsistent(Init(ds), Init(moves), descends);
      BlockerHolds(Last(Init(ds)), Last(moves), Last(ds), blocker, descends);
    } else {
      assert Last(ds) == ds[0];
    }
  }

  /* ---------- To the next attempt ---------- */

  /** What the next preparation meets lets it pass: a first one also fetches and switches, a later one does neither. */
  predicate Fair(task: TaskRow, w: Weather, descends: (Sha, Sha) -> bool) {
    && !w.busy && !w.dirtiedMeanwhile && !w.toolsFail && !w.markerFails
    && (task.currentHead.None? ==>
          w.fetched.Some? && descends(task.baseSha, w.fetched.value.tip) && !w.switchFails)
  }

  /** Nothing of a publication is there yet: the task's first preparation may start it. */
  predicate Unpublished(c: CaseFile) {
    c.publication == None && c.task.publishedHead == None
  }

  lemma AcceptedIsUnpublished(d: Draft, r: LifecycleResult, head: Sha, descends: (Sha, Sha) -> bool)
    requires Consistent(d, descends) && WellFormed(r) && Admissible(d.file, r, head)
    ensures Unpublished(Reconciled(d, r, head).file)
  {
    ReconcileConcludes(d, r, head);
  }

  /** A clean checkout on the task's branch at its selected head can be prepared exactly in fair weather. */
  lemma FairIsPreparable(c: CaseFile, k: Checkout, profile: Profile, w: Weather, descends: (Sha, Sha) -> bool)
    requires Unpublished(c) && k.remote == profile.remote && !k.dirty
    requires k.branch == c.task.branch && k.head == SelectedHead(c.task) && k.head in k.commits
    requires descends(c.task.baseSha, k.head)
    ensures Preparable(c, k, profile, w, descends) <==> Fair(c.task, w, descends)
  {
  }

  /** Once its attempt was accepted, the clean checkout passes the next preparation exactly in fair weather. */
  lemma Handoff(
      d: Draft, r: LifecycleResult, k: Checkout, profile: Profile, w: Weather, descends: (Sha, Sha) -> bool)
    requires Consistent(d, descends) && WellFormed(r) && Admissible(d.file, r, k.head)
    requires k.remote == profile.remote && k.branch == d.file.task.branch && !k.dirty
    requires descends(d.file.task.baseSha, k.head) && k.head in k.commits
    ensures var after := Reconciled(d, r, k.head).file;
      && k.head == SelectedHead(after.task) && k.branch == after.task.branch
      && (Preparable(after, k, profile, w, descends) <==> Fair(after.task, w, descends))
  {
    SelectedHeadIsActual(d, r, k.head, descends);
    AcceptedIsUnpublished(d, r, k.head, descends);
    FairIsPreparable(Reconciled(d, r, k.head).file, k, profile, w, descends);
  }

  /** A workspace's name stands for the same task as long as the tasks keep their names. */
  lemma NameStands(s0: Tables, s: Tables, t: Uuid, name: string, profile: Profile)
    requires TablesOk(s0) && TablesOk(s) && NamesOk(s0.tasks) && NamesOk(s.tasks) && s0.tasks.Keys <= s.tasks.Keys
    requires TaskOf(s0, name, profile) == Some(t)
    requires t in s0.tasks ==>
      s.tasks[t].identifier == s0.tasks[t].identifier && s.tasks[t].project == s0.tasks[t].project
    ensures t in s0.tasks && TaskOf(s, name, profile) == Some(t)
  {
    FoundTask(s0.tasks, s0.next, name, profile.slug);
    FoundTask(s.tasks, s.next, name, profile.slug);
  }

  /** A committed operation keeps the database consistent, and the task's row is what the operation made it. */
  lemma OpCommitted(s0: Tables, s: Tables, t: Uuid, op: Op, descends: (Sha, Sha) -> bool)
    requires DbConsistent(s0, descends) && t in s0.tasks
    requires Enabled(CaseOf(s0, t), op) && Disciplined(CaseOf(s0, t), op, descends)
    requires Became(s0, s, t, Effect(DraftOf(s0, t), op))
    ensures DbConsistent(s, descends) && t in s.tasks && s.tasks[t] == Effect(DraftOf(s0, t), op).file.task
  {
    OpConsistent(s0, t, op, s, descends);
    OtherRows(s0, s, t, Effect(DraftOf(s0, t), op));
  }

  lemma AlwaysRecordable(d: Draft, op: Op, descends: (Sha, Sha) -> bool)
    requires op.RecordBlocker?
    ensures Enabled(d.file, op) && Disciplined(d.file, op, descends) && Effect(d, op).file.task == d.file.task
  {
  }

  lemma RecordingKeeps(s0: Tables, s: Tables, t: Uuid, op: Op, descends: (Sha, Sha) -> bool)
    requires DbConsistent(s0, descends) && t in s0.tasks && op.RecordBlocker?
    requires Became(s0, s, t, Effect(DraftOf(s0, t), op))
    ensures DbConsistent(s, descends) && t in s.tasks && s.tasks[t] == s0.tasks[t]
  {
    AlwaysRecordable(DraftOf(s0, t), op, descends);
    OpCommitted(s0, s, t, op, descends);
  }

  /** The handoff as the operation on the named task, which keeps its names. */
  lemma HandsOver(
      d: Draft, op: Op, k: Checkout, profile: Profile, w: Weather, descends: (Sha, Sha) -> bool)
    requires Consistent(d, descends) && op.Reconcile? && op.head == k.head && Enabled(d.file, op)
    requires k.remote == profile.remote && k.branch == d.file.task.branch && !k.dirty
    requires descends(d.file.task.baseSha, k.head) && k.head in k.commits
    ensures Disciplined(d.file, op, descends)
    ensures var after := Effect(d, op).file;
      && after.task.identifier == d.file.task.identifier && after.task.project == d.file.task.project
      && k.head == SelectedHead(after.task) && k.branch == after.task.branch
      && (Preparable(after, k, profile, w, descends) <==> Fair(after.task, w, descends))
  {
    EffectKeepsName(d, op, descends);
    Handoff(d, op.result, k, profile, w, descends);
  }

  /** What the workspace's own accepted result leaves: the same checkout is there to be prepared. */
  lemma ReadyToPrepare(
      s0: Tables, s: Tables, t: Uuid, op: Op, k: Checkout, name: string, profile: Profile, w: Weather,
      descends: (Sha, Sha) -> bool)
    requires DbConsistent(s0, descends) && TaskOf(s0, name, profile) == Some(t) && t in s0.tasks
    requires op.Reconcile? && op.head == k.head && Enabled(CaseOf(s0, t), op)
    requires Became(s0, s, t, Effect(DraftOf(s0, t), op))
    requires k.remote == profile.remote && k.branch == s0.tasks[t].branch && !k.dirty
    requires descends(s0.tasks[t].baseSha, k.head) && k.head in k.commits
    ensures DbConsistent(s, descends) && TaskOf(s, name, profile) == Some(t)
    ensures k.branch == s.tasks[t].branch && k.head == SelectedHead(s.tasks[t])
    ensures Preparable(CaseOf(s, t), k, profile, w, descends) <==> Fair(s.tasks[t], w, descends)
  {
    HandsOver(DraftOf(s0, t), op, k, profile, w, descends);
    OpCommitted(s0, s, t, op, descends);
    NameStands(s0, s, t, name, profile);
  }

  /** Preparing leaves the database consistent and the task's row alone. */
  method PrepareAgain(
      db: ControlPlaneDatabase, ws: Workspace, profile: Profile, t: Uuid, w: Weather, descends: (Sha, Sha) -> bool)
    returns (prepared: bool)
    requires DbConsistent(db.Rows(), descends) && TaskOf(db.Rows(), ws.name, profile) == Some(t) && t in db.tasks
    modifies db, ws`commits, ws`branch, ws`head, ws`marker
    ensures DbConsistent(db.Rows(), descends) && t in db.tasks && db.tasks[t] == old(db.tasks)[t]
    ensures prepared <==> Preparable(old(db.View(t)).file, old(CheckoutOf(ws)), profile, w, descends)
    ensures prepared ==>
      && ws.branch == db.tasks[t].branch && ws.head == SelectedHead(db.tasks[t]) && !ws.dirty
      && ws.marker == Some(Marker(t, ws.branch, ws.head, None))
  {
    ghost var s0 := db.Rows();
    var reason;
    prepared, reason := Prepare(db, ws, profile, w, descends);
    if !prepared {
      RecordingKeeps(s0, db.Rows(), t, Op.RecordBlocker(Infrastructure, reason), descends);
    }
  }

  /**
   From one attempt to the next: once the workspace's own result is accepted, the next preparation of that checkout
   succeeds exactly in fair weather, and then is still on the same commit of the same branch, marked for that head.
   */
  method HandOver(
      db: ControlPlaneDatabase, ws: Workspace, profile: Profile, t: Uuid, interrupted: bool, w: Weather,
      descends: (Sha, Sha) -> bool)
    returns (accepted: bool, prepared: bool)
    requires DbConsistent(db.Rows(), descends) && TaskOf(db.Rows(), ws.name, profile) == Some(t)
    requires ReportOf(ws).Some? ==> ReportOf(ws).value.taskId == t
    requires ws.head in ws.commits
    modifies db, ws`commits, ws`branch, ws`head, ws`marker
    ensures DbConsistent(db.Rows(), descends) && t in db.tasks
    ensures accepted <==> !interrupted && old(Acceptable(db.Rows(), ws, profile, descends))
    ensures accepted ==> (prepared <==> Fair(db.tasks[t], w, descends))
    ensures prepared ==>
      && accepted && ws.branch == old(ws.branch) == db.tasks[t].branch
      && ws.head == old(ws.head) == SelectedHead(db.tasks[t]) && !ws.dirty
      && ws.marker == Some(Marker(t, ws.branch, ws.head, None))
  {
    ghost var s0, k, r := db.Rows(), CheckoutOf(ws), ReportOf(ws);
    FoundTask(db.tasks, db.next, ws.name, profile.slug);
    prepared := false;
    accepted := ReconcileWorkspace(db, ws, profile, interrupted, descends);
    if accepted {
      ReadyToPrepare(s0, db.Rows(), t, Op.Reconcile(r.value, ws.head), k, ws.name, profile, w, descends);
      prepared := PrepareAgain(db, ws, profile, t, w, descends);
    }
  }
}
