/** The retained Git workspace of a task: preparing it, allocating an attempt on it, reconciling what came back. */
module Workspaces {
  import opened Schema
  import opened Queries
  import opened Results
  import opened Reconciliation
  import opened Managed
  import opened Histories
  import opened Evidence
  import opened Invariants
  import opened Preservation
  import opened Checkouts
  import opened Progress
  import opened Relations
  import opened ControlPlane
  import Lifecycle
  import opened Broker
  import opened ControlRuns
  import Identifiers

  /* ---------- Whose workspace it is ---------- */

  /** SELECT ... WHERE identifier = ? AND project_slug = ?. */
  function FindTask(tasks: map<Uuid, TaskRow>, bound: Uuid, identifier: string, project: string): Option<Uuid> {
    if bound == 0 then None
    else if bound - 1 in tasks && tasks[bound - 1].identifier == identifier && tasks[bound - 1].project == project
    then Some(bound - 1)
    else FindTask(tasks, bound - 1, identifier, project)
  }

  lemma {:induction false} FoundTask(tasks: map<Uuid, TaskRow>, bound: Uuid, identifier: string, project: string)
    ensures var t := FindTask(tasks, bound, identifier, project);
      && (t.Some? ==> t.value in tasks && tasks[t.value].identifier == identifier && tasks[t.value].project == project)
      && (t.None? ==> forall u :: u in tasks && u < bound ==>
          tasks[u].identifier != identifier || tasks[u].project != project)
  {
    if bound > 0 {
      FoundTask(tasks, bound - 1, identifier, project);
    }
  }

  /** The task a workspace's name stands for; None when the name is no identifier or no such task is registered. */
  function TaskOf(db: Tables, name: string, profile: Profile): Option<Uuid> {
    if Identifiers.IsIdentifier(name) then FindTask(db.tasks, db.next, name, profile.slug) else None
  }

  /* ---------- Reconciling what an attempt left ---------- */

  /** The marker names a run of this task that is still started. */
  predicate MarkerIsLive(db: Tables, t: Uuid, marker: Option<Marker>) {
    marker.Some? && marker.value.run.Some? &&
      var run := FindRun(db.runs, marker.value.run.value);
      run.Some? && run.value.taskId == t && run.value.status == Started
  }

  /** The result the marker's run left in its outbox. */
  function ReportOf(ws: Workspace): Option<LifecycleResult>
    reads ws
  {
    if ws.marker.Some? && ws.marker.value.run.Some? && ws.marker.value.run.value in ws.outbox
    then Some(ws.outbox[ws.marker.value.run.value]) else None
  }

  /** What a reconciliation needs: a live marker, a well-formed report, a true workspace, an admissible result. */
  ghost predicate Acceptable(db: Tables, ws: Workspace, profile: Profile, descends: (Sha, Sha) -> bool)
    reads ws
  {
    var t := TaskOf(db, ws.name, profile);
    && t.Some? && t.value in db.tasks && MarkerIsLive(db, t.value, ws.marker)
    && ReportOf(ws).Some? && WellFormed(ReportOf(ws).value)
    && GitTruth(ws, profile, db.tasks[t.value], descends)
    && ReportOf(ws).value.taskId in db.tasks
    && Enabled(CaseOf(db, ReportOf(ws).value.taskId), Op.Reconcile(ReportOf(ws).value, ws.head))
  }

  /** `reconcile`: any host step outside the transaction may also raise (`interrupted`). */
  method ReconcileWorkspace(
      db: ControlPlaneDatabase, ws: Workspace, profile: Profile, interrupted: bool, descends: (Sha, Sha) -> bool)
    returns (ok: bool)
    requires TablesOk(db.Rows())
    modifies db
    ensures ok <==> !interrupted && old(Acceptable(db.Rows(), ws, profile, descends))
    ensures ok ==>
      var r := ReportOf(ws).value;
      Became(old(db.Rows()), db.Rows(), r.taskId, Effect(old(db.View(r.taskId)), Op.Reconcile(r, ws.head)))
    ensures !ok ==> db.Rows() == old(db.Rows())
  {
    var t := TaskOf(db.Rows(), ws.name, profile);
    FoundTask(db.tasks, db.next, ws.name, profile.slug);
    if t.None? || !MarkerIsLive(db.Rows(), t.value, ws.marker) {
      return false;
    }
    var report := ReportOf(ws);
    if report.None? {
      return false;
    }
    ok := ReadResult(report.value);
    if !ok || interrupted || !GitTruth(ws, profile, db.tasks[t.value], descends) {
      return false;
    }
    ok := Broker.Reconcile(db, report.value, ws.head);
  }

  const RECONCILIATION_FAILED := "reconciliation failed"

  /**
   `after_run`: reconcile, or else fail the workspace's attempt; the exit status is not the barrier, the rows are.
   Recording the failure may itself fail, which `after_run` swallows.
   */
  method AfterRun(
      db: ControlPlaneDatabase, ws: Workspace, profile: Profile, interrupted: bool, recordingFails: bool,
      descends: (Sha, Sha) -> bool)
    returns (ok: bool)
    requires TablesOk(db.Rows())
    modifies db
    ensures ok <==> !interrupted && old(Acceptable(db.Rows(), ws, profile, descends))
    ensures ok ==>
      var r := ReportOf(ws).value;
      Became(old(db.Rows()), db.Rows(), r.taskId, Effect(old(db.View(r.taskId)), Op.Reconcile(r, ws.head)))
    ensures !ok ==>
      var t := old(TaskOf(db.Rows(), ws.name, profile));
      if !recordingFails && t.Some? && t.value in old(db.tasks)
         && Enabled(old(db.View(t.value)).file, Op.FailAttempt(RECONCILIATION_FAILED))
      then Became(old(db.Rows()), db.Rows(), t.value,
        Effect(old(db.View(t.value)), Op.FailAttempt(RECONCILIATION_FAILED)))
      else db.Rows() == old(db.Rows())
  {
    ok := ReconcileWorkspace(db, ws, profile, interrupted, descends);
    if ok || recordingFails {
      return;
    }
    var t := TaskOf(db.Rows(), ws.name, profile);
    FoundTask(db.tasks, db.next, ws.name, profile.slug);
    if t.Some? {
      var _ := Broker.FailAttempt(db, t.value, RECONCILIATION_FAILED);
    }
  }

  /* ---------- Preparing a workspace ---------- */

  /** What a fetch of the base ref brought: its tip and the commits that came with it. */
  datatype Fetch = Fetch(tip: Sha, brought: set<Sha>)

  /** What preparation meets outside the broker's control. */
  datatype Weather = Weather(
    busy: bool, fetched: Option<Fetch>, switchFails: bool, dirtiedMeanwhile: bool, toolsFail: bool, markerFails: bool)

  /** The retained checkout is exactly where the database says the task's work continues. */
  predicate Continues(task: TaskRow, k: Checkout, descends: (Sha, Sha) -> bool)
    requires task.currentHead.Some?
  {
    var recorded := task.currentHead.value;
    recorded in k.commits && k.branch == task.branch && k.head == recorded && !k.dirty
      && descends(task.baseSha, recorded)
  }

  /** A task without a head of its own starts from its recorded base, still in the base ref's history. */
  predicate Starts(c: CaseFile, k: Checkout, w: Weather, descends: (Sha, Sha) -> bool) {
    && c.task.publishedHead == None && c.publication == None
    && w.fetched.Some? && c.task.baseSha in k.commits + w.fetched.value.brought
    && descends(c.task.baseSha, w.fetched.value.tip) && !k.dirty && !w.switchFails
  }

  predicate Preparable(c: CaseFile, k: Checkout, profile: Profile, w: Weather, descends: (Sha, Sha) -> bool) {
    && k.remote == profile.remote && !w.busy
    && (if c.task.currentHead.Some? then Continues(c.task, k, descends) else Starts(c, k, w, descends))
    && !w.dirtiedMeanwhile && !w.toolsFail && !w.markerFails
  }

  const DIVERGED := "continuation_divergence"
  const DIRTY := "dirty_task_workspace"
  const PREPARATION_FAILED := "preparation failed"

  /** A comparison that failed: recorded at once, so the caller must not record it again. */
  method Persist(db: ControlPlaneDatabase, t: Uuid, detail: string) returns (ok: bool, recorded: Option<string>)
    requires db.Holds(t)
    modifies db
    ensures !ok && recorded == Some(detail)
    ensures Became(old(db.Rows()), db.Rows(), t, Effect(old(db.View(t)), Op.RecordBlocker(Infrastructure, detail)))
  {
    var _ := db.RecordBlocker(t, Infrastructure, detail);
    ok, recorded := false, Some(detail);
  }

  /** Every comparison on a retained checkout is read-only. */
  method CheckContinuation(db: ControlPlaneDatabase, ws: Workspace, t: Uuid, descends: (Sha, Sha) -> bool)
    returns (ok: bool, recorded: Option<string>)
    requires db.Holds(t) && db.tasks[t].currentHead.Some?
    modifies db
    ensures ok <==> Continues(old(db.tasks)[t], CheckoutOf(ws), descends)
    ensures ok ==> recorded == None
    ensures recorded.None? ==> db.Rows() == old(db.Rows())
    ensures recorded.Some? ==>
      Became(old(db.Rows()), db.Rows(), t, Effect(old(db.View(t)), Op.RecordBlocker(Infrastructure, recorded.value)))
  {
    var task := db.tasks[t];
    if task.currentHead.value !in ws.commits {
      return false, None;
    }
    if ws.branch != task.branch || ws.head != task.currentHead.value {
      ok, recorded := Persist(db, t, DIVERGED);
      return;
    }
    if ws.dirty {
      ok, recorded := Persist(db, t, DIRTY);
      return;
    }
    if !descends(task.baseSha, task.currentHead.value) {
      ok, recorded := Persist(db, t, DIVERGED);
      return;
    }
    ok, recorded := true, None;
  }

  /** The first preparation of a task: fetch, check the base is still in history, switch to the task branch. */
  method Start(db: ControlPlaneDatabase, ws: Workspace, t: Uuid, w: Weather, descends: (Sha, Sha) -> bool)
    returns (ok: bool, recorded: Option<string>)
    requires db.Holds(t)
    modifies db, ws`commits, ws`branch, ws`head
    ensures ok <==> Starts(old(db.View(t)).file, old(CheckoutOf(ws)), w, descends)
    ensures ok ==> recorded == None && ws.branch == old(db.tasks)[t].branch && ws.head == old(db.tasks)[t].baseSha
    ensures recorded.None? ==> db.Rows() == old(db.Rows())
    ensures recorded.Some? ==>
      Became(old(db.Rows()), db.Rows(), t, Effect(old(db.View(t)), Op.RecordBlocker(Infrastructure, recorded.value)))
  {
    var task := db.tasks[t];
    if task.publishedHead != None || t in db.publications || w.fetched.None? {
      return false, None;
    }
    ws.commits := ws.commits + w.fetched.value.brought;
    if task.baseSha !in ws.commits || !descends(task.baseSha, w.fetched.value.tip) {
      return false, None;
    }
    if ws.dirty {
      ok, recorded := Persist(db, t, DIRTY);
      return;
    }
    if w.switchFails {
      return false, None;
    }
    ws.Switch(task.branch, task.baseSha);
    ok, recorded := true, None;
  }

  method PrepareKnown(
      db: ControlPlaneDatabase, ws: Workspace, profile: Profile, t: Uuid, w: Weather, descends: (Sha, Sha) -> bool)
    returns (ok: bool, recorded: Option<string>)
    requires db.Holds(t)
    modifies db, ws`commits, ws`branch, ws`head, ws`marker
    ensures var c := old(db.View(t)).file;
      ok <==> Preparable(c, old(CheckoutOf(ws)), profile, w, descends)
    ensures var task := old(db.tasks)[t];
      ok ==> recorded == None && ws.branch == task.branch && ws.head == SelectedHead(task) && !ws.dirty
             && ws.marker == Some(Marker(t, task.branch, SelectedHead(task), None))
    ensures old(db.tasks)[t].currentHead.Some? ==> ws.branch == old(ws.branch) && ws.head == old(ws.head)
    ensures recorded.None? ==> db.Rows() == old(db.Rows())
    ensures recorded.Some? ==>
      Became(old(db.Rows()), db.Rows(), t, Effect(old(db.View(t)), Op.RecordBlocker(Infrastructure, recorded.value)))
  {
    var task := db.tasks[t];
    if ws.remote != profile.remote || w.busy {
      return false, None;
    }
    if task.currentHead.Some? {
      ok, recorded := CheckContinuation(db, ws, t, descends);
    } else {
      ok, recorded := Start(db, ws, t, w, descends);
    }
    if !ok {
      return;
    }
    if ws.dirty || w.dirtiedMeanwhile || w.toolsFail || w.markerFails {
      return false, None;
    }
    ws.marker := Some(Marker(t, task.branch, SelectedHead(task), None));
  }

  /** `prepare`: once the task is known, any failure leaves exactly one new open infrastructure blocker. */
  method Prepare(db: ControlPlaneDatabase, ws: Workspace, profile: Profile, w: Weather, descends: (Sha, Sha) -> bool)
    returns (ok: bool, reason: string)
    requires TablesOk(db.Rows())
    modifies db, ws`commits, ws`branch, ws`head, ws`marker
    ensures var t := TaskOf(old(db.Rows()), ws.name, profile);
      && (t.Some? ==> t.value in old(db.tasks))
      && (ok <==> t.Some? && Preparable(old(db.View(t.value)).file, old(CheckoutOf(ws)), profile, w, descends))
    ensures var t := TaskOf(old(db.Rows()), ws.name, profile);
      ok ==> var task := old(db.tasks)[t.value];
        && ws.branch == task.branch && ws.head == SelectedHead(task) && !ws.dirty
        && ws.marker == Some(Marker(t.value, task.branch, SelectedHead(task), None))
    ensures var t := TaskOf(old(db.Rows()), ws.name, profile);
      t.Some? && old(db.tasks)[t.value].currentHead.Some? ==> ws.branch == old(ws.branch) && ws.head == old(ws.head)
    ensures var t := TaskOf(old(db.Rows()), ws.name, profile);
      if ok || t.None? then db.Rows() == old(db.Rows())
      else Became(old(db.Rows()), db.Rows(), t.value,
        Effect(old(db.View(t.value)), Op.RecordBlocker(Infrastructure, reason)))
  {
    var t := TaskOf(db.Rows(), ws.name, profile);
    FoundTask(db.tasks, db.next, ws.name, profile.slug);
    if t.None? {
      return false, "";
    }
    var recorded;
    ok, recorded := PrepareKnown(db, ws, profile, t.value, w, descends);
    if ok {
      return true, "";
    }
    if recorded.Some? {
      return false, recorded.value;
    }
    var _ := db.RecordBlocker(t.value, Infrastructure, PREPARATION_FAILED);
    reason := PREPARATION_FAILED;
  }

  /* ---------- Starting the attempt ---------- */

  datatype Beginning =
    | Begun(run: Uuid, packet: InputPacket)
    | Compensated(failed: Uuid)
    | Declined
    | Blocked

  const STAGING_FAILED := "lifecycle staging failed"

  /** Write the packet and put the run into the marker, or compensate with the exact run. */
  method Stage(db: ControlPlaneDatabase, ws: Workspace, t: Uuid, run: Uuid, stagingFails: bool) returns (staged: bool)
    requires db.Holds(t) && HasStarted(db.View(t).file.runs, run)
    modifies db, ws`marker
    ensures staged <==> !stagingFails && old(ws.marker).Some?
    ensures staged ==> db.Rows() == old(db.Rows()) && ws.marker == Some(old(ws.marker).value.(run := Some(run)))
    ensures !staged ==> Became(old(db.Rows()), db.Rows(), t, AttemptFailed(old(db.View(t)), run, STAGING_FAILED))
  {
    if stagingFails || ws.marker.None? {
      EndFailed(db, t, run, STAGING_FAILED);
      return false;
    }
    ws.marker := Some(ws.marker.value.(run := Some(run)));
    staged := true;
  }

  /** The checkout is on the task's branch, and the task is ready for an attempt. */
  predicate MayBegin(c: CaseFile, branch: string, project: string, name: string) {
    branch == c.task.branch && Eligible(c, project, name) && NoneStarted(c.runs)
  }

  /** The attempt just allocated is staged, or failed at once. */
  method BeginAllocated(
      db: ControlPlaneDatabase, ws: Workspace, t: Uuid, run: Uuid, packet: InputPacket, stagingFails: bool,
      ghost s0: Tables, ghost granted: Draft)
    returns (begun: Beginning)
    requires db.Holds(t) && Became(s0, db.Rows(), t, granted) && HasStarted(granted.file.runs, run)
    requires MarkerIsLive(db.Rows(), t, Some(Marker(t, "", 0, Some(run))))
    modifies db, ws`marker
    ensures begun.Begun? || begun.Compensated?
    ensures begun.Begun? <==> !stagingFails && old(ws.marker).Some?
    ensures begun.Begun? ==>
      && begun == Begun(run, packet) && db.Rows() == old(db.Rows())
      && ws.marker == Some(old(ws.marker).value.(run := Some(run))) && MarkerIsLive(db.Rows(), t, ws.marker)
    ensures begun.Compensated? ==>
      begun.failed == run && Became(s0, db.Rows(), t, AttemptFailed(granted, run, STAGING_FAILED))
  {
    ghost var s1 := db.Rows();
    var staged := Stage(db, ws, t, run, stagingFails);
    if staged {
      begun := Begun(run, packet);
    } else {
      BecameTransitive(s0, s1, db.Rows(), t, granted, AttemptFailed(granted, run, STAGING_FAILED));
      begun := Compensated(run);
    }
  }

  /** The attempt as allocation grants it: its packet, and a run that a marker can name. */
  method Grant(db: ControlPlaneDatabase, t: Uuid, project: string, name: string) returns (allocation: Allocation)
    requires db.Holds(t)
    modifies db
    ensures var c := old(db.View(t)).file; allocation.Granted? <==> Eligible(c, project, name) && NoneStarted(c.runs)
    ensures allocation.Granted? ==>
      && allocation.runId == old(db.next) && db.Holds(t) && allocation.packet == PacketOf(db.View(t).file)
      && Became(old(db.Rows()), db.Rows(), t, Allocated(old(db.View(t)), SelectedHead(old(db.tasks)[t])))
      && HasStarted(db.View(t).file.runs, allocation.runId)
      && MarkerIsLive(db.Rows(), t, Some(Marker(t, "", 0, Some(allocation.runId))))
    ensures allocation.Lost? ==> db.Rows() == old(db.Rows())
  {
    ghost var s0, selected := db.Rows(), SelectedHead(db.tasks[t]);
    allocation := AllocateAttempt(db, t, project, name, SelectedHead(db.tasks[t]));
    if allocation.Granted? {
      AllocatedIsLive(s0, db.Rows(), t, selected);
    }
  }

  method BeginKnown(
      db: ControlPlaneDatabase, ws: Workspace, profile: Profile, t: Uuid, stagingFails: bool)
    returns (begun: Beginning)
    requires db.Holds(t)
    modifies db, ws`marker
    ensures begun.Begun? || begun.Compensated? <==> MayBegin(old(db.View(t)).file, ws.branch, profile.slug, ws.name)
    ensures begun.Begun? || begun.Compensated? ==> (begun.Begun? <==> !stagingFails && old(ws.marker).Some?)
    ensures begun.Begun? ==>
      && Became(old(db.Rows()), db.Rows(), t, Allocated(old(db.View(t)), SelectedHead(old(db.tasks)[t])))
      && begun.packet == PacketOf(db.View(t).file)
      && ws.marker == Some(old(ws.marker).value.(run := Some(begun.run))) && MarkerIsLive(db.Rows(), t, ws.marker)
    ensures begun.Compensated? ==>
      && begun.failed == old(db.next)
      && Became(old(db.Rows()), db.Rows(), t,
                AttemptFailed(Allocated(old(db.View(t)), SelectedHead(old(db.tasks)[t])), old(db.next), STAGING_FAILED))
    ensures begun.Declined? ==> db.Rows() == old(db.Rows())
  {
    if ws.branch != db.tasks[t].branch {
      return Declined;
    }
    ghost var s0, granted := db.Rows(), Allocated(db.View(t), SelectedHead(db.tasks[t]));
    var allocation := Grant(db, t, profile.slug, ws.name);
    if !allocation.Granted? {
      return if allocation.Lost? then Declined else Beginning.Blocked;
    }
    begun := BeginAllocated(db, ws, t, allocation.runId, allocation.packet, stagingFails, s0, granted);
  }

  /** `prepare_attempt`: allocate, then stage packet and marker; if staging fails, the attempt is failed at once. */
  method PrepareAttempt(
      db: ControlPlaneDatabase, ws: Workspace, profile: Profile, stagingFails: bool)
    returns (begun: Beginning)
    requires TablesOk(db.Rows())
    modifies db, ws`marker
    ensures var t := TaskOf(old(db.Rows()), ws.name, profile);
      && (t.Some? ==> t.value in old(db.tasks))
      && (begun.Begun? || begun.Compensated? <==>
            t.Some? && MayBegin(old(db.View(t.value)).file, ws.branch, profile.slug, ws.name))
      && (begun.Begun? || begun.Compensated? ==> (begun.Begun? <==> !stagingFails && old(ws.marker).Some?))
    ensures var t := TaskOf(old(db.Rows()), ws.name, profile);
      begun.Begun? ==>
        && Became(old(db.Rows()), db.Rows(), t.value,
            Allocated(old(db.View(t.value)), SelectedHead(old(db.tasks)[t.value])))
        && begun.packet == PacketOf(db.View(t.value).file)
        && ws.marker == Some(old(ws.marker).value.(run := Some(begun.run)))
            && MarkerIsLive(db.Rows(), t.value, ws.marker)
    ensures var t := TaskOf(old(db.Rows()), ws.name, profile);
      begun.Compensated? ==>
        && begun.failed == old(db.next)
        && Became(old(db.Rows()), db.Rows(), t.value,
                  AttemptFailed(Allocated(old(db.View(t.value)), SelectedHead(old(db.tasks)[t.value])), old(db.next),
                    STAGING_FAILED))
    ensures begun.Declined? ==> db.Rows() == old(db.Rows())
  {
    var found := TaskOf(db.Rows(), ws.name, profile);
    FoundTask(db.tasks, db.next, ws.name, profile.slug);
    if found.None? {
      return Declined;
    }
    begun := BeginKnown(db, ws, profile, found.value, stagingFails);
  }

  /** The run just allocated is found by its key, started, and is the task's. */
  lemma AllocatedIsLive(s0: Tables, s1: Tables, t: Uuid, observed: Sha)
    requires t in s0.tasks && Became(s0, s1, t, Allocated(DraftOf(s0, t), observed))
    ensures HasStarted(CaseOf(s1, t).runs, s0.next)
    ensures var run := FindRun(s1.runs, s0.next); run.Some? && run.value.taskId == t && run.value.status == Started
  {
    var ours := CaseOf(s1, t).runs;
    assert ours[|ours| - 1].id == s0.next && IsStartedArchitect(ours[|ours| - 1]);
    Lifecycle.StartedRunFound(s1, t, s0.next);
  }
}
