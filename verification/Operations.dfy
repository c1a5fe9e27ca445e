/** The whole system: every request, and publication attempts that fail and crash, from an empty database on. */
module Operations {
  import opened Schema
  import opened Queries
  import opened Reconciliation
  import opened Managed
  import opened Histories
  import opened Invariants
  import opened Preservation
  import opened Runs
  import opened Progress
  import opened Evidence
  import opened Relations
  import opened ControlPlane
  import opened ControlRuns
  import opened Checkouts
  import opened Remotes
  import opened Publishing
  import opened PublicationRuns
  import opened Service

  /* ---------- Heads at their publication ---------- */

  predicate AtEnd(task: TaskRow) {
    task.state in {Archivist, ReadyForHumanMerge}
  }

  /** The task is at its publication with this branch and head. */
  predicate StandsAt(task: TaskRow, branch: string, head: Sha) {
    AtPublication(task, head) && task.branch == branch
  }

  /** The one head known for a branch is the accepted head of the task at its publication that has the branch. */
  predicate HeadsRecorded(tasks: map<Uuid, TaskRow>, heads: map<string, Sha>) {
    && (forall t :: t in tasks && AtEnd(tasks[t]) ==>
          tasks[t].currentHead.Some? && Knows(heads, tasks[t].branch, tasks[t].currentHead.value))
    && (forall branch :: branch in heads ==> exists t :: t in tasks && StandsAt(tasks[t], branch, heads[branch]))
  }

  /** If the task is at its publication before or after, it is at both, on the same branch with the same head. */
  predicate EndKept(tasks: map<Uuid, TaskRow>, after: map<Uuid, TaskRow>, t: Uuid) {
    (t in tasks && AtEnd(tasks[t])) || (t in after && AtEnd(after[t])) ==>
      && t in tasks && t in after && AtEnd(tasks[t]) && AtEnd(after[t])
      && after[t].branch == tasks[t].branch && after[t].currentHead == tasks[t].currentHead
  }

  lemma HeadsStay(tasks: map<Uuid, TaskRow>, after: map<Uuid, TaskRow>, heads: map<string, Sha>)
    requires HeadsRecorded(tasks, heads) && forall t :: t in tasks || t in after ==> EndKept(tasks, after, t)
    ensures HeadsRecorded(after, heads)
  {
    forall branch | branch in heads
      ensures exists t :: t in after && StandsAt(after[t], branch, heads[branch])
    {
      var t :| t in tasks && StandsAt(tasks[t], branch, heads[branch]);
      assert EndKept(tasks, after, t) && StandsAt(after[t], branch, heads[branch]);
    }
  }

  /** A task reaches its publication: its branch, which nobody else has, gets its head. */
  lemma HeadArrives(tasks: map<Uuid, TaskRow>, after: map<Uuid, TaskRow>, heads: map<string, Sha>, t: Uuid)
    requires HeadsRecorded(tasks, heads) && t in after && AtEnd(after[t]) && after[t].currentHead.Some?
    requires after[t].branch !in heads
    requires forall u :: (u in tasks || u in after) && u != t ==> EndKept(tasks, after, u)
    requires t in tasks && !AtEnd(tasks[t])
    ensures HeadsRecorded(after, heads[after[t].branch := after[t].currentHead.value])
  {
    var more := heads[after[t].branch := after[t].currentHead.value];
    forall branch | branch in more
      ensures exists u :: u in after && StandsAt(after[u], branch, more[branch])
    {
      if branch in heads {
        var u :| u in tasks && StandsAt(tasks[u], branch, heads[branch]);
        assert EndKept(tasks, after, u) && StandsAt(after[u], branch, more[branch]);
      } else {
        assert StandsAt(after[t], branch, more[branch]);
      }
    }
  }

  /** No head is known yet for the branch of a task that is not at its publication. */
  lemma BranchIsUnknown(tasks: map<Uuid, TaskRow>, heads: map<string, Sha>, t: Uuid)
    requires NamesOk(tasks) && HeadsRecorded(tasks, heads) && t in tasks && !AtEnd(tasks[t])
    ensures tasks[t].branch !in heads
  {
    if tasks[t].branch in heads {
      var u :| u in tasks && StandsAt(tasks[u], tasks[t].branch, heads[tasks[t].branch]);
      BranchesAreDistinct(tasks, t, u);
    }
  }

  lemma {:induction false} NothingOpened(deeds: seq<Deed>, branch: string)
    requires forall i :: 0 <= i < |deeds| && Wrote(deeds[i]) ==> deeds[i].branch != branch
    ensures Openings(deeds, branch) == 0
  {
    if deeds != [] {
      NothingOpened(Init(deeds), branch);
      assert Last(deeds) == deeds[|deeds| - 1];
    }
  }

  /** A branch the broker never wrote about is in order, whatever head is recorded for it. */
  lemma OneMoreHead(heads: map<string, Sha>, deeds: seq<Deed>, world: World, owner: string, branch: string, head: Sha)
    requires SoundFor(heads, deeds, world, owner) && branch !in heads
    ensures SoundFor(heads[branch := head], deeds, world, owner)
  {
    var more := heads[branch := head];
    NothingOpened(deeds, branch);
    forall other | other in more
      ensures Sound(deeds, world, owner, other, more[other])
    {
      if other != branch {
        assert Sound(deeds, world, owner, other, heads[other]);
      }
    }
  }

  /* ---------- The whole system ---------- */

  /** Every task that is ready has its proof on record. */
  predicate ReadyProven(s: Tables, deeds: seq<Deed>, repository: string) {
    forall t :: t in s.tasks && s.tasks[t].state == ReadyForHumanMerge ==>
      RecordedProof(CaseOf(s, t), deeds, repository)
  }

  lemma ProofsStay(c: CaseFile, deeds: seq<Deed>, more: seq<Deed>, repository: string)
    requires RecordedProof(c, deeds, repository) && deeds <= more
    ensures RecordedProof(c, more, repository)
  {
    ProvenStays(deeds, more, repository, c.task, c.task, c.task.currentHead.value, c.publication.value.pr.value);
  }

  lemma NothingRunsAtEnd(c: CaseFile, op: Op)
    requires AtEnd(c.task) && StartedArchitects(c.runs) == [] && (op.Queue? || op.Allocate? || op.FailAttempt?)
    ensures !Enabled(c, op)
  {
  }

  lemma NoResultAtEnd(c: CaseFile, op: Op)
    requires AtEnd(c.task) && op.Reconcile?
    ensures !Enabled(c, op)
  {
    assert Current(c, op.result) ==> !Active(op.result.expectedState);
  }

  /** Besides its publisher, only blockers can touch a task that is at its end. */
  lemma OnlyBlockersAtEnd(d: Draft, op: Op, descends: (Sha, Sha) -> bool)
    requires Consistent(d, descends) && AtEnd(d.file.task) && !PublisherOp(op) && !op.RecordBlocker?
      && !op.ResolveBlocker?
    ensures !Enabled(d.file, op)
  {
    NoneStartedCount(d.file.runs);
    if op.Reconcile? {
      NoResultAtEnd(d.file, op);
    } else {
      NothingRunsAtEnd(d.file, op);
    }
  }

  lemma EndIsLeftAlone(d: Draft, op: Op, descends: (Sha, Sha) -> bool)
    requires Consistent(d, descends) && Enabled(d.file, op) && !PublisherOp(op) && AtEnd(d.file.task)
    ensures Effect(d, op).file.task == d.file.task && Effect(d, op).file.publication == d.file.publication
  {
    if !op.RecordBlocker? && !op.ResolveBlocker? {
      OnlyBlockersAtEnd(d, op, descends);
    }
  }

  /** The end is reached at ARCHIVIST, by an accepted result, with a head. */
  lemma EndIsReached(d: Draft, op: Op, descends: (Sha, Sha) -> bool)
    requires Consistent(d, descends) && Enabled(d.file, op) && Disciplined(d.file, op, descends) && !PublisherOp(op)
    requires !AtEnd(d.file.task) && AtEnd(Effect(d, op).file.task)
    ensures Effect(d, op).file.task.state == Archivist && Effect(d, op).file.task.currentHead.Some?
  {
    StepKeeps(d, op, descends);
    if op.Reconcile? {
      SelectedHeadIsActual(d, op.result, op.head, descends);
    }
  }

  /** Away from publication a task at its end is left as it is, and another may reach ARCHIVIST with a head. */
  lemma OpAtEnd(d: Draft, op: Op, descends: (Sha, Sha) -> bool)
    requires Consistent(d, descends) && Enabled(d.file, op) && Disciplined(d.file, op, descends) && !PublisherOp(op)
    ensures var task, after := d.file.task, Effect(d, op).file;
      && after.task.branch == task.branch
      && (AtEnd(task) ==> after.task == task && after.publication == d.file.publication)
      && (!AtEnd(task) && AtEnd(after.task) ==> after.task.state == Archivist && after.task.currentHead.Some?)
  {
    EffectKeepsName(d, op, descends);
    if AtEnd(d.file.task) {
      EndIsLeftAlone(d, op, descends);
    } else if AtEnd(Effect(d, op).file.task) {
      EndIsReached(d, op, descends);
    }
  }

  lemma OthersKeptEnds(s0: Tables, s: Tables, t: Uuid, u: Uuid)
    requires OnlyTask(s0, s, t) && u != t
    ensures EndKept(s0.tasks, s.tasks, u)
    ensures u in s.tasks ==> u in s0.tasks && CaseOf(s, u) == CaseOf(s0, u)
  {
    if u in s0.tasks {
      assert CaseOf(s, u).task == CaseOf(s0, u).task;
    }
  }

  ghost predicate InOrder(s: Tables, heads: map<string, Sha>, deeds: seq<Deed>, world: World, repository: string) {
    && HeadsRecorded(s.tasks, heads) && SoundFor(heads, deeds, world, Owner(repository))
    && ReadyProven(s, deeds, repository)
  }

  lemma CreationInOrder(
      s0: Tables, s: Tables, row: TaskRow, heads: map<string, Sha>, deeds: seq<Deed>, world: World, repository: string)
    requires TaskAdded(s0, s, row) && row.state == Prepared
    requires InOrder(s0, heads, deeds, world, repository)
    ensures InOrder(s, heads, deeds, world, repository)
  {
    AddedRows(s0, s, row);
    HeadsStay(s0.tasks, s.tasks, heads);
    forall t | t in s.tasks && s.tasks[t].state == ReadyForHumanMerge
      ensures RecordedProof(CaseOf(s, t), deeds, repository)
    {
      assert CaseOf(s, t) == CaseOf(s0, t);
    }
  }

  /** Another task's step leaves the proofs of the ready tasks on record. */
  lemma ProofsKept(s0: Tables, s: Tables, t: Uuid, deeds: seq<Deed>, more: seq<Deed>, repository: string)
    requires OnlyTask(s0, s, t) && ReadyProven(s0, deeds, repository) && deeds <= more && t in s.tasks
    requires s.tasks[t].state == ReadyForHumanMerge ==> RecordedProof(CaseOf(s, t), more, repository)
    ensures ReadyProven(s, more, repository)
  {
    forall u | u in s.tasks && s.tasks[u].state == ReadyForHumanMerge && u != t
      ensures RecordedProof(CaseOf(s, u), more, repository)
    {
      assert CaseOf(s, u) == CaseOf(s0, u);
      assert CaseOf(s, u).task == s.tasks[u] && CaseOf(s0, u).task == s0.tasks[u];
      ProofsStay(CaseOf(s, u), deeds, more, repository);
    }
  }

  lemma OpInOrder(
      s0: Tables, s: Tables, t: Uuid, op: Op, heads: map<string, Sha>, deeds: seq<Deed>, world: World,
      repository: string,
      descends: (Sha, Sha) -> bool)
    returns (more: map<string, Sha>)
    requires DbConsistent(s0, descends) && DbStep(s0, On(t, op), s, descends) && !PublisherOp(op)
    requires InOrder(s0, heads, deeds, world, repository)
    ensures InOrder(s, more, deeds, world, repository)
  {
    more := heads;
    OpAtEnd(DraftOf(s0, t), op, descends);
    assert CaseOf(s, t) == Effect(DraftOf(s0, t), op).file;
    if !AtEnd(s0.tasks[t]) && AtEnd(s.tasks[t]) {
      more := ArrivalInOrder(s0, s, t, heads, deeds, world, repository, descends);
    } else {
      KeptInOrder(s0, s, t, heads, deeds, repository);
    }
  }

  /** A task that stays away from its end, or stays there with nothing about it changed. */
  lemma KeptInOrder(s0: Tables, s: Tables, t: Uuid, heads: map<string, Sha>, deeds: seq<Deed>, repository: string)
    requires OnlyTask(s0, s, t) && t in s0.tasks && t in s.tasks
    requires HeadsRecorded(s0.tasks, heads) && ReadyProven(s0, deeds, repository)
    requires AtEnd(s0.tasks[t]) || AtEnd(s.tasks[t]) ==>
      CaseOf(s, t).task == CaseOf(s0, t).task && CaseOf(s, t).publication == CaseOf(s0, t).publication
    ensures HeadsRecorded(s.tasks, heads) && ReadyProven(s, deeds, repository)
  {
    assert CaseOf(s, t).task == s.tasks[t] && CaseOf(s0, t).task == s0.tasks[t];
    TaskInOrder(s0, s, t, heads, deeds, deeds, repository);
  }

  /** One task's step that keeps it at, or away from, its end. */
  lemma TaskInOrder(
      s0: Tables, s: Tables, t: Uuid, heads: map<string, Sha>, before: seq<Deed>, deeds: seq<Deed>, repository: string)
    requires OnlyTask(s0, s, t) && t in s.tasks && EndKept(s0.tasks, s.tasks, t) && before <= deeds
    requires HeadsRecorded(s0.tasks, heads) && ReadyProven(s0, before, repository)
    requires s.tasks[t].state == ReadyForHumanMerge ==> RecordedProof(CaseOf(s, t), deeds, repository)
    ensures HeadsRecorded(s.tasks, heads) && ReadyProven(s, deeds, repository)
  {
    ProofsKept(s0, s, t, before, deeds, repository);
    forall u | (u in s0.tasks || u in s.tasks) && u != t
      ensures EndKept(s0.tasks, s.tasks, u)
    {
      OthersKeptEnds(s0, s, t, u);
    }
    HeadsStay(s0.tasks, s.tasks, heads);
  }

  /** One task's step that brings it to its end. */
  lemma ArrivalInOrder(
      s0: Tables, s: Tables, t: Uuid, heads: map<string, Sha>, deeds: seq<Deed>, world: World, repository: string,
      descends: (Sha, Sha) -> bool)
    returns (more: map<string, Sha>)
    requires DbConsistent(s0, descends) && OnlyTask(s0, s, t) && InOrder(s0, heads, deeds, world, repository)
    requires t in s0.tasks && !AtEnd(s0.tasks[t]) && t in s.tasks && s.tasks[t].branch == s0.tasks[t].branch
    requires s.tasks[t].state == Archivist && s.tasks[t].currentHead.Some?
    ensures InOrder(s, more, deeds, world, repository)
  {
    ProofsKept(s0, s, t, deeds, deeds, repository);
    forall u | (u in s0.tasks || u in s.tasks) && u != t
      ensures EndKept(s0.tasks, s.tasks, u)
    {
      OthersKeptEnds(s0, s, t, u);
    }
    BranchIsUnknown(s0.tasks, heads, t);
    HeadArrives(s0.tasks, s.tasks, heads, t);
    OneMoreHead(heads, deeds, world, Owner(repository), s.tasks[t].branch, s.tasks[t].currentHead.value);
    more := heads[s.tasks[t].branch := s.tasks[t].currentHead.value];
  }

  /** A request that is not the publisher's leaves everything in order. */
  lemma AnswerInOrder(
      s0: Tables, s: Tables, act: Option<Act>, heads: map<string, Sha>, deeds: seq<Deed>, world: World,
      repository: string,
      descends: (Sha, Sha) -> bool)
    returns (more: map<string, Sha>)
    requires DbConsistent(s0, descends) && Answered(s0, s, act, descends)
    requires act.Some? && act.value.On? ==> !PublisherOp(act.value.op)
    requires InOrder(s0, heads, deeds, world, repository)
    ensures InOrder(s, more, deeds, world, repository)
  {
    more := heads;
    match act
    case None =>
    case Some(On(t, op)) => more := OpInOrder(s0, s, t, op, heads, deeds, world, repository, descends);
    case Some(Create(project, baseRef, baseSha, uuidPrefix)) =>
      var row := ControlPlane.NewTask(s0.next, MaxNumber(s0.tasks, s0.next) + 1, project, baseRef, baseSha, uuidPrefix);
      CreationInOrder(s0, s, row, heads, deeds, world, repository);
  }

  /** What one attempt took: nothing, or operations on a task at ARCHIVIST whose finalizations were proved. */
  ghost predicate Attempted(s0: Tables, t: Uuid, ops: seq<Op>, deeds: seq<Deed>, repository: string) {
    && t in s0.tasks && PublicationOps(ops)
    && (ops != [] ==>
          && s0.tasks[t].state == Archivist && s0.tasks[t].currentHead.Some?
          && AllProven(ops, deeds, repository, s0.tasks[t], s0.tasks[t].currentHead.value))
  }

  /** An attempt at ARCHIVIST keeps the head, and a finalization in it was proved. */
  lemma TriedAtArchivist(
      d: Draft, ops: seq<Op>, deeds: seq<Deed>, repository: string, head: Sha, descends: (Sha, Sha) -> bool)
    requires Consistent(d, descends) && Permitted(d, ops, descends) && PublicationOps(ops)
    requires d.file.task.state == Archivist && d.file.task.currentHead == Some(head)
    requires AllProven(ops, deeds, repository, d.file.task, head)
    ensures var after := After(d, ops);
      && Consistent(after, descends) && AtPublication(after.file.task, head)
      && after.file.task.branch == d.file.task.branch && after.file.task.identifier == d.file.task.identifier
      && (after.file.task.state == ReadyForHumanMerge ==> RecordedProof(after.file, deeds, repository))
  {
    PublicationKeepsHead(d, ops, head);
    PermittedKeeps(d, ops, descends);
    if After(d, ops).file.task.state == ReadyForHumanMerge {
      ReadyIsProven(d, ops, deeds, repository, head, descends);
    }
  }

  lemma AttemptOnTask(
      s0: Tables, s: Tables, t: Uuid, ops: seq<Op>, before: seq<Deed>, deeds: seq<Deed>, repository: string,
      descends: (Sha, Sha) -> bool)
    requires DbConsistent(s0, descends) && ReadyProven(s0, before, repository) && before <= deeds
    requires Took(s0, s, t, ops, descends) && Attempted(s0, t, ops, deeds, repository)
    ensures Consistent(DraftOf(s, t), descends) && EndKept(s0.tasks, s.tasks, t)
    ensures s.tasks[t].branch == s0.tasks[t].branch && s.tasks[t].identifier == s0.tasks[t].identifier
    ensures s.tasks[t].state == ReadyForHumanMerge ==> RecordedProof(CaseOf(s, t), deeds, repository)
  {
    var d := DraftOf(s0, t);
    assert CaseOf(s, t) == After(d, ops).file;
    if ops != [] {
      TriedAtArchivist(d, ops, deeds, repository, d.file.task.currentHead.value, descends);
    } else if s0.tasks[t].state == ReadyForHumanMerge {
      ProofsStay(CaseOf(s0, t), before, deeds, repository);
    }
  }

  lemma AttemptInOrder(
      s0: Tables, s: Tables, t: Uuid, ops: seq<Op>, heads: map<string, Sha>, before: seq<Deed>, deeds: seq<Deed>,
      repository: string, descends: (Sha, Sha) -> bool)
    requires DbConsistent(s0, descends) && HeadsRecorded(s0.tasks, heads) && ReadyProven(s0, before, repository)
    requires Took(s0, s, t, ops, descends) && Attempted(s0, t, ops, deeds, repository) && before <= deeds
    ensures DbConsistent(s, descends) && HeadsRecorded(s.tasks, heads) && ReadyProven(s, deeds, repository)
  {
    AttemptOnTask(s0, s, t, ops, before, deeds, repository, descends);
    NamesStay(s0, s, t, DraftOf(s, t));
    OpStep(s0, s, t, DraftOf(s, t), descends);
    TaskInOrder(s0, s, t, heads, before, deeds, repository);
  }

  /** What can happen next: a request from anyone but the publisher, or one publication attempt with its troubles. */
  datatype Happening =
    | Ask(request: Request)
    | Attempt(t: Uuid, ws: Workspace, plan: seq<Turn>, detail: string)

  method Publish(
      db: ControlPlaneDatabase, remote: Remote, profile: Profile, t: Uuid, ws: Workspace, plan: seq<Turn>,
      detail: string,
      descends: (Sha, Sha) -> bool, ghost heads: map<string, Sha>)
    requires DbConsistent(db.Rows(), descends)
    requires InOrder(db.Rows(), heads, remote.deeds, remote.world, remote.repository)
    modifies db, remote
    ensures DbConsistent(db.Rows(), descends)
    ensures InOrder(db.Rows(), heads, remote.deeds, remote.world, remote.repository)
  {
    ghost var s0, before := db.Rows(), remote.deeds;
    remote.plan := plan;
    var outcome;
    ghost var ops;
    outcome, ops := PublishTaskLocked(db, remote, ws, profile, t, detail, descends, heads);
    if t in db.tasks {
      assert t in s0.tasks;
      if !outcome.Refused? && !outcome.AlreadyPublished? {
        AttemptIsProven(outcome, s0.tasks[t], t !in s0.publications, before, remote.deeds, remote.repository, ops,
                        s0.tasks[t].currentHead.value);
      }
      AttemptInOrder(s0, db.Rows(), t, ops, heads, before, remote.deeds, remote.repository, descends);
    }
  }

  method Happen(
      db: ControlPlaneDatabase, remote: Remote, profile: Profile, happening: Happening, descends: (Sha, Sha) -> bool,
      ghost heads: map<string, Sha>)
    returns (ghost more: map<string, Sha>)
    requires DbConsistent(db.Rows(), descends) && (happening.Ask? ==> !OfPublisher(happening.request))
    requires InOrder(db.Rows(), heads, remote.deeds, remote.world, remote.repository)
    modifies db, remote
    ensures DbConsistent(db.Rows(), descends)
    ensures InOrder(db.Rows(), more, remote.deeds, remote.world, remote.repository)
  {
    more := heads;
    match happening {
      case Ask(request) =>
        ghost var s0 := db.Rows();
        ghost var act := Answer(db, request, descends);
        more := AnswerInOrder(s0, db.Rows(), act, heads, remote.deeds, remote.world, remote.repository, descends);
      case Attempt(t, ws, plan, detail) =>
        Publish(db, remote, profile, t, ws, plan, detail, descends, heads);
    }
  }

  /** One known head, and no more than one pull request, behind everything the broker did for this task's branch. */
  predicate Faithful(task: TaskRow, deeds: seq<Deed>) {
    && Openings(deeds, task.branch) <= 1
    && forall i :: 0 <= i < |deeds| && deeds[i].Pushed? && deeds[i].branch == task.branch ==>
         AtEnd(task) && deeds[i].over == None && task.currentHead == Some(deeds[i].head)
  }

  lemma Delivered(
      s: Tables, heads: map<string, Sha>, deeds: seq<Deed>, world: World, repository: string, t: Uuid,
      descends: (Sha, Sha) -> bool)
    requires DbConsistent(s, descends) && InOrder(s, heads, deeds, world, repository) && t in s.tasks
    ensures Faithful(s.tasks[t], deeds)
    ensures s.tasks[t].state == ReadyForHumanMerge ==>
      MergeBacked(CaseOf(s, t)) && RecordedProof(CaseOf(s, t), deeds, repository)
  {
    var task := s.tasks[t];
    ReadyIsBacked(DraftOf(s, t), descends);
    if AtEnd(task) {
      assert Sound(deeds, world, Owner(repository), task.branch, heads[task.branch]);
    } else {
      BranchIsUnknown(s.tasks, heads, t);
      NothingOpened(deeds, task.branch);
    }
  }

  /**
   From an empty database and a remote the broker has not touched, whatever is asked in whatever order, with
   publication attempts of any tasks in between, each on any checkout, each call of each failing or crashing as it may:
   every write to the remote is for a registered task's branch; for each task the broker pushed only its accepted
   head, only to an absent ref, and opened at most one pull request; and every ready task is backed by its evidence
   and was seen, before it was finalized, on its branch and then on the draft pull request it records.
   */
  method Operate(remote: Remote, profile: Profile, happenings: seq<Happening>, descends: (Sha, Sha) -> bool)
    returns (db: ControlPlaneDatabase)
    requires remote.deeds == []
    requires forall i :: 0 <= i < |happenings| && happenings[i].Ask? ==> !OfPublisher(happenings[i].request)
    modifies remote
    ensures DbConsistent(db.Rows(), descends)
    ensures forall i :: 0 <= i < |remote.deeds| && Wrote(remote.deeds[i]) ==>
      exists t :: t in db.tasks && db.tasks[t].branch == remote.deeds[i].branch
    ensures forall t :: t in db.tasks ==> Faithful(db.tasks[t], remote.deeds)
    ensures forall t :: t in db.tasks && db.tasks[t].state == ReadyForHumanMerge ==>
      MergeBacked(db.View(t).file) && RecordedProof(db.View(t).file, remote.deeds, remote.repository)
  {
    db := new ControlPlaneDatabase();
    ghost var heads := map[];
    for i := 0 to |happenings|
      invariant fresh(db) && DbConsistent(db.Rows(), descends)
      invariant InOrder(db.Rows(), heads, remote.deeds, remote.world, remote.repository)
    {
      heads := Happen(db, remote, profile, happenings[i], descends, heads);
    }
    Closing(db.Rows(), heads, remote.deeds, remote.world, remote.repository, descends);
  }

  lemma Closing(
      s: Tables, heads: map<string, Sha>, deeds: seq<Deed>, world: World, repository: string,
      descends: (Sha, Sha) -> bool)
    requires DbConsistent(s, descends) && InOrder(s, heads, deeds, world, repository)
    ensures forall i :: 0 <= i < |deeds| && Wrote(deeds[i]) ==>
      exists t :: t in s.tasks && s.tasks[t].branch == deeds[i].branch
    ensures forall t :: t in s.tasks ==> Faithful(s.tasks[t], deeds)
    ensures forall t :: t in s.tasks && s.tasks[t].state == ReadyForHumanMerge ==>
      MergeBacked(CaseOf(s, t)) && RecordedProof(CaseOf(s, t), deeds, repository)
  {
    forall t | t in s.tasks
      ensures Faithful(s.tasks[t], deeds)
      ensures s.tasks[t].state == ReadyForHumanMerge ==>
        MergeBacked(CaseOf(s, t)) && RecordedProof(CaseOf(s, t), deeds, repository)
    {
      Delivered(s, heads, deeds, world, repository, t, descends);
    }
    forall i | 0 <= i < |deeds| && Wrote(deeds[i])
      ensures exists t :: t in s.tasks && s.tasks[t].branch == deeds[i].branch
    {
      var t :| t in s.tasks && StandsAt(s.tasks[t], deeds[i].branch, heads[deeds[i].branch]);
    }
  }
}
