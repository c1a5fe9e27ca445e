/** The control plane under any sequence of requests: every database the methods can reach is consistent. */
module Service {
  import opened Schema
  import opened Queries
  import opened Results
  import opened Reconciliation
  import opened Managed
  import opened Histories
  import opened Invariants
  import opened Runs
  import opened Relations
  import opened ControlPlane
  import opened ControlRuns
  import Broker
  import Identifiers

  /** What an operator, the scheduler, an attempt or the publisher may ask for, with any arguments at all. */
  datatype Request =
    | NewTask(project: string, baseRef: string, baseSha: Sha, uuidPrefix: string)
    | Activate(t: Uuid, project: string)
    | Begin(t: Uuid, project: string, identifier: string, observed: Sha)
    | Report(result: LifecycleResult, head: Sha)
    | GiveUp(t: Uuid, detail: string)
    | Block(t: Uuid, kind: BlockerKind, body: string)
    | Unblock(blocker: Uuid)
    | Publish(t: Uuid, head: Sha)
    | Finalize(t: Uuid, head: Sha, number: nat)
    | Abandon(t: Uuid, detail: string, pull: Option<nat>)

  /** The request belongs to the publisher. */
  predicate OfPublisher(request: Request) {
    request.Publish? || request.Finalize? || request.Abandon?
  }

  predicate PublisherOp(op: Op) {
    op.StartPublication? || op.FinalizePublication? || op.FailPublication?
  }

  /** What a request did: nothing, or one committed transaction. */
  ghost predicate Answered(s0: Tables, s: Tables, act: Option<Act>, descends: (Sha, Sha) -> bool) {
    match act
    case None => s == s0
    case Some(a) => DbStep(s0, a, s, descends)
  }

  /** Answering with one operation on one task keeps the whole database consistent. */
  lemma Operated(s0: Tables, s: Tables, t: Uuid, op: Op, descends: (Sha, Sha) -> bool)
    requires DbConsistent(s0, descends) && t in s0.tasks
    requires Enabled(CaseOf(s0, t), op) && Disciplined(CaseOf(s0, t), op, descends)
    requires Became(s0, s, t, Effect(DraftOf(s0, t), op))
    ensures DbConsistent(s, descends) && Answered(s0, s, Some(On(t, op)), descends)
  {
    OpConsistent(s0, t, op, s, descends);
  }

  lemma Created(
      s0: Tables, s: Tables, project: string, baseRef: string, baseSha: Sha, uuidPrefix: string,
      descends: (Sha, Sha) -> bool)
    requires DbConsistent(s0, descends) && TaskNumbered(s0, s, project, baseRef, baseSha, uuidPrefix)
    ensures DbConsistent(s, descends)
    ensures Answered(s0, s, Some(ControlRuns.Create(project, baseRef, baseSha, uuidPrefix)), descends)
  {
    CreateConsistent(s0, s, project, baseRef, baseSha, uuidPrefix, descends);
  }

  method Create(
      db: ControlPlaneDatabase, project: string, baseRef: string, baseSha: Sha, uuidPrefix: string,
      ghost descends: (Sha, Sha) -> bool)
    returns (ghost act: Option<Act>)
    requires DbConsistent(db.Rows(), descends)
    modifies db
    ensures DbConsistent(db.Rows(), descends) && Answered(old(db.Rows()), db.Rows(), act, descends)
    ensures act in {None, Some(ControlRuns.Create(project, baseRef, baseSha, uuidPrefix))}
  {
    ghost var s0 := db.Rows();
    var created := db.CreateTask(project, baseRef, baseSha, uuidPrefix);
    if created.None? {
      return None;
    }
    Created(s0, db.Rows(), project, baseRef, baseSha, uuidPrefix, descends);
    act := Some(ControlRuns.Create(project, baseRef, baseSha, uuidPrefix));
  }

  method Allocate(
      db: ControlPlaneDatabase, t: Uuid, project: string, identifier: string, observed: Sha,
      ghost descends: (Sha, Sha) -> bool)
    returns (ghost act: Option<Act>)
    requires DbConsistent(db.Rows(), descends)
    modifies db
    ensures DbConsistent(db.Rows(), descends) && Answered(old(db.Rows()), db.Rows(), act, descends)
    ensures act in {None, Some(On(t, Op.Allocate(observed))),
      Some(On(t, Op.RecordBlocker(Infrastructure, Broker.ALLOCATION_FAILED)))}
  {
    ghost var s0, op := db.Rows(), Op.Allocate(observed);
    var allocation := Broker.AllocateAttempt(db, t, project, identifier, observed);
    if allocation.Faulty? {
      op := Op.RecordBlocker(Infrastructure, Broker.ALLOCATION_FAILED);
    }
    if allocation.Lost? || t !in db.tasks {
      return None;
    }
    Operated(s0, db.Rows(), t, op, descends);
    act := Some(On(t, op));
  }

  /** A result file is read, its head judged against the named task's base, and only then reconciled. */
  method Reconcile(db: ControlPlaneDatabase, r: LifecycleResult, head: Sha, descends: (Sha, Sha) -> bool)
    returns (ghost act: Option<Act>)
    requires DbConsistent(db.Rows(), descends)
    modifies db
    ensures DbConsistent(db.Rows(), descends) && Answered(old(db.Rows()), db.Rows(), act, descends)
    ensures act in {None, Some(On(r.taskId, Op.Reconcile(r, head)))}
  {
    ghost var s0, op := db.Rows(), Op.Reconcile(r, head);
    var fine := ReadResult(r);
    if !fine || r.taskId !in db.tasks || !descends(db.tasks[r.taskId].baseSha, head) {
      return None;
    }
    fine := Broker.Reconcile(db, r, head);
    if !fine {
      return None;
    }
    Operated(s0, db.Rows(), r.taskId, op, descends);
    act := Some(On(r.taskId, op));
  }

  method Publication(db: ControlPlaneDatabase, request: Request, ghost descends: (Sha, Sha) -> bool)
    returns (ghost act: Option<Act>)
    requires DbConsistent(db.Rows(), descends) && OfPublisher(request)
    modifies db
    ensures DbConsistent(db.Rows(), descends) && Answered(old(db.Rows()), db.Rows(), act, descends)
  {
    ghost var s0 := db.Rows();
    act := None;
    var t := request.t;
    if t !in db.tasks {
      return;
    }
    var branch, head := db.tasks[t].branch, db.tasks[t].currentHead;
    var ok;
    ghost var op;
    match request {
      case Publish(_, selected) =>
        op := Op.StartPublication(selected, branch);
        ok := db.StartPublication(t, selected, branch);
      case Finalize(_, selected, number) =>
        op := Op.FinalizePublication(selected, branch, number);
        ok := db.FinalizePublication(t, selected, branch, number);
      case Abandon(_, detail, number) =>
        op := Op.FailPublication(detail, head, Some(branch), number);
        ok := db.FailPublication(t, detail, head, Some(branch), number);
    }
    if ok {
      Operated(s0, db.Rows(), t, op, descends);
      act := Some(On(t, op));
    }
  }

  method Unblocking(
      db: ControlPlaneDatabase, blocker: Uuid, ghost descends: (Sha, Sha) -> bool)
    returns (ghost act: Option<Act>)
    requires DbConsistent(db.Rows(), descends)
    modifies db
    ensures DbConsistent(db.Rows(), descends) && Answered(old(db.Rows()), db.Rows(), act, descends)
    ensures act.Some? ==> act.value.On? && act.value.op == Op.ResolveBlocker(blocker)
  {
    ghost var s0, op := db.Rows(), Op.ResolveBlocker(blocker);
    var owner := db.ResolveBlocker(blocker);
    if owner.None? {
      return None;
    }
    Operated(s0, db.Rows(), owner.value, op, descends);
    act := Some(On(owner.value, op));
  }

  function UpkeepOp(request: Request): Op
    requires request.Block? || request.GiveUp? || request.Activate?
  {
    match request
    case Block(_, kind, body) => Op.RecordBlocker(kind, body)
    case GiveUp(_, detail) => Op.FailAttempt(detail)
    case Activate(_, _) => Op.Queue
  }

  method Upkeep(
      db: ControlPlaneDatabase, request: Request, ghost descends: (Sha, Sha) -> bool)
    returns (ghost act: Option<Act>)
    requires DbConsistent(db.Rows(), descends) && (request.Block? || request.GiveUp? || request.Activate?)
    modifies db
    ensures DbConsistent(db.Rows(), descends) && Answered(old(db.Rows()), db.Rows(), act, descends)
    ensures act.Some? ==> act.value.On? && act.value.op == UpkeepOp(request)
  {
    ghost var s0 := db.Rows();
    ghost var op;
    var done;
    match request {
      case Block(t, kind, body) =>
        op := Op.RecordBlocker(kind, body);
        done := db.RecordBlocker(t, kind, body);
      case GiveUp(t, detail) =>
        op := Op.FailAttempt(detail);
        var ending := Broker.FailAttempt(db, t, detail);
        done := ending.Ended?;
      case Activate(t, project) =>
        op := Op.Queue;
        done := db.QueueTask(t, project);
    }
    if !done {
      return None;
    }
    Operated(s0, db.Rows(), request.t, op, descends);
    act := Some(On(request.t, op));
  }

  /** Any request is answered by at most one committed transaction, and leaves the database consistent. */
  method Answer(
      db: ControlPlaneDatabase, request: Request, descends: (Sha, Sha) -> bool)
    returns (ghost act: Option<Act>)
    requires DbConsistent(db.Rows(), descends)
    modifies db
    ensures DbConsistent(db.Rows(), descends) && Answered(old(db.Rows()), db.Rows(), act, descends)
    ensures !OfPublisher(request) && act.Some? && act.value.On? ==> !PublisherOp(act.value.op)
  {
    match request {
      case NewTask(project, baseRef, baseSha, uuidPrefix) =>
        act := Create(db, project, baseRef, baseSha, uuidPrefix, descends);
      case Begin(t, project, identifier, observed) => act := Allocate(db, t, project, identifier, observed, descends);
      case Report(result, head) => act := Reconcile(db, result, head, descends);
      case Publish(_, _) => act := Publication(db, request, descends);
      case Finalize(_, _, _) => act := Publication(db, request, descends);
      case Abandon(_, _, _) => act := Publication(db, request, descends);
      case Unblock(blocker) => act := Unblocking(db, blocker, descends);
      case _ => act := Upkeep(db, request, descends);
    }
  }

  lemma DbRunAppend(dbs: seq<Tables>, acts: seq<Act>, act: Act, after: Tables, descends: (Sha, Sha) -> bool)
    requires DbRun(dbs, acts, descends) && DbStep(Last(dbs), act, after, descends)
    ensures DbRun(dbs + [after], acts + [act], descends)
  {
    var all, steps := dbs + [after], acts + [act];
    forall i | 0 <= i < |steps|
      ensures DbStep(all[i], steps[i], all[i + 1], descends)
    {
      if i < |acts| {
        DbStepAt(dbs, acts, i, all[i], steps[i], all[i + 1], descends);
      } else {
        DbStepIs(Last(dbs), act, after, all[i], steps[i], all[i + 1], descends);
      }
    }
  }

  lemma DbStepIs(
      before: Tables, step: Act, next: Tables, db: Tables, act: Act, after: Tables, descends: (Sha, Sha) -> bool)
    requires DbStep(before, step, next, descends) && db == before && act == step && after == next
    ensures DbStep(db, act, after, descends)
  {
  }

  lemma DbStepAt(
      dbs: seq<Tables>, acts: seq<Act>, i: nat, db: Tables, act: Act, after: Tables, descends: (Sha, Sha) -> bool)
    requires DbRun(dbs, acts, descends) && i < |acts| && db == dbs[i] && act == acts[i] && after == dbs[i + 1]
    ensures DbStep(db, act, after, descends)
  {
  }

  /**
   From an empty database, after any requests in any order: every task that is ready for a human merge is backed by
   ordered, current evidence for exactly its published head, no task has two live attempts, and no two share a branch.
   The databases in between are a run of committed transactions.
   */
  method Serve(requests: seq<Request>, descends: (Sha, Sha) -> bool)
    returns (db: ControlPlaneDatabase, ghost dbs: seq<Tables>, ghost acts: seq<Act>)
    ensures DbRun(dbs, acts, descends) && dbs[0] == EMPTY && Last(dbs) == db.Rows()
    ensures DbConsistent(db.Rows(), descends)
    ensures forall t :: t in db.tasks && db.tasks[t].state == ReadyForHumanMerge ==> MergeBacked(db.View(t).file)
    ensures forall t :: t in db.tasks ==> |StartedArchitects(db.View(t).file.runs)| <= 1
    ensures forall t, u :: t in db.tasks && u in db.tasks && t != u ==> db.tasks[t].branch != db.tasks[u].branch
  {
    db := new ControlPlaneDatabase();
    dbs, acts := [db.Rows()], [];
    for i := 0 to |requests|
      invariant DbConsistent(db.Rows(), descends)
      invariant DbRun(dbs, acts, descends) && dbs[0] == EMPTY && Last(dbs) == db.Rows()
    {
      ghost var act := Answer(db, requests[i], descends);
      if act.Some? {
        DbRunAppend(dbs, acts, act.value, db.Rows(), descends);
        dbs, acts := dbs + [db.Rows()], acts + [act.value];
      }
    }
    Assured(db.Rows(), descends);
  }

  lemma Assured(s: Tables, descends: (Sha, Sha) -> bool)
    requires DbConsistent(s, descends)
    ensures forall t :: t in s.tasks && s.tasks[t].state == ReadyForHumanMerge ==> MergeBacked(CaseOf(s, t))
    ensures forall t :: t in s.tasks ==> |StartedArchitects(CaseOf(s, t).runs)| <= 1
    ensures forall t, u :: t in s.tasks && u in s.tasks && t != u ==> s.tasks[t].branch != s.tasks[u].branch
  {
    forall t | t in s.tasks
      ensures s.tasks[t].state == ReadyForHumanMerge ==> MergeBacked(CaseOf(s, t))
      ensures |StartedArchitects(CaseOf(s, t).runs)| <= 1
    {
      ReadyIsBacked(DraftOf(s, t), descends);
      NoneStartedCount(CaseOf(s, t).runs);
    }
    forall t, u | t in s.tasks && u in s.tasks && t != u
      ensures s.tasks[t].branch != s.tasks[u].branch
    {
      BranchesAreDistinct(s.tasks, t, u);
    }
  }
}
