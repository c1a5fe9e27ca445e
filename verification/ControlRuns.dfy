/** Runs of the whole control database: every task at once, from the empty database on. */
module ControlRuns {
  import opened Schema
  import opened Queries
  import opened Reconciliation
  import opened Managed
  import opened Histories
  import opened Evidence
  import opened Invariants
  import opened Preservation
  import opened Runs
  import opened Progress
  import opened Relations
  import opened ControlPlane
  import Identifiers

  /** A committed transaction: a new task, or one managed operation on one task. */
  datatype Act =
    | Create(project: string, baseRef: string, baseSha: Sha, uuidPrefix: string)
    | On(t: Uuid, op: Op)

  ghost predicate DbStep(db: Tables, act: Act, after: Tables, descends: (Sha, Sha) -> bool) {
    match act
    case Create(project, baseRef, baseSha, uuidPrefix) => TaskNumbered(db, after, project, baseRef, baseSha, uuidPrefix)
    case On(t, op) =>
      && t in db.tasks && Enabled(CaseOf(db, t), op) && Disciplined(CaseOf(db, t), op, descends)
      && Became(db, after, t, Effect(DraftOf(db, t), op))
  }

  ghost predicate DbRun(dbs: seq<Tables>, acts: seq<Act>, descends: (Sha, Sha) -> bool) {
    && |dbs| == |acts| + 1
    && forall i :: 0 <= i < |acts| ==> DbStep(dbs[i], acts[i], dbs[i + 1], descends)
  }

  lemma DbRunPrefix(dbs: seq<Tables>, acts: seq<Act>, descends: (Sha, Sha) -> bool)
    requires DbRun(dbs, acts, descends) && acts != []
    ensures DbRun(Init(dbs), Init(acts), descends)
    ensures DbStep(Last(Init(dbs)), Last(acts), Last(dbs), descends)
  {
    assert forall i :: 0 <= i < |acts| ==> Init(dbs)[i] == dbs[i];
    assert forall i :: 0 <= i < |acts| - 1 ==> Init(acts)[i] == acts[i];
    assert Last(Init(dbs)) == dbs[|acts| - 1] && Last(dbs) == dbs[|acts| - 1 + 1];
  }

  /* ---------- Names ---------- */

  /** The branch was derived from the identifier and some UUID prefix. */
  ghost predicate BranchDerived(row: TaskRow) {
    exists uuidPrefix :: row.branch == Identifiers.DeriveBranch(row.identifier, uuidPrefix)
  }

  /** Every task has a well-formed identifier of its own, and the branch derived from it. */
  ghost predicate NamesOk(tasks: map<Uuid, TaskRow>) {
    && (forall t :: t in tasks ==> Identifiers.IsIdentifier(tasks[t].identifier) && BranchDerived(tasks[t]))
    && (forall t, u :: t in tasks && u in tasks && t != u ==> tasks[t].identifier != tasks[u].identifier)
  }

  lemma {:induction false} MaxNumberIsMax(tasks: map<Uuid, TaskRow>, bound: Uuid)
    ensures forall t :: t in tasks && t < bound ==> Identifiers.Number(tasks[t].identifier) <= MaxNumber(tasks, bound)
  {
    if bound > 0 {
      MaxNumberIsMax(tasks, bound - 1);
    }
  }

  /** The operations never rename a task or move its branch or base. */
  lemma EffectKeepsName(d: Draft, op: Op, descends: (Sha, Sha) -> bool)
    requires Consistent(d, descends) && Enabled(d.file, op)
    ensures var task := Effect(d, op).file.task;
      task == d.file.task.(state := task.state, currentHead := task.currentHead, publishedHead := task.publishedHead)
  {
    if op.Reconcile? {
      SelectedHeadIsActual(d, op.result, op.head, descends);
    }
  }

  lemma NewNameIsNew(db: Tables, row: TaskRow, uuidPrefix: string, project: string, baseRef: string, baseSha: Sha)
    requires TablesOk(db) && NamesOk(db.tasks) && MaxNumber(db.tasks, db.next) < Identifiers.LAST_NUMBER
    requires row == NewTask(db.next, MaxNumber(db.tasks, db.next) + 1, project, baseRef, baseSha, uuidPrefix)
    ensures Identifiers.IsIdentifier(row.identifier) && BranchDerived(row)
    ensures forall t :: t in db.tasks ==> db.tasks[t].identifier != row.identifier
  {
    MaxNumberIsMax(db.tasks, db.next);
    Identifiers.PrintAndParse(MaxNumber(db.tasks, db.next) + 1);
  }

  /** Two tasks never share a branch. */
  lemma BranchesAreDistinct(tasks: map<Uuid, TaskRow>, t: Uuid, u: Uuid)
    requires NamesOk(tasks) && t in tasks && u in tasks && t != u
    ensures tasks[t].branch != tasks[u].branch
  {
    if tasks[t].branch == tasks[u].branch {
      var p :| tasks[t].branch == Identifiers.DeriveBranch(tasks[t].identifier, p);
      var q :| tasks[u].branch == Identifiers.DeriveBranch(tasks[u].identifier, q);
      Identifiers.BranchesAreInjective(tasks[t].identifier, tasks[u].identifier, p, q);
    }
  }

  /* ---------- Every reachable database ---------- */

  ghost predicate DbConsistent(db: Tables, descends: (Sha, Sha) -> bool) {
    && TablesOk(db) && NamesOk(db.tasks)
    && forall t :: t in db.tasks ==> Consistent(DraftOf(db, t), descends)
  }

  lemma NamesExtended(tasks: map<Uuid, TaskRow>, after: map<Uuid, TaskRow>, id: Uuid)
    requires NamesOk(tasks) && after.Keys == tasks.Keys + {id} && id !in tasks
    requires forall t :: t in tasks ==> after[t] == tasks[t]
    requires Identifiers.IsIdentifier(after[id].identifier) && BranchDerived(after[id])
    requires forall t :: t in tasks ==> tasks[t].identifier != after[id].identifier
    ensures NamesOk(after)
  {
    forall t | t in after
      ensures Identifiers.IsIdentifier(after[t].identifier) && BranchDerived(after[t])
    {
      assert t in tasks || t == id;
    }
    forall t, u | t in after && u in after && t != u
      ensures after[t].identifier != after[u].identifier
    {
      assert (t in tasks || t == id) && (u in tasks || u == id);
    }
  }

  lemma NamesKept(tasks: map<Uuid, TaskRow>, after: map<Uuid, TaskRow>)
    requires NamesOk(tasks) && after.Keys == tasks.Keys
    requires forall t :: t in tasks ==> after[t].identifier == tasks[t].identifier && after[t].branch == tasks[t].branch
    ensures NamesOk(after)
  {
    forall t | t in after
      ensures BranchDerived(after[t])
    {
      var p :| tasks[t].branch == Identifiers.DeriveBranch(tasks[t].identifier, p);
      assert after[t].branch == Identifiers.DeriveBranch(after[t].identifier, p);
    }
  }

  lemma AddedRows(db: Tables, after: Tables, row: TaskRow)
    requires TaskAdded(db, after, row)
    ensures after.tasks.Keys == db.tasks.Keys + {row.id} && after.tasks[row.id] == row
    ensures forall t :: t in db.tasks ==> after.tasks[t] == db.tasks[t]
  {
    assert after.tasks[row.id] == CaseOf(after, row.id).task;
    forall t | t in db.tasks
      ensures after.tasks[t] == db.tasks[t]
    {
      assert CaseOf(after, t).task == CaseOf(db, t).task;
    }
  }

  lemma OtherRows(db: Tables, after: Tables, t: Uuid, d: Draft)
    requires Became(db, after, t, d)
    ensures after.tasks.Keys == db.tasks.Keys && after.tasks[t] == d.file.task
    ensures forall u :: u in db.tasks && u != t ==> after.tasks[u] == db.tasks[u]
  {
    assert DraftOf(after, t).file.task == after.tasks[t];
    forall u | u in db.tasks && u != t
      ensures after.tasks[u] == db.tasks[u]
    {
      assert CaseOf(after, u).task == CaseOf(db, u).task;
    }
  }

  /** What one task sees of a committed transaction. */
  function MoveOf(act: Act, t: Uuid, after: Tables): Move {
    if act.On? && act.t == t then Here(act.op) else Elsewhere(after.next)
  }

  /** A step of the database is a step of every task that was there: its own operation, or a supply that grew. */
  lemma StepsAsSeen(db: Tables, act: Act, after: Tables, t: Uuid, descends: (Sha, Sha) -> bool)
    requires DbStep(db, act, after, descends) && t in db.tasks
    ensures t in after.tasks && Step(DraftOf(db, t), MoveOf(act, t, after), DraftOf(after, t), descends)
  {
    if !(act.On? && act.t == t) {
      assert CaseOf(after, t) == CaseOf(db, t);
    }
  }

  lemma NewTaskConsistent(db: Tables, after: Tables, row: TaskRow, descends: (Sha, Sha) -> bool)
    requires TaskAdded(db, after, row) && row.id < after.next
    requires row.state == Prepared && row.currentHead == None && row.publishedHead == None
    ensures row.id in after.tasks && Consistent(DraftOf(after, row.id), descends)
  {
    NewCaseConsistent(row, after.next, descends);
  }

  /** A task whose rows did not change is as consistent as it was. */
  lemma UntouchedConsistent(db: Tables, after: Tables, u: Uuid, descends: (Sha, Sha) -> bool)
    requires u in db.tasks && u in after.tasks && CaseOf(after, u) == CaseOf(db, u) && db.next <= after.next
    requires Consistent(DraftOf(db, u), descends)
    ensures Consistent(DraftOf(after, u), descends)
  {
    assert DraftOf(after, u) == DraftOf(db, u).(next := after.next);
    SupplyGrows(DraftOf(db, u), after.next, descends);
  }

  lemma CreateTasks(db: Tables, after: Tables, row: TaskRow, t: Uuid, descends: (Sha, Sha) -> bool)
    requires TaskAdded(db, after, row) && t in after.tasks
    requires row.state == Prepared && row.currentHead == None && row.publishedHead == None && row.id < after.next
    requires t in db.tasks ==> Consistent(DraftOf(db, t), descends)
    ensures Consistent(DraftOf(after, t), descends)
  {
    if t in db.tasks {
      UntouchedConsistent(db, after, t, descends);
    } else {
      assert t == row.id;
      NewTaskConsistent(db, after, row, descends);
    }
  }

  lemma CreateStep(db: Tables, after: Tables, row: TaskRow, descends: (Sha, Sha) -> bool)
    requires DbConsistent(db, descends) && TaskAdded(db, after, row)
    requires row.state == Prepared && row.currentHead == None && row.publishedHead == None && row.id < after.next
    requires NamesOk(after.tasks)
    ensures DbConsistent(after, descends)
  {
    forall t | t in after.tasks
      ensures Consistent(DraftOf(after, t), descends)
    {
      CreateTasks(db, after, row, t, descends);
    }
  }

  lemma OpStep(db: Tables, after: Tables, t: Uuid, d: Draft, descends: (Sha, Sha) -> bool)
    requires DbConsistent(db, descends) && t in db.tasks && Became(db, after, t, d) && Consistent(d, descends)
    requires NamesOk(after.tasks)
    ensures DbConsistent(after, descends)
  {
    forall u | u in after.tasks && u != t
      ensures Consistent(DraftOf(after, u), descends)
    {
      UntouchedConsistent(db, after, u, descends);
    }
  }

  lemma CreateKeepsNames(db: Tables, after: Tables, project: string, baseRef: string, baseSha: Sha, uuidPrefix: string)
    requires TablesOk(db) && NamesOk(db.tasks) && MaxNumber(db.tasks, db.next) < Identifiers.LAST_NUMBER
    requires TaskAdded(db, after,
      NewTask(db.next, MaxNumber(db.tasks, db.next) + 1, project, baseRef, baseSha, uuidPrefix))
    ensures NamesOk(after.tasks) && db.tasks.Keys <= after.tasks.Keys
  {
    var row := NewTask(db.next, MaxNumber(db.tasks, db.next) + 1, project, baseRef, baseSha, uuidPrefix);
    NewNameIsNew(db, row, uuidPrefix, project, baseRef, baseSha);
    AddedRows(db, after, row);
    NamesExtended(db.tasks, after.tasks, row.id);
  }

  lemma NamesStay(db: Tables, after: Tables, t: Uuid, d: Draft)
    requires NamesOk(db.tasks) && t in db.tasks && Became(db, after, t, d)
    requires d.file.task.identifier == db.tasks[t].identifier && d.file.task.branch == db.tasks[t].branch
    ensures NamesOk(after.tasks) && db.tasks.Keys <= after.tasks.Keys
  {
    OtherRows(db, after, t, d);
    NamesKept(db.tasks, after.tasks);
  }

  lemma OpKeepsNames(db: Tables, after: Tables, t: Uuid, op: Op, descends: (Sha, Sha) -> bool)
    requires t in db.tasks && NamesOk(db.tasks) && Consistent(DraftOf(db, t), descends) && Enabled(CaseOf(db, t), op)
    requires Became(db, after, t, Effect(DraftOf(db, t), op))
    ensures NamesOk(after.tasks) && db.tasks.Keys <= after.tasks.Keys
  {
    EffectKeepsName(DraftOf(db, t), op, descends);
    NamesStay(db, after, t, Effect(DraftOf(db, t), op));
  }

  lemma CreateConsistent(
      db: Tables, after: Tables, project: string, baseRef: string, baseSha: Sha, uuidPrefix: string,
      descends: (Sha, Sha) -> bool)
    requires DbConsistent(db, descends) && TaskNumbered(db, after, project, baseRef, baseSha, uuidPrefix)
    ensures DbConsistent(after, descends) && db.tasks.Keys <= after.tasks.Keys
  {
    CreateKeepsNames(db, after, project, baseRef, baseSha, uuidPrefix);
    CreateStep(db, after, NewTask(db.next, MaxNumber(db.tasks, db.next) + 1, project, baseRef, baseSha, uuidPrefix),
      descends);
  }

  lemma OpConsistent(db: Tables, t: Uuid, op: Op, after: Tables, descends: (Sha, Sha) -> bool)
    requires DbConsistent(db, descends) && t in db.tasks
    requires Enabled(CaseOf(db, t), op) && Disciplined(CaseOf(db, t), op, descends)
    requires Became(db, after, t, Effect(DraftOf(db, t), op))
    ensures DbConsistent(after, descends) && db.tasks.Keys <= after.tasks.Keys
  {
    StepKeeps(DraftOf(db, t), op, descends);
    OpKeepsNames(db, after, t, op, descends);
    OpStep(db, after, t, Effect(DraftOf(db, t), op), descends);
  }

  lemma DbStepConsistent(db: Tables, act: Act, after: Tables, descends: (Sha, Sha) -> bool)
    requires DbConsistent(db, descends) && DbStep(db, act, after, descends)
    ensures DbConsistent(after, descends) && db.tasks.Keys <= after.tasks.Keys
  {
    match act
    case Create(project, baseRef, baseSha, uuidPrefix) =>
      CreateConsistent(db, after, project, baseRef, baseSha, uuidPrefix, descends);
    case On(t, op) =>
      OpConsistent(db, t, op, after, descends);
  }

  lemma {:induction false} DbRunsStayConsistent(dbs: seq<Tables>, acts: seq<Act>, descends: (Sha, Sha) -> bool)
    requires DbRun(dbs, acts, descends) && DbConsistent(dbs[0], descends)
    ensures DbConsistent(Last(dbs), descends) && dbs[0].tasks.Keys <= Last(dbs).tasks.Keys
    decreases |acts|
  {
    if acts != [] {
      DbRunPrefix(dbs, acts, descends);
      DbRunsStayConsistent(Init(dbs), Init(acts), descends);
      DbStepConsistent(Last(Init(dbs)), Last(acts), Last(dbs), descends);
    } else {
      assert Last(dbs) == dbs[0];
    }
  }

  /** In every database reachable from the empty one all tasks are consistent and no two share a name or a branch. */
  lemma ReachableIsConsistent(dbs: seq<Tables>, acts: seq<Act>, descends: (Sha, Sha) -> bool)
    requires DbRun(dbs, acts, descends) && dbs[0] == EMPTY
    ensures DbConsistent(Last(dbs), descends)
    ensures forall t, u :: t in Last(dbs).tasks && u in Last(dbs).tasks && t != u ==>
      Last(dbs).tasks[t].identifier != Last(dbs).tasks[u].identifier
        && Last(dbs).tasks[t].branch != Last(dbs).tasks[u].branch
  {
    DbRunsStayConsistent(dbs, acts, descends);
    var tasks := Last(dbs).tasks;
    forall t, u | t in tasks && u in tasks && t != u
      ensures tasks[t].branch != tasks[u].branch
    {
      BranchesAreDistinct(tasks, t, u);
    }
  }

  /** Every task that is ready for a human merge in a reachable database is fully backed by evidence for its head. */
  lemma ReadyTasksAreBacked(dbs: seq<Tables>, acts: seq<Act>, t: Uuid, descends: (Sha, Sha) -> bool)
    requires DbRun(dbs, acts, descends) && dbs[0] == EMPTY
    requires t in Last(dbs).tasks && Last(dbs).tasks[t].state == ReadyForHumanMerge
    ensures MergeBacked(CaseOf(Last(dbs), t))
  {
    ReachableIsConsistent(dbs, acts, descends);
    ReadyIsBacked(DraftOf(Last(dbs), t), descends);
  }

  /* ---------- One task's part of a run ---------- */

  /** The drafts and moves one task sees in a run of the database. */
  ghost predicate SeenBy(dbs: seq<Tables>, acts: seq<Act>, t: Uuid, ds: seq<Draft>, moves: seq<Move>) {
    && |ds| == |dbs| && |moves| == |acts| && |dbs| == |acts| + 1
    && (forall i :: 0 <= i < |dbs| ==> t in dbs[i].tasks && ds[i] == DraftOf(dbs[i], t))
    && (forall i :: 0 <= i < |acts| ==> moves[i] == MoveOf(acts[i], t, dbs[i + 1]))
  }

  /** Any run of the database is, for each task in it, a run of that task alone. */
  lemma {:induction false} RunsAsSeen(dbs: seq<Tables>, acts: seq<Act>, t: Uuid, descends: (Sha, Sha) -> bool)
    returns (ds: seq<Draft>, moves: seq<Move>)
    requires DbRun(dbs, acts, descends) && t in dbs[0].tasks
    ensures SeenBy(dbs, acts, t, ds, moves) && Run(ds, moves, descends)
    decreases |acts|
  {
    if acts == [] {
      ds, moves := [DraftOf(dbs[0], t)], [];
    } else {
      DbRunPrefix(dbs, acts, descends);
      var before, earlier := RunsAsSeen(Init(dbs), Init(acts), t, descends);
      StepsAsSeen(Last(Init(dbs)), Last(acts), Last(dbs), t, descends);
      ds, moves := before + [DraftOf(Last(dbs), t)], earlier + [MoveOf(Last(acts), t, Last(dbs))];
      SeenStep(dbs, acts, t, before, earlier);
      RunAppend(before, earlier, Last(moves), Last(ds), descends);
    }
  }

  lemma SeenStep(dbs: seq<Tables>, acts: seq<Act>, t: Uuid, ds: seq<Draft>, moves: seq<Move>)
    requires |dbs| == |acts| + 1 && acts != [] && SeenBy(Init(dbs), Init(acts), t, ds, moves) && t in Last(dbs).tasks
    ensures SeenBy(dbs, acts, t, ds + [DraftOf(Last(dbs), t)], moves + [MoveOf(Last(acts), t, Last(dbs))])
    ensures Last(ds) == DraftOf(Last(Init(dbs)), t)
  {
    forall i | 0 <= i < |dbs| - 1
      ensures t in dbs[i].tasks && ds[i] == DraftOf(dbs[i], t)
    {
      assert Init(dbs)[i] == dbs[i];
    }
    forall i | 0 <= i < |acts| - 1
      ensures moves[i] == MoveOf(acts[i], t, dbs[i + 1])
    {
      assert Init(dbs)[i + 1] == dbs[i + 1] && Init(acts)[i] == acts[i];
    }
  }

  lemma RunAppend(ds: seq<Draft>, moves: seq<Move>, move: Move, after: Draft, descends: (Sha, Sha) -> bool)
    requires Run(ds, moves, descends) && Step(Last(ds), move, after, descends)
    ensures Run(ds + [after], moves + [move], descends)
  {
    var all, steps := ds + [after], moves + [move];
    forall i | 0 <= i < |steps|
      ensures Step(all[i], steps[i], all[i + 1], descends)
    {
      if i < |moves| {
        assert Step(ds[i], moves[i], ds[i + 1], descends);
      }
    }
  }

  /** A task appears by being created, with nothing behind it but its creation row. */
  lemma NewlyCreated(db: Tables, act: Act, after: Tables, t: Uuid, descends: (Sha, Sha) -> bool)
    requires DbStep(db, act, after, descends) && t in after.tasks && t !in db.tasks
    ensures WholeRun([DraftOf(after, t)], [], descends)
  {
    var row := NewTask(db.next, MaxNumber(db.tasks, db.next) + 1, act.project, act.baseRef, act.baseSha,
      act.uuidPrefix);
    assert t == row.id && CaseOf(after, t) == NewCase(row);
  }

  /** Whatever a reachable database says of a task is the end of a whole run of that task. */
  lemma {:induction false} HistoryOf(dbs: seq<Tables>, acts: seq<Act>, t: Uuid, descends: (Sha, Sha) -> bool)
    returns (ds: seq<Draft>, moves: seq<Move>)
    requires DbRun(dbs, acts, descends) && dbs[0] == EMPTY && t in Last(dbs).tasks
    ensures WholeRun(ds, moves, descends) && Last(ds) == DraftOf(Last(dbs), t)
    decreases |acts|
  {
    DbRunPrefix(dbs, acts, descends);
    var before := Last(Init(dbs));
    if t !in before.tasks {
      NewlyCreated(before, Last(acts), Last(dbs), t, descends);
      ds, moves := [DraftOf(Last(dbs), t)], [];
    } else {
      var earlier, steps := HistoryOf(Init(dbs), Init(acts), t, descends);
      StepsAsSeen(before, Last(acts), Last(dbs), t, descends);
      RunAppend(earlier, steps, MoveOf(Last(acts), t, Last(dbs)), DraftOf(Last(dbs), t), descends);
      ds, moves := earlier + [DraftOf(Last(dbs), t)], steps + [MoveOf(Last(acts), t, Last(dbs))];
    }
  }
}
