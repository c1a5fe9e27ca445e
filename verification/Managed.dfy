/** The managed steps of one task: when the broker takes each, and what it does to the task's rows. */
module Managed {
  import opened Schema
  import opened Queries
  import opened Results
  import opened Reconciliation

  datatype Op =
    | Queue
    | Allocate(observed: Sha)
    | Reconcile(result: LifecycleResult, head: Sha)
    | FailAttempt(detail: string)
    | RecordBlocker(kind: BlockerKind, body: string)
    | ResolveBlocker(blocker: Uuid)
    | StartPublication(head: Sha, branch: string)
    | FinalizePublication(head: Sha, branch: string, number: nat)
    | FailPublication(detail: string, tried: Option<Sha>, pushed: Option<string>, pr: Option<nat>)

  /** A task as it is created: prepared, with no head of its own. */
  function NewCase(task: TaskRow): CaseFile {
    CaseFile(task, None, [], [], [], None, [EventRow(task.id, TaskCreated, None)])
  }

  predicate IsOpen(blockers: seq<BlockerRow>, id: Uuid) {
    exists i :: 0 <= i < |blockers| && blockers[i].id == id && blockers[i].open
  }

  /** The guard under which each operation commits. */
  ghost predicate Enabled(c: CaseFile, op: Op) {
    match op
    case Queue => c.task.state == Prepared
    case Allocate(_) => Active(c.task.state) && !HasOpenBlocker(c.blockers) && NoneStarted(c.runs)
    case Reconcile(r, head) => r.taskId == c.task.id && WellFormed(r) && Admissible(c, r, head)
    case FailAttempt(_) => |StartedArchitects(c.runs)| == 1
    case RecordBlocker(_, _) => true
    case ResolveBlocker(id) => IsOpen(c.blockers, id)
    case StartPublication(head, branch) => CanStartPublication(c, head, branch)
    case FinalizePublication(head, branch, number) => CanFinalize(c, head, branch, number)
    case FailPublication(_, _, _, pr) =>
      && c.task.state == Archivist && c.task.publishedHead == None && pr != Some(0)
      && (c.publication.Some? ==> c.publication.value.status != Published)
  }

  predicate CanStartPublication(c: CaseFile, head: Sha, branch: string) {
    && c.task.state == Archivist && c.task.currentHead == Some(head)
    && !HasOpenBlocker(c.blockers) && NoneStarted(c.runs)
    && Logged(c.events, ReviewAccepted(head))
    && Logged(c.events, AdversaryAccepted(head))
    && Logged(c.events, Occurrence.ValidationPassed(head))
    && Archived(c.runs, head)
    && (c.publication.Some? ==>
          && c.publication.value.status != Published
          && (c.publication.value.status == InProgress ==>
                c.publication.value.head == Some(head) && c.publication.value.branch == Some(branch)))
  }

  predicate CanFinalize(c: CaseFile, head: Sha, branch: string, number: nat) {
    && c.task.state == Archivist && c.task.currentHead == Some(head) && number >= 1
    && !HasOpenBlocker(c.blockers)
    && c.publication.Some? && c.publication.value.status == InProgress
    && c.publication.value.head == Some(head) && c.publication.value.branch == Some(branch)
  }

  /** The arguments the host code passes: heads that descend from the base, the task's own branch and head. */
  ghost predicate Disciplined(c: CaseFile, op: Op, descends: (Sha, Sha) -> bool) {
    match op
    case Reconcile(_, head) => descends(c.task.baseSha, head)
    case StartPublication(_, branch) => branch == c.task.branch
    case FailPublication(_, tried, pushed, _) => tried == c.task.currentHead && pushed == Some(c.task.branch)
    case _ => true
  }

  function InitialWorkpad(task: TaskRow): string {
    WORKPAD_MARKER + "\n## Symphony Workpad\n\n- Task: " + task.identifier + "\n- Branch: " + task.branch + "\n"
  }

  function WithWorkpad(c: CaseFile): CaseFile {
    if c.workpad.Some? then c else c.(workpad := Some(Workpad(InitialWorkpad(c.task), 1)))
  }

  function Activated(c: CaseFile): CaseFile {
    WithWorkpad(WithEvent(c.(task := c.task.(state := State.Queued)), TaskQueued, None))
  }

  function ActionOf(c: CaseFile): Action {
    NextAction(c.task.state, HasLicensed(c.findings))
  }

  /** What the Architect is told when its attempt is allocated. */
  datatype InputPacket = InputPacket(
    state: State, action: Action, version: nat, selected: Sha, licensed: seq<Uuid>, branch: string)

  function PacketOf(c: CaseFile): InputPacket {
    InputPacket(c.task.state, ActionOf(c), if c.workpad.Some? then c.workpad.value.version else 0,
                SelectedHead(c.task), LicensedIds(c.findings), c.task.branch)
  }

  function Allocated(d: Draft, observed: Sha): Draft {
    var c := WithWorkpad(d.file);
    var run := RunRow(d.next, c.task.id, Architect, NextRound(c.runs, Architect), observed, Started, "");
    var what := ArchitectStarted(c.task.state, if c.workpad.Some? then c.workpad.value.version else 0,
                                 ActionOf(c));
    Draft(WithEvent(c.(runs := c.runs + [run]), what, Some(d.next)), d.next + 1)
  }

  function AttemptFailed(d: Draft, id: Uuid, detail: string): Draft {
    WithBlocker(d.(file := FinishArchitect(d.file, id, Failed, detail, SelectedHead(d.file.task))),
                Infrastructure, detail)
  }

  function CloseRow(b: BlockerRow, id: Uuid): BlockerRow {
    if b.id == id && b.open then b.(open := false) else b
  }

  function CloseBlocker(blockers: seq<BlockerRow>, id: Uuid): seq<BlockerRow> {
    if blockers == [] then [] else CloseBlocker(Init(blockers), id) + [CloseRow(Last(blockers), id)]
  }

  function PublicationBegun(c: CaseFile, head: Sha, branch: string): CaseFile {
    if c.publication.Some? && c.publication.value.status == InProgress then c
    else
      var pr := if c.publication.Some? then c.publication.value.pr else None;
      WithEvent(c.(publication := Some(PublicationRow(Some(head), Some(branch), pr, InProgress))),
                PublicationStarted(head, branch), None)
  }

  function Finalized(c: CaseFile, head: Sha, branch: string, number: nat): CaseFile {
    var c1 := c.(publication := Some(PublicationRow(Some(head), Some(branch), Some(number), Published)),
                 task := c.task.(publishedHead := Some(head)));
    var c2 := WithEvent(c1, PublicationFinished(head, branch, number), None);
    WithEvent(c2.(task := c2.task.(state := ReadyForHumanMerge)), MergeReady(head), None)
  }

  function OrElse<T>(first: Option<T>, second: Option<T>): Option<T> {
    if first.Some? then first else second
  }

  function PublicationFailed(
      d: Draft, detail: string, tried: Option<Sha>, pushed: Option<string>, pr: Option<nat>): Draft {
    var prior := if d.file.publication.Some? then d.file.publication.value
               else PublicationRow(None, None, None, Unsuccessful);
    var row := PublicationRow(OrElse(tried, prior.head), OrElse(pushed, prior.branch), OrElse(pr, prior.pr),
      Unsuccessful);
    WithBlocker(d.(file := d.file.(publication := Some(row))), Infrastructure, detail)
  }

  /** What each operation does to the task's rows and to the supply of identities. */
  function Effect(d: Draft, op: Op): Draft {
    match op
    case Queue => d.(file := Activated(d.file))
    case Allocate(observed) => Allocated(d, observed)
    case Reconcile(r, head) => Reconciled(d, r, head)
    case FailAttempt(detail) =>
      var live := StartedArchitects(d.file.runs);
      if live == [] then d else AttemptFailed(d, live[0].id, detail)
    case RecordBlocker(kind, body) => WithBlocker(d, kind, body)
    case ResolveBlocker(id) => d.(file := d.file.(blockers := CloseBlocker(d.file.blockers, id)))
    case StartPublication(head, branch) => d.(file := PublicationBegun(d.file, head, branch))
    case FinalizePublication(head, branch, number) => d.(file := Finalized(d.file, head, branch, number))
    case FailPublication(detail, tried, pushed, pr) => PublicationFailed(d, detail, tried, pushed, pr)
  }
}
