/** The rows of the control database and the vocabulary their CHECK constraints fix. */
module Schema {

  /** Host-allocated identities; the broker only compares them. */
  type Uuid = nat

  /** Commit names; the broker only compares them and asks about ancestry. */
  type Sha = nat

  datatype Option<+T> = None | Some(value: T)

  datatype State =
    | Prepared | Queued | Planned | Implemented | Review | AdversarialReview
    | FinalMechanicalAcceptance | Archivist | ReadyForHumanMerge
    | HumanBlocked | InfrastructureBlocked

  /** The states in which an Architect attempt may be allocated. */
  predicate Active(s: State) {
    s in {Queued, Planned, Implemented, Review, AdversarialReview, FinalMechanicalAcceptance}
  }

  /** The states in which an outstanding licence turns the next action into a correction. */
  predicate Correctable(s: State) {
    s in {Implemented, Review, AdversarialReview}
  }

  datatype Role = Architect | ProjectManager | Planner | Implementer | Reviewer | Adversary | Archiver

  datatype RunStatus = Started | Finished | Failed

  datatype FindingStatus = Accepted | Rejected | Licensed | Resolved

  datatype BlockerKind = Human | Project | Infrastructure

  datatype PublicationStatus = InProgress | Published | Unsuccessful

  /** What the input packet tells the Architect to do next. */
  datatype Action =
    | AuthorityAndPlanning | Implementation | ReviewAction | AdversarialAction
    | MechanicalValidation | ArchivistCloseout | ImplementerCorrection | NoAction

  datatype TaskRow = TaskRow(
    id: Uuid, identifier: string, project: string, state: State, baseRef: string, baseSha: Sha,
    branch: string, currentHead: Option<Sha>, publishedHead: Option<Sha>)

  datatype Workpad = Workpad(body: string, version: nat)

  datatype RunRow = RunRow(
    id: Uuid, taskId: Uuid, role: Role, round: nat, head: Sha, status: RunStatus, summary: string)

  datatype FindingRow = FindingRow(
    id: Uuid, taskId: Uuid, runId: Uuid, body: string, status: FindingStatus, round: Option<nat>)

  datatype BlockerRow = BlockerRow(id: Uuid, taskId: Uuid, kind: BlockerKind, body: string, open: bool)

  datatype PublicationRow = PublicationRow(
    head: Option<Sha>, branch: Option<string>, pr: Option<nat>, status: PublicationStatus)

  /** An event's type together with the payload fields some reader looks at. */
  datatype Occurrence =
    | TaskCreated
    | TaskQueued
    | ArchitectStarted(state: State, version: nat, action: Action)
    | RoleStarted(role: Role, round: nat)
    | RoleFinished(role: Role, round: nat, status: RunStatus)
    | FindingRecorded(finding: Uuid, recordedAs: FindingStatus)
    | HeadChanged(head: Sha)
    | ReviewAccepted(head: Sha)
    | AdversaryAccepted(head: Sha)
    | ValidationPassed(head: Sha)
    | PublicationStarted(head: Sha, branch: string)
    | PublicationFinished(head: Sha, branch: string, pr: nat)
    | HumanBlock(blocker: Uuid)
    | InfrastructureBlock(blocker: Uuid)
    | MergeReady(head: Sha)

  datatype EventRow = EventRow(taskId: Uuid, what: Occurrence, runId: Option<Uuid>)

  /** Every row that names one task: what the broker's `WHERE task_id = ?` queries can see. */
  datatype CaseFile = CaseFile(
    task: TaskRow, workpad: Option<Workpad>, runs: seq<RunRow>, findings: seq<FindingRow>,
    blockers: seq<BlockerRow>, publication: Option<PublicationRow>, events: seq<EventRow>)

  /** A case file together with the supply of identities not yet handed out. */
  datatype Draft = Draft(file: CaseFile, next: Uuid)

  function Init<T>(s: seq<T>): seq<T>
    requires s != []
  {
    s[..|s| - 1]
  }

  function Last<T>(s: seq<T>): T
    requires s != []
  {
    s[|s| - 1]
  }

  /** Appending and then dropping the last row leaves the table as it was. */
  lemma InitOfAppend<T>(s: seq<T>, x: T)
    ensures Init(s + [x]) == s && Last(s + [x]) == x
  {
  }

  lemma TakeOneMore<T>(s: seq<T>, k: nat)
    requires k < |s|
    ensures s[..k + 1] == s[..k] + [s[k]]
    ensures s[..k + 1] != [] && Init(s[..k + 1]) == s[..k] && Last(s[..k + 1]) == s[k]
  {
  }

  lemma TakeAll<T>(s: seq<T>)
    ensures s[..|s|] == s
  {
  }
}
