/** The broker's read-only queries over one task's rows. */
module Queries {
  import opened Schema

  function SelectedHead(task: TaskRow): Sha {
    if task.currentHead.Some? then task.currentHead.value else task.baseSha
  }

  /** MAX(round) over the runs of one role, 0 when there is none. */
  function MaxRound(runs: seq<RunRow>, role: Role): nat {
    if runs == [] then 0
    else
      var rest := MaxRound(Init(runs), role);
      var last := Last(runs);
      if last.role == role && last.round > rest then last.round else rest
  }

  function NextRound(runs: seq<RunRow>, role: Role): nat {
    MaxRound(runs, role) + 1
  }

  predicate IsStartedArchitect(run: RunRow) {
    run.role == Architect && run.status == Started
  }

  /** The started Architect runs, in row order. */
  function StartedArchitects(runs: seq<RunRow>): seq<RunRow> {
    if runs == [] then []
    else StartedArchitects(Init(runs)) + (if IsStartedArchitect(Last(runs)) then [Last(runs)] else [])
  }

  /** Some row is the started Architect run with this identity. */
  predicate HasStarted(runs: seq<RunRow>, id: Uuid) {
    exists i :: 0 <= i < |runs| && runs[i].id == id && IsStartedArchitect(runs[i])
  }

  predicate NoneStarted(runs: seq<RunRow>) {
    forall i :: 0 <= i < |runs| ==> !IsStartedArchitect(runs[i])
  }

  predicate HasLicensed(findings: seq<FindingRow>) {
    exists i :: 0 <= i < |findings| && findings[i].status == Licensed
  }

  /** The identities of the licensed findings, in row order. */
  function LicensedIds(findings: seq<FindingRow>): seq<Uuid> {
    if findings == [] then []
    else LicensedIds(Init(findings)) + (if Last(findings).status == Licensed then [Last(findings).id] else [])
  }

  /** Every licensed finding is pinned to this IMPLEMENTER round. */
  predicate LicensedAt(findings: seq<FindingRow>, round: nat) {
    forall i :: 0 <= i < |findings| && findings[i].status == Licensed ==> findings[i].round == Some(round)
  }

  predicate HasOpenBlocker(blockers: seq<BlockerRow>) {
    exists i :: 0 <= i < |blockers| && blockers[i].open
  }

  /** The event is in the log, and no later row changed the head. */
  predicate CurrentAcceptance(events: seq<EventRow>, what: Occurrence) {
    exists i :: 0 <= i < |events| && events[i].what == what &&
      forall j :: i < j < |events| ==> !events[j].what.HeadChanged?
  }

  /** The event is somewhere in the log. */
  predicate Logged(events: seq<EventRow>, what: Occurrence) {
    exists i :: 0 <= i < |events| && events[i].what == what
  }

  /** Some finished ARCHIVIST run closed this head. */
  predicate Archived(runs: seq<RunRow>, head: Sha) {
    exists i :: 0 <= i < |runs| && runs[i].role == Archiver && runs[i].status == Finished && runs[i].head == head
  }

  /** The action the input packet announces for a state. */
  function NextAction(state: State, licensed: bool): Action {
    if Correctable(state) && licensed then ImplementerCorrection
    else match state
      case Queued => AuthorityAndPlanning
      case Planned => Implementation
      case Implemented => ReviewAction
      case Review => AdversarialAction
      case AdversarialReview => MechanicalValidation
      case FinalMechanicalAcceptance => ArchivistCloseout
      case _ => NoAction
  }
}
