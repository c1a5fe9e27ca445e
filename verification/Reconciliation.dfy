/**
 What reconciling a result means, without the order in which the broker checks and writes:
 `Admissible` is one side-effect-free predicate on the old rows, and `Reconciled` the new rows.
 */
module Reconciliation {
  import opened Schema
  import opened Queries
  import opened Results

  /* ---------- When a result is accepted ---------- */

  /** The result was produced for the attempt, state, workpad and head that are current. */
  predicate Current(c: CaseFile, r: LifecycleResult) {
    && c.task.identifier == r.identifier
    && c.task.state == r.expectedState
    && HasStarted(c.runs, r.runId)
    && c.workpad.Some? && c.workpad.value.version == r.expectedVersion
    && SelectedHead(c.task) == r.expectedHead
  }

  predicate HeadsAgree(packets: seq<Packet>, head: Sha) {
    forall i :: 0 <= i < |packets| ==> packets[i].head in {None, Some(head)}
  }

  /** The result carries exactly one packet: this role with this verdict. */
  predicate Sole(packets: seq<Packet>, role: Role, verdict: Verdict) {
    |packets| == 1 && packets[0].role == role && packets[0].verdict == verdict
  }

  /** The requested identities are the licensed ones, each named once. */
  ghost predicate NamesExactly(requested: seq<Uuid>, findings: seq<FindingRow>) {
    && (forall i, j :: 0 <= i < j < |requested| ==> requested[i] != requested[j])
    && (forall id :: id in requested <==> id in LicensedIds(findings))
  }

  /** The verdict with which each role lets the work go on. */
  function Favourable(role: Role): Verdict {
    match role
    case ProjectManager => Approve
    case Reviewer => Approve
    case Adversary => Pass
    case _ => Complete
  }

  /** The roles that may have run when the attempt reports itself blocked. */
  predicate BlockedHistory(c: CaseFile, packets: seq<Packet>) {
    && (forall i :: 0 <= i < |packets| ==> packets[i].verdict in {Favourable(packets[i].role), BlockedVerdict})
    && if Correctable(c.task.state) && HasLicensed(c.findings) then
         packets == [] || (|packets| == 1 && packets[0].role == Implementer)
       else match c.task.state
         case Queued =>
           || packets == []
           || (|packets| == 1 && packets[0].role == ProjectManager)
           || (|packets| == 2 && packets[0].role == ProjectManager && packets[0].verdict == Approve
               && packets[1].role == Planner)
         case Planned => packets == [] || (|packets| == 1 && packets[0].role == Implementer)
         case Implemented => packets == [] || (|packets| == 1 && packets[0].role == Reviewer)
         case Review => packets == [] || (|packets| == 1 && packets[0].role == Adversary)
         case AdversarialReview => packets == []
         case FinalMechanicalAcceptance => packets == [] || (|packets| == 1 && packets[0].role == Archiver)
         case _ => false
  }

  /** What each outcome additionally demands of the old rows, the packets and the Git head. */
  ghost predicate OutcomeFits(c: CaseFile, r: LifecycleResult, head: Sha) {
    var licensed := HasLicensed(c.findings);
    var still := head == SelectedHead(c.task);
    var all := AllFindings(r);
    match r.outcome
    case PlanningComplete =>
      && c.task.state == Queued && still
      && |r.packets| == 2 && r.packets[0].role == ProjectManager && r.packets[0].verdict == Approve
      && r.packets[1].role == Planner && r.packets[1].verdict == Complete
    case ImplementationComplete =>
      c.task.state == Planned && !still && Sole(r.packets, Implementer, Complete)
    case ReviewApproved =>
      c.task.state == Implemented && !licensed && still && Sole(r.packets, Reviewer, Approve)
    case AdversaryPass =>
      && c.task.state == Review && !licensed && still && Sole(r.packets, Adversary, Pass)
      && CurrentAcceptance(c.events, ReviewAccepted(head))
    case ValidationPass =>
      && c.task.state == AdversarialReview && !licensed && still && r.packets == []
      && CurrentAcceptance(c.events, ReviewAccepted(head)) && CurrentAcceptance(c.events, AdversaryAccepted(head))
    case ArchiveComplete =>
      && c.task.state == FinalMechanicalAcceptance && still && Sole(r.packets, Archiver, Complete)
      && CurrentAcceptance(c.events, ReviewAccepted(head)) && CurrentAcceptance(c.events, AdversaryAccepted(head))
    case CorrectionComplete =>
      && Correctable(c.task.state) && licensed && !still && Sole(r.packets, Implementer, Complete)
      && NamesExactly(r.requested, c.findings)
      && LicensedAt(c.findings, NextRound(c.runs, Implementer))
    case CorrectionRequired =>
      && !licensed && still
      && (match c.task.state
          case Implemented => Sole(r.packets, Reviewer, Findings) && LicenceFrom(all, Reviewer)
          case Review => Sole(r.packets, Adversary, Findings) && LicenceFrom(all, Adversary)
          case AdversarialReview => r.packets == [] && LicenceFrom(all, Architect)
          case _ => false)
    case Blocked =>
      && BlockedHistory(c, r.packets)
      && (!NoneBlocking(all) || AnyBlockedVerdict(r.packets))
      && (still || HasRole(r.packets, Implementer))
      && (licensed && HasRole(r.packets, Implementer) ==>
            LicensedAt(c.findings, NextRound(c.runs, Implementer)))
  }

  /** The whole acceptance condition, read off the rows as they were before the broker wrote any. */
  ghost predicate Admissible(c: CaseFile, r: LifecycleResult, head: Sha) {
    && Current(c, r)
    && WORKPAD_MARKER <= r.workpadBody
    && HeadsAgree(r.packets, head)
    && (r.outcome != CorrectionComplete ==> r.requested == [])
    && (r.outcome != CorrectionRequired ==> NoLicence(AllFindings(r)))
    && (r.outcome != Blocked ==> NoneBlocking(AllFindings(r)))
    && OutcomeFits(c, r, head)
  }

  /* ---------- What an accepted result leaves behind ---------- */

  function WithEvent(c: CaseFile, what: Occurrence, runId: Option<Uuid>): CaseFile {
    c.(events := c.events + [EventRow(c.task.id, what, runId)])
  }

  /** A new open blocker; a project blocker is not announced in the log. */
  function WithBlocker(d: Draft, kind: BlockerKind, body: string): Draft {
    var c := d.file.(blockers := d.file.blockers + [BlockerRow(d.next, d.file.task.id, kind, body, true)]);
    Draft(match kind
          case Human => WithEvent(c, HumanBlock(d.next), None)
          case Infrastructure => WithEvent(c, InfrastructureBlock(d.next), None)
          case Project => c,
          d.next + 1)
  }

  /** A specialized role's run: it starts and finishes inside the transaction. */
  function WithRoleResult(d: Draft, p: Packet, head: Sha): Draft {
    var c := d.file;
    var round := NextRound(c.runs, p.role);
    var observed := if p.head.Some? then p.head.value else head;
    var c1 := c.(runs := c.runs + [RunRow(d.next, c.task.id, p.role, round, observed, Finished, p.summary)]);
    var c2 := WithEvent(c1, RoleStarted(p.role, round), Some(d.next));
    Draft(WithEvent(c2, RoleFinished(p.role, round, Finished), Some(d.next)), d.next + 1)
  }

  function WithRoleResults(d: Draft, packets: seq<Packet>, head: Sha): Draft {
    if packets == [] then d else WithRoleResult(WithRoleResults(d, Init(packets), head), Last(packets), head)
  }

  /** The run each specialized role was given, counting from the first fresh identity. */
  function SpecializedRuns(packets: seq<Packet>, first: Uuid): map<Role, Uuid> {
    if packets == [] then map[]
    else SpecializedRuns(Init(packets), first)[Last(packets).role := first + |packets| - 1]
  }

  function RunOf(runs: map<Role, Uuid>, role: Role, architect: Uuid): Uuid {
    if role in runs then runs[role] else architect
  }

  function StatusFor(ruling: Classification): FindingStatus {
    match ruling
    case LicensedCorrection => Licensed
    case RejectedFinding => Rejected
    case _ => FindingStatus.Accepted
  }

  function WithFinding(d: Draft, f: Finding, runId: Uuid, round: Option<nat>): Draft {
    var c := d.file;
    var status := StatusFor(f.ruling);
    var row := FindingRow(d.next, c.task.id, runId, f.body, status, if status == Licensed then round else None);
    var c1 := WithEvent(c.(findings := c.findings + [row]), FindingRecorded(d.next, status), Some(runId));
    match f.ruling
    case InfrastructureCondition => WithBlocker(Draft(c1, d.next + 1), Infrastructure, f.body)
    case ProjectDecision =>
      WithBlocker(Draft(c1, d.next + 1), if f.blockerKind.Some? then f.blockerKind.value else Project, f.body)
    case _ => Draft(c1, d.next + 1)
  }

  function WithFindings(d: Draft, fs: seq<Finding>, runs: map<Role, Uuid>, architect: Uuid, round: Option<nat>): Draft {
    if fs == [] then d
    else
      WithFinding(WithFindings(d, Init(fs), runs, architect, round), Last(fs),
                  RunOf(runs, Last(fs).role, architect), round)
  }

  /** Every licensed finding becomes resolved. */
  function ResolveLicensed(findings: seq<FindingRow>): seq<FindingRow> {
    if findings == [] then []
    else
      var f := Last(findings);
      ResolveLicensed(Init(findings)) + [if f.status == Licensed then f.(status := Resolved, round := None) else f]
  }

  /** Every licensed finding moves to this IMPLEMENTER round. */
  function MoveLicensed(findings: seq<FindingRow>, round: nat): seq<FindingRow> {
    if findings == [] then []
    else
      var f := Last(findings);
      MoveLicensed(Init(findings), round) + [if f.status == Licensed then f.(round := Some(round)) else f]
  }

  /** A completed correction spends its licences; a blocked IMPLEMENTER carries them to its next round. */
  function Relicensed(c: CaseFile, r: LifecycleResult): CaseFile {
    if r.outcome == CorrectionComplete then
      c.(findings := ResolveLicensed(c.findings))
    else if r.outcome == Blocked && HasRole(r.packets, Implementer) then
      c.(findings := MoveLicensed(c.findings, NextRound(c.runs, Implementer)))
    else c
  }

  /** A blocked attempt always ends with some open blocker. */
  function Stopped(d: Draft, r: LifecycleResult): Draft {
    if r.outcome == Blocked && !HasOpenBlocker(d.file.blockers) then
      WithBlocker(d, Infrastructure, Evidence(r.packets, r.summary))
    else d
  }

  /** The accepted head becomes current, and says so in the log, only if it moved. */
  function Moved(c: CaseFile, r: LifecycleResult, head: Sha): CaseFile {
    if head == SelectedHead(c.task) then c
    else WithEvent(c.(task := c.task.(currentHead := Some(head))), HeadChanged(head), Some(r.runId))
  }

  function NextState(outcome: Outcome, state: State): State {
    match outcome
    case PlanningComplete => Planned
    case ImplementationComplete => Implemented
    case CorrectionComplete => Implemented
    case ReviewApproved => Review
    case AdversaryPass => AdversarialReview
    case ValidationPass => FinalMechanicalAcceptance
    case ArchiveComplete => Archivist
    case CorrectionRequired => state
    case Blocked => state
  }

  /** The state advances, and an acceptance is recorded against the head it was given for. */
  function Advanced(c: CaseFile, r: LifecycleResult, head: Sha, runs: map<Role, Uuid>): CaseFile {
    var c1 := c.(task := c.task.(state := NextState(r.outcome, c.task.state)));
    match r.outcome
    case ReviewApproved => WithEvent(c1, ReviewAccepted(head), Some(RunOf(runs, Reviewer, r.runId)))
    case AdversaryPass => WithEvent(c1, AdversaryAccepted(head), Some(RunOf(runs, Adversary, r.runId)))
    case ValidationPass => WithEvent(c1, Occurrence.ValidationPassed(head), Some(r.runId))
    case _ => c1
  }

  /** The row with this identity, if it is still started, gets its final status and head. */
  function FinishRow(run: RunRow, id: Uuid, t: Uuid, status: RunStatus, summary: string, head: Sha): RunRow {
    if run.id == id && run.taskId == t && run.status == Started then
      run.(status := status, summary := summary, head := head)
    else run
  }

  function FinishRuns(
      runs: seq<RunRow>, id: Uuid, t: Uuid, status: RunStatus, summary: string, head: Sha): seq<RunRow> {
    if runs == [] then []
    else FinishRuns(Init(runs), id, t, status, summary, head) + [FinishRow(Last(runs), id, t, status, summary, head)]
  }

  /** The round of the run with this identity; 0 when there is no such run. */
  function RoundOf(runs: seq<RunRow>, id: Uuid): nat {
    if runs == [] then 0 else if Last(runs).id == id then Last(runs).round else RoundOf(Init(runs), id)
  }

  function FinishArchitect(c: CaseFile, id: Uuid, status: RunStatus, summary: string, head: Sha): CaseFile {
    WithEvent(c.(runs := FinishRuns(c.runs, id, c.task.id, status, summary, head)),
              RoleFinished(Architect, RoundOf(c.runs, id), status), Some(id))
  }

  function Rewritten(c: CaseFile, body: string): CaseFile {
    c.(workpad := Some(Workpad(body, if c.workpad.Some? then c.workpad.value.version + 1 else 1)))
  }

  function CorrectionRound(c: CaseFile, outcome: Outcome): Option<nat> {
    if outcome == CorrectionRequired then Some(NextRound(c.runs, Implementer)) else None
  }

  /** The evidence rows: the role runs, then all findings with the blockers they raise. */
  function Evidenced(d: Draft, r: LifecycleResult, head: Sha): Draft {
    WithFindings(WithRoleResults(d, r.packets, head), AllFindings(r), SpecializedRuns(r.packets, d.next),
                 r.runId, CorrectionRound(d.file, r.outcome))
  }

  /** Licences settled and a blocked attempt stopped. */
  function Settled(d: Draft, r: LifecycleResult, head: Sha): Draft {
    var e := Evidenced(d, r, head);
    Stopped(Draft(Relicensed(e.file, r), e.next), r)
  }

  /** The head moves, the state advances, the attempt finishes and the workpad is rewritten. */
  function Concluded(c: CaseFile, r: LifecycleResult, head: Sha, runs: map<Role, Uuid>): CaseFile {
    Rewritten(FinishArchitect(Advanced(Moved(c, r, head), r, head, runs), r.runId, Finished, r.summary, head),
      r.workpadBody)
  }

  /** The pure transition of an admissible result. */
  function Reconciled(d: Draft, r: LifecycleResult, head: Sha): Draft {
    var s := Settled(d, r, head);
    Draft(Concluded(s.file, r, head, SpecializedRuns(r.packets, d.next)), s.next)
  }
}
