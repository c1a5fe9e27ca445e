/** Whole runs of one task: theorems about every state the managed steps can reach from its creation. */
module Runs {
  import opened Schema
  import opened Queries
  import opened Results
  import opened Reconciliation
  import opened Managed
  import opened Histories
  import opened Evidence
  import opened Invariants
  import opened Preservation
  import opened Guards

  /** One step as the task sees it: an operation on it, or identities handed out for some other task. */
  datatype Move = Here(op: Op) | Elsewhere(next: Uuid)

  ghost predicate Step(d: Draft, move: Move, after: Draft, descends: (Sha, Sha) -> bool) {
    match move
    case Here(op) => Enabled(d.file, op) && Disciplined(d.file, op, descends) && after == Effect(d, op)
    case Elsewhere(next) => d.next <= next && after == d.(next := next)
  }

  /** A sequence of drafts linked by steps. */
  ghost predicate Run(ds: seq<Draft>, moves: seq<Move>, descends: (Sha, Sha) -> bool) {
    && |ds| == |moves| + 1
    && forall i :: 0 <= i < |moves| ==> Step(ds[i], moves[i], ds[i + 1], descends)
  }

  /** A run that begins with the task's creation. */
  ghost predicate WholeRun(ds: seq<Draft>, moves: seq<Move>, descends: (Sha, Sha) -> bool) {
    && Run(ds, moves, descends)
    && ds[0].file == NewCase(ds[0].file.task)
    && ds[0].file.task.state == Prepared && ds[0].file.task.currentHead == None
    && ds[0].file.task.publishedHead == None && ds[0].file.task.id < ds[0].next
  }

  lemma StepAt(
      ds: seq<Draft>, moves: seq<Move>, i: nat, d: Draft, move: Move, after: Draft, descends: (Sha, Sha) -> bool)
    requires Run(ds, moves, descends) && i < |moves| && d == ds[i] && move == moves[i] && after == ds[i + 1]
    ensures Step(d, move, after, descends)
  {
  }

  lemma RunInit(ds: seq<Draft>, moves: seq<Move>, descends: (Sha, Sha) -> bool)
    requires Run(ds, moves, descends) && moves != []
    ensures Run(Init(ds), Init(moves), descends)
  {
    var before, earlier := Init(ds), Init(moves);
    forall i | 0 <= i < |earlier|
      ensures Step(before[i], earlier[i], before[i + 1], descends)
    {
      StepAt(ds, moves, i, before[i], earlier[i], before[i + 1], descends);
    }
  }

  lemma RunPrefix(ds: seq<Draft>, moves: seq<Move>, descends: (Sha, Sha) -> bool)
    requires Run(ds, moves, descends) && moves != []
    ensures Run(Init(ds), Init(moves), descends)
    ensures Step(Last(Init(ds)), Last(moves), Last(ds), descends)
  {
    RunInit(ds, moves, descends);
    StepAt(ds, moves, |moves| - 1, Last(Init(ds)), Last(moves), Last(ds), descends);
  }

  lemma StepConsistent(d: Draft, move: Move, after: Draft, descends: (Sha, Sha) -> bool)
    requires Consistent(d, descends) && Step(d, move, after, descends)
    ensures Consistent(after, descends)
  {
    match move
    case Here(op) => StepKeeps(d, op, descends);
    case Elsewhere(next) => SupplyGrows(d, next, descends);
  }

  /** Every state of every run is consistent. */
  lemma {:induction false} RunsStayConsistent(ds: seq<Draft>, moves: seq<Move>, descends: (Sha, Sha) -> bool)
    requires Run(ds, moves, descends) && Consistent(ds[0], descends)
    ensures forall i :: 0 <= i < |ds| ==> Consistent(ds[i], descends)
    decreases |moves|
  {
    if moves != [] {
      RunPrefix(ds, moves, descends);
      RunsStayConsistent(Init(ds), Init(moves), descends);
      var n := |moves| - 1;
      assert Consistent(Init(ds)[n], descends);
      StepConsistent(ds[n], moves[n], ds[n + 1], descends);
      forall i | 0 <= i < |ds|
        ensures Consistent(ds[i], descends)
      {
        if i < |ds| - 1 { assert ds[i] == Init(ds)[i]; }
      }
    }
  }

  lemma WholeRunsAreConsistent(ds: seq<Draft>, moves: seq<Move>, descends: (Sha, Sha) -> bool)
    requires WholeRun(ds, moves, descends)
    ensures forall i :: 0 <= i < |ds| ==> Consistent(ds[i], descends)
  {
    NewCaseConsistent(ds[0].file.task, ds[0].next, descends);
    RunsStayConsistent(ds, moves, descends);
  }

  /* ---------- What a task that is ready to merge has behind it ---------- */

  /**
   One head is current, published and on record, and was reviewed, attacked and validated in that order since it last
   moved.
   */
  ghost predicate MergeBacked(c: CaseFile) {
    && c.task.currentHead.Some?
    && c.task.publishedHead == c.task.currentHead
    && c.publication.Some? && c.publication.value.status == Published
    && c.publication.value.head == c.task.currentHead
    && c.publication.value.branch == Some(c.task.branch)
    && c.publication.value.pr.Some?
    && OrderedChain(c.events, c.task.currentHead.value)
    && Archived(c.runs, c.task.currentHead.value)
    && NoneStarted(c.runs)
  }

  lemma ReadyIsBacked(d: Draft, descends: (Sha, Sha) -> bool)
    requires Consistent(d, descends)
    ensures d.file.task.state == ReadyForHumanMerge ==> MergeBacked(d.file)
    ensures d.file.task.state in {Archivist, ReadyForHumanMerge} ==>
      OrderedChain(d.file.events, SelectedHead(d.file.task))
  {
    LevelIsCurrentAcceptance(d.file.events, SelectedHead(d.file.task));
    LevelThreeIsOrderedChain(d.file.events, SelectedHead(d.file.task));
    NoneStartedCount(d.file.runs);
  }

  /** In every run of a task, being ready to merge means all of that. */
  lemma ReadyInEveryRun(ds: seq<Draft>, moves: seq<Move>, descends: (Sha, Sha) -> bool, i: nat)
    requires WholeRun(ds, moves, descends) && i < |ds| && ds[i].file.task.state == ReadyForHumanMerge
    ensures MergeBacked(ds[i].file)
    ensures descends(ds[i].file.task.baseSha, ds[i].file.task.currentHead.value)
  {
    WholeRunsAreConsistent(ds, moves, descends);
    ReadyIsBacked(ds[i], descends);
  }

  /* ---------- Guards that never reject a reachable task ---------- */

  /** At ARCHIVIST the evidence checks of publication always pass: only blockers can stand in the way. */
  lemma PublicationEvidenceIsThere(d: Draft, descends: (Sha, Sha) -> bool)
    requires Consistent(d, descends) && d.file.task.state == Archivist
    ensures CanStartPublication(d.file, SelectedHead(d.file.task), d.file.task.branch) <==>
      !HasOpenBlocker(d.file.blockers)
  {
    var c, head := d.file, SelectedHead(d.file.task);
    LevelIsCurrentAcceptance(c.events, head);
    AcceptanceIsLogged(c.events, ReviewAccepted(head));
    AcceptanceIsLogged(c.events, AdversaryAccepted(head));
    AcceptanceIsLogged(c.events, Occurrence.ValidationPassed(head));
    NoneStartedCount(c.runs);
  }

  /** The acceptance a phase builds on is always current for the selected head. */
  lemma AcceptancesAreCurrent(d: Draft, descends: (Sha, Sha) -> bool)
    requires Consistent(d, descends)
    ensures var c, head := d.file, SelectedHead(d.file.task);
      && (c.task.state == Review && !HasLicensed(c.findings) ==> CurrentAcceptance(c.events, ReviewAccepted(head)))
      && (c.task.state == FinalMechanicalAcceptance
          || (c.task.state == AdversarialReview && !HasLicensed(c.findings)) ==>
            CurrentAcceptance(c.events, ReviewAccepted(head)) && CurrentAcceptance(c.events, AdversaryAccepted(head)))
  {
    LevelIsCurrentAcceptance(d.file.events, SelectedHead(d.file.task));
  }

  /**
   Past the earlier guards no result is rejected for an acceptance that is missing at its actual head, nor a completed
   correction for the round of a licence: of the later guards only heads, rulings, names and the marker decide.
   */
  lemma AcceptanceAndLicenceGuardsNeverReject(d: Draft, r: LifecycleResult, head: Sha, descends: (Sha, Sha) -> bool)
    requires Consistent(d, descends) && WellFormed(r) && EarlyGuards(d.file, r, head)
    ensures AcceptancesFit(d.file.events, r.outcome, head)
    ensures r.outcome == CorrectionComplete ==>
      (ResolutionsFit(d.file, r) <==> NamesExactly(r.requested, d.file.findings))
    ensures GuardsPass(d.file, r, head) <==>
      && HeadsAgree(r.packets, head) && RulingsFit(d.file.task.state, r) && WORKPAD_MARKER <= r.workpadBody
      && (if r.outcome == CorrectionComplete then NamesExactly(r.requested, d.file.findings) else r.requested == [])
  {
    AcceptancesAreCurrent(d, descends);
    SoleRole(r.packets, Implementer);
  }

  /** A licence never goes stale: in every state of every run it is pinned to the round its completion will be given. */
  lemma LicencesNeverGoStale(ds: seq<Draft>, moves: seq<Move>, descends: (Sha, Sha) -> bool, i: nat)
    requires WholeRun(ds, moves, descends) && i < |ds|
    ensures LicensedAt(ds[i].file.findings, NextRound(ds[i].file.runs, Implementer))
    ensures HasLicensed(ds[i].file.findings) ==> ds[i].file.task.state in {Implemented, Review, AdversarialReview}
  {
    WholeRunsAreConsistent(ds, moves, descends);
    assert Consistent(ds[i], descends);
  }

  /* ---------- Conservation ---------- */

  /** Rounds, versions, attempts and blockers add up in every reachable state. */
  lemma AttemptsAddUp(d: Draft, descends: (Sha, Sha) -> bool)
    requires Consistent(d, descends) && d.file.workpad.Some?
    ensures var c := d.file;
      && MaxRound(c.runs, Architect) ==
           (c.workpad.value.version - 1) + CountAttempts(c.runs, Failed) + CountAttempts(c.runs, Started)
      && CountAttempts(c.runs, Started) <= 1
      && CountAttempts(c.runs, Failed) <= CountKind(c.blockers, Infrastructure)
      && forall role :: MaxRound(c.runs, role) == CountRole(c.runs, role)
  {
    AttemptsPartition(d.file.runs);
    forall role
      ensures MaxRound(d.file.runs, role) == CountRole(d.file.runs, role)
    {
      RoundsCount(d.file.runs, role);
    }
  }

  /* ---------- The potential ---------- */

  /** How many advancing results separate a state from ARCHIVIST; a licence puts the task back to implementing. */
  function Distance(state: State, licensed: bool): nat {
    if licensed then 5
    else match state
      case Prepared => 6
      case Queued => 6
      case Planned => 5
      case Implemented => 4
      case Review => 3
      case AdversarialReview => 2
      case FinalMechanicalAcceptance => 1
      case _ => 0
  }

  function DistanceOf(c: CaseFile): nat {
    Distance(c.task.state, HasLicensed(c.findings))
  }

  predicate Advancing(outcome: Outcome) {
    outcome != Blocked && outcome != CorrectionRequired
  }

  /** Accepted results so far: advancing ones, and corrections required by the state they were required in. */
  datatype Tally = Tally(advances: nat, fromImplemented: nat, fromReview: nat, fromAdversarial: nat)

  function Counted(t: Tally, state: State, move: Move): Tally {
    if move.Here? && move.op.Reconcile? then
      if Advancing(move.op.result.outcome) then t.(advances := t.advances + 1)
      else if move.op.result.outcome == Blocked then t
      else match state
        case Implemented => t.(fromImplemented := t.fromImplemented + 1)
        case Review => t.(fromReview := t.fromReview + 1)
        case AdversarialReview => t.(fromAdversarial := t.fromAdversarial + 1)
        case _ => t
    else t
  }

  function TallyOf(ds: seq<Draft>, moves: seq<Move>): Tally
    requires |ds| == |moves| + 1
  {
    if moves == [] then Tally(0, 0, 0, 0)
    else Counted(TallyOf(Init(ds), Init(moves)), Last(Init(ds)).file.task.state, Last(moves))
  }

  /** The state and licence after a result, from the state before and the outcome. */
  lemma ReconcileMovesState(d: Draft, r: LifecycleResult, head: Sha, descends: (Sha, Sha) -> bool)
    requires Consistent(d, descends) && WellFormed(r) && Admissible(d.file, r, head)
    ensures var after := Reconciled(d, r, head).file;
      && after.task.state == NextState(r.outcome, d.file.task.state)
      && (HasLicensed(after.findings) <==>
            r.outcome == CorrectionRequired || (r.outcome != CorrectionComplete && HasLicensed(d.file.findings)))
  {
    ReconcileConcludes(d, r, head);
  }

  /** Where each outcome can be accepted. */
  predicate OutcomeFrom(outcome: Outcome, state: State, licensed: bool) {
    match outcome
    case PlanningComplete => state == Queued && !licensed
    case ImplementationComplete => state == Planned && !licensed
    case ReviewApproved => state == Implemented && !licensed
    case AdversaryPass => state == Review && !licensed
    case ValidationPass => state == AdversarialReview && !licensed
    case ArchiveComplete => state == FinalMechanicalAcceptance && !licensed
    case CorrectionComplete => licensed
    case CorrectionRequired => !licensed && Correctable(state)
    case Blocked => true
  }

  lemma OutcomeStates(c: CaseFile, r: LifecycleResult, head: Sha)
    requires OutcomeFits(c, r, head) && LicencesOk(c)
    ensures OutcomeFrom(r.outcome, c.task.state, HasLicensed(c.findings))
  {
  }

  /** What an outcome does to the distance, from the states where it can be accepted. */
  lemma OutcomeMovesDistance(outcome: Outcome, state: State, licensed: bool)
    requires OutcomeFrom(outcome, state, licensed)
    ensures var after := outcome == CorrectionRequired || (outcome != CorrectionComplete && licensed);
      Distance(NextState(outcome, state), after) ==
        if Advancing(outcome) then Distance(state, licensed) - 1
        else if outcome == Blocked then Distance(state, licensed)
        else 5
  {
  }

  /** An advancing result lowers the distance by one, a correction resets it to five, a blocked one leaves it. */
  lemma ReconcileMovesDistance(d: Draft, r: LifecycleResult, head: Sha, descends: (Sha, Sha) -> bool)
    requires Consistent(d, descends) && WellFormed(r) && Admissible(d.file, r, head)
    ensures DistanceOf(Reconciled(d, r, head).file) ==
      if Advancing(r.outcome) then DistanceOf(d.file) - 1 else if r.outcome == Blocked then DistanceOf(d.file) else 5
  {
    ReconcileMovesState(d, r, head, descends);
    OutcomeStates(d.file, r, head);
    OutcomeMovesDistance(r.outcome, d.file.task.state, HasLicensed(d.file.findings));
  }

  lemma OthersKeepDistance(d: Draft, op: Op, descends: (Sha, Sha) -> bool)
    requires Consistent(d, descends) && Enabled(d.file, op) && !op.Reconcile?
    ensures DistanceOf(Effect(d, op).file) == DistanceOf(d.file)
  {
  }

  /** The potential is conserved along every run. */
  lemma {:induction false} PotentialIsConserved(ds: seq<Draft>, moves: seq<Move>, descends: (Sha, Sha) -> bool)
    requires WholeRun(ds, moves, descends)
    ensures var t := TallyOf(ds, moves);
      t.advances + DistanceOf(Last(ds).file) ==
        6 + t.fromImplemented + 2 * t.fromReview + 3 * t.fromAdversarial
    decreases |moves|
  {
    if moves != [] {
      RunPrefix(ds, moves, descends);
      PotentialIsConserved(Init(ds), Init(moves), descends);
      WholeRunsAreConsistent(Init(ds), Init(moves), descends);
      var d, move := Last(Init(ds)), Last(moves);
      assert Consistent(d, descends);
      match move
      case Elsewhere(_) =>
      case Here(op) =>
        if op.Reconcile? {
          ReconcileMovesDistance(d, op.result, op.head, descends);
          OutcomeStates(d.file, op.result, op.head);
        } else {
          OthersKeepDistance(d, op, descends);
        }
    }
  }

  /** At ARCHIVIST the number of advancing results is fixed by the corrections taken on the way. */
  lemma AdvancesAtArchivist(ds: seq<Draft>, moves: seq<Move>, descends: (Sha, Sha) -> bool)
    requires WholeRun(ds, moves, descends) && Last(ds).file.task.state in {Archivist, ReadyForHumanMerge}
    ensures var t := TallyOf(ds, moves);
      t.advances == 6 + t.fromImplemented + 2 * t.fromReview + 3 * t.fromAdversarial
  {
    PotentialIsConserved(ds, moves, descends);
    WholeRunsAreConsistent(ds, moves, descends);
    assert Consistent(ds[|ds| - 1], descends);
  }
}
