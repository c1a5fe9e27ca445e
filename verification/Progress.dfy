/** Liveness and stability of one task's runs: nothing is wedged, nothing is replayed, nothing published is undone. */
module Progress {
  import opened Schema
  import opened Queries
  import opened Results
  import opened Reconciliation
  import opened Managed
  import opened Histories
  import opened Evidence
  import opened Invariants
  import opened Preservation
  import opened Runs

  /* ---------- No started attempt is wedged ---------- */

  function Report(role: Role, verdict: Verdict): Packet {
    Packet(role, verdict, "done", None, [])
  }

  /** The packets, and the outcome, that carry out the announced action. */
  function Performing(action: Action): (seq<Packet>, Outcome) {
    match action
    case AuthorityAndPlanning => ([Report(ProjectManager, Approve), Report(Planner, Complete)], PlanningComplete)
    case Implementation => ([Report(Implementer, Complete)], ImplementationComplete)
    case ReviewAction => ([Report(Reviewer, Approve)], ReviewApproved)
    case AdversarialAction => ([Report(Adversary, Pass)], AdversaryPass)
    case MechanicalValidation => ([], ValidationPass)
    case ArchivistCloseout => ([Report(Archiver, Complete)], ArchiveComplete)
    case ImplementerCorrection => ([Report(Implementer, Complete)], CorrectionComplete)
    case NoAction => ([], Blocked)
  }

  function AdvancingResult(c: CaseFile, runId: Uuid): LifecycleResult {
    var (packets, outcome) := Performing(ActionOf(c));
    LifecycleResult(c.task.id, c.task.identifier, runId, c.task.state,
                    if c.workpad.Some? then c.workpad.value.version else 0,
                    SelectedHead(c.task), WORKPAD_MARKER, "done", outcome, packets, [],
                    if outcome == CorrectionComplete then LicensedIds(c.findings) else [])
  }

  /** The head such a result needs: a new commit where an IMPLEMENTER works, otherwise the selected one. */
  function AdvancingHead(c: CaseFile, commit: Sha): Sha {
    if ActionOf(c) in {Implementation, ImplementerCorrection} then commit else SelectedHead(c.task)
  }

  predicate HasFinding(findings: seq<FindingRow>, id: Uuid) {
    exists k :: 0 <= k < |findings| && findings[k].id == id
  }

  lemma {:induction false} LicensedIdsIncrease(findings: seq<FindingRow>)
    requires IncreasingFindings(findings)
    ensures forall i, j :: 0 <= i < j < |LicensedIds(findings)| ==> LicensedIds(findings)[i] < LicensedIds(findings)[j]
    ensures forall i :: 0 <= i < |LicensedIds(findings)| ==> HasFinding(findings, LicensedIds(findings)[i])
  {
    if findings != [] {
      var init, ids := Init(findings), LicensedIds(findings);
      assert forall k :: 0 <= k < |init| ==> init[k] == findings[k];
      LicensedIdsIncrease(init);
      forall i | 0 <= i < |ids|
        ensures HasFinding(findings, ids[i])
      {
        if i < |LicensedIds(init)| {
          assert ids[i] == LicensedIds(init)[i];
          var k :| 0 <= k < |init| && init[k].id == ids[i];
          assert findings[k].id == ids[i];
        } else {
          assert findings[|findings| - 1].id == ids[i];
        }
      }
    }
  }

  lemma PerformingIsWellFormed(action: Action)
    requires action != NoAction
    ensures var (packets, outcome) := Performing(action);
      && DistinctRoles(packets) && (forall i :: 0 <= i < |packets| ==> PacketWellFormed(packets[i]))
      && PacketFindings(packets) == [] && Advancing(outcome)
  {
    NoFindings(Performing(action).0);
  }

  lemma AdvancingShape(c: CaseFile, runId: Uuid)
    requires Active(c.task.state) && c.workpad.Some? && c.workpad.value.version >= 1 && HasStarted(c.runs, runId)
    ensures var r := AdvancingResult(c, runId);
      WellFormed(r) && Current(c, r) && AllFindings(r) == [] && Advancing(r.outcome)
  {
    PerformingIsWellFormed(ActionOf(c));
  }

  /** From every reachable state with a started attempt, some well-formed result is accepted and advances the task. */
  lemma NoAttemptIsWedged(d: Draft, runId: Uuid, commit: Sha, descends: (Sha, Sha) -> bool)
    requires Consistent(d, descends) && HasStarted(d.file.runs, runId)
    requires commit != SelectedHead(d.file.task)
    ensures var r, head := AdvancingResult(d.file, runId), AdvancingHead(d.file, commit);
      && WellFormed(r) && Admissible(d.file, r, head) && Advancing(r.outcome)
      && DistanceOf(Reconciled(d, r, head).file) == DistanceOf(d.file) - 1
  {
    NoneStartedCount(d.file.runs);
    AdvancingShape(d.file, runId);
    AdvancingFits(d, runId, commit, descends);
    ReconcileMovesDistance(d, AdvancingResult(d.file, runId), AdvancingHead(d.file, commit), descends);
  }

  lemma AdvancingFits(d: Draft, runId: Uuid, commit: Sha, descends: (Sha, Sha) -> bool)
    requires Consistent(d, descends) && Active(d.file.task.state) && commit != SelectedHead(d.file.task)
    ensures var r, head := AdvancingResult(d.file, runId), AdvancingHead(d.file, commit);
      OutcomeFits(d.file, r, head) && HeadsAgree(r.packets, head)
  {
    AcceptancesAreCurrent(d, descends);
    LicensedIdsIncrease(d.file.findings);
  }

  lemma {:induction false} NoFindings(packets: seq<Packet>)
    requires forall i :: 0 <= i < |packets| ==> packets[i].findings == []
    ensures PacketFindings(packets) == []
  {
    if packets != [] {
      NoFindings(Init(packets));
    }
  }

  /* ---------- Resolving the open blockers makes allocation succeed ---------- */

  function CountOpen(blockers: seq<BlockerRow>): nat {
    if blockers == [] then 0 else CountOpen(Init(blockers)) + (if Last(blockers).open then 1 else 0)
  }

  lemma {:induction false} ClosingCounts(blockers: seq<BlockerRow>, id: Uuid)
    ensures CountOpen(CloseBlocker(blockers, id)) <= CountOpen(blockers)
    ensures IsOpen(blockers, id) ==> CountOpen(CloseBlocker(blockers, id)) < CountOpen(blockers)
  {
    if blockers != [] {
      ClosingCounts(Init(blockers), id);
      InitOfAppend(CloseBlocker(Init(blockers), id), CloseRow(Last(blockers), id));
      if IsOpen(blockers, id) && !(Last(blockers).id == id && Last(blockers).open) {
        var i :| 0 <= i < |blockers| && blockers[i].id == id && blockers[i].open;
        assert Init(blockers)[i] == blockers[i];
      }
    }
  }

  lemma RunPrepend(d: Draft, move: Move, ds: seq<Draft>, moves: seq<Move>, descends: (Sha, Sha) -> bool)
    requires Run(ds, moves, descends) && Step(d, move, ds[0], descends)
    ensures Run([d] + ds, [move] + moves, descends)
  {
    forall k | 0 <= k < |moves| + 1
      ensures Step(([d] + ds)[k], ([move] + moves)[k], ([d] + ds)[k + 1], descends)
    {
      if k > 0 { assert Step(ds[k - 1], moves[k - 1], ds[k], descends); }
    }
  }

  predicate OnlyResolving(moves: seq<Move>) {
    forall i :: 0 <= i < |moves| ==> moves[i].Here? && moves[i].op.ResolveBlocker?
  }

  /** A run that only resolves blockers and ends where an attempt can be allocated. */
  lemma {:induction false} ResolvingUnblocks(d: Draft, descends: (Sha, Sha) -> bool)
    returns (ds: seq<Draft>, moves: seq<Move>)
    requires Active(d.file.task.state) && NoneStarted(d.file.runs)
    ensures Run(ds, moves, descends) && ds[0] == d
    ensures OnlyResolving(moves)
    ensures Last(ds).file == d.file.(blockers := Last(ds).file.blockers)
    ensures forall observed :: Enabled(Last(ds).file, Allocate(observed))
    decreases CountOpen(d.file.blockers)
  {
    if !HasOpenBlocker(d.file.blockers) {
      ds, moves := [d], [];
    } else {
      var i :| 0 <= i < |d.file.blockers| && d.file.blockers[i].open;
      var op := ResolveBlocker(d.file.blockers[i].id);
      ClosingCounts(d.file.blockers, d.file.blockers[i].id);
      var rest, later := ResolvingUnblocks(Effect(d, op), descends);
      RunPrepend(d, Here(op), rest, later, descends);
      ds, moves := [d] + rest, [Here(op)] + later;
    }
  }

  /* ---------- The input packet stays true while its attempt is started ---------- */

  lemma ReconcileEndsAttempt(d: Draft, r: LifecycleResult, head: Sha, descends: (Sha, Sha) -> bool)
    requires Consistent(d, descends) && WellFormed(r) && Admissible(d.file, r, head)
    ensures NoneStarted(Reconciled(d, r, head).file.runs)
  {
    ReconcileConcludes(d, r, head);
    NoneStartedCount(Reconciled(d, r, head).file.runs);
  }

  lemma FailEndsAttempt(d: Draft, detail: string, descends: (Sha, Sha) -> bool)
    requires Consistent(d, descends) && Enabled(d.file, FailAttempt(detail))
    ensures NoneStarted(Effect(d, FailAttempt(detail)).file.runs)
  {
    FailAttemptKeeps(d, detail, descends);
    NoneStartedCount(Effect(d, FailAttempt(detail)).file.runs);
  }

  /**
   Only accepting, failing, queueing and publishing change what a packet is read from; queueing cannot happen here.
   */
  lemma PacketIsKept(d: Draft, op: Op, descends: (Sha, Sha) -> bool)
    requires Consistent(d, descends) && Enabled(d.file, op) && !NoneStarted(d.file.runs)
    requires !op.Reconcile? && !op.FailAttempt?
    ensures PacketOf(Effect(d, op).file) == PacketOf(d.file) && Effect(d, op).file.runs == d.file.runs
  {
    NoneStartedCount(d.file.runs);
  }

  /** A step that leaves the attempt started leaves its packet true. */
  lemma PacketIsStable(d: Draft, move: Move, after: Draft, id: Uuid, descends: (Sha, Sha) -> bool)
    requires Consistent(d, descends) && Step(d, move, after, descends)
    requires HasStarted(d.file.runs, id) && HasStarted(after.file.runs, id)
    ensures PacketOf(after.file) == PacketOf(d.file) && after.file.runs == d.file.runs
  {
    if move.Here? {
      if move.op.Reconcile? {
        ReconcileEndsAttempt(d, move.op.result, move.op.head, descends);
      } else if move.op.FailAttempt? {
        FailEndsAttempt(d, move.op.detail, descends);
      } else {
        PacketIsKept(d, move.op, descends);
      }
    }
  }

  /** Over any run through which one attempt stays started, its input packet stays exactly true. */
  lemma {:induction false} PacketStaysTrue(ds: seq<Draft>, moves: seq<Move>, id: Uuid, descends: (Sha, Sha) -> bool)
    requires Run(ds, moves, descends) && Consistent(ds[0], descends)
    requires forall i :: 0 <= i < |ds| ==> HasStarted(ds[i].file.runs, id)
    ensures PacketOf(Last(ds).file) == PacketOf(ds[0].file)
    decreases |moves|
  {
    if moves != [] {
      RunPrefix(ds, moves, descends);
      PacketStaysTrue(Init(ds), Init(moves), id, descends);
      RunsStayConsistent(Init(ds), Init(moves), descends);
      var n := |moves| - 1;
      assert Init(ds)[n] == ds[n] && Consistent(Init(ds)[n], descends);
      PacketIsStable(ds[n], moves[n], ds[n + 1], id, descends);
    }
  }

  /** The outcomes an announced action licenses. */
  function Licensing(action: Action): set<Outcome> {
    match action
    case AuthorityAndPlanning => {PlanningComplete, Blocked}
    case Implementation => {ImplementationComplete, Blocked}
    case ReviewAction => {ReviewApproved, CorrectionRequired, Blocked}
    case AdversarialAction => {AdversaryPass, CorrectionRequired, Blocked}
    case MechanicalValidation => {ValidationPass, CorrectionRequired, Blocked}
    case ArchivistCloseout => {ArchiveComplete, Blocked}
    case ImplementerCorrection => {CorrectionComplete, Blocked}
    case NoAction => {}
  }

  /** An accepted result carries out, or reports blocked on, the action its packet announced. */
  lemma ActionNamesTheBranch(d: Draft, r: LifecycleResult, head: Sha, descends: (Sha, Sha) -> bool)
    requires Consistent(d, descends) && WellFormed(r) && Admissible(d.file, r, head)
    ensures r.outcome in Licensing(PacketOf(d.file).action)
    ensures r.outcome == CorrectionComplete ==> forall id :: id in r.requested <==> id in PacketOf(d.file).licensed
    ensures forall p :: p in r.packets ==> p.role in ActingRoles(PacketOf(d.file).action)
  {
    OutcomeStates(d.file, r, head);
  }

  function ActingRoles(action: Action): seq<Role> {
    match action
    case AuthorityAndPlanning => [ProjectManager, Planner]
    case Implementation => [Implementer]
    case ReviewAction => [Reviewer]
    case AdversarialAction => [Adversary]
    case MechanicalValidation => []
    case ArchivistCloseout => [Archiver]
    case ImplementerCorrection => [Implementer]
    case NoAction => []
  }

  /* ---------- Attempts end once ---------- */

  /** The identity was handed out, and no started attempt carries it. */
  predicate Spent(d: Draft, id: Uuid) {
    id < d.next && !HasStarted(d.file.runs, id)
  }

  lemma NewAttemptIsNew(runs: seq<RunRow>, longer: seq<RunRow>, id: Uuid)
    requires |longer| == |runs| + 1 && runs <= longer && Last(longer).id != id
    ensures HasStarted(longer, id) ==> HasStarted(runs, id)
  {
    assert forall i :: 0 <= i < |runs| ==> longer[i] == runs[i];
  }

  lemma OthersStartNothing(d: Draft, op: Op, descends: (Sha, Sha) -> bool)
    requires Consistent(d, descends) && Enabled(d.file, op) && !op.Reconcile? && !op.FailAttempt? && !op.Allocate?
    ensures Effect(d, op).file.runs == d.file.runs && d.next <= Effect(d, op).next
  {
  }

  lemma AllocatingSparesSpent(d: Draft, observed: Sha, id: Uuid, descends: (Sha, Sha) -> bool)
    requires Consistent(d, descends) && Enabled(d.file, Allocate(observed)) && Spent(d, id)
    ensures Spent(Effect(d, Allocate(observed)), id)
  {
    AllocatedFrame(d, observed);
    NewAttemptIsNew(d.file.runs, Allocated(d, observed).file.runs, id);
  }

  lemma SpentStaysSpent(d: Draft, move: Move, after: Draft, id: Uuid, descends: (Sha, Sha) -> bool)
    requires Consistent(d, descends) && Step(d, move, after, descends) && Spent(d, id)
    ensures Spent(after, id)
  {
    if move.Here? {
      if move.op.Reconcile? {
        ReconcileConcludes(d, move.op.result, move.op.head);
        ReconcileEndsAttempt(d, move.op.result, move.op.head, descends);
      } else if move.op.FailAttempt? {
        FailEndsAttempt(d, move.op.detail, descends);
      } else if move.op.Allocate? {
        AllocatingSparesSpent(d, move.op.observed, id, descends);
      } else {
        OthersStartNothing(d, move.op, descends);
      }
    }
  }

  lemma {:induction false} SpentForever(ds: seq<Draft>, moves: seq<Move>, id: Uuid, descends: (Sha, Sha) -> bool)
    requires Run(ds, moves, descends) && Consistent(ds[0], descends) && Spent(ds[0], id)
    ensures Spent(Last(ds), id)
    decreases |moves|
  {
    if moves != [] {
      RunPrefix(ds, moves, descends);
      SpentForever(Init(ds), Init(moves), id, descends);
      RunsStayConsistent(Init(ds), Init(moves), descends);
      var n := |moves| - 1;
      assert Init(ds)[n] == ds[n] && Consistent(Init(ds)[n], descends);
      SpentStaysSpent(ds[n], moves[n], ds[n + 1], id, descends);
    }
  }

  /** Once accepted, a result is rejected in every later state, whatever head Git then shows. */
  lemma ReplayIsRejected(
      d: Draft, r: LifecycleResult, head: Sha, ds: seq<Draft>, moves: seq<Move>, later: Sha,
      descends: (Sha, Sha) -> bool)
    requires Consistent(d, descends) && Enabled(d.file, Reconcile(r, head))
      && Disciplined(d.file, Reconcile(r, head), descends)
    requires Run(ds, moves, descends) && ds[0] == Effect(d, Reconcile(r, head))
    ensures !Admissible(Last(ds).file, r, later)
  {
    ReconcileConcludes(d, r, head);
    ReconcileEndsAttempt(d, r, head, descends);
    ReconcileKeeps(d, r, head, descends);
    SpentForever(ds, moves, r.runId, descends);
  }

  /* ---------- Heads ---------- */

  /** The head moves only in a step that also records an IMPLEMENTER run. */
  lemma HeadMovesWithImplementer(d: Draft, op: Op, descends: (Sha, Sha) -> bool)
    requires Consistent(d, descends) && Enabled(d.file, op) && Disciplined(d.file, op, descends)
    ensures var after := Effect(d, op).file;
      after.task.currentHead != d.file.task.currentHead ==>
        op.Reconcile? && MaxRound(after.runs, Implementer) == NextRound(d.file.runs, Implementer)
        && after.task.currentHead == Some(op.head) && LoggedHead(after.events) == Some(op.head)
  {
    if op.Reconcile? {
      ReconcileConcludes(d, op.result, op.head);
      ImplementerReports(d.file, op.result, op.head);
    }
  }

  /** After an accepted result the selected head is exactly the head Git showed. */
  lemma SelectedHeadIsActual(d: Draft, r: LifecycleResult, head: Sha, descends: (Sha, Sha) -> bool)
    requires Consistent(d, descends) && WellFormed(r) && Admissible(d.file, r, head)
    ensures SelectedHead(Reconciled(d, r, head).file.task) == head
    ensures Reconciled(d, r, head).file.task ==
      d.file.task.(state := NextState(r.outcome, d.file.task.state),
        currentHead := Reconciled(d, r, head).file.task.currentHead)
  {
    ReconcileConcludes(d, r, head);
  }

  /* ---------- Publication is monotone ---------- */

  /** What a publication row records is never forgotten, and a published one never changes. */
  predicate PublicationKept(before: CaseFile, after: CaseFile) {
    && (before.publication.Some? ==>
          && after.publication.Some?
          && (before.publication.value.head.Some? ==> after.publication.value.head == before.publication.value.head)
          && (before.publication.value.branch.Some? ==>
              after.publication.value.branch == before.publication.value.branch)
          && (before.publication.value.pr.Some? ==> after.publication.value.pr.Some?))
    && (before.task.state == ReadyForHumanMerge ==>
          after.task == before.task && after.publication == before.publication)
  }

  lemma PublicationIsKept(d: Draft, move: Move, after: Draft, descends: (Sha, Sha) -> bool)
    requires Consistent(d, descends) && Step(d, move, after, descends)
    ensures PublicationKept(d.file, after.file)
  {
    NoneStartedCount(d.file.runs);
    if move.Here? && move.op.Reconcile? {
      ReconcileConcludes(d, move.op.result, move.op.head);
    }
  }

  lemma KeptTransitive(a: CaseFile, b: CaseFile, c: CaseFile)
    requires PublicationKept(a, b) && PublicationKept(b, c)
    ensures PublicationKept(a, c)
  {
  }

  /** Over every run recorded publication evidence survives, and a finalized task stays finalized. */
  lemma {:induction false} PublicationIsMonotone(ds: seq<Draft>, moves: seq<Move>, descends: (Sha, Sha) -> bool)
    requires Run(ds, moves, descends) && Consistent(ds[0], descends)
    ensures PublicationKept(ds[0].file, Last(ds).file)
    decreases |moves|
  {
    if moves != [] {
      RunPrefix(ds, moves, descends);
      PublicationIsMonotone(Init(ds), Init(moves), descends);
      RunsStayConsistent(Init(ds), Init(moves), descends);
      var d := Last(Init(ds));
      PublicationIsKept(d, Last(moves), Last(ds), descends);
      KeptTransitive(ds[0].file, d.file, Last(ds).file);
    } else {
      assert ds[0] == Last(ds);
    }
  }

  /* ---------- Blockers hold the scheduler ---------- */

  /** No operation but a resolution touches a blocker that is already there. */
  lemma BlockersOnlyGrow(d: Draft, op: Op, descends: (Sha, Sha) -> bool)
    requires Consistent(d, descends) && Enabled(d.file, op) && !op.ResolveBlocker?
    ensures d.file.blockers <= Effect(d, op).file.blockers
  {
    if op.Reconcile? {
      ReconcileConcludes(d, op.result, op.head);
    } else if op.FailAttempt? {
      FailAttemptKeeps(d, op.detail, descends);
    }
  }

  /**
   An open blocker outlives every step but its own resolution, and while it is open nothing is allocated or published.
   */
  lemma BlockerHolds(d: Draft, move: Move, after: Draft, blocker: Uuid, descends: (Sha, Sha) -> bool)
    requires Consistent(d, descends) && Step(d, move, after, descends)
    requires IsOpen(d.file.blockers, blocker) && move != Here(ResolveBlocker(blocker))
    ensures IsOpen(after.file.blockers, blocker)
    ensures move.Here? ==> !move.op.Allocate? && !move.op.StartPublication? && !move.op.FinalizePublication?
  {
    var i :| 0 <= i < |d.file.blockers| && d.file.blockers[i].id == blocker && d.file.blockers[i].open;
    if move.Here? {
      if move.op.ResolveBlocker? {
        ClosingKeepsRows(d.file.blockers, move.op.blocker);
        assert after.file.blockers[i] == d.file.blockers[i];
      } else {
        BlockersOnlyGrow(d, move.op, descends);
        assert after.file.blockers[i] == d.file.blockers[i];
      }
    }
  }
}
