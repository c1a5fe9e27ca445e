/** What holds of one task's rows in every state the managed steps can reach. */
module Invariants {
  import opened Schema
  import opened Queries
  import opened Results
  import opened Reconciliation
  import opened Managed
  import opened Histories
  import opened Evidence

  /** Only Architect attempts are ever left started or failed, at most one is started, and only in an active state. */
  predicate AttemptsOk(c: CaseFile) {
    && (forall i :: 0 <= i < |c.runs| && c.runs[i].status != Finished ==> c.runs[i].role == Architect)
    && CountAttempts(c.runs, Started) <= 1
    && (CountAttempts(c.runs, Started) == 1 ==> Active(c.task.state))
  }

  /** Every licence is pinned to the next IMPLEMENTER round, and licences exist only where they can be used. */
  predicate LicencesOk(c: CaseFile) {
    && LicensedAt(c.findings, NextRound(c.runs, Implementer))
    && (HasLicensed(c.findings) ==> Correctable(c.task.state))
    && RoundsMatchStatus(c.findings)
  }

  /** How much of the acceptance chain a state presupposes; a licence suspends the presupposition. */
  function RequiredLevel(state: State, licensed: bool): nat {
    match state
    case Review => if licensed then 0 else 1
    case AdversarialReview => if licensed then 0 else 2
    case FinalMechanicalAcceptance => 3
    case Archivist => 3
    case ReadyForHumanMerge => 3
    case _ => 0
  }

  predicate PastPlanning(state: State) {
    Correctable(state) || state in {FinalMechanicalAcceptance, Archivist, ReadyForHumanMerge}
  }

  predicate EvidenceOk(c: CaseFile) {
    && Level(c.events, SelectedHead(c.task)) >= RequiredLevel(c.task.state, HasLicensed(c.findings))
    && (c.task.state in {Archivist, ReadyForHumanMerge} ==> Archived(c.runs, SelectedHead(c.task)))
  }

  /** The log replays the head, which descends from the base and is there from IMPLEMENTED on. */
  ghost predicate HeadOk(c: CaseFile, descends: (Sha, Sha) -> bool) {
    && c.task.currentHead == LoggedHead(c.events)
    && (PastPlanning(c.task.state) ==> c.task.currentHead.Some?)
    && (c.task.currentHead.Some? ==> descends(c.task.baseSha, c.task.currentHead.value))
  }

  /** Each finished attempt is one workpad version; each failed one left an infrastructure blocker. */
  predicate AttemptsCounted(c: CaseFile) {
    && (c.workpad == None <==> c.task.state == Prepared)
    && (c.workpad == None ==> CountAttempts(c.runs, Finished) == 0)
    && (c.workpad.Some? ==> c.workpad.value.version == 1 + CountAttempts(c.runs, Finished))
    && CountAttempts(c.runs, Failed) <= CountKind(c.blockers, Infrastructure)
  }

  predicate PublicationOk(c: CaseFile) {
    && c.task.state !in {HumanBlocked, InfrastructureBlocked}
    && (c.publication.Some? ==> c.task.state in {Archivist, ReadyForHumanMerge})
    && (c.task.state == ReadyForHumanMerge <==> c.publication.Some? && c.publication.value.status == Published)
    && (c.publication.Some? ==>
          c.publication.value.head == c.task.currentHead && c.publication.value.branch == Some(c.task.branch))
    && (c.task.state == ReadyForHumanMerge ==> c.publication.value.pr.Some?)
    && c.task.publishedHead == (if c.task.state == ReadyForHumanMerge then c.task.currentHead else None)
  }

  /** The log row that opened the started attempt still describes the task. */
  predicate StartOk(c: CaseFile) {
    CountAttempts(c.runs, Started) == 1 ==>
      && LastStart(c.events).Some?
      && c.workpad.Some?
      && LastStart(c.events).value.what ==
           ArchitectStarted(c.task.state, c.workpad.value.version, NextAction(c.task.state, HasLicensed(c.findings)))
      && StartedArchitects(c.runs) != []
      && LastStart(c.events).value.runId == Some(StartedArchitects(c.runs)[0].id)
  }

  ghost predicate Consistent(d: Draft, descends: (Sha, Sha) -> bool) {
    && RowsOwned(d)
    && RoundsExact(d.file.runs)
    && AttemptsOk(d.file)
    && LicencesOk(d.file)
    && EvidenceOk(d.file)
    && HeadOk(d.file, descends)
    && AttemptsCounted(d.file)
    && PublicationOk(d.file)
    && StartOk(d.file)
  }

  lemma NewCaseConsistent(task: TaskRow, next: Uuid, descends: (Sha, Sha) -> bool)
    requires task.state == Prepared && task.currentHead == None && task.publishedHead == None && task.id < next
    ensures Consistent(Draft(NewCase(task), next), descends)
  {
  }

  /** Identities handed out elsewhere leave the task's rows consistent. */
  lemma SupplyGrows(d: Draft, next: Uuid, descends: (Sha, Sha) -> bool)
    requires Consistent(d, descends) && d.next <= next
    ensures Consistent(d.(next := next), descends)
  {
  }

  /** The state became QUEUED, the workpad is there at its first version, and the log grew by a neutral row. */
  predicate QueuedFrom(d: Draft, after: Draft) {
    && after.next == d.next
    && after.file ==
        d.file.(task := d.file.task.(state := State.Queued), workpad := after.file.workpad, events := after.file.events)
    && Extends(d.file.events, after.file.events)
    && after.file.workpad.Some? && after.file.workpad.value.version == 1
  }

  lemma QueuedKeeps(d: Draft, after: Draft, descends: (Sha, Sha) -> bool)
    requires Consistent(d, descends) && d.file.task.state == Prepared && QueuedFrom(d, after)
    ensures Consistent(after, descends)
  {
    NeutralRowsAreInvisible(d.file.events, after.file.events, SelectedHead(d.file.task));
  }

  lemma QueueKeeps(d: Draft, descends: (Sha, Sha) -> bool)
    requires Consistent(d, descends) && Enabled(d.file, Queue)
    ensures Consistent(Effect(d, Queue), descends)
  {
    QueuedKeeps(d, Effect(d, Queue), descends);
  }

  lemma BlockerStep(d: Draft, kind: BlockerKind, body: string)
    requires RowsOwned(d)
    ensures var after := WithBlocker(d, kind, body);
      && after.file == d.file.(blockers := after.file.blockers, events := after.file.events)
      && Extends(d.file.events, after.file.events)
      && RowsOwned(after) && after.next == d.next + 1
      && BlockersAdded(d.file.blockers, true, after.file.blockers)
      && HasOpenBlocker(after.file.blockers)
      && CountKind(after.file.blockers, Infrastructure) ==
           CountKind(d.file.blockers, Infrastructure) + (if kind == Infrastructure then 1 else 0)
  {
    var after := WithBlocker(d, kind, body);
    InitOfAppend(d.file.blockers, Last(after.file.blockers));
    assert after.file.blockers[|d.file.blockers|].open;
  }

  /** Only blockers and neutral log rows changed, and no infrastructure blocker went missing. */
  predicate BlockersChanged(d: Draft, after: Draft) {
    && after.file == d.file.(blockers := after.file.blockers, events := after.file.events)
    && Extends(d.file.events, after.file.events) && d.next <= after.next
    && BlockersOwned(after.file.blockers, d.file.task.id, after.next)
    && CountKind(d.file.blockers, Infrastructure) <= CountKind(after.file.blockers, Infrastructure)
  }

  lemma BlockersMayChange(d: Draft, after: Draft, descends: (Sha, Sha) -> bool)
    requires Consistent(d, descends) && BlockersChanged(d, after)
    ensures Consistent(after, descends)
  {
    NeutralRowsAreInvisible(d.file.events, after.file.events, SelectedHead(d.file.task));
  }

  lemma RecordBlockerKeeps(d: Draft, kind: BlockerKind, body: string, descends: (Sha, Sha) -> bool)
    requires Consistent(d, descends)
    ensures Consistent(Effect(d, RecordBlocker(kind, body)), descends)
  {
    BlockerStep(d, kind, body);
    BlockersMayChange(d, WithBlocker(d, kind, body), descends);
  }

  lemma {:induction false} ClosingKeepsRows(blockers: seq<BlockerRow>, id: Uuid)
    ensures var after := CloseBlocker(blockers, id);
      && |after| == |blockers|
      && (forall i :: 0 <= i < |blockers| ==> after[i] == CloseRow(blockers[i], id))
      && (forall kind :: CountKind(after, kind) == CountKind(blockers, kind))
  {
    if blockers != [] {
      ClosingKeepsRows(Init(blockers), id);
      InitOfAppend(CloseBlocker(Init(blockers), id), CloseRow(Last(blockers), id));
    }
  }

  lemma ClosedStayOwned(blockers: seq<BlockerRow>, id: Uuid, t: Uuid, next: Uuid)
    requires BlockersOwned(blockers, t, next)
    ensures BlockersOwned(CloseBlocker(blockers, id), t, next)
  {
    ClosingKeepsRows(blockers, id);
  }

  lemma ResolveBlockerKeeps(d: Draft, id: Uuid, descends: (Sha, Sha) -> bool)
    requires Consistent(d, descends)
    ensures Consistent(Effect(d, ResolveBlocker(id)), descends)
  {
    ClosedStayOwned(d.file.blockers, id, d.file.task.id, d.next);
    ClosingKeepsRows(d.file.blockers, id);
    BlockersMayChange(d, Effect(d, ResolveBlocker(id)), descends);
  }

  /** There was no started attempt and now there is one; the others are as many as before. */
  predicate OneMoreStarted(runs: seq<RunRow>, longer: seq<RunRow>) {
    && CountAttempts(runs, Started) == 0 && CountAttempts(longer, Started) == 1
    && CountAttempts(longer, Finished) == CountAttempts(runs, Finished)
    && CountAttempts(longer, Failed) == CountAttempts(runs, Failed)
  }

  /** The new attempt is the one started run, at the next ARCHITECT round. */
  lemma AllocatedRuns(runs: seq<RunRow>, run: RunRow)
    requires RoundsExact(runs) && NoneStarted(runs)
    requires IsStartedArchitect(run) && run.round == NextRound(runs, Architect)
    ensures RoundsExact(runs + [run])
    ensures OneMoreStarted(runs, runs + [run])
    ensures StartedArchitects(runs + [run]) == [run]
    ensures MaxRound(runs + [run], Implementer) == MaxRound(runs, Implementer)
  {
    NoneStartedCount(runs);
    InitOfAppend(runs, run);
  }

  /** One started attempt was added to the runs. */
  predicate RunAllocated(runs: seq<RunRow>, longer: seq<RunRow>) {
    && runs <= longer && |longer| == |runs| + 1
    && IsStartedArchitect(Last(longer)) && StartedArchitects(longer) == [Last(longer)]
    && RoundsExact(longer)
    && OneMoreStarted(runs, longer)
    && MaxRound(longer, Implementer) == MaxRound(runs, Implementer)
  }

  /** Its start row was added to the log, which says no more about heads or acceptances than before. */
  ghost predicate StartLogged(d: Draft, after: Draft) {
    && (forall head :: Level(after.file.events, head) == Level(d.file.events, head))
    && LoggedHead(after.file.events) == LoggedHead(d.file.events)
    && LastStart(after.file.events).Some? && d.file.workpad.Some?
    && LastStart(after.file.events).value.what ==
         ArchitectStarted(d.file.task.state, d.file.workpad.value.version, ActionOf(d.file))
    && LastStart(after.file.events).value.runId == Some(d.next)
  }

  ghost predicate AttemptAdded(d: Draft, after: Draft) {
    && after.file == d.file.(runs := after.file.runs, events := after.file.events)
    && RowsOwned(after) && RunAllocated(d.file.runs, after.file.runs)
    && Last(after.file.runs).id == d.next && StartLogged(d, after)
  }

  lemma OneMoreOwned(d: Draft, after: Draft, run: RunRow)
    requires RowsOwned(d) && run.taskId == d.file.task.id && run.id == d.next
    requires after.next == d.next + 1 && after.file.task.id == d.file.task.id && after.file.runs == d.file.runs + [run]
    requires after.file.findings == d.file.findings && after.file.blockers == d.file.blockers
    ensures RowsOwned(after)
  {
  }

  lemma RunIsAllocated(runs: seq<RunRow>, run: RunRow)
    requires RoundsExact(runs) && NoneStarted(runs) && IsStartedArchitect(run)
      && run.round == NextRound(runs, Architect)
    ensures RunAllocated(runs, runs + [run])
  {
    AllocatedRuns(runs, run);
    InitOfAppend(runs, run);
  }

  lemma StartIsLogged(d: Draft, after: Draft, start: EventRow)
    requires d.file.workpad.Some? && after.file.events == d.file.events + [start] && start.runId == Some(d.next)
    requires start.what == ArchitectStarted(d.file.task.state, d.file.workpad.value.version, ActionOf(d.file))
    ensures StartLogged(d, after)
  {
    InitOfAppend(d.file.events, start);
  }

  lemma AllocatedFrame(d: Draft, observed: Sha)
    requires RowsOwned(d) && d.file.workpad.Some? && RoundsExact(d.file.runs) && NoneStarted(d.file.runs)
    ensures AttemptAdded(d, Allocated(d, observed))
  {
    var after := Allocated(d, observed);
    var run := Last(after.file.runs);
    assert after.file.runs == d.file.runs + [run];
    OneMoreOwned(d, after, run);
    RunIsAllocated(d.file.runs, run);
    StartIsLogged(d, after, Last(after.file.events));
  }

  lemma AddedKeepsAttempts(d: Draft, after: Draft, descends: (Sha, Sha) -> bool)
    requires Consistent(d, descends) && Active(d.file.task.state) && AttemptAdded(d, after)
    ensures AttemptsOk(after.file) && LicencesOk(after.file) && AttemptsCounted(after.file) && StartOk(after.file)
  {
  }

  lemma AddedKeepsMeaning(d: Draft, after: Draft, descends: (Sha, Sha) -> bool)
    requires Consistent(d, descends) && AttemptAdded(d, after)
    ensures EvidenceOk(after.file) && HeadOk(after.file, descends) && PublicationOk(after.file)
  {
    ArchivedGrows(d.file.runs, after.file.runs, SelectedHead(d.file.task));
  }

  lemma AllocateKeeps(d: Draft, observed: Sha, descends: (Sha, Sha) -> bool)
    requires Consistent(d, descends) && Enabled(d.file, Allocate(observed))
    ensures Consistent(Effect(d, Allocate(observed)), descends)
  {
    AllocatedFrame(d, observed);
    AddedKeepsAttempts(d, Allocated(d, observed), descends);
    AddedKeepsMeaning(d, Allocated(d, observed), descends);
  }

  lemma ArchivedGrows(runs: seq<RunRow>, longer: seq<RunRow>, head: Sha)
    requires runs <= longer
    ensures Archived(runs, head) ==> Archived(longer, head)
  {
    if Archived(runs, head) {
      var i :| 0 <= i < |runs| && runs[i].role == Archiver && runs[i].status == Finished && runs[i].head == head;
      assert longer[i] == runs[i];
    }
  }

  lemma StartPublicationKeeps(d: Draft, head: Sha, branch: string, descends: (Sha, Sha) -> bool)
    requires Consistent(d, descends)
    requires Enabled(d.file, StartPublication(head, branch)) && branch == d.file.task.branch
    ensures Consistent(Effect(d, StartPublication(head, branch)), descends)
  {
    NeutralRowsAreInvisible(d.file.events, PublicationBegun(d.file, head, branch).events, SelectedHead(d.file.task));
  }

  /** The task is published and ready at the head its intent was recorded for; runs, findings and blockers stay. */
  predicate FinalizedFrom(d: Draft, after: Draft, head: Sha) {
    && after.next == d.next
    && after.file == d.file.(task := d.file.task.(state := ReadyForHumanMerge, publishedHead := Some(head)),
                             publication := after.file.publication, events := after.file.events)
    && after.file.publication.Some? && after.file.publication.value.status == Published
    && after.file.publication.value.head == Some(head)
    && after.file.publication.value.branch == Some(d.file.task.branch)
    && after.file.publication.value.pr.Some?
    && Extends(d.file.events, after.file.events)
  }

  lemma FinalizedKeeps(d: Draft, after: Draft, head: Sha, descends: (Sha, Sha) -> bool)
    requires Consistent(d, descends) && d.file.task.state == Archivist && d.file.task.currentHead == Some(head)
    requires FinalizedFrom(d, after, head)
    ensures Consistent(after, descends)
  {
    NeutralRowsAreInvisible(d.file.events, after.file.events, head);
  }

  lemma FinalizeKeeps(d: Draft, head: Sha, branch: string, number: nat, descends: (Sha, Sha) -> bool)
    requires Consistent(d, descends) && Enabled(d.file, FinalizePublication(head, branch, number))
    ensures Consistent(Effect(d, FinalizePublication(head, branch, number)), descends)
  {
    FinalizedKeeps(d, d.(file := Finalized(d.file, head, branch, number)), head, descends);
  }

  lemma FailPublicationKeeps(
      d: Draft, detail: string, tried: Option<Sha>, pushed: Option<string>, pr: Option<nat>,
      descends: (Sha, Sha) -> bool)
    requires Consistent(d, descends) && Enabled(d.file, FailPublication(detail, tried, pushed, pr))
    requires tried == d.file.task.currentHead && pushed == Some(d.file.task.branch)
    ensures Consistent(Effect(d, FailPublication(detail, tried, pushed, pr)), descends)
  {
    var after := PublicationFailed(d, detail, tried, pushed, pr);
    BlockerStep(d.(file := d.file.(publication := after.file.publication)), Infrastructure, detail);
    NeutralRowsAreInvisible(d.file.events, after.file.events, SelectedHead(d.file.task));
  }

  /** Ending the started attempt: one run moves to its final status, and none is started any more. */
  lemma FinishFacts(c: CaseFile, id: Uuid, status: RunStatus, summary: string, head: Sha, next: Uuid)
    requires RunsOwned(c.runs, c.task.id, next) && RoundsExact(c.runs) && CountAttempts(c.runs, Started) <= 1
    requires HasStarted(c.runs, id) && status != Started
    ensures var after := FinishArchitect(c, id, status, summary, head);
      && after == c.(runs := after.runs, events := after.events)
      && Extends(c.events, after.events)
      && RunsOwned(after.runs, c.task.id, next) && RoundsExact(after.runs)
      && CountAttempts(c.runs, Started) == 1 && CountAttempts(after.runs, Started) == 0
      && CountAttempts(after.runs, Finished) == CountAttempts(c.runs, Finished) + (if status == Finished then 1 else 0)
      && CountAttempts(after.runs, Failed) == CountAttempts(c.runs, Failed) + (if status == Failed then 1 else 0)
      && (forall role :: MaxRound(after.runs, role) == MaxRound(c.runs, role))
  {
    FinishKeepsRows(c.runs, id, c.task.id, status, summary, head);
    FinishMovesOneAttempt(c.runs, id, c.task.id, status, summary, head, Started);
    FinishMovesOneAttempt(c.runs, id, c.task.id, status, summary, head, Finished);
    FinishMovesOneAttempt(c.runs, id, c.task.id, status, summary, head, Failed);
  }

  /** Finishing an Architect attempt does not disturb the specialized runs. */
  lemma FinishKeepsOthers(c: CaseFile, id: Uuid, status: RunStatus, summary: string, head: Sha, closed: Sha)
    requires forall i :: 0 <= i < |c.runs| && c.runs[i].status != Finished ==> c.runs[i].role == Architect
    ensures var after := FinishArchitect(c, id, status, summary, head);
      && (forall i :: 0 <= i < |after.runs| && after.runs[i].status != Finished ==> after.runs[i].role == Architect)
      && (Archived(c.runs, closed) ==> Archived(after.runs, closed))
  {
    FinishKeepsRows(c.runs, id, c.task.id, status, summary, head);
    var after := FinishArchitect(c, id, status, summary, head).runs;
    if Archived(c.runs, closed) {
      var i :| 0 <= i < |c.runs| && c.runs[i].role == Archiver && c.runs[i].status == Finished
        && c.runs[i].head == closed;
      assert after[i] == c.runs[i];
    }
  }

  lemma {:induction false} FirstStartedIsStarted(runs: seq<RunRow>)
    requires StartedArchitects(runs) != []
    ensures HasStarted(runs, StartedArchitects(runs)[0].id)
  {
    var init := Init(runs);
    if StartedArchitects(init) != [] {
      FirstStartedIsStarted(init);
      var i :| 0 <= i < |init| && init[i].id == StartedArchitects(init)[0].id && IsStartedArchitect(init[i]);
      assert runs[i] == init[i];
      assert StartedArchitects(runs)[0] == StartedArchitects(init)[0];
    } else {
      assert runs[|runs| - 1] == Last(runs);
    }
  }

  /** What a failed attempt leaves: no started run, one more failed one, one more open infrastructure blocker. */
  ghost predicate AttemptEnded(d: Draft, after: Draft) {
    && after.file == d.file.(runs := after.file.runs, blockers := after.file.blockers, events := after.file.events)
    && RowsOwned(after) && RoundsExact(after.file.runs) && AttemptsOk(after.file)
    && Extends(d.file.events, after.file.events)
    && CountAttempts(d.file.runs, Started) == 1 && CountAttempts(after.file.runs, Started) == 0
    && CountAttempts(after.file.runs, Finished) == CountAttempts(d.file.runs, Finished)
    && CountAttempts(after.file.runs, Failed) == CountAttempts(d.file.runs, Failed) + 1
    && CountKind(after.file.blockers, Infrastructure) == CountKind(d.file.blockers, Infrastructure) + 1
    && HasOpenBlocker(after.file.blockers)
    && BlockersAdded(d.file.blockers, true, after.file.blockers)
    && (forall role :: MaxRound(after.file.runs, role) == MaxRound(d.file.runs, role))
    && (forall closed :: Archived(d.file.runs, closed) ==> Archived(after.file.runs, closed))
  }

  lemma FailAttemptEnds(d: Draft, id: Uuid, detail: string)
    requires RowsOwned(d) && RoundsExact(d.file.runs) && AttemptsOk(d.file) && HasStarted(d.file.runs, id)
    ensures AttemptEnded(d, AttemptFailed(d, id, detail))
  {
    var head := SelectedHead(d.file.task);
    FinishFacts(d.file, id, Failed, detail, head, d.next);
    var mid := d.(file := FinishArchitect(d.file, id, Failed, detail, head));
    BlockerStep(mid, Infrastructure, detail);
    ExtendsTransitive(d.file.events, mid.file.events, AttemptFailed(d, id, detail).file.events);
    forall closed
      ensures Archived(d.file.runs, closed) ==> Archived(mid.file.runs, closed)
    {
      FinishKeepsOthers(d.file, id, Failed, detail, head, closed);
    }
    FinishKeepsOthers(d.file, id, Failed, detail, head, head);
  }

  lemma EndedKeeps(d: Draft, after: Draft, descends: (Sha, Sha) -> bool)
    requires Consistent(d, descends) && AttemptEnded(d, after)
    ensures Consistent(after, descends)
  {
    NeutralRowsAreInvisible(d.file.events, after.file.events, SelectedHead(d.file.task));
  }

  lemma FailAttemptKeeps(d: Draft, detail: string, descends: (Sha, Sha) -> bool)
    requires Consistent(d, descends) && Enabled(d.file, FailAttempt(detail))
    ensures Consistent(Effect(d, FailAttempt(detail)), descends)
    ensures AttemptEnded(d, Effect(d, FailAttempt(detail)))
  {
    NoneStartedCount(d.file.runs);
    FirstStartedIsStarted(d.file.runs);
    var id := StartedArchitects(d.file.runs)[0].id;
    FailAttemptEnds(d, id, detail);
    EndedKeeps(d, AttemptFailed(d, id, detail), descends);
  }
}
