/** Reconciling an admissible result keeps every invariant. */
module Preservation {
  import opened Schema
  import opened Queries
  import opened Results
  import opened Reconciliation
  import opened Managed
  import opened Histories
  import opened Evidence
  import opened Invariants

  /* ---------- After the evidence is in and licences are settled ---------- */

  /** Only runs, findings, blockers and events changed, and no head or acceptance. */
  predicate SettledFrame(d: Draft, s: Draft) {
    && s.file ==
        d.file.(runs := s.file.runs, findings := s.file.findings, blockers := s.file.blockers, events := s.file.events)
    && Extends(d.file.events, s.file.events)
    && d.next <= s.next
    && RowsOwned(s)
  }

  /** Only finished specialized runs were added, each at its role's next round. */
  ghost predicate SettledRuns(d: Draft, r: LifecycleResult, s: Draft) {
    && d.file.runs <= s.file.runs
    && RoundsExact(s.file.runs)
    && (forall i :: |d.file.runs| <= i < |s.file.runs| ==> s.file.runs[i].status == Finished)
    && (forall status :: CountAttempts(s.file.runs, status) == CountAttempts(d.file.runs, status))
    && (forall role :: MaxRound(s.file.runs, role) ==
          if HasRole(r.packets, role) then NextRound(d.file.runs, role) else MaxRound(d.file.runs, role))
  }

  /** Licences are spent by a completed correction, granted by a required one, and otherwise kept. */
  predicate SettledLicences(d: Draft, r: LifecycleResult, s: Draft) {
    && (HasLicensed(s.file.findings) <==>
          r.outcome == CorrectionRequired || (r.outcome != CorrectionComplete && HasLicensed(d.file.findings)))
    && LicensedAt(s.file.findings, NextRound(s.file.runs, Implementer))
    && RoundsMatchStatus(s.file.findings)
  }

  /** A blocked attempt leaves an open blocker; any other outcome adds none. */
  predicate SettledBlockers(d: Draft, r: LifecycleResult, s: Draft) {
    && d.file.blockers <= s.file.blockers
    && (forall i :: |d.file.blockers| <= i < |s.file.blockers| ==> s.file.blockers[i].open)
    && (r.outcome == Blocked ==> HasOpenBlocker(s.file.blockers))
    && (r.outcome != Blocked ==> s.file.blockers == d.file.blockers)
  }

  ghost predicate SettledFrom(d: Draft, r: LifecycleResult, head: Sha, s: Draft) {
    && SettledFrame(d, s)
    && SettledRuns(d, r, s)
    && SettledLicences(d, r, s)
    && SettledBlockers(d, r, s)
    && (r.outcome == ArchiveComplete ==> Archived(s.file.runs, head))
  }

  lemma StoppedStep(d: Draft, r: LifecycleResult)
    requires RowsOwned(d)
    ensures var after := Stopped(d, r);
      && after.file == d.file.(blockers := after.file.blockers, events := after.file.events)
      && Extends(d.file.events, after.file.events)
      && RowsOwned(after) && d.next <= after.next
      && d.file.blockers <= after.file.blockers
      && (forall i :: |d.file.blockers| <= i < |after.file.blockers| ==> after.file.blockers[i].open)
      && (r.outcome == Blocked ==> HasOpenBlocker(after.file.blockers))
      && (r.outcome != Blocked ==> after == d)
  {
    BlockerStep(d, Infrastructure, Results.Evidence(r.packets, r.summary));
  }

  lemma ResolvedOwned(findings: seq<FindingRow>, t: Uuid, next: Uuid)
    requires FindingsOwned(findings, t, next)
    ensures FindingsOwned(ResolveLicensed(findings), t, next)
    ensures RoundsMatchStatus(findings) ==> RoundsMatchStatus(ResolveLicensed(findings))
  {
    ResolvingSpendsEveryLicence(findings);
  }

  lemma MovedOwned(findings: seq<FindingRow>, round: nat, t: Uuid, next: Uuid)
    requires FindingsOwned(findings, t, next)
    ensures FindingsOwned(MoveLicensed(findings, round), t, next)
    ensures RoundsMatchStatus(findings) ==> RoundsMatchStatus(MoveLicensed(findings, round))
  {
    MovingMovesEach(findings, round);
  }

  lemma RelicensedOwned(d: Draft, r: LifecycleResult)
    requires RowsOwned(d)
    ensures var after := Relicensed(d.file, r);
      && after == d.file.(findings := after.findings)
      && RowsOwned(d.(file := after))
  {
    ResolvedOwned(d.file.findings, d.file.task.id, d.next);
    MovedOwned(d.file.findings, NextRound(d.file.runs, Implementer), d.file.task.id, d.next);
  }

  lemma RelicensedStep(c: CaseFile, r: LifecycleResult, next: Uuid)
    requires FindingsOwned(c.findings, c.task.id, next)
    ensures var after := Relicensed(c, r);
      && (RoundsMatchStatus(c.findings) ==> RoundsMatchStatus(after.findings))
      && (HasLicensed(after.findings) <==> r.outcome != CorrectionComplete && HasLicensed(c.findings))
      && (r.outcome == Blocked && HasRole(r.packets, Implementer) ==>
            LicensedAt(after.findings, NextRound(c.runs, Implementer)))
      && (r.outcome == CorrectionComplete || (r.outcome == Blocked && HasRole(r.packets, Implementer)) || after == c)
  {
    if r.outcome == CorrectionComplete {
      ResolvedOwned(c.findings, c.task.id, next);
      ResolvingSpendsEveryLicence(c.findings);
    } else if r.outcome == Blocked && HasRole(r.packets, Implementer) {
      MovedOwned(c.findings, NextRound(c.runs, Implementer), c.task.id, next);
      MovingKeepsEveryLicence(c.findings, NextRound(c.runs, Implementer));
    }
  }

  lemma SettlingFrame(d: Draft, r: LifecycleResult, head: Sha)
    requires RowsOwned(d)
    ensures SettledFrame(d, Settled(d, r, head))
  {
    var w := WithRoleResults(d, r.packets, head);
    var runs, round := SpecializedRuns(r.packets, d.next), CorrectionRound(d.file, r.outcome);
    RoleResultsTouch(d, r.packets, head);
    RoleResultsOwned(d, r.packets, head);
    FindingsTouch(w, AllFindings(r), runs, r.runId, round);
    FindingsOwnedAfter(w, AllFindings(r), runs, r.runId, round);
    var e := Evidenced(d, r, head);
    RelicensedOwned(e, r);
    var m := Draft(Relicensed(e.file, r), e.next);
    StoppedStep(m, r);
    ExtendsTransitive(d.file.events, w.file.events, e.file.events);
    ExtendsTransitive(d.file.events, e.file.events, Settled(d, r, head).file.events);
  }

  /** The settled runs are those of the role results. */
  lemma SettlingKeepsRoleRuns(d: Draft, r: LifecycleResult, head: Sha)
    ensures Settled(d, r, head).file.runs == WithRoleResults(d, r.packets, head).file.runs
  {
    FindingsTouch(WithRoleResults(d, r.packets, head), AllFindings(r), SpecializedRuns(r.packets, d.next),
                  r.runId, CorrectionRound(d.file, r.outcome));
  }

  lemma SettlingRuns(d: Draft, r: LifecycleResult, head: Sha)
    requires WellFormed(r) && RoundsExact(d.file.runs)
    ensures SettledRuns(d, r, Settled(d, r, head))
  {
    SettlingKeepsRoleRuns(d, r, head);
    RoleResultsTouch(d, r.packets, head);
    RoleResultsAdded(d, r.packets, head);
    RoleResultsKeepRounds(d, r.packets, head);
    var s := WithRoleResults(d, r.packets, head).file.runs;
    forall i | |d.file.runs| <= i < |s|
      ensures s[i].status == Finished
    {
      assert RunAdded(d, r.packets[i - |d.file.runs|], i - |d.file.runs|, s[|d.file.runs| + (i - |d.file.runs|)]);
    }
    forall status
      ensures CountAttempts(s, status) == CountAttempts(d.file.runs, status)
    {
      RoleResultsKeepAttempts(d, r.packets, head, status);
    }
    forall role
      ensures MaxRound(s, role) == if HasRole(r.packets, role) then NextRound(d.file.runs, role)
        else MaxRound(d.file.runs, role)
    {
      RoundsUsed(d, r.packets, head, role);
    }
  }

  /** An IMPLEMENTER reports only when it implements, corrects or is blocked. */
  lemma ImplementerReports(c: CaseFile, r: LifecycleResult, head: Sha)
    requires WellFormed(r) && Admissible(c, r, head)
    ensures HasRole(r.packets, Implementer) ==>
      r.outcome in {ImplementationComplete, CorrectionComplete, Blocked}
      && (c.task.state == Planned || (Correctable(c.task.state) && HasLicensed(c.findings)))
    ensures r.outcome in {ImplementationComplete, CorrectionComplete} ==> HasRole(r.packets, Implementer)
    ensures head != SelectedHead(c.task) ==> HasRole(r.packets, Implementer)
  {
    if r.outcome in {ImplementationComplete, CorrectionComplete} {
      assert r.packets[0].role == Implementer;
    }
  }

  /** An admissible result licenses something exactly when it demands a correction. */
  lemma OnlyCorrectionsLicense(c: CaseFile, r: LifecycleResult, head: Sha)
    requires WellFormed(r) && Admissible(c, r, head)
    ensures r.outcome == CorrectionRequired <==> !NoLicence(AllFindings(r))
  {
  }

  /** After the evidence is in, and before licences are settled. */
  lemma FiledLicences(d: Draft, r: LifecycleResult, head: Sha)
    requires RowsOwned(d) && LicensedAt(d.file.findings, NextRound(d.file.runs, Implementer))
      && RoundsMatchStatus(d.file.findings)
    requires r.outcome == CorrectionRequired <==> !NoLicence(AllFindings(r))
    ensures var e := Evidenced(d, r, head);
      && RowsOwned(e) && RoundsMatchStatus(e.file.findings)
      && (HasLicensed(e.file.findings) <==> HasLicensed(d.file.findings) || r.outcome == CorrectionRequired)
      && LicensedAt(e.file.findings, NextRound(d.file.runs, Implementer))
      && e.file.runs == WithRoleResults(d, r.packets, head).file.runs
  {
    RoleResultsTouch(d, r.packets, head);
    RoleResultsOwned(d, r.packets, head);
    var w := WithRoleResults(d, r.packets, head);
    var all, runs, round := AllFindings(r), SpecializedRuns(r.packets, d.next), CorrectionRound(d.file, r.outcome);
    FindingsLicense(w, all, runs, r.runId, round);
    FindingsOwnedAfter(w, all, runs, r.runId, round);
    FindingsCarryRounds(w, all, runs, r.runId, round);
    FindingsTouch(w, all, runs, r.runId, round);
  }

  lemma EvidencedLicences(d: Draft, r: LifecycleResult, head: Sha)
    requires WellFormed(r) && Admissible(d.file, r, head)
    requires RowsOwned(d) && RoundsExact(d.file.runs) && LicencesOk(d.file)
    ensures var e := Evidenced(d, r, head);
      && RowsOwned(e) && RoundsMatchStatus(e.file.findings)
      && (HasLicensed(e.file.findings) <==> HasLicensed(d.file.findings) || r.outcome == CorrectionRequired)
      && LicensedAt(e.file.findings, NextRound(d.file.runs, Implementer))
      && e.file.runs == WithRoleResults(d, r.packets, head).file.runs
  {
    OnlyCorrectionsLicense(d.file, r, head);
    FiledLicences(d, r, head);
  }

  lemma SettlingLicences(d: Draft, r: LifecycleResult, head: Sha)
    requires WellFormed(r) && Admissible(d.file, r, head)
    requires RowsOwned(d) && RoundsExact(d.file.runs) && LicencesOk(d.file)
    ensures SettledLicences(d, r, Settled(d, r, head))
  {
    EvidencedLicences(d, r, head);
    ImplementerReports(d.file, r, head);
    var e := Evidenced(d, r, head);
    RelicensedStep(e.file, r, e.next);
    RelicensedOwned(e, r);
    StoppedStep(Draft(Relicensed(e.file, r), e.next), r);
    RoundsUsed(d, r.packets, head, Implementer);
    if HasLicensed(e.file.findings) && HasRole(r.packets, Implementer) {
      assert r.outcome in {Blocked, CorrectionComplete};
    }
  }

  lemma SettlingBlockers(d: Draft, r: LifecycleResult, head: Sha)
    requires Admissible(d.file, r, head) && RowsOwned(d)
    ensures SettledBlockers(d, r, Settled(d, r, head))
  {
    RoleResultsTouch(d, r.packets, head);
    RoleResultsOwned(d, r.packets, head);
    var w := WithRoleResults(d, r.packets, head);
    var runs, round := SpecializedRuns(r.packets, d.next), CorrectionRound(d.file, r.outcome);
    FindingsOwnedAfter(w, AllFindings(r), runs, r.runId, round);
    FindingsTouch(w, AllFindings(r), runs, r.runId, round);
    FindingsRaiseBlockers(w, AllFindings(r), runs, r.runId, round);
    var e := Evidenced(d, r, head);
    RelicensedOwned(e, r);
    StoppedStep(Draft(Relicensed(e.file, r), e.next), r);
  }

  lemma SettlingArchives(d: Draft, r: LifecycleResult, head: Sha)
    requires Admissible(d.file, r, head) && r.outcome == ArchiveComplete
    ensures Archived(Settled(d, r, head).file.runs, head)
  {
    SettlingKeepsRoleRuns(d, r, head);
    assert WithRoleResults(d, Init(r.packets), head) == d;
    assert WithRoleResults(d, r.packets, head) == WithRoleResult(d, r.packets[0], head);
    var runs := WithRoleResults(d, r.packets, head).file.runs;
    assert runs[|runs| - 1].role == Archiver;
  }

  lemma Settles(d: Draft, r: LifecycleResult, head: Sha)
    requires WellFormed(r) && Admissible(d.file, r, head)
    requires RowsOwned(d) && RoundsExact(d.file.runs) && LicencesOk(d.file)
    ensures SettledFrom(d, r, head, Settled(d, r, head))
  {
    SettlingFrame(d, r, head);
    SettlingRuns(d, r, head);
    SettlingLicences(d, r, head);
    SettlingBlockers(d, r, head);
    if r.outcome == ArchiveComplete {
      SettlingArchives(d, r, head);
    }
  }

  /* ---------- After the head, the state, the attempt and the workpad ---------- */

  /** The log after the conclusion: the head it replays, and how far its acceptance chain has come. */
  predicate ConcludedLog(c: CaseFile, r: LifecycleResult, head: Sha, after: CaseFile) {
    var level := Level(c.events, head);
    && LoggedHead(after.events) == (if head == SelectedHead(c.task) then LoggedHead(c.events) else Some(head))
    && (head == SelectedHead(c.task) ==>
          Level(after.events, head) ==
            if r.outcome == ReviewApproved && level == 0 then 1
            else if r.outcome == AdversaryPass && level == 1 then 2
            else if r.outcome == ValidationPass && level == 2 then 3
            else level)
  }

  predicate ConcludedFrame(c: CaseFile, r: LifecycleResult, head: Sha, after: CaseFile) {
    && after == c.(task := after.task, workpad := after.workpad, runs := after.runs, events := after.events)
    && after.task == c.task.(
         state := NextState(r.outcome, c.task.state),
         currentHead := if head == SelectedHead(c.task) then c.task.currentHead else Some(head))
    && (c.workpad.Some? ==> after.workpad == Some(Workpad(r.workpadBody, c.workpad.value.version + 1)))
  }

  lemma MovedLog(c: CaseFile, r: LifecycleResult, head: Sha)
    ensures var m := Moved(c, r, head);
      && LoggedHead(m.events) == (if head == SelectedHead(c.task) then LoggedHead(c.events) else Some(head))
      && (head == SelectedHead(c.task) ==> m.events == c.events)
  {
    if head != SelectedHead(c.task) {
      InitOfAppend(c.events, Last(Moved(c, r, head).events));
    }
  }

  lemma AdvancedLog(c: CaseFile, r: LifecycleResult, head: Sha, runs: map<Role, Uuid>)
    ensures var a, level := Advanced(c, r, head, runs), Level(c.events, head);
      && LoggedHead(a.events) == LoggedHead(c.events)
      && Level(a.events, head) ==
           if r.outcome == ReviewApproved && level == 0 then 1
           else if r.outcome == AdversaryPass && level == 1 then 2
           else if r.outcome == ValidationPass && level == 2 then 3
           else level
  {
    var a := Advanced(c, r, head, runs);
    if a.events != c.events { InitOfAppend(c.events, Last(a.events)); }
  }

  lemma ConclusionLog(c: CaseFile, r: LifecycleResult, head: Sha, runs: map<Role, Uuid>)
    ensures ConcludedLog(c, r, head, Concluded(c, r, head, runs))
  {
    var m := Moved(c, r, head);
    var a := Advanced(m, r, head, runs);
    MovedLog(c, r, head);
    AdvancedLog(m, r, head, runs);
    NeutralRowsAreInvisible(a.events, Concluded(c, r, head, runs).events, head);
  }

  lemma ConclusionFrame(c: CaseFile, r: LifecycleResult, head: Sha, runs: map<Role, Uuid>)
    ensures ConcludedFrame(c, r, head, Concluded(c, r, head, runs))
  {
  }

  /** The attempt is over: no run is started, one more is finished, and rounds are as they were. */
  ghost predicate ConcludedRuns(c: CaseFile, after: CaseFile, next: Uuid) {
    && RunsOwned(after.runs, c.task.id, next) && RoundsExact(after.runs)
    && CountAttempts(after.runs, Started) == 0
    && CountAttempts(after.runs, Finished) == CountAttempts(c.runs, Finished) + 1
    && CountAttempts(after.runs, Failed) == CountAttempts(c.runs, Failed)
    && (forall role :: MaxRound(after.runs, role) == MaxRound(c.runs, role))
    && (forall i :: 0 <= i < |after.runs| && after.runs[i].status != Finished ==> after.runs[i].role == Architect)
    && (forall closed :: Archived(c.runs, closed) ==> Archived(after.runs, closed))
  }

  lemma ConclusionRuns(c: CaseFile, r: LifecycleResult, head: Sha, runs: map<Role, Uuid>, next: Uuid)
    requires RunsOwned(c.runs, c.task.id, next) && RoundsExact(c.runs)
    requires CountAttempts(c.runs, Started) <= 1 && HasStarted(c.runs, r.runId)
    requires forall i :: 0 <= i < |c.runs| && c.runs[i].status != Finished ==> c.runs[i].role == Architect
    ensures ConcludedRuns(c, Concluded(c, r, head, runs), next)
  {
    var a := Advanced(Moved(c, r, head), r, head, runs);
    assert a.runs == c.runs && a.task.id == c.task.id;
    FinishFacts(a, r.runId, Finished, r.summary, head, next);
    FinishKeepsOthers(a, r.runId, Finished, r.summary, head, head);
    forall closed
      ensures Archived(c.runs, closed) ==> Archived(Concluded(c, r, head, runs).runs, closed)
    {
      FinishKeepsOthers(a, r.runId, Finished, r.summary, head, closed);
    }
  }

  lemma HasStartedGrows(runs: seq<RunRow>, longer: seq<RunRow>, id: Uuid)
    requires runs <= longer && HasStarted(runs, id)
    ensures HasStarted(longer, id)
  {
    var i :| 0 <= i < |runs| && runs[i].id == id && IsStartedArchitect(runs[i]);
    assert longer[i] == runs[i];
  }

  lemma {:induction false} CountKindGrows(blockers: seq<BlockerRow>, longer: seq<BlockerRow>, kind: BlockerKind)
    requires blockers <= longer
    ensures CountKind(blockers, kind) <= CountKind(longer, kind)
    decreases |longer|
  {
    if |blockers| == |longer| {
      assert blockers == longer;
    } else {
      CountKindGrows(blockers, Init(longer), kind);
    }
  }

  /** The acceptance chain that the next state presupposes is there for the head that is now current. */
  lemma EvidenceFollows(d: Draft, r: LifecycleResult, head: Sha, s: CaseFile, after: CaseFile, licensed: bool)
    requires WellFormed(r) && Admissible(d.file, r, head)
    requires EvidenceOk(d.file) && HeadIsThere(d.file)
    requires s.task == d.file.task && Level(s.events, head) == Level(d.file.events, head)
    requires ConcludedLog(s, r, head, after) && ConcludedFrame(s, r, head, after)
    requires licensed <==>
      r.outcome == CorrectionRequired || (r.outcome != CorrectionComplete && HasLicensed(d.file.findings))
    ensures Level(after.events, SelectedHead(after.task)) >= RequiredLevel(after.task.state, licensed)
  {
    ImplementerReports(d.file, r, head);
    LevelIsCurrentAcceptance(d.file.events, head);
  }

  predicate HeadIsThere(c: CaseFile) {
    PastPlanning(c.task.state) ==> c.task.currentHead.Some?
  }

  ghost predicate ConcludedFrom(d: Draft, r: LifecycleResult, head: Sha, s: Draft, after: CaseFile) {
    && ConcludedLog(s.file, r, head, after)
    && ConcludedFrame(s.file, r, head, after)
    && ConcludedRuns(s.file, after, s.next)
  }

  lemma ConcludedKeepsOwnership(d: Draft, r: LifecycleResult, head: Sha, s: Draft, after: CaseFile)
    requires SettledFrame(d, s) && ConcludedFrom(d, r, head, s, after)
    ensures RowsOwned(Draft(after, s.next))
  {
  }

  lemma ConcludedKeepsAttempts(d: Draft, r: LifecycleResult, head: Sha, s: Draft, after: CaseFile)
    requires Admissible(d.file, r, head) && AttemptsCounted(d.file)
    requires SettledFrom(d, r, head, s) && ConcludedFrom(d, r, head, s, after)
    ensures AttemptsOk(after) && AttemptsCounted(after)
  {
    CountKindGrows(d.file.blockers, s.file.blockers, Infrastructure);
  }

  lemma ConcludedKeepsLicences(d: Draft, r: LifecycleResult, head: Sha, s: Draft, after: CaseFile)
    requires Admissible(d.file, r, head) && LicencesOk(d.file)
    requires SettledLicences(d, r, s) && SettledFrame(d, s) && ConcludedFrom(d, r, head, s, after)
    ensures LicencesOk(after)
  {
  }

  lemma ConcludedKeepsMeaning(
      d: Draft, r: LifecycleResult, head: Sha, s: Draft, after: CaseFile, descends: (Sha, Sha) -> bool)
    requires WellFormed(r) && Admissible(d.file, r, head) && descends(d.file.task.baseSha, head)
    requires EvidenceOk(d.file) && HeadOk(d.file, descends) && PublicationOk(d.file)
    requires SettledFrom(d, r, head, s) && ConcludedFrom(d, r, head, s, after)
    ensures EvidenceOk(after) && HeadOk(after, descends) && PublicationOk(after)
  {
    NeutralRowsAreInvisible(d.file.events, s.file.events, head);
    ImplementerReports(d.file, r, head);
    EvidenceFollows(d, r, head, s.file, after, HasLicensed(s.file.findings));
  }

  lemma OnlyAttemptsUnfinished(runs: seq<RunRow>, longer: seq<RunRow>)
    requires runs <= longer && forall i :: |runs| <= i < |longer| ==> longer[i].status == Finished
    requires forall i :: 0 <= i < |runs| && runs[i].status != Finished ==> runs[i].role == Architect
    ensures forall i :: 0 <= i < |longer| && longer[i].status != Finished ==> longer[i].role == Architect
  {
    assert forall i :: 0 <= i < |runs| ==> longer[i] == runs[i];
  }

  lemma ReconcileConcludes(d: Draft, r: LifecycleResult, head: Sha)
    requires WellFormed(r) && Admissible(d.file, r, head)
    requires RowsOwned(d) && RoundsExact(d.file.runs) && LicencesOk(d.file) && AttemptsOk(d.file)
    ensures SettledFrom(d, r, head, Settled(d, r, head))
    ensures ConcludedFrom(d, r, head, Settled(d, r, head), Reconciled(d, r, head).file)
  {
    Settles(d, r, head);
    var s := Settled(d, r, head);
    HasStartedGrows(d.file.runs, s.file.runs, r.runId);
    ConclusionFrame(s.file, r, head, SpecializedRuns(r.packets, d.next));
    ConclusionLog(s.file, r, head, SpecializedRuns(r.packets, d.next));
    OnlyAttemptsUnfinished(d.file.runs, s.file.runs);
    ConclusionRuns(s.file, r, head, SpecializedRuns(r.packets, d.next), s.next);
  }

  lemma ReconcileKeeps(d: Draft, r: LifecycleResult, head: Sha, descends: (Sha, Sha) -> bool)
    requires Consistent(d, descends) && Enabled(d.file, Reconcile(r, head)) && descends(d.file.task.baseSha, head)
    ensures Consistent(Effect(d, Reconcile(r, head)), descends)
  {
    ReconcileConcludes(d, r, head);
    var s, after := Settled(d, r, head), Reconciled(d, r, head).file;
    ConcludedKeepsOwnership(d, r, head, s, after);
    ConcludedKeepsAttempts(d, r, head, s, after);
    ConcludedKeepsLicences(d, r, head, s, after);
    ConcludedKeepsMeaning(d, r, head, s, after, descends);
  }

  /** Every managed step keeps every invariant. */
  lemma StepKeeps(d: Draft, op: Op, descends: (Sha, Sha) -> bool)
    requires Consistent(d, descends) && Enabled(d.file, op) && Disciplined(d.file, op, descends)
    ensures Consistent(Effect(d, op), descends)
  {
    match op
    case Queue => QueueKeeps(d, descends);
    case Allocate(observed) => AllocateKeeps(d, observed, descends);
    case Reconcile(r, head) => ReconcileKeeps(d, r, head, descends);
    case FailAttempt(detail) => FailAttemptKeeps(d, detail, descends);
    case RecordBlocker(kind, body) => RecordBlockerKeeps(d, kind, body, descends);
    case ResolveBlocker(id) => ResolveBlockerKeeps(d, id, descends);
    case StartPublication(head, branch) => StartPublicationKeeps(d, head, branch, descends);
    case FinalizePublication(head, branch, number) => FinalizeKeeps(d, head, branch, number, descends);
    case FailPublication(detail, tried, pushed, pr) => FailPublicationKeeps(d, detail, tried, pushed, pr, descends);
  }
}
