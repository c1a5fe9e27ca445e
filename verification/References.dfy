/** Findings and log rows name only runs of their own task: the paired foreign keys of the schema. */
module References {
  import opened Schema
  import opened Queries
  import opened Results
  import opened Reconciliation
  import opened Managed
  import opened Histories
  import opened Evidence
  import opened Invariants
  import opened Runs
  import opened Relations
  import opened ControlPlane
  import opened ControlRuns

  function Keys(runs: seq<RunRow>): set<Uuid> {
    set i | 0 <= i < |runs| :: runs[i].id
  }

  predicate Known(keys: set<Uuid>, run: Option<Uuid>) {
    run.Some? ==> run.value in keys
  }

  /** Every finding and every log row that names a run names one of the task's own. */
  predicate OwnRuns(c: CaseFile) {
    && (forall i :: 0 <= i < |c.findings| ==> c.findings[i].runId in Keys(c.runs))
    && (forall i :: 0 <= i < |c.events| ==> Known(Keys(c.runs), c.events[i].runId))
  }

  lemma KeysAppend(runs: seq<RunRow>, run: RunRow)
    ensures Keys(runs + [run]) == Keys(runs) + {run.id}
  {
    var more := runs + [run];
    assert more[|runs|] == run && forall i :: 0 <= i < |runs| ==> more[i] == runs[i];
  }

  lemma KeysFinished(runs: seq<RunRow>, id: Uuid, t: Uuid, status: RunStatus, summary: string, head: Sha)
    ensures Keys(FinishRuns(runs, id, t, status, summary, head)) == Keys(runs)
  {
    FinishingKeepsKeys(runs, id, t, status, summary, head);
  }

  lemma LoggedOwn(c: CaseFile, what: Occurrence, run: Option<Uuid>)
    requires OwnRuns(c) && Known(Keys(c.runs), run)
    ensures OwnRuns(WithEvent(c, what, run))
  {
  }

  lemma BlockedOwn(d: Draft, kind: BlockerKind, body: string)
    requires OwnRuns(d.file)
    ensures OwnRuns(WithBlocker(d, kind, body).file) && WithBlocker(d, kind, body).file.runs == d.file.runs
  {
  }

  lemma RoleResultOwn(d: Draft, p: Packet, head: Sha)
    requires OwnRuns(d.file)
    ensures var after := WithRoleResult(d, p, head).file;
      OwnRuns(after) && Keys(after.runs) == Keys(d.file.runs) + {d.next}
  {
    var after := WithRoleResult(d, p, head).file;
    KeysAppend(d.file.runs, Last(after.runs));
    assert after.runs == d.file.runs + [Last(after.runs)];
    var c1 := d.file.(runs := after.runs);
    assert OwnRuns(c1);
    LoggedOwn(c1, RoleStarted(p.role, NextRound(d.file.runs, p.role)), Some(d.next));
    LoggedOwn(WithEvent(c1, RoleStarted(p.role, NextRound(d.file.runs, p.role)), Some(d.next)),
              RoleFinished(p.role, NextRound(d.file.runs, p.role), Finished), Some(d.next));
  }

  /** The runs of the roles that reported are there to be named. */
  lemma {:induction false} RoleResultsOwn(d: Draft, packets: seq<Packet>, head: Sha)
    requires OwnRuns(d.file)
    ensures var after := WithRoleResults(d, packets, head);
      && OwnRuns(after.file) && Keys(d.file.runs) <= Keys(after.file.runs)
      && SpecializedRuns(packets, d.next).Values <= Keys(after.file.runs)
  {
    if packets != [] {
      RoleResultsOwn(d, Init(packets), head);
      RoleResultsTouch(d, Init(packets), head);
      RoleResultOwn(WithRoleResults(d, Init(packets), head), Last(packets), head);
    }
  }

  lemma FindingOwn(d: Draft, f: Finding, run: Uuid, round: Option<nat>)
    requires OwnRuns(d.file) && run in Keys(d.file.runs)
    ensures OwnRuns(WithFinding(d, f, run, round).file) && WithFinding(d, f, run, round).file.runs == d.file.runs
  {
    var status := StatusFor(f.ruling);
    var row := FindingRow(d.next, d.file.task.id, run, f.body, status, if status == Licensed then round else None);
    var c := d.file.(findings := d.file.findings + [row]);
    assert OwnRuns(c);
    LoggedOwn(c, FindingRecorded(d.next, status), Some(run));
    var c1 := WithEvent(c, FindingRecorded(d.next, status), Some(run));
    if f.ruling == InfrastructureCondition {
      BlockedOwn(Draft(c1, d.next + 1), Infrastructure, f.body);
    } else if f.ruling == ProjectDecision {
      BlockedOwn(Draft(c1, d.next + 1), if f.blockerKind.Some? then f.blockerKind.value else Project, f.body);
    }
  }

  lemma {:induction false} FindingsOwn(
      d: Draft, fs: seq<Finding>, runs: map<Role, Uuid>, architect: Uuid, round: Option<nat>)
    requires OwnRuns(d.file) && architect in Keys(d.file.runs) && runs.Values <= Keys(d.file.runs)
    ensures var after := WithFindings(d, fs, runs, architect, round).file;
      OwnRuns(after) && after.runs == d.file.runs
  {
    if fs != [] {
      FindingsOwn(d, Init(fs), runs, architect, round);
      FindingOwn(WithFindings(d, Init(fs), runs, architect, round), Last(fs), RunOf(runs, Last(fs).role, architect),
        round);
    }
  }

  lemma RelicensedOwn(c: CaseFile, r: LifecycleResult)
    requires OwnRuns(c)
    ensures OwnRuns(Relicensed(c, r)) && Relicensed(c, r).runs == c.runs
  {
    ResolvingSpendsEveryLicence(c.findings);
    MovingMovesEach(c.findings, NextRound(c.runs, Implementer));
  }

  lemma SettledOwn(d: Draft, r: LifecycleResult, head: Sha)
    requires OwnRuns(d.file) && r.runId in Keys(d.file.runs)
    ensures var s := Settled(d, r, head).file;
      && OwnRuns(s) && r.runId in Keys(s.runs) && SpecializedRuns(r.packets, d.next).Values <= Keys(s.runs)
  {
    RoleResultsOwn(d, r.packets, head);
    var w := WithRoleResults(d, r.packets, head);
    FindingsOwn(w, AllFindings(r), SpecializedRuns(r.packets, d.next), r.runId, CorrectionRound(d.file, r.outcome));
    var e := Evidenced(d, r, head);
    RelicensedOwn(e.file, r);
    BlockedOwn(Draft(Relicensed(e.file, r), e.next), Infrastructure, Results.Evidence(r.packets, r.summary));
  }

  lemma FinishedOwn(c: CaseFile, id: Uuid, status: RunStatus, summary: string, head: Sha)
    requires OwnRuns(c) && id in Keys(c.runs)
    ensures OwnRuns(FinishArchitect(c, id, status, summary, head))
  {
    KeysFinished(c.runs, id, c.task.id, status, summary, head);
    var c1 := c.(runs := FinishRuns(c.runs, id, c.task.id, status, summary, head));
    assert OwnRuns(c1);
    LoggedOwn(c1, RoleFinished(Architect, RoundOf(c.runs, id), status), Some(id));
  }

  lemma ConcludedOwn(c: CaseFile, r: LifecycleResult, head: Sha, runs: map<Role, Uuid>)
    requires OwnRuns(c) && r.runId in Keys(c.runs) && runs.Values <= Keys(c.runs)
    ensures OwnRuns(Concluded(c, r, head, runs))
  {
    var moved := Moved(c, r, head);
    var advanced := Advanced(moved, r, head, runs);
    assert OwnRuns(moved) && moved.runs == c.runs;
    assert OwnRuns(advanced) && advanced.runs == c.runs;
    FinishedOwn(advanced, r.runId, Finished, r.summary, head);
  }

  lemma StartedIsKey(runs: seq<RunRow>, id: Uuid)
    requires HasStarted(runs, id)
    ensures id in Keys(runs)
  {
  }

  lemma ReconciledOwn(d: Draft, r: LifecycleResult, head: Sha)
    requires OwnRuns(d.file) && HasStarted(d.file.runs, r.runId)
    ensures OwnRuns(Reconciled(d, r, head).file)
  {
    StartedIsKey(d.file.runs, r.runId);
    SettledOwn(d, r, head);
    ConcludedOwn(Settled(d, r, head).file, r, head, SpecializedRuns(r.packets, d.next));
  }

  lemma {:induction false} StartedAreKeys(runs: seq<RunRow>)
    ensures forall i :: 0 <= i < |StartedArchitects(runs)| ==> StartedArchitects(runs)[i].id in Keys(runs)
  {
    if runs != [] {
      StartedAreKeys(Init(runs));
      KeysAppend(Init(runs), Last(runs));
      assert runs == Init(runs) + [Last(runs)];
    }
  }

  lemma FailedOwn(d: Draft, detail: string)
    requires OwnRuns(d.file)
    ensures OwnRuns(Effect(d, FailAttempt(detail)).file)
  {
    var live := StartedArchitects(d.file.runs);
    StartedAreKeys(d.file.runs);
    if live != [] {
      FinishedOwn(d.file, live[0].id, Failed, detail, SelectedHead(d.file.task));
      BlockedOwn(d.(file := FinishArchitect(d.file, live[0].id, Failed, detail, SelectedHead(d.file.task))),
                 Infrastructure, detail);
    }
  }

  lemma AllocatedOwn(d: Draft, observed: Sha)
    requires OwnRuns(d.file)
    ensures OwnRuns(Allocated(d, observed).file)
  {
    var after := Allocated(d, observed).file;
    KeysAppend(d.file.runs, Last(after.runs));
    assert after.runs == d.file.runs + [Last(after.runs)];
  }

  /** Every managed step keeps the references. */
  lemma StepKeepsOwnRuns(d: Draft, op: Op)
    requires OwnRuns(d.file) && Enabled(d.file, op)
    ensures OwnRuns(Effect(d, op).file)
  {
    match op
    case Allocate(observed) => AllocatedOwn(d, observed);
    case Reconcile(r, head) => ReconciledOwn(d, r, head);
    case FailAttempt(detail) => FailedOwn(d, detail);
    case RecordBlocker(kind, body) => BlockedOwn(d, kind, body);
    case _ =>
  }

  /** In every run of a task findings and log rows name only its own runs. */
  lemma {:induction false} OwnRunsInEveryRun(ds: seq<Draft>, moves: seq<Move>, descends: (Sha, Sha) -> bool)
    requires Run(ds, moves, descends) && OwnRuns(ds[0].file)
    ensures OwnRuns(Last(ds).file)
    decreases |moves|
  {
    if moves != [] {
      RunPrefix(ds, moves, descends);
      OwnRunsInEveryRun(Init(ds), Init(moves), descends);
      if Last(moves).Here? {
        StepKeepsOwnRuns(Last(Init(ds)), Last(moves).op);
      }
    } else {
      assert ds[0] == Last(ds);
    }
  }

  /** In a reachable database a row that names a run and a task names a run of that task. */
  lemma PairedKeysHold(dbs: seq<Tables>, acts: seq<Act>, t: Uuid, descends: (Sha, Sha) -> bool)
    requires DbRun(dbs, acts, descends) && dbs[0] == EMPTY && t in Last(dbs).tasks
    ensures OwnRuns(CaseOf(Last(dbs), t))
  {
    var ds, moves := HistoryOf(dbs, acts, t, descends);
    OwnRunsInEveryRun(ds, moves, descends);
  }
}
