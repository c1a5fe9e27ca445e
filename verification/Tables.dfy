/**
 The tables as SQLite holds them, rows of all tasks together in row order, and the view one
 task's queries have of them. Statements on the tables commute with taking the view.
 */
module Relations {
  import opened Schema
  import opened Queries
  import opened Reconciliation
  import opened Managed
  import opened Histories
  import opened Evidence

  datatype Tables = Tables(
    tasks: map<Uuid, TaskRow>, workpads: map<Uuid, Workpad>, runs: seq<RunRow>, findings: seq<FindingRow>,
    blockers: seq<BlockerRow>, publications: map<Uuid, PublicationRow>, events: seq<EventRow>, next: Uuid)

  const EMPTY := Tables(map[], map[], [], [], [], map[], [], 0)

  /* ---------- SELECT ... WHERE task_id = t ORDER BY rowid ---------- */

  function RunsOf(runs: seq<RunRow>, t: Uuid): seq<RunRow> {
    if runs == [] then []
    else if Last(runs).taskId == t then RunsOf(Init(runs), t) + [Last(runs)]
    else RunsOf(Init(runs), t)
  }

  function FindingsOf(findings: seq<FindingRow>, t: Uuid): seq<FindingRow> {
    if findings == [] then []
    else if Last(findings).taskId == t then FindingsOf(Init(findings), t) + [Last(findings)]
    else FindingsOf(Init(findings), t)
  }

  function BlockersOf(blockers: seq<BlockerRow>, t: Uuid): seq<BlockerRow> {
    if blockers == [] then []
    else if Last(blockers).taskId == t then BlockersOf(Init(blockers), t) + [Last(blockers)]
    else BlockersOf(Init(blockers), t)
  }

  function EventsOf(events: seq<EventRow>, t: Uuid): seq<EventRow> {
    if events == [] then []
    else if Last(events).taskId == t then EventsOf(Init(events), t) + [Last(events)]
    else EventsOf(Init(events), t)
  }

  function Lookup<V>(m: map<Uuid, V>, t: Uuid): Option<V> {
    if t in m then Some(m[t]) else None
  }

  /** What the task's queries see. */
  function CaseOf(db: Tables, t: Uuid): CaseFile
    requires t in db.tasks
  {
    CaseFile(db.tasks[t], Lookup(db.workpads, t), RunsOf(db.runs, t), FindingsOf(db.findings, t),
             BlockersOf(db.blockers, t), Lookup(db.publications, t), EventsOf(db.events, t))
  }

  function DraftOf(db: Tables, t: Uuid): Draft
    requires t in db.tasks
  {
    Draft(CaseOf(db, t), db.next)
  }

  /* ---------- What the constraints guarantee ---------- */

  /** Primary keys increase below the supply, and foreign keys name existing tasks. */
  predicate TablesOk(db: Tables) {
    && (forall t :: t in db.tasks ==> db.tasks[t].id == t && t < db.next)
    && IncreasingRuns(db.runs) && IncreasingFindings(db.findings) && IncreasingBlockers(db.blockers)
    && (forall i :: 0 <= i < |db.runs| ==> db.runs[i].id < db.next && db.runs[i].taskId in db.tasks)
    && (forall i :: 0 <= i < |db.findings| ==> db.findings[i].id < db.next && db.findings[i].taskId in db.tasks)
    && (forall i :: 0 <= i < |db.blockers| ==> db.blockers[i].id < db.next && db.blockers[i].taskId in db.tasks)
    && (forall i :: 0 <= i < |db.events| ==> db.events[i].taskId in db.tasks)
    && db.workpads.Keys <= db.tasks.Keys && db.publications.Keys <= db.tasks.Keys
  }

  /** Only the rows of one task changed, and identities were only handed out. */
  predicate OnlyTask(db: Tables, after: Tables, t: Uuid) {
    && after.tasks.Keys == db.tasks.Keys
    && db.next <= after.next
    && forall u :: u in db.tasks && u != t ==> CaseOf(after, u) == CaseOf(db, u)
  }

  /** One task's rows became this draft, and nothing else changed. */
  predicate Became(db: Tables, after: Tables, t: Uuid, d: Draft) {
    && TablesOk(after) && OnlyTask(db, after, t)
    && t in after.tasks && DraftOf(after, t) == d
  }

  lemma BecameTransitive(a: Tables, b: Tables, c: Tables, t: Uuid, mid: Draft, d: Draft)
    requires Became(a, b, t, mid) && Became(b, c, t, d)
    ensures Became(a, c, t, d)
  {
    forall u | u in a.tasks && u != t
      ensures CaseOf(c, u) == CaseOf(a, u)
    {
      assert CaseOf(b, u) == CaseOf(a, u);
    }
  }

  lemma BecameSelf(db: Tables, t: Uuid)
    requires TablesOk(db) && t in db.tasks
    ensures Became(db, db, t, DraftOf(db, t))
  {
  }

  /* ---------- INSERT ---------- */

  lemma InsertRunView(runs: seq<RunRow>, row: RunRow, u: Uuid)
    ensures RunsOf(runs + [row], u) ==
      if row.taskId == u then RunsOf(runs, u) + [row] else RunsOf(runs, u)
  {
    InitOfAppend(runs, row);
  }

  lemma InsertFindingView(findings: seq<FindingRow>, row: FindingRow, u: Uuid)
    ensures FindingsOf(findings + [row], u) ==
      if row.taskId == u then FindingsOf(findings, u) + [row] else FindingsOf(findings, u)
  {
    InitOfAppend(findings, row);
  }

  lemma InsertBlockerView(blockers: seq<BlockerRow>, row: BlockerRow, u: Uuid)
    ensures BlockersOf(blockers + [row], u) ==
      if row.taskId == u then BlockersOf(blockers, u) + [row] else BlockersOf(blockers, u)
  {
    InitOfAppend(blockers, row);
  }

  lemma InsertEventView(events: seq<EventRow>, row: EventRow, u: Uuid)
    ensures EventsOf(events + [row], u) ==
      if row.taskId == u then EventsOf(events, u) + [row] else EventsOf(events, u)
  {
    InitOfAppend(events, row);
  }

  /* ---------- UPDATE ---------- */

  lemma {:induction false} FinishRunView(
      runs: seq<RunRow>, id: Uuid, t: Uuid, status: RunStatus, summary: string, head: Sha, u: Uuid)
    ensures RunsOf(FinishRuns(runs, id, t, status, summary, head), u) ==
      if u == t then FinishRuns(RunsOf(runs, t), id, t, status, summary, head) else RunsOf(runs, u)
  {
    if runs != [] {
      FinishRunView(Init(runs), id, t, status, summary, head, u);
      InitOfAppend(FinishRuns(Init(runs), id, t, status, summary, head),
        FinishRow(Last(runs), id, t, status, summary, head));
      if Last(runs).taskId == t && u == t {
        InitOfAppend(RunsOf(Init(runs), t), Last(runs));
      }
    }
  }

  lemma {:induction false} CloseBlockerView(blockers: seq<BlockerRow>, id: Uuid, u: Uuid)
    ensures BlockersOf(CloseBlocker(blockers, id), u) == CloseBlocker(BlockersOf(blockers, u), id)
  {
    if blockers != [] {
      CloseBlockerView(Init(blockers), id, u);
      InitOfAppend(CloseBlocker(Init(blockers), id), CloseRow(Last(blockers), id));
      if Last(blockers).taskId == u {
        InitOfAppend(BlockersOf(Init(blockers), u), Last(blockers));
      }
    }
  }

  /** UPDATE findings SET status = 'resolved' WHERE id = ?. */
  function ResolveFinding(findings: seq<FindingRow>, id: Uuid): seq<FindingRow> {
    if findings == [] then []
    else
      var f := Last(findings);
      ResolveFinding(Init(findings), id) + [if f.id == id then f.(status := Resolved, round := None) else f]
  }

  /** UPDATE findings SET round = ? WHERE id = ? AND task_id = ? AND status = 'licensed' AND round = ?. */
  function MoveFinding(findings: seq<FindingRow>, id: Uuid, t: Uuid, from: nat, to: nat): seq<FindingRow> {
    if findings == [] then []
    else
      var f := Last(findings);
      MoveFinding(Init(findings), id, t, from, to) + [if Movable(f, id, t, from) then f.(round := Some(to)) else f]
  }

  predicate Movable(f: FindingRow, id: Uuid, t: Uuid, from: nat) {
    f.id == id && f.taskId == t && f.status == Licensed && f.round == Some(from)
  }

  lemma {:induction false} ResolveFindingView(findings: seq<FindingRow>, id: Uuid, u: Uuid)
    ensures FindingsOf(ResolveFinding(findings, id), u) == ResolveFinding(FindingsOf(findings, u), id)
  {
    if findings != [] {
      ResolveFindingView(Init(findings), id, u);
      InitOfAppend(ResolveFinding(Init(findings), id), Last(ResolveFinding(findings, id)));
      if Last(findings).taskId == u {
        InitOfAppend(FindingsOf(Init(findings), u), Last(findings));
      }
    }
  }

  lemma {:induction false} MoveFindingView(findings: seq<FindingRow>, id: Uuid, t: Uuid, from: nat, to: nat, u: Uuid)
    ensures FindingsOf(MoveFinding(findings, id, t, from, to), u) ==
      if u == t then MoveFinding(FindingsOf(findings, t), id, t, from, to) else FindingsOf(findings, u)
  {
    if findings != [] {
      MoveFindingView(Init(findings), id, t, from, to, u);
      InitOfAppend(MoveFinding(Init(findings), id, t, from, to), Last(MoveFinding(findings, id, t, from, to)));
      if Last(findings).taskId == t && u == t {
        InitOfAppend(FindingsOf(Init(findings), t), Last(findings));
      }
    }
  }

  /* ---------- Rows found by primary key ---------- */

  /** SELECT * FROM role_runs WHERE id = ?. */
  function FindRun(runs: seq<RunRow>, id: Uuid): Option<RunRow> {
    if runs == [] then None else if Last(runs).id == id then Some(Last(runs)) else FindRun(Init(runs), id)
  }

  function FindFinding(findings: seq<FindingRow>, id: Uuid): Option<FindingRow> {
    if findings == [] then None
    else if Last(findings).id == id then Some(Last(findings))
    else FindFinding(Init(findings), id)
  }

  function FindBlocker(blockers: seq<BlockerRow>, id: Uuid): Option<BlockerRow> {
    if blockers == [] then None
    else if Last(blockers).id == id then Some(Last(blockers))
    else FindBlocker(Init(blockers), id)
  }

  lemma {:induction false} FoundRun(runs: seq<RunRow>, id: Uuid)
    requires IncreasingRuns(runs)
    ensures forall i :: 0 <= i < |runs| && runs[i].id == id ==> FindRun(runs, id) == Some(runs[i])
    ensures FindRun(runs, id).Some? ==> FindRun(runs, id).value in runs && FindRun(runs, id).value.id == id
  {
    if runs != [] {
      FoundRun(Init(runs), id);
      assert forall i :: 0 <= i < |runs| - 1 ==> Init(runs)[i] == runs[i];
    }
  }

  lemma {:induction false} FoundFinding(findings: seq<FindingRow>, id: Uuid)
    requires IncreasingFindings(findings)
    ensures forall i :: 0 <= i < |findings| && findings[i].id == id ==> FindFinding(findings, id) == Some(findings[i])
    ensures FindFinding(findings, id).Some? ==>
      FindFinding(findings, id).value in findings && FindFinding(findings, id).value.id == id
  {
    if findings != [] {
      FoundFinding(Init(findings), id);
      assert forall i :: 0 <= i < |findings| - 1 ==> Init(findings)[i] == findings[i];
    }
  }

  lemma {:induction false} FoundBlocker(blockers: seq<BlockerRow>, id: Uuid)
    requires IncreasingBlockers(blockers)
    ensures forall i :: 0 <= i < |blockers| && blockers[i].id == id ==> FindBlocker(blockers, id) == Some(blockers[i])
    ensures FindBlocker(blockers, id).Some? ==>
      FindBlocker(blockers, id).value in blockers && FindBlocker(blockers, id).value.id == id
  {
    if blockers != [] {
      FoundBlocker(Init(blockers), id);
      assert forall i :: 0 <= i < |blockers| - 1 ==> Init(blockers)[i] == blockers[i];
    }
  }

  /** The task's runs are exactly the rows that name it. */
  lemma {:induction false} RunsOfMeans(runs: seq<RunRow>, t: Uuid)
    ensures forall row :: row in RunsOf(runs, t) <==> row in runs && row.taskId == t
    ensures IncreasingRuns(runs) ==> IncreasingRuns(RunsOf(runs, t))
  {
    if runs != [] {
      RunsOfMeans(Init(runs), t);
      assert runs == Init(runs) + [Last(runs)];
      if IncreasingRuns(runs) {
        var ours := RunsOf(Init(runs), t);
        forall i | 0 <= i < |ours|
          ensures ours[i].id < Last(runs).id
        {
          assert ours[i] in Init(runs);
        }
      }
    }
  }

  lemma {:induction false} FindingsOfMeans(findings: seq<FindingRow>, t: Uuid)
    ensures forall row :: row in FindingsOf(findings, t) <==> row in findings && row.taskId == t
    ensures IncreasingFindings(findings) ==> IncreasingFindings(FindingsOf(findings, t))
  {
    if findings != [] {
      FindingsOfMeans(Init(findings), t);
      assert findings == Init(findings) + [Last(findings)];
      if IncreasingFindings(findings) {
        var ours := FindingsOf(Init(findings), t);
        forall i | 0 <= i < |ours|
          ensures ours[i].id < Last(findings).id
        {
          assert ours[i] in Init(findings);
        }
      }
    }
  }

  lemma {:induction false} BlockersOfMeans(blockers: seq<BlockerRow>, t: Uuid)
    ensures forall row :: row in BlockersOf(blockers, t) <==> row in blockers && row.taskId == t
    ensures IncreasingBlockers(blockers) ==> IncreasingBlockers(BlockersOf(blockers, t))
  {
    if blockers != [] {
      BlockersOfMeans(Init(blockers), t);
      assert blockers == Init(blockers) + [Last(blockers)];
      if IncreasingBlockers(blockers) {
        var ours := BlockersOf(Init(blockers), t);
        forall i | 0 <= i < |ours|
          ensures ours[i].id < Last(blockers).id
        {
          assert ours[i] in Init(blockers);
        }
      }
    }
  }

  /** Rows seen through the view are owned by the task and keep the key order. */
  lemma ViewIsOwned(db: Tables, t: Uuid)
    requires TablesOk(db) && t in db.tasks
    ensures RowsOwned(DraftOf(db, t))
  {
    RunsOfMeans(db.runs, t);
    FindingsOfMeans(db.findings, t);
    BlockersOfMeans(db.blockers, t);
    var c := CaseOf(db, t);
    forall i | 0 <= i < |c.runs|
      ensures c.runs[i].id < db.next && c.runs[i].taskId == t
    {
      assert c.runs[i] in c.runs;
    }
    forall i | 0 <= i < |c.findings|
      ensures c.findings[i].id < db.next && c.findings[i].taskId == t
    {
      assert c.findings[i] in c.findings;
    }
    forall i | 0 <= i < |c.blockers|
      ensures c.blockers[i].id < db.next && c.blockers[i].taskId == t
    {
      assert c.blockers[i] in c.blockers;
    }
  }

  /* ---------- Statements, as the task they touch sees them ---------- */

  lemma EventInserted(db: Tables, t: Uuid, what: Occurrence, runId: Option<Uuid>)
    requires TablesOk(db) && t in db.tasks
    ensures Became(db, db.(events := db.events + [EventRow(t, what, runId)]), t,
                   Draft(WithEvent(CaseOf(db, t), what, runId), db.next))
  {
    forall u: Uuid
      ensures EventsOf(db.events + [EventRow(t, what, runId)], u) ==
        if t == u then EventsOf(db.events, u) + [EventRow(t, what, runId)] else EventsOf(db.events, u)
    {
      InsertEventView(db.events, EventRow(t, what, runId), u);
    }
  }

  lemma RunInserted(db: Tables, row: RunRow)
    requires TablesOk(db) && row.taskId in db.tasks && row.id == db.next
    ensures var c := CaseOf(db, row.taskId);
      Became(db, db.(runs := db.runs + [row], next := db.next + 1), row.taskId,
        Draft(c.(runs := c.runs + [row]), db.next + 1))
  {
    forall u: Uuid
      ensures RunsOf(db.runs + [row], u) == if row.taskId == u then RunsOf(db.runs, u) + [row] else RunsOf(db.runs, u)
    {
      InsertRunView(db.runs, row, u);
    }
  }

  lemma FindingInserted(db: Tables, row: FindingRow)
    requires TablesOk(db) && row.taskId in db.tasks && row.id == db.next
    ensures var c := CaseOf(db, row.taskId);
      Became(db, db.(findings := db.findings + [row], next := db.next + 1), row.taskId,
             Draft(c.(findings := c.findings + [row]), db.next + 1))
  {
    forall u: Uuid
      ensures FindingsOf(db.findings + [row], u) ==
        if row.taskId == u then FindingsOf(db.findings, u) + [row] else FindingsOf(db.findings, u)
    {
      InsertFindingView(db.findings, row, u);
    }
  }

  lemma BlockerInserted(db: Tables, row: BlockerRow)
    requires TablesOk(db) && row.taskId in db.tasks && row.id == db.next
    ensures var c := CaseOf(db, row.taskId);
      Became(db, db.(blockers := db.blockers + [row], next := db.next + 1), row.taskId,
             Draft(c.(blockers := c.blockers + [row]), db.next + 1))
  {
    forall u: Uuid
      ensures BlockersOf(db.blockers + [row], u) ==
        if row.taskId == u then BlockersOf(db.blockers, u) + [row] else BlockersOf(db.blockers, u)
    {
      InsertBlockerView(db.blockers, row, u);
    }
  }

  lemma FinishingKeepsKeys(runs: seq<RunRow>, id: Uuid, t: Uuid, status: RunStatus, summary: string, head: Sha)
    ensures var after := FinishRuns(runs, id, t, status, summary, head);
      |after| == |runs| && forall i :: 0 <= i < |runs| ==>
        after[i].id == runs[i].id && after[i].taskId == runs[i].taskId
  {
    FinishKeepsRows(runs, id, t, status, summary, head);
  }

  lemma RunFinished(db: Tables, id: Uuid, t: Uuid, status: RunStatus, summary: string, head: Sha)
    requires TablesOk(db) && t in db.tasks
    ensures var c := CaseOf(db, t);
      Became(db, db.(runs := FinishRuns(db.runs, id, t, status, summary, head)), t,
             Draft(c.(runs := FinishRuns(c.runs, id, t, status, summary, head)), db.next))
  {
    FinishingKeepsKeys(db.runs, id, t, status, summary, head);
    forall u: Uuid
      ensures RunsOf(FinishRuns(db.runs, id, t, status, summary, head), u) ==
        if u == t then FinishRuns(RunsOf(db.runs, t), id, t, status, summary, head) else RunsOf(db.runs, u)
    {
      FinishRunView(db.runs, id, t, status, summary, head, u);
    }
  }

  lemma {:induction false} ResolvingKeepsKeys(findings: seq<FindingRow>, id: Uuid)
    ensures var after := ResolveFinding(findings, id);
      |after| == |findings| && forall i :: 0 <= i < |findings| ==>
        after[i] == if findings[i].id == id then findings[i].(status := Resolved, round := None) else findings[i]
  {
    if findings != [] {
      ResolvingKeepsKeys(Init(findings), id);
    }
  }

  lemma {:induction false} MovingKeepsKeys(findings: seq<FindingRow>, id: Uuid, t: Uuid, from: nat, to: nat)
    ensures var after := MoveFinding(findings, id, t, from, to);
      |after| == |findings| && forall i :: 0 <= i < |findings| ==>
        after[i] == if Movable(findings[i], id, t, from) then findings[i].(round := Some(to)) else findings[i]
  {
    if findings != [] {
      MovingKeepsKeys(Init(findings), id, t, from, to);
    }
  }

  /** A row found by its key in one task's view is not in any other's. */
  lemma ResolvingElsewhere(findings: seq<FindingRow>, id: Uuid)
    requires forall i :: 0 <= i < |findings| ==> findings[i].id != id
    ensures ResolveFinding(findings, id) == findings
  {
    ResolvingKeepsKeys(findings, id);
  }

  lemma ResolvedAsSeen(db: Tables, id: Uuid, t: Uuid, u: Uuid)
    requires TablesOk(db) && FindFinding(db.findings, id).Some? && FindFinding(db.findings, id).value.taskId == t
    ensures FindingsOf(ResolveFinding(db.findings, id), u) ==
      if u == t then ResolveFinding(FindingsOf(db.findings, t), id) else FindingsOf(db.findings, u)
  {
    ResolveFindingView(db.findings, id, u);
    var ours := FindingsOf(db.findings, u);
    if u != t {
      FoundFinding(db.findings, id);
      FindingsOfMeans(db.findings, u);
      forall i | 0 <= i < |ours|
        ensures ours[i].id != id
      {
        assert ours[i] in ours;
      }
      ResolvingElsewhere(ours, id);
    }
  }

  lemma ResolvedKeepsTables(db: Tables, id: Uuid)
    requires TablesOk(db)
    ensures TablesOk(db.(findings := ResolveFinding(db.findings, id)))
  {
    ResolvingKeepsKeys(db.findings, id);
  }

  lemma FindingResolved(db: Tables, id: Uuid, t: Uuid)
    requires TablesOk(db) && t in db.tasks
    requires FindFinding(db.findings, id).Some? && FindFinding(db.findings, id).value.taskId == t
    ensures var c := CaseOf(db, t);
      Became(db, db.(findings := ResolveFinding(db.findings, id)), t,
             Draft(c.(findings := ResolveFinding(c.findings, id)), db.next))
  {
    ResolvedKeepsTables(db, id);
    forall u: Uuid
      ensures FindingsOf(ResolveFinding(db.findings, id), u) ==
        if u == t then ResolveFinding(FindingsOf(db.findings, t), id) else FindingsOf(db.findings, u)
    {
      ResolvedAsSeen(db, id, t, u);
    }
  }

  lemma FindingMoved(db: Tables, id: Uuid, t: Uuid, from: nat, to: nat)
    requires TablesOk(db) && t in db.tasks
    ensures var c := CaseOf(db, t);
      Became(db, db.(findings := MoveFinding(db.findings, id, t, from, to)), t,
             Draft(c.(findings := MoveFinding(c.findings, id, t, from, to)), db.next))
  {
    MovingKeepsKeys(db.findings, id, t, from, to);
    forall u: Uuid
      ensures FindingsOf(MoveFinding(db.findings, id, t, from, to), u) ==
        if u == t then MoveFinding(FindingsOf(db.findings, t), id, t, from, to) else FindingsOf(db.findings, u)
    {
      MoveFindingView(db.findings, id, t, from, to, u);
    }
  }

  lemma {:induction false} ClosingKeepsKeys(blockers: seq<BlockerRow>, id: Uuid)
    ensures var after := CloseBlocker(blockers, id);
      |after| == |blockers| && forall i :: 0 <= i < |blockers| ==> after[i] == CloseRow(blockers[i], id)
  {
    if blockers != [] {
      ClosingKeepsKeys(Init(blockers), id);
    }
  }

  lemma ClosingElsewhere(blockers: seq<BlockerRow>, id: Uuid)
    requires forall i :: 0 <= i < |blockers| ==> blockers[i].id != id
    ensures CloseBlocker(blockers, id) == blockers
  {
    ClosingKeepsKeys(blockers, id);
  }

  lemma ClosedAsSeen(db: Tables, id: Uuid, t: Uuid, u: Uuid)
    requires TablesOk(db) && FindBlocker(db.blockers, id).Some? && FindBlocker(db.blockers, id).value.taskId == t
    ensures BlockersOf(CloseBlocker(db.blockers, id), u) ==
      if u == t then CloseBlocker(BlockersOf(db.blockers, t), id) else BlockersOf(db.blockers, u)
  {
    CloseBlockerView(db.blockers, id, u);
    var ours := BlockersOf(db.blockers, u);
    if u != t {
      FoundBlocker(db.blockers, id);
      BlockersOfMeans(db.blockers, u);
      forall i | 0 <= i < |ours|
        ensures ours[i].id != id
      {
        assert ours[i] in ours;
      }
      ClosingElsewhere(ours, id);
    }
  }

  lemma ClosedKeepsTables(db: Tables, id: Uuid)
    requires TablesOk(db)
    ensures TablesOk(db.(blockers := CloseBlocker(db.blockers, id)))
  {
    ClosingKeepsKeys(db.blockers, id);
  }

  lemma BlockerClosed(db: Tables, id: Uuid, t: Uuid)
    requires TablesOk(db) && t in db.tasks
    requires FindBlocker(db.blockers, id).Some? && FindBlocker(db.blockers, id).value.taskId == t
    ensures var c := CaseOf(db, t);
      Became(db, db.(blockers := CloseBlocker(db.blockers, id)), t,
             Draft(c.(blockers := CloseBlocker(c.blockers, id)), db.next))
  {
    ClosedKeepsTables(db, id);
    forall u: Uuid
      ensures BlockersOf(CloseBlocker(db.blockers, id), u) ==
        if u == t then CloseBlocker(BlockersOf(db.blockers, t), id) else BlockersOf(db.blockers, u)
    {
      ClosedAsSeen(db, id, t, u);
    }
  }

  lemma TaskUpdated(db: Tables, t: Uuid, row: TaskRow)
    requires TablesOk(db) && t in db.tasks && row.id == t
    ensures Became(db, db.(tasks := db.tasks[t := row]), t, Draft(CaseOf(db, t).(task := row), db.next))
  {
    assert db.tasks[t := row].Keys == db.tasks.Keys;
  }

  lemma WorkpadWritten(db: Tables, t: Uuid, row: Workpad)
    requires TablesOk(db) && t in db.tasks
    ensures Became(db, db.(workpads := db.workpads[t := row]), t, Draft(CaseOf(db, t).(workpad := Some(row)), db.next))
  {
  }

  lemma PublicationWritten(db: Tables, t: Uuid, row: PublicationRow)
    requires TablesOk(db) && t in db.tasks
    ensures Became(db, db.(publications := db.publications[t := row]), t,
                   Draft(CaseOf(db, t).(publication := Some(row)), db.next))
  {
  }
}
