/** Settling licences row by row: resolving the requested findings, or moving them to the next round. */
module Licences {
  import opened Schema
  import opened Queries
  import opened Results
  import opened Reconciliation
  import opened Histories
  import opened Evidence
  import opened Relations
  import opened ControlPlane

  function WithRows(d: Draft, findings: seq<FindingRow>): Draft {
    d.(file := d.file.(findings := findings))
  }

  /** The licensed rows, in row order. */
  function LicensedRows(findings: seq<FindingRow>): seq<FindingRow> {
    if findings == [] then []
    else if Last(findings).status == Licensed then LicensedRows(Init(findings)) + [Last(findings)]
    else LicensedRows(Init(findings))
  }

  lemma {:induction false} LicensedRowsMean(findings: seq<FindingRow>)
    ensures forall row :: row in LicensedRows(findings) <==> row in findings && row.status == Licensed
    ensures LicensedRows(findings) == [] <==> !HasLicensed(findings)
  {
    if findings != [] {
      LicensedRowsMean(Init(findings));
      LicensedStep(findings);
      assert findings == Init(findings) + [Last(findings)];
    }
  }

  lemma {:induction false} LicensedRowsIncrease(findings: seq<FindingRow>)
    requires IncreasingFindings(findings)
    ensures IncreasingFindings(LicensedRows(findings))
  {
    if findings != [] {
      var init := Init(findings);
      LicensedRowsIncrease(init);
      LicensedRowsMean(init);
      forall i | 0 <= i < |LicensedRows(init)|
        ensures LicensedRows(init)[i].id < Last(findings).id
      {
        assert LicensedRows(init)[i] in init;
      }
    }
  }

  /** The row after its identity was among those resolved. */
  function ResolvedRow(f: FindingRow, ids: seq<Uuid>): FindingRow {
    if f.id in ids then f.(status := Resolved, round := None) else f
  }

  /** Row by row, exactly the findings with these identities are resolved. */
  predicate ResolvedExactly(before: seq<FindingRow>, ids: seq<Uuid>, after: seq<FindingRow>) {
    |after| == |before| && forall i :: 0 <= i < |before| ==> after[i] == ResolvedRow(before[i], ids)
  }

  lemma ResolveOneMore(before: seq<FindingRow>, ids: seq<Uuid>, mid: seq<FindingRow>, id: Uuid)
    requires ResolvedExactly(before, ids, mid)
    ensures ResolvedExactly(before, ids + [id], ResolveFinding(mid, id))
  {
    ResolvingKeepsKeys(mid, id);
  }

  /** Resolving all and only the licensed findings by identity is resolving every licence. */
  lemma ResolvedAllLicences(before: seq<FindingRow>, ids: seq<Uuid>, after: seq<FindingRow>)
    requires IncreasingFindings(before) && ResolvedExactly(before, ids, after)
    requires forall id :: id in ids <==> id in LicensedIds(before)
    ensures after == ResolveLicensed(before)
  {
    ResolvingSpendsEveryLicence(before);
    LicensedIdsMean(before);
    forall i | 0 <= i < |before|
      ensures after[i] == ResolveLicensed(before)[i]
    {
      assert before[i].status == Licensed ==> before[i].id in LicensedIds(before);
    }
  }

  /** A row of the task is licensed now exactly when it was and has not been resolved since. */
  lemma StillLicensed(db: Tables, t: Uuid, before: seq<FindingRow>, ids: seq<Uuid>, id: Uuid)
    requires TablesOk(db) && t in db.tasks
    requires IncreasingFindings(before) && ResolvedExactly(before, ids, CaseOf(db, t).findings)
    requires id in LicensedIds(before)
    ensures var row := FindFinding(db.findings, id);
      && row.Some? && row.value.taskId == t
      && exists i :: 0 <= i < |before| && before[i].id == id && before[i].status == Licensed
           && row.value == ResolvedRow(before[i], ids)
  {
    LicensedIdsMean(before);
    var i :| 0 <= i < |before| && before[i].status == Licensed && before[i].id == id;
    var ours := CaseOf(db, t).findings;
    FindingsOfMeans(db.findings, t);
    assert ours[i] in ours;
    FoundFinding(db.findings, id);
    var k :| 0 <= k < |db.findings| && db.findings[k] == ours[i];
    assert FindFinding(db.findings, id) == Some(db.findings[k]);
  }

  /** The licensed finding with this identity is pinned to this round. */
  predicate PinnedAt(findings: seq<FindingRow>, id: Uuid, round: nat) {
    exists i :: 0 <= i < |findings| && findings[i].id == id && findings[i].status == Licensed
      && findings[i].round == Some(round)
  }

  /** The identities are distinct and each names a licence pinned to this round. */
  predicate EachOnceAt(findings: seq<FindingRow>, ids: seq<Uuid>, round: nat) {
    && (forall i, j :: 0 <= i < j < |ids| ==> ids[i] != ids[j])
    && (forall k :: 0 <= k < |ids| ==> PinnedAt(findings, ids[k], round))
  }

  lemma OneMoreAt(findings: seq<FindingRow>, ids: seq<Uuid>, k: nat, round: nat)
    requires k < |ids| && EachOnceAt(findings, ids[..k], round)
    ensures EachOnceAt(findings, ids[..k + 1], round) <==> ids[k] !in ids[..k] && PinnedAt(findings, ids[k], round)
    ensures !EachOnceAt(findings, ids[..k + 1], round) ==> !EachOnceAt(findings, ids, round)
  {
    TakeOneMore(ids, k);
    var now := ids[..k + 1];
    assert forall i :: 0 <= i <= k ==> now[i] == ids[i];
    if EachOnceAt(findings, now, round) {
      forall i | 0 <= i < k
        ensures ids[..k][i] != ids[k]
      {
        assert now[i] != now[k];
      }
    }
  }

  method ResolveOne(
      db: ControlPlaneDatabase, t: Uuid, ghost before: seq<FindingRow>, ghost done: seq<Uuid>, id: Uuid, round: nat)
    returns (ok: bool)
    requires db.Holds(t) && IncreasingFindings(before)
    requires ResolvedExactly(before, done, db.View(t).file.findings) && id in LicensedIds(before)
    modifies db
    ensures ok <==> id !in done && PinnedAt(before, id, round)
    ensures ok ==> var d := old(db.View(t));
      && Became(old(db.Rows()), db.Rows(), t, d.(file := d.file.(findings := ResolveFinding(d.file.findings, id))))
      && ResolvedExactly(before, done + [id], db.View(t).file.findings)
  {
    StillLicensed(db.Rows(), t, before, done, id);
    var row := FindFinding(db.findings, id);
    ghost var i :| 0 <= i < |before| && before[i].id == id && before[i].status == Licensed
      && row.value == ResolvedRow(before[i], done);
    assert PinnedAt(before, id, round) <==> before[i].round == Some(round);
    if row.None? || row.value.taskId != t || row.value.status != Licensed || row.value.round != Some(round) {
      return false;
    }
    ResolveOneMore(before, done, db.View(t).file.findings, id);
    db.ResolveFindingRow(id, t);
    ok := true;
  }

  lemma SameIdentities(asked: seq<Uuid>, held: seq<Uuid>)
    ensures (set id | id in asked) == (set id | id in held) <==> forall id :: id in asked <==> id in held
  {
    var a, h := set id | id in asked, set id | id in held;
    if a == h {
      forall id: Uuid
        ensures id in asked <==> id in held
      {
        assert id in a <==> id in h;
      }
    }
  }

  /** All licences are pinned to a round exactly when each of them is. */
  lemma PinnedEverywhere(findings: seq<FindingRow>, ids: seq<Uuid>, round: nat)
    requires IncreasingFindings(findings) && forall id :: id in ids <==> id in LicensedIds(findings)
    ensures NamesExactly(ids, findings) && LicensedAt(findings, round) <==> EachOnceAt(findings, ids, round)
  {
    LicensedIdsMean(findings);
    if LicensedAt(findings, round) {
      forall k | 0 <= k < |ids|
        ensures PinnedAt(findings, ids[k], round)
      {
        assert ids[k] in ids;
        var i :| 0 <= i < |findings| && findings[i].status == Licensed && findings[i].id == ids[k];
      }
    }
    if forall k :: 0 <= k < |ids| ==> PinnedAt(findings, ids[k], round) {
      forall i | 0 <= i < |findings| && findings[i].status == Licensed
        ensures findings[i].round == Some(round)
      {
        assert findings[i].id in ids;
        var k :| 0 <= k < |ids| && ids[k] == findings[i].id;
        assert PinnedAt(findings, ids[k], round);
      }
    }
  }

  /** The first resolutions are written, each found licensed at this round and named only once. */
  predicate ResolvedSoFar(s0: Tables, d0: Draft, now: Tables, t: Uuid, ids: seq<Uuid>, round: nat) {
    && t in now.tasks && Became(s0, now, t, WithRows(d0, CaseOf(now, t).findings))
    && ResolvedExactly(d0.file.findings, ids, CaseOf(now, t).findings)
    && EachOnceAt(d0.file.findings, ids, round)
  }

  lemma ResolvedMore(s0: Tables, d0: Draft, s1: Tables, s2: Tables, t: Uuid, requested: seq<Uuid>, k: nat, round: nat)
    requires k < |requested| && ResolvedSoFar(s0, d0, s1, t, requested[..k], round)
    requires t in s2.tasks && Became(s1, s2, t, WithRows(DraftOf(s1, t), CaseOf(s2, t).findings))
    requires ResolvedExactly(d0.file.findings, requested[..k] + [requested[k]], CaseOf(s2, t).findings)
    requires EachOnceAt(d0.file.findings, requested[..k + 1], round)
    ensures ResolvedSoFar(s0, d0, s2, t, requested[..k + 1], round)
  {
    TakeOneMore(requested, k);
    BecameTransitive(s0, s1, s2, t, DraftOf(s1, t), WithRows(d0, CaseOf(s2, t).findings));
  }

  /** A completed correction: the requested findings must be the licensed ones, each at this round, each once. */
  method ResolveRequested(db: ControlPlaneDatabase, t: Uuid, requested: seq<Uuid>, round: nat) returns (ok: bool)
    requires db.Holds(t)
    modifies db
    ensures var c := old(db.View(t)).file;
      ok <==> NamesExactly(requested, c.findings) && LicensedAt(c.findings, round)
    ensures var c := old(db.View(t)).file;
      ok ==> Became(old(db.Rows()), db.Rows(), t, Draft(c.(findings := ResolveLicensed(c.findings)), old(db.next)))
  {
    ViewIsOwned(db.Rows(), t);
    var licensed := LicensedIds(db.View(t).file.findings);
    SameIdentities(requested, licensed);
    if (set id | id in requested) != (set id | id in licensed) {
      return false;
    }
    PinnedEverywhere(db.View(t).file.findings, requested, round);
    ok := ResolveEach(db, t, requested, round);
    if ok {
      ResolvedAllLicences(old(db.View(t)).file.findings, requested, db.View(t).file.findings);
    }
  }

  method ResolveEach(db: ControlPlaneDatabase, t: Uuid, requested: seq<Uuid>, round: nat) returns (ok: bool)
    requires db.Holds(t) && IncreasingFindings(db.View(t).file.findings)
    requires forall id :: id in requested ==> id in LicensedIds(db.View(t).file.findings)
    modifies db
    ensures ok <==> EachOnceAt(old(db.View(t)).file.findings, requested, round)
    ensures ok ==> ResolvedSoFar(old(db.Rows()), old(db.View(t)), db.Rows(), t, requested, round)
  {
    ghost var s0, d0 := db.Rows(), db.View(t);
    BecameSelf(s0, t);
    for k := 0 to |requested|
      invariant db.Holds(t)
      invariant ResolvedSoFar(s0, d0, db.Rows(), t, requested[..k], round)
    {
      ghost var s1 := db.Rows();
      assert requested[k] in requested;
      var fine := ResolveOne(db, t, d0.file.findings, requested[..k], requested[k], round);
      OneMoreAt(d0.file.findings, requested, k, round);
      if !fine {
        return false;
      }
      ResolvedMore(s0, d0, s1, db.Rows(), t, requested, k, round);
    }
    TakeAll(requested);
    ok := true;
  }

  /** The row after its identity was among those moved. */
  function MovedRow(f: FindingRow, moved: seq<FindingRow>, to: nat): FindingRow {
    if f in moved then f.(round := Some(to)) else f
  }

  /** Row by row, exactly these licensed findings moved to the new round. */
  predicate MovedExactly(before: seq<FindingRow>, moved: seq<FindingRow>, to: nat, after: seq<FindingRow>) {
    |after| == |before| && forall i :: 0 <= i < |before| ==> after[i] == MovedRow(before[i], moved, to)
  }

  lemma MoveOneMore(
      before: seq<FindingRow>, moved: seq<FindingRow>, mid: seq<FindingRow>, row: FindingRow, t: Uuid, from: nat,
      to: nat)
    requires IncreasingFindings(before) && MovedExactly(before, moved, to, mid)
    requires row in before && row !in moved && row.status == Licensed && row.round == Some(from) && row.taskId == t
    ensures MovedExactly(before, moved + [row], to, MoveFinding(mid, row.id, t, from, to))
  {
    MovingKeepsKeys(mid, row.id, t, from, to);
    var k :| 0 <= k < |before| && before[k] == row;
    forall i | 0 <= i < |before|
      ensures MoveFinding(mid, row.id, t, from, to)[i] == MovedRow(before[i], moved + [row], to)
    {
      if i != k {
        assert before[i].id != row.id;
      }
    }
  }

  lemma MovedAllLicences(before: seq<FindingRow>, to: nat, after: seq<FindingRow>)
    requires MovedExactly(before, LicensedRows(before), to, after)
    ensures after == MoveLicensed(before, to)
  {
    MovingKeepsEveryLicence(before, to);
    LicensedRowsMean(before);
    forall i | 0 <= i < |before|
      ensures after[i] == MoveLicensed(before, to)[i]
    {
      assert before[i] in before;
    }
  }

  method MoveOne(
      db: ControlPlaneDatabase, t: Uuid, ghost before: seq<FindingRow>, ghost moved: seq<FindingRow>, row: FindingRow,
      from: nat, to: nat)
    returns (ok: bool)
    requires db.Holds(t) && IncreasingFindings(before)
    requires MovedExactly(before, moved, to, db.View(t).file.findings)
    requires row in before && row !in moved && row.status == Licensed && row.round == Some(from)
    modifies db
    ensures ok
    ensures var d := old(db.View(t));
      && Became(old(db.Rows()), db.Rows(), t,
          d.(file := d.file.(findings := MoveFinding(d.file.findings, row.id, t, from, to))))
      && MovedExactly(before, moved + [row], to, db.View(t).file.findings)
  {
    StillMovable(db.Rows(), t, before, moved, to, row);
    var found := FindFinding(db.findings, row.id);
    MoveOneMore(before, moved, db.View(t).file.findings, row, t, from, to);
    db.MoveFindingRow(row.id, t, from, to);
    ok := found.Some? && Movable(found.value, row.id, t, from);
  }

  /** The first of the licences have moved to the new round. */
  predicate MovedSoFar(s0: Tables, d0: Draft, now: Tables, t: Uuid, rows: seq<FindingRow>, to: nat) {
    && t in now.tasks && Became(s0, now, t, WithRows(d0, CaseOf(now, t).findings))
    && MovedExactly(d0.file.findings, rows, to, CaseOf(now, t).findings)
  }

  lemma MovedMore(s0: Tables, d0: Draft, s1: Tables, s2: Tables, t: Uuid, rows: seq<FindingRow>, k: nat, to: nat)
    requires k < |rows| && MovedSoFar(s0, d0, s1, t, rows[..k], to)
    requires t in s2.tasks && Became(s1, s2, t, WithRows(DraftOf(s1, t), CaseOf(s2, t).findings))
    requires MovedExactly(d0.file.findings, rows[..k] + [rows[k]], to, CaseOf(s2, t).findings)
    ensures MovedSoFar(s0, d0, s2, t, rows[..k + 1], to)
  {
    TakeOneMore(rows, k);
    BecameTransitive(s0, s1, s2, t, DraftOf(s1, t), WithRows(d0, CaseOf(s2, t).findings));
  }

  /** A blocked IMPLEMENTER run used up the round its licences were pinned to; they move to the next one. */
  method RolloverBlockedCorrection(db: ControlPlaneDatabase, t: Uuid, rows: seq<FindingRow>, implementerRun: Uuid)
    returns (ok: bool)
    requires db.Holds(t) && rows == LicensedRows(db.View(t).file.findings)
    requires FindRun(db.runs, implementerRun).Some?
    modifies db
    ensures var c := old(db.View(t)).file;
      ok <==> HasLicensed(c.findings) && LicensedAt(c.findings, FindRun(old(db.runs), implementerRun).value.round)
    ensures var c := old(db.View(t)).file;
      ok ==> Became(old(db.Rows()), db.Rows(), t,
                    Draft(c.(findings := MoveLicensed(c.findings, NextRound(c.runs, Implementer))), old(db.next)))
  {
    ViewIsOwned(db.Rows(), t);
    var from := FindRun(db.runs, implementerRun).value.round;
    LicensedRowsMean(db.View(t).file.findings);
    LicensedRowsIncrease(db.View(t).file.findings);
    LicensedRowsAt(db.View(t).file.findings, from);
    if rows == [] || exists i :: 0 <= i < |rows| && rows[i].round != Some(from) {
      return false;
    }
    var to := NextRound(db.View(t).file.runs, Implementer);
    ok := MoveEach(db, t, rows, from, to);
    MovedAllLicences(old(db.View(t)).file.findings, to, db.View(t).file.findings);
  }

  method MoveEach(db: ControlPlaneDatabase, t: Uuid, rows: seq<FindingRow>, from: nat, to: nat) returns (ok: bool)
    requires db.Holds(t) && IncreasingFindings(db.View(t).file.findings) && IncreasingFindings(rows)
    requires forall row :: row in rows ==>
      row in db.View(t).file.findings && row.status == Licensed && row.round == Some(from)
    modifies db
    ensures ok && MovedSoFar(old(db.Rows()), old(db.View(t)), db.Rows(), t, rows, to)
  {
    ghost var s0, d0 := db.Rows(), db.View(t);
    BecameSelf(s0, t);
    ok := true;
    for k := 0 to |rows|
      invariant db.Holds(t) && ok
      invariant MovedSoFar(s0, d0, db.Rows(), t, rows[..k], to)
    {
      ghost var s1 := db.Rows();
      assert rows[k] in rows && rows[k] !in rows[..k];
      ok := MoveOne(db, t, d0.file.findings, rows[..k], rows[k], from, to);
      if !ok {
        return;
      }
      MovedMore(s0, d0, s1, db.Rows(), t, rows, k, to);
    }
    TakeAll(rows);
  }

  lemma LicensedRowsAt(findings: seq<FindingRow>, round: nat)
    ensures LicensedAt(findings, round) <==>
      forall i :: 0 <= i < |LicensedRows(findings)| ==> LicensedRows(findings)[i].round == Some(round)
  {
    LicensedRowsMean(findings);
    var rows := LicensedRows(findings);
    forall i | 0 <= i < |rows|
      ensures rows[i] in findings && rows[i].status == Licensed
    {
      assert rows[i] in rows;
    }
    forall i | 0 <= i < |findings| && findings[i].status == Licensed
      ensures findings[i] in rows
    {
      assert findings[i] in findings;
    }
  }

  /** The update that moves a licence always finds its row: the row count the broker checks is 1. */
  lemma StillMovable(db: Tables, t: Uuid, before: seq<FindingRow>, moved: seq<FindingRow>, to: nat, row: FindingRow)
    requires TablesOk(db) && t in db.tasks
    requires MovedExactly(before, moved, to, CaseOf(db, t).findings)
    requires row in before && row !in moved
    ensures FindFinding(db.findings, row.id) == Some(row) && row.taskId == t
  {
    var i :| 0 <= i < |before| && before[i] == row;
    var ours := CaseOf(db, t).findings;
    FindingsOfMeans(db.findings, t);
    assert ours[i] in ours;
    FoundFinding(db.findings, row.id);
    var k :| 0 <= k < |db.findings| && db.findings[k] == ours[i];
    assert FindFinding(db.findings, row.id) == Some(db.findings[k]);
  }
}
