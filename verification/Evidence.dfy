/** Which rows the evidence of a result adds, and which parts of the case file it leaves alone. */
module Evidence {
  import opened Schema
  import opened Queries
  import opened Results
  import opened Reconciliation
  import opened Histories

  /** The runs grew by one finished run per packet, each with a fresh identity and the next round of its role. */
  predicate RunsAdded(before: Draft, packets: seq<Packet>, after: Draft) {
    && before.file.runs <= after.file.runs
    && |after.file.runs| == |before.file.runs| + |packets|
    && after.next == before.next + |packets|
    && forall i :: 0 <= i < |packets| ==> RunAdded(before, packets[i], i, after.file.runs[|before.file.runs| + i])
  }

  predicate RunAdded(before: Draft, p: Packet, i: nat, run: RunRow) {
    && run.id == before.next + i && run.taskId == before.file.task.id
    && run.role == p.role && run.status == Finished
    && run.round == NextRound(before.file.runs, p.role)
  }

  /** Role results touch runs, events and the supply, nothing else, and no head or acceptance. */
  lemma {:induction false} RoleResultsTouch(d: Draft, packets: seq<Packet>, head: Sha)
    ensures var after := WithRoleResults(d, packets, head);
      && after.file == d.file.(runs := after.file.runs, events := after.file.events)
      && Extends(d.file.events, after.file.events)
      && after.next == d.next + |packets|
      && |after.file.runs| == |d.file.runs| + |packets|
      && d.file.runs <= after.file.runs
  {
    if packets != [] {
      RoleResultsTouch(d, Init(packets), head);
    }
  }

  lemma HasRoleStep(packets: seq<Packet>, role: Role)
    requires packets != []
    ensures HasRole(packets, role) <==> HasRole(Init(packets), role) || Last(packets).role == role
  {
    if HasRole(Init(packets), role) {
      var i :| 0 <= i < |Init(packets)| && Init(packets)[i].role == role;
      assert packets[i].role == role;
    }
    assert packets[|packets| - 1] == Last(packets);
  }

  /** Each role that reported uses up one round; the other roles' rounds stay. */
  lemma {:induction false} RoundsUsed(d: Draft, packets: seq<Packet>, head: Sha, role: Role)
    requires DistinctRoles(packets)
    ensures MaxRound(WithRoleResults(d, packets, head).file.runs, role) ==
      if HasRole(packets, role) then NextRound(d.file.runs, role) else MaxRound(d.file.runs, role)
  {
    if packets != [] {
      var init := Init(packets);
      RoundsUsed(d, init, head, role);
      HasRoleStep(packets, role);
      var mid, after := WithRoleResults(d, init, head), WithRoleResults(d, packets, head);
      InitOfAppend(mid.file.runs, Last(after.file.runs));
      assert Last(packets).role == role ==> !HasRole(init, role);
    }
  }

  lemma {:induction false} RoleResultsAdded(d: Draft, packets: seq<Packet>, head: Sha)
    requires DistinctRoles(packets)
    ensures RunsAdded(d, packets, WithRoleResults(d, packets, head))
  {
    RoleResultsTouch(d, packets, head);
    if packets != [] {
      var init := Init(packets);
      RoleResultsAdded(d, init, head);
      RoundsUsed(d, init, head, Last(packets).role);
      assert !HasRole(init, Last(packets).role);
      var mid, after := WithRoleResults(d, init, head), WithRoleResults(d, packets, head);
      forall i | 0 <= i < |packets|
        ensures RunAdded(d, packets[i], i, after.file.runs[|d.file.runs| + i])
      {
        if i < |init| {
          assert after.file.runs[|d.file.runs| + i] == mid.file.runs[|d.file.runs| + i];
          assert packets[i] == init[i];
          assert RunAdded(d, init[i], i, mid.file.runs[|d.file.runs| + i]);
        } else {
          assert after.file.runs[|d.file.runs| + i] == Last(after.file.runs);
        }
      }
    }
  }

  lemma {:induction false} RoleResultsKeepRounds(d: Draft, packets: seq<Packet>, head: Sha)
    requires RoundsExact(d.file.runs)
    ensures RoundsExact(WithRoleResults(d, packets, head).file.runs)
  {
    if packets != [] {
      RoleResultsKeepRounds(d, Init(packets), head);
      var mid, after := WithRoleResults(d, Init(packets), head), WithRoleResults(d, packets, head);
      InitOfAppend(mid.file.runs, Last(after.file.runs));
    }
  }

  lemma {:induction false} RoleResultsKeepAttempts(d: Draft, packets: seq<Packet>, head: Sha, status: RunStatus)
    requires forall i :: 0 <= i < |packets| ==> packets[i].role != Architect
    ensures CountAttempts(WithRoleResults(d, packets, head).file.runs, status) == CountAttempts(d.file.runs, status)
  {
    if packets != [] {
      RoleResultsKeepAttempts(d, Init(packets), head, status);
      var mid, after := WithRoleResults(d, Init(packets), head), WithRoleResults(d, packets, head);
      InitOfAppend(mid.file.runs, Last(after.file.runs));
    }
  }

  predicate IncreasingFindings(findings: seq<FindingRow>) {
    forall i, j :: 0 <= i < j < |findings| ==> findings[i].id < findings[j].id
  }

  predicate IncreasingBlockers(blockers: seq<BlockerRow>) {
    forall i, j :: 0 <= i < j < |blockers| ==> blockers[i].id < blockers[j].id
  }

  predicate RunsOwned(runs: seq<RunRow>, t: Uuid, next: Uuid) {
    IncreasingRuns(runs) && forall i :: 0 <= i < |runs| ==> runs[i].id < next && runs[i].taskId == t
  }

  predicate FindingsOwned(findings: seq<FindingRow>, t: Uuid, next: Uuid) {
    IncreasingFindings(findings) && forall i :: 0 <= i < |findings| ==> findings[i].id < next && findings[i].taskId == t
  }

  predicate BlockersOwned(blockers: seq<BlockerRow>, t: Uuid, next: Uuid) {
    IncreasingBlockers(blockers) && forall i :: 0 <= i < |blockers| ==> blockers[i].id < next && blockers[i].taskId == t
  }

  /** Every row belongs to the task, and identities increase in row order below the supply. */
  predicate RowsOwned(d: Draft) {
    && RunsOwned(d.file.runs, d.file.task.id, d.next)
    && FindingsOwned(d.file.findings, d.file.task.id, d.next)
    && BlockersOwned(d.file.blockers, d.file.task.id, d.next)
  }

  lemma {:induction false} RoleResultsOwned(d: Draft, packets: seq<Packet>, head: Sha)
    requires RowsOwned(d)
    ensures RowsOwned(WithRoleResults(d, packets, head))
  {
    RoleResultsTouch(d, packets, head);
    if packets != [] {
      RoleResultsOwned(d, Init(packets), head);
      var mid, after := WithRoleResults(d, Init(packets), head), WithRoleResults(d, packets, head);
      assert after.file.runs == mid.file.runs + [Last(after.file.runs)];
    }
  }

  /** One more row at the end of the findings, the status and round its ruling calls for. */
  lemma FindingStep(d: Draft, f: Finding, runId: Uuid, round: Option<nat>)
    ensures var after := WithFinding(d, f, runId, round);
      && after.file ==
          d.file.(findings := after.file.findings, blockers := after.file.blockers, events := after.file.events)
      && (var row := FindingRow(d.next, d.file.task.id, runId, f.body, StatusFor(f.ruling),
                                if StatusFor(f.ruling) == Licensed then round else None);
          after.file.findings == d.file.findings + [row])
      && Extends(d.file.events, after.file.events)
      && d.next < after.next
      && (if Blocking(f)
          then |after.file.blockers| == |d.file.blockers| + 1 && d.file.blockers <= after.file.blockers
               && Last(after.file.blockers).open && Last(after.file.blockers).id == d.next + 1
               && Last(after.file.blockers).taskId == d.file.task.id && after.next == d.next + 2
          else after.file.blockers == d.file.blockers)
  {
  }

  /** Findings touch findings, blockers, events and the supply, and no head or acceptance. */
  lemma {:induction false} FindingsTouch(
      d: Draft, fs: seq<Finding>, runs: map<Role, Uuid>, architect: Uuid, round: Option<nat>)
    ensures var after := WithFindings(d, fs, runs, architect, round);
      && after.file ==
          d.file.(findings := after.file.findings, blockers := after.file.blockers, events := after.file.events)
      && Extends(d.file.events, after.file.events)
      && d.next <= after.next
  {
    if fs != [] {
      FindingsTouch(d, Init(fs), runs, architect, round);
      var mid := WithFindings(d, Init(fs), runs, architect, round);
      FindingStep(mid, Last(fs), RunOf(runs, Last(fs).role, architect), round);
      ExtendsTransitive(d.file.events, mid.file.events, WithFindings(d, fs, runs, architect, round).file.events);
    }
  }

  /** The blockers grew, by open rows only, exactly when some finding is blocking. */
  predicate BlockersAdded(before: seq<BlockerRow>, blocking: bool, after: seq<BlockerRow>) {
    && before <= after
    && (|before| < |after| <==> blocking)
    && forall i :: |before| <= i < |after| ==> after[i].open
  }

  lemma NoneBlockingStep(fs: seq<Finding>)
    requires fs != []
    ensures NoneBlocking(fs) <==> NoneBlocking(Init(fs)) && !Blocking(Last(fs))
    ensures NoLicence(fs) <==> NoLicence(Init(fs)) && Last(fs).ruling != LicensedCorrection
  {
    assert forall k :: 0 <= k < |fs| - 1 ==> Init(fs)[k] == fs[k];
    assert fs[|fs| - 1] == Last(fs);
  }

  lemma {:induction false} FindingsRaiseBlockers(
      d: Draft, fs: seq<Finding>, runs: map<Role, Uuid>, architect: Uuid, round: Option<nat>)
    ensures BlockersAdded(d.file.blockers, !NoneBlocking(fs), WithFindings(d, fs, runs, architect, round).file.blockers)
  {
    if fs != [] {
      FindingsRaiseBlockers(d, Init(fs), runs, architect, round);
      var mid := WithFindings(d, Init(fs), runs, architect, round);
      FindingStep(mid, Last(fs), RunOf(runs, Last(fs).role, architect), round);
      NoneBlockingStep(fs);
    }
  }

  /** A new finding is licensed exactly when its ruling is, and then at the given round. */
  lemma {:induction false} FindingsLicense(
      d: Draft, fs: seq<Finding>, runs: map<Role, Uuid>, architect: Uuid, round: Option<nat>)
    ensures var after := WithFindings(d, fs, runs, architect, round).file.findings;
      && (HasLicensed(after) <==> HasLicensed(d.file.findings) || !NoLicence(fs))
      && LicensedIds(d.file.findings) <= LicensedIds(after)
      && (NoLicence(fs) ==> LicensedIds(after) == LicensedIds(d.file.findings))
      && (forall n: nat :: round == Some(n) ==> (LicensedAt(after, n) <==> LicensedAt(d.file.findings, n)))
      && (NoLicence(fs) ==> forall n: nat :: LicensedAt(after, n) <==> LicensedAt(d.file.findings, n))
  {
    if fs != [] {
      FindingsLicense(d, Init(fs), runs, architect, round);
      var mid := WithFindings(d, Init(fs), runs, architect, round);
      FindingStep(mid, Last(fs), RunOf(runs, Last(fs).role, architect), round);
      NoneBlockingStep(fs);
      LicensedStep(WithFindings(d, fs, runs, architect, round).file.findings);
    }
  }

  /** A licensed finding always carries its round, and only a licensed one does. */
  predicate RoundsMatchStatus(findings: seq<FindingRow>) {
    forall i :: 0 <= i < |findings| ==> (findings[i].status == Licensed <==> findings[i].round.Some?)
  }

  lemma {:induction false} FindingsCarryRounds(
      d: Draft, fs: seq<Finding>, runs: map<Role, Uuid>, architect: Uuid, round: Option<nat>)
    requires RoundsMatchStatus(d.file.findings) && (round.Some? || NoLicence(fs))
    ensures RoundsMatchStatus(WithFindings(d, fs, runs, architect, round).file.findings)
  {
    if fs != [] {
      NoneBlockingStep(fs);
      FindingsCarryRounds(d, Init(fs), runs, architect, round);
      var mid := WithFindings(d, Init(fs), runs, architect, round);
      FindingStep(mid, Last(fs), RunOf(runs, Last(fs).role, architect), round);
    }
  }

  lemma LicensedStep(findings: seq<FindingRow>)
    requires findings != []
    ensures HasLicensed(findings) <==> HasLicensed(Init(findings)) || Last(findings).status == Licensed
    ensures forall n: nat :: LicensedAt(findings, n) <==>
      LicensedAt(Init(findings), n) && (Last(findings).status == Licensed ==> Last(findings).round == Some(n))
  {
    assert forall k :: 0 <= k < |findings| - 1 ==> Init(findings)[k] == findings[k];
    assert findings[|findings| - 1] == Last(findings);
  }

  lemma {:induction false} FindingsOwnedAfter(
      d: Draft, fs: seq<Finding>, runs: map<Role, Uuid>, architect: Uuid, round: Option<nat>)
    requires RowsOwned(d)
    ensures RowsOwned(WithFindings(d, fs, runs, architect, round))
  {
    if fs != [] {
      FindingsOwnedAfter(d, Init(fs), runs, architect, round);
      var mid, after := WithFindings(d, Init(fs), runs, architect, round), WithFindings(d, fs, runs, architect, round);
      FindingStep(mid, Last(fs), RunOf(runs, Last(fs).role, architect), round);
      assert Blocking(Last(fs)) ==> after.file.blockers == mid.file.blockers + [Last(after.file.blockers)];
    }
  }

  /* ---------- Settling licences ---------- */

  lemma {:induction false} LicensedIdsMean(findings: seq<FindingRow>)
    ensures HasLicensed(findings) <==> LicensedIds(findings) != []
    ensures forall id :: id in LicensedIds(findings) <==>
      exists i :: 0 <= i < |findings| && findings[i].status == Licensed && findings[i].id == id
  {
    if findings != [] {
      LicensedIdsMean(Init(findings));
      LicensedStep(findings);
      assert forall k :: 0 <= k < |findings| - 1 ==> Init(findings)[k] == findings[k];
      assert findings[|findings| - 1] == Last(findings);
    }
  }

  lemma {:induction false} ResolvingSpendsEveryLicence(findings: seq<FindingRow>)
    ensures var after := ResolveLicensed(findings);
      && |after| == |findings| && !HasLicensed(after)
      && forall i :: 0 <= i < |findings| ==>
           after[i] == if findings[i].status == Licensed then findings[i].(status := Resolved, round := None)
             else findings[i]
  {
    if findings != [] {
      ResolvingSpendsEveryLicence(Init(findings));
    }
  }

  lemma {:induction false} MovingMovesEach(findings: seq<FindingRow>, round: nat)
    ensures var after := MoveLicensed(findings, round);
      && |after| == |findings|
      && forall i :: 0 <= i < |findings| ==>
           after[i] == if findings[i].status == Licensed then findings[i].(round := Some(round)) else findings[i]
  {
    if findings != [] {
      MovingMovesEach(Init(findings), round);
    }
  }

  /** Which findings are licensed depends on identities and statuses alone. */
  lemma {:induction false} SameLicences(findings: seq<FindingRow>, after: seq<FindingRow>)
    requires |after| == |findings|
    requires forall i :: 0 <= i < |findings| ==> after[i].id == findings[i].id && after[i].status == findings[i].status
    ensures LicensedIds(after) == LicensedIds(findings)
  {
    if findings != [] {
      SameLicences(Init(findings), Init(after));
    }
  }

  lemma MovingKeepsEveryLicence(findings: seq<FindingRow>, round: nat)
    ensures var after := MoveLicensed(findings, round);
      && |after| == |findings| && LicensedAt(after, round)
      && (HasLicensed(after) <==> HasLicensed(findings))
      && LicensedIds(after) == LicensedIds(findings)
      && forall i :: 0 <= i < |findings| ==>
           after[i] == if findings[i].status == Licensed then findings[i].(round := Some(round)) else findings[i]
  {
    MovingMovesEach(findings, round);
    SameLicences(findings, MoveLicensed(findings, round));
  }
}
