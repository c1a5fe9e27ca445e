/** What the event log and the run history say, read from the last row back. */
module Histories {
  import opened Schema
  import opened Queries
  import opened Reconciliation

  /* ---------- The event log ---------- */

  /** Rows that neither move the head, nor accept it, nor open an attempt. */
  predicate Neutral(e: Occurrence) {
    !e.HeadChanged? && !e.ReviewAccepted? && !e.AdversaryAccepted? && !e.ValidationPassed? && !e.ArchitectStarted?
  }

  /** The log grew, and only by neutral rows. */
  predicate Extends(events: seq<EventRow>, longer: seq<EventRow>) {
    events <= longer && forall i :: |events| <= i < |longer| ==> Neutral(longer[i].what)
  }

  /**
   How far the acceptance chain for this head has come since the head last changed:
   1 reviewed, 2 then passed by the adversary, 3 then mechanically validated.
   */
  function Level(events: seq<EventRow>, head: Sha): nat {
    if events == [] then 0
    else
      var level := Level(Init(events), head);
      match Last(events).what
      case HeadChanged(_) => 0
      case ReviewAccepted(h) => if h == head && level == 0 then 1 else level
      case AdversaryAccepted(h) => if h == head && level == 1 then 2 else level
      case ValidationPassed(h) => if h == head && level == 2 then 3 else level
      case _ => level
  }

  /** The head named by the last head_changed row. */
  function LoggedHead(events: seq<EventRow>): Option<Sha> {
    if events == [] then None
    else match Last(events).what
      case HeadChanged(h) => Some(h)
      case _ => LoggedHead(Init(events))
  }

  /** The last architect_started row. */
  function LastStart(events: seq<EventRow>): Option<EventRow> {
    if events == [] then None
    else if Last(events).what.ArchitectStarted? then Some(Last(events))
    else LastStart(Init(events))
  }

  lemma {:induction false} NeutralRowsAreInvisible(events: seq<EventRow>, longer: seq<EventRow>, head: Sha)
    requires Extends(events, longer)
    ensures Level(longer, head) == Level(events, head)
    ensures LoggedHead(longer) == LoggedHead(events)
    ensures LastStart(longer) == LastStart(events)
    decreases |longer|
  {
    if |longer| == |events| {
      assert longer == events;
    } else {
      assert events <= Init(longer);
      NeutralRowsAreInvisible(events, Init(longer), head);
    }
  }

  lemma ExtendsTransitive(a: seq<EventRow>, b: seq<EventRow>, c: seq<EventRow>)
    requires Extends(a, b) && Extends(b, c)
    ensures Extends(a, c)
  {
    assert a <= c;
    forall i | |a| <= i < |c|
      ensures Neutral(c[i].what)
    {
      if i < |b| { assert c[i] == b[i]; }
    }
  }

  /** The broker's backwards scan for an acceptance agrees with the level reached. */
  lemma {:induction false} LevelIsCurrentAcceptance(events: seq<EventRow>, head: Sha)
    ensures Level(events, head) <= 3
    ensures Level(events, head) >= 1 <==> CurrentAcceptance(events, ReviewAccepted(head))
    ensures Level(events, head) >= 2 ==> CurrentAcceptance(events, AdversaryAccepted(head))
    ensures Level(events, head) >= 3 ==> CurrentAcceptance(events, Occurrence.ValidationPassed(head))
  {
    if events != [] {
      LevelIsCurrentAcceptance(Init(events), head);
      AcceptanceStep(events, ReviewAccepted(head));
      AcceptanceStep(events, AdversaryAccepted(head));
      AcceptanceStep(events, Occurrence.ValidationPassed(head));
    }
  }

  lemma AcceptanceStep(events: seq<EventRow>, what: Occurrence)
    requires events != []
    requires !what.HeadChanged?
    ensures CurrentAcceptance(events, what) <==>
      !Last(events).what.HeadChanged? && (Last(events).what == what || CurrentAcceptance(Init(events), what))
  {
    var n := |events| - 1;
    if CurrentAcceptance(events, what) {
      var i :| 0 <= i < |events| && events[i].what == what &&
        forall j :: i < j < |events| ==> !events[j].what.HeadChanged?;
      if i < n {
        assert Init(events)[i].what == what;
      }
    }
    if !Last(events).what.HeadChanged? && Last(events).what == what {
      assert events[n].what == what;
    }
    if !Last(events).what.HeadChanged? && CurrentAcceptance(Init(events), what) {
      var i :| 0 <= i < n && Init(events)[i].what == what &&
        forall j :: i < j < n ==> !Init(events)[j].what.HeadChanged?;
      assert events[i].what == what;
      forall j | i < j < |events|
        ensures !events[j].what.HeadChanged?
      {
        if j < n { assert events[j] == Init(events)[j]; }
      }
    }
  }

  lemma AcceptanceIsLogged(events: seq<EventRow>, what: Occurrence)
    requires CurrentAcceptance(events, what)
    ensures Logged(events, what)
  {
    var i :| 0 <= i < |events| && events[i].what == what &&
      forall j :: i < j < |events| ==> !events[j].what.HeadChanged?;
  }

  /** From row `from` on: reviewed, then passed by the adversary, with no head change after the review. */
  ghost predicate ReviewedThenPassed(events: seq<EventRow>, head: Sha) {
    exists i, j :: 0 <= i < j < |events| && Rung(events, i, ReviewAccepted(head))
      && Rung(events, j, AdversaryAccepted(head))
  }

  /** Row `i` is this acceptance and the head has not changed since. */
  predicate Rung(events: seq<EventRow>, i: nat, what: Occurrence)
    requires i < |events|
  {
    events[i].what == what && forall j :: i < j < |events| ==> !events[j].what.HeadChanged?
  }

  /** Review, adversary and validation were accepted for this head, in that order, after its last change. */
  ghost predicate OrderedChain(events: seq<EventRow>, head: Sha) {
    exists i, j, k :: 0 <= i < j < k < |events| && Rung(events, i, ReviewAccepted(head)) &&
      Rung(events, j, AdversaryAccepted(head)) && Rung(events, k, Occurrence.ValidationPassed(head))
  }

  lemma RungStep(events: seq<EventRow>, i: nat, what: Occurrence)
    requires i < |events| - 1 && !Last(events).what.HeadChanged?
    ensures Rung(events, i, what) <==> Rung(Init(events), i, what)
  {
    assert forall j :: i < j < |events| - 1 ==> events[j] == Init(events)[j];
  }

  lemma {:induction false} LevelTwo(events: seq<EventRow>, head: Sha)
    ensures Level(events, head) >= 2 <==> ReviewedThenPassed(events, head)
  {
    if events != [] {
      var init, n := Init(events), |events| - 1;
      LevelTwo(init, head);
      LevelIsCurrentAcceptance(init, head);
      if Level(events, head) >= 2 && Level(init, head) >= 2 {
        var i, j :|
          0 <= i < j < |init| && Rung(init, i, ReviewAccepted(head)) && Rung(init, j, AdversaryAccepted(head));
        RungStep(events, i, ReviewAccepted(head));
        RungStep(events, j, AdversaryAccepted(head));
      } else if Level(events, head) >= 2 {
        var i :| 0 <= i < |init| && init[i].what == ReviewAccepted(head) &&
          forall j :: i < j < |init| ==> !init[j].what.HeadChanged?;
        RungStep(events, i, ReviewAccepted(head));
        assert Rung(events, n, AdversaryAccepted(head));
      }
      if ReviewedThenPassed(events, head) {
        var i, j :|
          0 <= i < j < |events| && Rung(events, i, ReviewAccepted(head)) && Rung(events, j, AdversaryAccepted(head));
        RungStep(events, i, ReviewAccepted(head));
        if j < n {
          RungStep(events, j, AdversaryAccepted(head));
        }
        assert Rung(init, i, ReviewAccepted(head));
      }
    }
  }

  /** Level 3 is exactly the ordered acceptance chain for the head since it last changed. */
  lemma {:induction false} LevelThreeIsOrderedChain(events: seq<EventRow>, head: Sha)
    ensures Level(events, head) == 3 <==> OrderedChain(events, head)
  {
    if events != [] {
      var init, n := Init(events), |events| - 1;
      LevelThreeIsOrderedChain(init, head);
      LevelTwo(init, head);
      LevelIsCurrentAcceptance(init, head);
      if Level(events, head) == 3 && Level(init, head) == 3 {
        var i, j, k :| 0 <= i < j < k < |init| && Rung(init, i, ReviewAccepted(head)) &&
          Rung(init, j, AdversaryAccepted(head)) && Rung(init, k, Occurrence.ValidationPassed(head));
        RungStep(events, i, ReviewAccepted(head));
        RungStep(events, j, AdversaryAccepted(head));
        RungStep(events, k, Occurrence.ValidationPassed(head));
      } else if Level(events, head) == 3 {
        var i, j :|
          0 <= i < j < |init| && Rung(init, i, ReviewAccepted(head)) && Rung(init, j, AdversaryAccepted(head));
        RungStep(events, i, ReviewAccepted(head));
        RungStep(events, j, AdversaryAccepted(head));
        assert Rung(events, n, Occurrence.ValidationPassed(head));
      }
      if OrderedChain(events, head) {
        var i, j, k :| 0 <= i < j < k < |events| && Rung(events, i, ReviewAccepted(head)) &&
          Rung(events, j, AdversaryAccepted(head)) && Rung(events, k, Occurrence.ValidationPassed(head));
        RungStep(events, i, ReviewAccepted(head));
        RungStep(events, j, AdversaryAccepted(head));
        if k < n {
          RungStep(events, k, Occurrence.ValidationPassed(head));
        }
      }
    }
  }

  /* ---------- The run history ---------- */

  /** Every run was given the round after the last one of its role. */
  predicate RoundsExact(runs: seq<RunRow>) {
    runs == [] || (RoundsExact(Init(runs)) && Last(runs).round == NextRound(Init(runs), Last(runs).role))
  }

  function CountRole(runs: seq<RunRow>, role: Role): nat {
    if runs == [] then 0 else CountRole(Init(runs), role) + (if Last(runs).role == role then 1 else 0)
  }

  /** The Architect runs with this status. */
  function CountAttempts(runs: seq<RunRow>, status: RunStatus): nat {
    if runs == [] then 0
    else CountAttempts(Init(runs), status) + (if IsAttempt(Last(runs), status) then 1 else 0)
  }

  predicate IsAttempt(run: RunRow, status: RunStatus) {
    run.role == Architect && run.status == status
  }

  predicate RoundTaken(runs: seq<RunRow>, role: Role, round: nat) {
    exists i :: 0 <= i < |runs| && runs[i].role == role && runs[i].round == round
  }

  function CountKind(blockers: seq<BlockerRow>, kind: BlockerKind): nat {
    if blockers == [] then 0 else CountKind(Init(blockers), kind) + (if Last(blockers).kind == kind then 1 else 0)
  }

  predicate IncreasingRuns(runs: seq<RunRow>) {
    forall i, j :: 0 <= i < j < |runs| ==> runs[i].id < runs[j].id
  }

  /** With exact rounds the number of runs of a role is its highest round. */
  lemma {:induction false} RoundsCount(runs: seq<RunRow>, role: Role)
    requires RoundsExact(runs)
    ensures MaxRound(runs, role) == CountRole(runs, role)
  {
    if runs != [] {
      RoundsCount(Init(runs), role);
    }
  }

  /** Rounds of one role are exactly 1..n: each is taken by a run, and by only one. */
  lemma {:induction false} RoundsAreOneToN(runs: seq<RunRow>, role: Role)
    requires RoundsExact(runs)
    ensures forall i :: 0 <= i < |runs| && runs[i].role == role ==> 1 <= runs[i].round <= CountRole(runs, role)
    ensures forall k :: 1 <= k <= CountRole(runs, role) ==> RoundTaken(runs, role, k)
    ensures forall i, j :: 0 <= i < j < |runs| && runs[i].role == role && runs[j].role == role ==>
      runs[i].round < runs[j].round
  {
    if runs != [] {
      var init := Init(runs);
      RoundsAreOneToN(init, role);
      RoundsCount(init, role);
      forall k | 1 <= k <= CountRole(runs, role)
        ensures RoundTaken(runs, role, k)
      {
        if k <= CountRole(init, role) {
          assert RoundTaken(init, role, k);
          var i :| 0 <= i < |init| && init[i].role == role && init[i].round == k;
          assert runs[i] == init[i];
        } else {
          assert runs[|runs| - 1].round == k;
        }
      }
      assert forall i :: 0 <= i < |init| ==> runs[i] == init[i];
    }
  }

  /** Attempts are started, finished or failed, and nothing else. */
  lemma {:induction false} AttemptsPartition(runs: seq<RunRow>)
    ensures CountRole(runs, Architect) ==
      CountAttempts(runs, Started) + CountAttempts(runs, Finished) + CountAttempts(runs, Failed)
  {
    if runs != [] {
      AttemptsPartition(Init(runs));
    }
  }

  lemma {:induction false} NoneStartedCount(runs: seq<RunRow>)
    ensures NoneStarted(runs) <==> CountAttempts(runs, Started) == 0
    ensures NoneStarted(runs) <==> StartedArchitects(runs) == []
    ensures |StartedArchitects(runs)| == CountAttempts(runs, Started)
  {
    if runs != [] {
      NoneStartedCount(Init(runs));
      assert forall i :: 0 <= i < |runs| - 1 ==> runs[i] == Init(runs)[i];
      assert runs[|runs| - 1] == Last(runs);
    }
  }

  /** Finishing rewrites rows in place: identity, owner, role and round stay. */
  lemma {:induction false} FinishKeepsRows(
      runs: seq<RunRow>, id: Uuid, t: Uuid, status: RunStatus, summary: string, head: Sha)
    ensures var after := FinishRuns(runs, id, t, status, summary, head);
      && |after| == |runs|
      && (forall i :: 0 <= i < |runs| ==> after[i] == FinishRow(runs[i], id, t, status, summary, head))
      && (forall role :: MaxRound(after, role) == MaxRound(runs, role))
      && (RoundsExact(runs) ==> RoundsExact(after))
  {
    if runs != [] {
      FinishKeepsRows(Init(runs), id, t, status, summary, head);
      var after := FinishRuns(runs, id, t, status, summary, head);
      InitOfAppend(FinishRuns(Init(runs), id, t, status, summary, head),
        FinishRow(Last(runs), id, t, status, summary, head));
    }
  }

  /** With no row of that identity, finishing changes nothing. */
  lemma {:induction false} FinishMisses(
      runs: seq<RunRow>, id: Uuid, t: Uuid, status: RunStatus, summary: string, head: Sha)
    requires forall i :: 0 <= i < |runs| ==> runs[i].id != id
    ensures FinishRuns(runs, id, t, status, summary, head) == runs
  {
    if runs != [] {
      FinishMisses(Init(runs), id, t, status, summary, head);
      assert Init(runs) + [Last(runs)] == runs;
    }
  }

  lemma FinishCountStep(
      runs: seq<RunRow>, id: Uuid, t: Uuid, status: RunStatus, summary: string, head: Sha, counted: RunStatus)
    requires runs != []
    ensures CountAttempts(FinishRuns(runs, id, t, status, summary, head), counted) ==
      CountAttempts(FinishRuns(Init(runs), id, t, status, summary, head), counted)
      + (if IsAttempt(FinishRow(Last(runs), id, t, status, summary, head), counted) then 1 else 0)
  {
    InitOfAppend(FinishRuns(Init(runs), id, t, status, summary, head),
      FinishRow(Last(runs), id, t, status, summary, head));
  }

  lemma FinishLast(runs: seq<RunRow>, t: Uuid, status: RunStatus, summary: string, head: Sha, counted: RunStatus)
    requires runs != [] && IncreasingRuns(runs) && IsStartedArchitect(Last(runs)) && Last(runs).taskId == t
      && status != Started
    ensures CountAttempts(FinishRuns(runs, Last(runs).id, t, status, summary, head), counted) ==
      CountAttempts(runs, counted) + (if counted == status then 1 else if counted == Started then -1 else 0)
  {
    FinishMisses(Init(runs), Last(runs).id, t, status, summary, head);
    FinishCountStep(runs, Last(runs).id, t, status, summary, head, counted);
  }

  /** Finishing the started attempt moves exactly one run from started to its final status. */
  lemma {:induction false} FinishMovesOneAttempt(
      runs: seq<RunRow>, id: Uuid, t: Uuid, status: RunStatus, summary: string, head: Sha, counted: RunStatus)
    requires IncreasingRuns(runs) && HasStarted(runs, id) && status != Started
    requires forall i :: 0 <= i < |runs| ==> runs[i].taskId == t
    ensures CountAttempts(FinishRuns(runs, id, t, status, summary, head), counted) ==
      CountAttempts(runs, counted) + (if counted == status then 1 else if counted == Started then -1 else 0)
  {
    var i :| 0 <= i < |runs| && runs[i].id == id && IsStartedArchitect(runs[i]);
    if i == |runs| - 1 {
      FinishLast(runs, t, status, summary, head, counted);
    } else {
      var init := Init(runs);
      assert init[i] == runs[i] && Last(runs).id != id;
      FinishMovesOneAttempt(init, id, t, status, summary, head, counted);
      FinishCountStep(runs, id, t, status, summary, head, counted);
    }
  }
}
