/** In every run acceptances are given in turn, so that the level of a head is what the broker's scan finds. */
module Acceptances {
  import opened Schema
  import opened Queries
  import opened Results
  import opened Reconciliation
  import opened Managed
  import opened Histories
  import opened Evidence
  import opened Invariants
  import opened Preservation
  import opened Runs

  /** The acceptance comes after the ones it builds on. */
  predicate InTurn(events: seq<EventRow>, what: Occurrence) {
    match what
    case AdversaryAccepted(head) => Level(events, head) >= 1
    case ValidationPassed(head) => Level(events, head) >= 2
    case _ => true
  }

  /** Every acceptance in the log was given in its turn. */
  predicate AllInTurn(events: seq<EventRow>) {
    events == [] || (AllInTurn(Init(events)) && InTurn(Init(events), Last(events).what))
  }

  lemma OneMoreInTurn(events: seq<EventRow>, row: EventRow)
    requires AllInTurn(events) && InTurn(events, row.what)
    ensures AllInTurn(events + [row])
  {
    InitOfAppend(events, row);
  }

  lemma {:induction false} NeutralInTurn(events: seq<EventRow>, longer: seq<EventRow>)
    requires AllInTurn(events) && Extends(events, longer)
    ensures AllInTurn(longer)
    decreases |longer|
  {
    if |longer| == |events| {
      assert longer == events;
    } else {
      assert Neutral(longer[|longer| - 1].what);
      NeutralInTurn(events, Init(longer));
    }
  }

  /** When acceptances were given in turn, the backwards scan finds each exactly when the level is reached. */
  lemma {:induction false} ScanFindsLevel(events: seq<EventRow>, head: Sha)
    requires AllInTurn(events)
    ensures Level(events, head) >= 1 <==> CurrentAcceptance(events, ReviewAccepted(head))
    ensures Level(events, head) >= 2 <==> CurrentAcceptance(events, AdversaryAccepted(head))
    ensures Level(events, head) >= 3 <==> CurrentAcceptance(events, Occurrence.ValidationPassed(head))
  {
    if events != [] {
      ScanFindsLevel(Init(events), head);
      LevelIsCurrentAcceptance(events, head);
      AcceptanceStep(events, AdversaryAccepted(head));
      AcceptanceStep(events, Occurrence.ValidationPassed(head));
    }
  }

  /** The acceptance an accepted outcome adds is in its turn. */
  lemma AdvanceInTurn(c: CaseFile, r: LifecycleResult, head: Sha)
    requires WellFormed(r) && Admissible(c, r, head) && AllInTurn(c.events)
    ensures OutcomeInTurn(c.events, r.outcome, head)
    ensures r.outcome in {AdversaryPass, ValidationPass} ==> head == SelectedHead(c.task)
  {
    ScanFindsLevel(c.events, head);
  }

  /** The outcome's acceptance, if it gives one, is in turn. */
  predicate OutcomeInTurn(events: seq<EventRow>, outcome: Outcome, head: Sha) {
    (outcome == AdversaryPass ==> Level(events, head) >= 1) && (outcome == ValidationPass ==> Level(events, head) >= 2)
  }

  lemma MovedInTurn(c: CaseFile, r: LifecycleResult, head: Sha)
    requires AllInTurn(c.events)
    ensures AllInTurn(Moved(c, r, head).events)
  {
    if head != SelectedHead(c.task) {
      OneMoreInTurn(c.events, Last(Moved(c, r, head).events));
    }
  }

  lemma AdvancedInTurn(c: CaseFile, r: LifecycleResult, head: Sha, runs: map<Role, Uuid>)
    requires AllInTurn(c.events) && OutcomeInTurn(c.events, r.outcome, head)
    ensures AllInTurn(Advanced(c, r, head, runs).events)
  {
    if r.outcome in {ReviewApproved, AdversaryPass, ValidationPass} {
      OneMoreInTurn(c.events, Last(Advanced(c, r, head, runs).events));
    }
  }

  lemma ConcludedInTurn(c: CaseFile, r: LifecycleResult, head: Sha, runs: map<Role, Uuid>)
    requires AllInTurn(c.events) && OutcomeInTurn(c.events, r.outcome, head)
    requires r.outcome in {AdversaryPass, ValidationPass} ==> head == SelectedHead(c.task)
    ensures AllInTurn(Concluded(c, r, head, runs).events)
  {
    MovedInTurn(c, r, head);
    AdvancedInTurn(Moved(c, r, head), r, head, runs);
    OneMoreInTurn(Advanced(Moved(c, r, head), r, head, runs).events, Last(Concluded(c, r, head, runs).events));
  }

  lemma ReconciledInTurn(d: Draft, r: LifecycleResult, head: Sha)
    requires RowsOwned(d) && WellFormed(r) && Admissible(d.file, r, head) && AllInTurn(d.file.events)
    ensures AllInTurn(Reconciled(d, r, head).file.events)
  {
    var s := Settled(d, r, head);
    SettlingFrame(d, r, head);
    NeutralInTurn(d.file.events, s.file.events);
    NeutralRowsAreInvisible(d.file.events, s.file.events, head);
    AdvanceInTurn(d.file, r, head);
    ConcludedInTurn(s.file, r, head, SpecializedRuns(r.packets, d.next));
  }

  lemma AllocatedInTurn(d: Draft, observed: Sha)
    requires AllInTurn(d.file.events)
    ensures AllInTurn(Allocated(d, observed).file.events)
  {
    OneMoreInTurn(d.file.events, Last(Allocated(d, observed).file.events));
  }

  /** Other operations log neutral rows only. */
  lemma OthersAreNeutral(d: Draft, op: Op)
    requires !op.Allocate? && !op.Reconcile?
    ensures Extends(d.file.events, Effect(d, op).file.events)
  {
  }

  lemma StepKeepsTurns(d: Draft, op: Op)
    requires RowsOwned(d) && Enabled(d.file, op) && AllInTurn(d.file.events)
    ensures AllInTurn(Effect(d, op).file.events)
  {
    if op.Allocate? {
      AllocatedInTurn(d, op.observed);
    } else if op.Reconcile? {
      ReconciledInTurn(d, op.result, op.head);
    } else {
      OthersAreNeutral(d, op);
      NeutralInTurn(d.file.events, Effect(d, op).file.events);
    }
  }

  lemma {:induction false} TurnsInEveryRun(ds: seq<Draft>, moves: seq<Move>, descends: (Sha, Sha) -> bool)
    requires Run(ds, moves, descends) && Consistent(ds[0], descends) && AllInTurn(ds[0].file.events)
    ensures AllInTurn(Last(ds).file.events)
    decreases |moves|
  {
    if moves != [] {
      RunPrefix(ds, moves, descends);
      TurnsInEveryRun(Init(ds), Init(moves), descends);
      RunsStayConsistent(Init(ds), Init(moves), descends);
      if Last(moves).Here? {
        StepKeepsTurns(Last(Init(ds)), Last(moves).op);
      }
    } else {
      assert ds[0] == Last(ds);
    }
  }

  /** At the end of every whole run, for every head, each acceptance is current exactly when its level is reached. */
  lemma LevelIsTheScan(ds: seq<Draft>, moves: seq<Move>, head: Sha, descends: (Sha, Sha) -> bool)
    requires WholeRun(ds, moves, descends)
    ensures var events := Last(ds).file.events;
      && (Level(events, head) >= 1 <==> CurrentAcceptance(events, ReviewAccepted(head)))
      && (Level(events, head) >= 2 <==> CurrentAcceptance(events, AdversaryAccepted(head)))
      && (Level(events, head) >= 3 <==> CurrentAcceptance(events, Occurrence.ValidationPassed(head)))
  {
    NewCaseConsistent(ds[0].file.task, ds[0].next, descends);
    OneMoreInTurn([], ds[0].file.events[0]);
    assert ds[0].file.events == [] + [ds[0].file.events[0]];
    TurnsInEveryRun(ds, moves, descends);
    ScanFindsLevel(Last(ds).file.events, head);
  }
}
