/**
 The broker's guards in the order it applies them. Each check is a method over the result's packets
 and findings; `GuardsAreAdmissible` says that together they accept exactly the admissible results.
 */
module Guards {
  import opened Schema
  import opened Queries
  import opened Results
  import opened Reconciliation

  /** The roles and outcomes a state licenses; an outstanding licence admits only the correction. */
  function Expected(state: State, licensed: bool): (set<Role>, set<Outcome>) {
    if Correctable(state) && licensed then ({Implementer}, {CorrectionComplete, Blocked})
    else match state
      case Queued => ({ProjectManager, Planner}, {PlanningComplete, Blocked})
      case Planned => ({Implementer}, {ImplementationComplete, Blocked})
      case Implemented => ({Reviewer}, {ReviewApproved, CorrectionRequired, Blocked})
      case Review => ({Adversary}, {AdversaryPass, CorrectionRequired, Blocked})
      case AdversarialReview => ({}, {ValidationPass, CorrectionRequired, Blocked})
      case FinalMechanicalAcceptance => ({Archiver}, {ArchiveComplete, Blocked})
      case _ => ({}, {})
  }

  function RolesOf(packets: seq<Packet>): set<Role> {
    set i | 0 <= i < |packets| :: packets[i].role
  }

  /** Planning reports arrive in order, and the Planner only after an approval. */
  predicate PossiblePrefix(packets: seq<Packet>, partial: bool) {
    || (partial && packets == [])
    || (partial && |packets| == 1 && packets[0].role == ProjectManager)
    || (|packets| == 2 && packets[0].role == ProjectManager && packets[1].role == Planner
      && packets[0].verdict == Approve)
  }

  predicate RolesFit(state: State, licensed: bool, r: LifecycleResult) {
    var (roles, outcomes) := Expected(state, licensed);
    && (state == Queued ==> PossiblePrefix(r.packets, r.outcome == Blocked))
    && r.outcome in outcomes
    && (if r.outcome == Blocked then RolesOf(r.packets) <= roles else RolesOf(r.packets) == roles)
  }

  method CheckRoles(state: State, licensed: bool, r: LifecycleResult) returns (ok: bool)
    ensures ok <==> RolesFit(state, licensed, r)
  {
    var (roles, outcomes) := Expected(state, licensed);
    if state == Queued {
      if !PossiblePrefix(r.packets, r.outcome == Blocked) {
        return false;
      }
    }
    if r.outcome !in outcomes {
      return false;
    }
    var reported: set<Role> := {};
    for i := 0 to |r.packets|
      invariant reported == set j | 0 <= j < i :: r.packets[j].role
    {
      reported := reported + {r.packets[i].role};
    }
    if r.outcome == Blocked {
      ok := reported <= roles;
    } else {
      ok := reported == roles;
    }
  }

  predicate VerdictFits(p: Packet, outcome: Outcome) {
    || p.verdict == Favourable(p.role)
    || (outcome == CorrectionRequired && p.role in {Reviewer, Adversary} && p.verdict == Findings)
    || (outcome == Blocked && p.verdict == BlockedVerdict)
  }

  predicate VerdictsFit(r: LifecycleResult) {
    forall i :: 0 <= i < |r.packets| ==> VerdictFits(r.packets[i], r.outcome)
  }

  method CheckVerdicts(r: LifecycleResult) returns (ok: bool)
    ensures ok <==> VerdictsFit(r)
  {
    for i := 0 to |r.packets|
      invariant forall j :: 0 <= j < i ==> VerdictFits(r.packets[j], r.outcome)
    {
      var allowed := {Favourable(r.packets[i].role)};
      if r.outcome == CorrectionRequired && r.packets[i].role in {Reviewer, Adversary} {
        allowed := allowed + {Findings};
      }
      if r.outcome == Blocked {
        allowed := allowed + {BlockedVerdict};
      }
      if r.packets[i].verdict !in allowed {
        return false;
      }
    }
    ok := true;
  }

  /** The specialized role whose finding a correction from this state must rest on. */
  function CorrectingRole(state: State): Role {
    if state == Implemented then Reviewer else if state == Review then Adversary else Architect
  }

  predicate ReportsFindings(packets: seq<Packet>, role: Role) {
    exists i :: 0 <= i < |packets| && packets[i].role == role && packets[i].verdict == Findings
  }

  /** What the phase allows of the Git head, of a correction's verdict and of a blocked IMPLEMENTER's licences. */
  predicate HeadFits(c: CaseFile, r: LifecycleResult, head: Sha) {
    var still, licensed := head == SelectedHead(c.task), HasLicensed(c.findings);
    var implementing := c.task.state == Planned || (Correctable(c.task.state) && licensed);
    && (!HasRole(r.packets, Implementer) ==> still)
    && (r.outcome == CorrectionRequired && c.task.state in {Implemented, Review} ==>
          ReportsFindings(r.packets, CorrectingRole(c.task.state)))
    && (r.outcome == CorrectionRequired && c.task.state == AdversarialReview ==> r.packets == [])
    && (r.outcome == Blocked && licensed && HasRole(r.packets, Implementer) ==>
          LicensedAt(c.findings, NextRound(c.runs, Implementer)))
    && (!implementing ==> still)
    && (r.outcome in {ImplementationComplete, CorrectionComplete} ==> !still)
  }

  method CheckHead(c: CaseFile, r: LifecycleResult, head: Sha) returns (ok: bool)
    ensures ok <==> HeadFits(c, r, head)
  {
    var selected, licensed := SelectedHead(c.task), HasLicensed(c.findings);
    var implementer := HasRole(r.packets, Implementer);
    if !implementer && head != selected {
      return false;
    }
    if r.outcome == CorrectionRequired {
      if c.task.state in {Implemented, Review} {
        if !ReportsFindings(r.packets, CorrectingRole(c.task.state)) {
          return false;
        }
      } else if c.task.state == AdversarialReview && r.packets != [] {
        return false;
      }
    }
    var implementing := c.task.state == Planned || (Correctable(c.task.state) && licensed);
    if r.outcome == Blocked && licensed && implementer {
      if !LicensedAt(c.findings, NextRound(c.runs, Implementer)) {
        return false;
      }
    }
    if !implementing && head != selected {
      return false;
    }
    ok := !(r.outcome in {ImplementationComplete, CorrectionComplete} && head == selected);
  }

  /** The findings' rulings suit the outcome, and a correction or a block rests on the evidence it needs. */
  predicate RulingsFit(state: State, r: LifecycleResult) {
    var all := AllFindings(r);
    && (r.outcome != CorrectionRequired ==> NoLicence(all))
    && (r.outcome != Blocked ==> NoneBlocking(all))
    && (r.outcome == CorrectionRequired && state in {Implemented, Review} ==> LicenceFrom(all, CorrectingRole(state)))
    && (r.outcome == CorrectionRequired && state == AdversarialReview ==> LicenceFrom(r.findings, Architect))
    && (r.outcome == Blocked ==> !NoneBlocking(all) || AnyBlockedVerdict(r.packets))
  }

  method CheckRulings(state: State, r: LifecycleResult) returns (ok: bool)
    ensures ok <==> RulingsFit(state, r)
  {
    var all := AllFindings(r);
    if !NoLicence(all) && r.outcome != CorrectionRequired {
      return false;
    }
    if !NoneBlocking(all) && r.outcome != Blocked {
      return false;
    }
    if r.outcome == CorrectionRequired {
      if state in {Implemented, Review} {
        if !LicenceFrom(all, CorrectingRole(state)) {
          return false;
        }
      } else if state == AdversarialReview {
        if !LicenceFrom(r.findings, Architect) {
          return false;
        }
      }
    }
    ok := !(r.outcome == Blocked && NoneBlocking(all) && !AnyBlockedVerdict(r.packets));
  }

  /** The acceptances the outcome builds on are current for this head. */
  predicate AcceptancesFit(events: seq<EventRow>, outcome: Outcome, head: Sha) {
    && (outcome in {AdversaryPass, ValidationPass, ArchiveComplete} ==> CurrentAcceptance(events, ReviewAccepted(head)))
    && (outcome in {ValidationPass, ArchiveComplete} ==> CurrentAcceptance(events, AdversaryAccepted(head)))
  }

  /** A completed correction names exactly the licences, each once and at its round; nothing else names any. */
  ghost predicate ResolutionsFit(c: CaseFile, r: LifecycleResult) {
    if r.outcome == CorrectionComplete then
      NamesExactly(r.requested, c.findings) && LicensedAt(c.findings, NextRound(c.runs, Implementer))
    else r.requested == []
  }

  /** The guards that are passed before any row is written. */
  predicate EarlyGuards(c: CaseFile, r: LifecycleResult, head: Sha) {
    && Current(c, r) && RolesFit(c.task.state, HasLicensed(c.findings), r)
    && VerdictsFit(r) && HeadFits(c, r, head)
  }

  /** Every guard the broker applies, before, between and after its writes. */
  ghost predicate GuardsPass(c: CaseFile, r: LifecycleResult, head: Sha) {
    && EarlyGuards(c, r, head)
    && HeadsAgree(r.packets, head)
    && RulingsFit(c.task.state, r)
    && AcceptancesFit(c.events, r.outcome, head)
    && ResolutionsFit(c, r)
    && WORKPAD_MARKER <= r.workpadBody
  }

  lemma SoleRole(packets: seq<Packet>, role: Role)
    requires DistinctRoles(packets)
    ensures RolesOf(packets) == {role} <==> |packets| == 1 && packets[0].role == role
    ensures RolesOf(packets) <= {role} <==> packets == [] || (|packets| == 1 && packets[0].role == role)
    ensures RolesOf(packets) <= {} <==> packets == []
    ensures HasRole(packets, role) <==> role in RolesOf(packets)
  {
    if |packets| >= 2 {
      assert packets[0].role in RolesOf(packets) && packets[1].role in RolesOf(packets);
    } else if |packets| == 1 {
      assert packets[0].role in RolesOf(packets);
    }
  }

  lemma PlanningRoles(packets: seq<Packet>)
    ensures |packets| == 2 && packets[0].role == ProjectManager && packets[1].role == Planner ==>
      RolesOf(packets) == {ProjectManager, Planner}
    ensures |packets| == 1 ==> RolesOf(packets) == {packets[0].role}
    ensures packets == [] ==> RolesOf(packets) == {}
  {
    if |packets| == 2 {
      assert packets[0].role in RolesOf(packets) && packets[1].role in RolesOf(packets);
    }
  }

  /** Outside a block and a correction demand, one favourable packet of one role. */
  lemma SoleGuards(c: CaseFile, r: LifecycleResult, head: Sha, role: Role)
    requires WellFormed(r) && role !in {Architect, ProjectManager, Planner}
    requires r.outcome != Blocked && r.outcome != CorrectionRequired
    requires Expected(c.task.state, HasLicensed(c.findings)).0 == {role} && c.task.state != Queued
    ensures RolesFit(c.task.state, HasLicensed(c.findings), r) && VerdictsFit(r) <==>
      r.outcome in Expected(c.task.state, HasLicensed(c.findings)).1 && Sole(r.packets, role, Favourable(role))
    ensures Sole(r.packets, role, Favourable(role)) ==> (HasRole(r.packets, Implementer) <==> role == Implementer)
  {
    SoleRole(r.packets, role);
  }

  /** One packet of the phase's one role settles an advancing outcome. */
  lemma AdvanceAs(c: CaseFile, r: LifecycleResult, head: Sha, role: Role)
    requires WellFormed(r) && role !in {Architect, ProjectManager, Planner}
    requires r.outcome in {ImplementationComplete, ReviewApproved, AdversaryPass, ArchiveComplete, CorrectionComplete}
    requires Expected(c.task.state, HasLicensed(c.findings)).0 == {role} && c.task.state != Queued
    ensures GuardsPass(c, r, head) <==> Admissible(c, r, head)
  {
    SoleGuards(c, r, head, role);
  }

  lemma AdvanceNowhere(c: CaseFile, r: LifecycleResult, head: Sha)
    requires r.outcome in {ImplementationComplete, ReviewApproved, AdversaryPass, ArchiveComplete, CorrectionComplete}
    requires r.outcome !in Expected(c.task.state, HasLicensed(c.findings)).1
    ensures !GuardsPass(c, r, head) && !Admissible(c, r, head)
  {
  }

  lemma AdvanceGuards(c: CaseFile, r: LifecycleResult, head: Sha)
    requires WellFormed(r)
      && r.outcome in {ImplementationComplete, ReviewApproved, AdversaryPass, ArchiveComplete, CorrectionComplete}
    ensures GuardsPass(c, r, head) <==> Admissible(c, r, head)
  {
    var roles, outcomes :=
      Expected(c.task.state, HasLicensed(c.findings)).0, Expected(c.task.state, HasLicensed(c.findings)).1;
    if r.outcome !in outcomes { AdvanceNowhere(c, r, head); }
    else if roles == {Implementer} { AdvanceAs(c, r, head, Implementer); }
    else if roles == {Reviewer} { AdvanceAs(c, r, head, Reviewer); }
    else if roles == {Adversary} { AdvanceAs(c, r, head, Adversary); }
    else { AdvanceAs(c, r, head, Archiver); }
  }

  /** A completed planning is exactly an approval followed by a plan. */
  lemma PlanningShape(c: CaseFile, r: LifecycleResult)
    requires WellFormed(r) && r.outcome == PlanningComplete
    ensures RolesFit(c.task.state, HasLicensed(c.findings), r) && VerdictsFit(r) <==>
      && c.task.state == Queued && |r.packets| == 2
      && r.packets[0].role == ProjectManager && r.packets[0].verdict == Approve
      && r.packets[1].role == Planner && r.packets[1].verdict == Complete
  {
    PlanningRoles(r.packets);
  }

  lemma PlanningGuards(c: CaseFile, r: LifecycleResult, head: Sha)
    requires WellFormed(r) && r.outcome == PlanningComplete
    ensures GuardsPass(c, r, head) <==> Admissible(c, r, head)
  {
    PlanningShape(c, r);
  }

  lemma ValidationGuards(c: CaseFile, r: LifecycleResult, head: Sha)
    requires WellFormed(r) && r.outcome == ValidationPass
    ensures GuardsPass(c, r, head) <==> Admissible(c, r, head)
  {
    SoleRole(r.packets, Implementer);
  }

  predicate CorrectionPacket(state: State, packets: seq<Packet>) {
    match state
    case Implemented => Sole(packets, Reviewer, Findings)
    case Review => Sole(packets, Adversary, Findings)
    case AdversarialReview => packets == []
    case _ => false
  }

  /** A correction demand comes as the phase's one packet with findings, or as none from validation. */
  lemma CorrectionRoles(c: CaseFile, r: LifecycleResult)
    requires WellFormed(r) && r.outcome == CorrectionRequired
    ensures (&& RolesFit(c.task.state, HasLicensed(c.findings), r)
             && VerdictsFit(r)
             && (c.task.state in {Implemented, Review} ==> ReportsFindings(r.packets, CorrectingRole(c.task.state))))
      <==> (!HasLicensed(c.findings) && CorrectionPacket(c.task.state, r.packets))
  {
    SoleRole(r.packets, Reviewer);
    SoleRole(r.packets, Adversary);
  }

  lemma CorrectionGuards(c: CaseFile, r: LifecycleResult, head: Sha)
    requires WellFormed(r) && r.outcome == CorrectionRequired
    ensures GuardsPass(c, r, head) <==> Admissible(c, r, head)
  {
    CorrectionRoles(c, r);
    ArchitectFindingsAreTopLevel(r);
  }

  /** In a phase of one role a blocked attempt reports that role or none. */
  lemma BlockedSole(c: CaseFile, r: LifecycleResult, role: Role)
    requires WellFormed(r) && r.outcome == Blocked && c.task.state != Queued
    requires Expected(c.task.state, HasLicensed(c.findings)).0 == {role}
    ensures RolesFit(c.task.state, HasLicensed(c.findings), r) <==>
      r.packets == [] || (|r.packets| == 1 && r.packets[0].role == role)
  {
    SoleRole(r.packets, role);
  }

  lemma BlockedPlanning(c: CaseFile, r: LifecycleResult)
    requires WellFormed(r) && r.outcome == Blocked && c.task.state == Queued
    ensures RolesFit(c.task.state, HasLicensed(c.findings), r) <==> PossiblePrefix(r.packets, true)
  {
    PlanningRoles(r.packets);
  }

  /** A blocked attempt reports a possible part of its phase's roles. */
  lemma BlockedRoles(c: CaseFile, r: LifecycleResult)
    requires WellFormed(r) && r.outcome == Blocked
    ensures RolesFit(c.task.state, HasLicensed(c.findings), r) && VerdictsFit(r) <==> BlockedHistory(c, r.packets)
  {
    var roles := Expected(c.task.state, HasLicensed(c.findings)).0;
    if c.task.state == Queued { BlockedPlanning(c, r); }
    else if roles == {Implementer} { BlockedSole(c, r, Implementer); }
    else if roles == {Reviewer} { BlockedSole(c, r, Reviewer); }
    else if roles == {Adversary} { BlockedSole(c, r, Adversary); }
    else if roles == {Archiver} { BlockedSole(c, r, Archiver); }
    else { SoleRole(r.packets, Implementer); }
  }

  lemma BlockedGuards(c: CaseFile, r: LifecycleResult, head: Sha)
    requires WellFormed(r) && r.outcome == Blocked
    ensures GuardsPass(c, r, head) <==> Admissible(c, r, head)
  {
    BlockedRoles(c, r);
  }

  /** The interleaved guards accept a result exactly when it is admissible. */
  lemma GuardsAreAdmissible(c: CaseFile, r: LifecycleResult, head: Sha)
    requires WellFormed(r)
    ensures GuardsPass(c, r, head) <==> Admissible(c, r, head)
  {
    match r.outcome
    case Blocked => BlockedGuards(c, r, head);
    case CorrectionRequired => CorrectionGuards(c, r, head);
    case PlanningComplete => PlanningGuards(c, r, head);
    case ValidationPass => ValidationGuards(c, r, head);
    case _ => AdvanceGuards(c, r, head);
  }
}
