/** The Architect's result file: hostile input, checked for shape before anything is read from it. */
module Results {
  import opened Schema

  datatype Outcome =
    | PlanningComplete | ImplementationComplete | CorrectionComplete | ReviewApproved
    | AdversaryPass | ValidationPass | ArchiveComplete | CorrectionRequired | Blocked

  datatype Verdict = Approve | Pass | Complete | Findings | BlockedVerdict

  datatype Classification = LicensedCorrection | ProjectDecision | InfrastructureCondition | RejectedFinding

  datatype Finding = Finding(role: Role, body: string, ruling: Classification, blockerKind: Option<BlockerKind>)

  datatype Packet = Packet(role: Role, verdict: Verdict, summary: string, head: Option<Sha>, findings: seq<Finding>)

  datatype LifecycleResult = LifecycleResult(
    taskId: Uuid, identifier: string, runId: Uuid, expectedState: State, expectedVersion: nat,
    expectedHead: Sha, workpadBody: string, summary: string, outcome: Outcome,
    packets: seq<Packet>, findings: seq<Finding>, requested: seq<Uuid>)

  const WORKPAD_MARKER := "<!-- symphony-workpad:v1 -->"

  /** The blocker kind is exactly what the classification calls for. */
  predicate KindMatches(f: Finding) {
    match f.ruling
    case LicensedCorrection => f.blockerKind == None
    case RejectedFinding => f.blockerKind == None
    case ProjectDecision => f.blockerKind in {Some(Human), Some(Project)}
    case InfrastructureCondition => f.blockerKind == Some(Infrastructure)
  }

  /** The finding is blocker-producing evidence. */
  predicate Blocking(f: Finding) {
    f.ruling == ProjectDecision || f.ruling == InfrastructureCondition
  }

  predicate DistinctRoles(packets: seq<Packet>) {
    forall i, j :: 0 <= i < j < |packets| ==> packets[i].role != packets[j].role
  }

  predicate HasRole(packets: seq<Packet>, role: Role) {
    exists i :: 0 <= i < |packets| && packets[i].role == role
  }

  /** A packet speaks only for its own specialized role. */
  predicate PacketWellFormed(p: Packet) {
    p.role != Architect &&
    forall k :: 0 <= k < |p.findings| ==> p.findings[k].role == p.role && KindMatches(p.findings[k])
  }

  /** What a result that passed the boundary check looks like. */
  predicate WellFormed(r: LifecycleResult) {
    && Active(r.expectedState)
    && r.expectedVersion >= 1
    && DistinctRoles(r.packets)
    && (forall i :: 0 <= i < |r.packets| ==> PacketWellFormed(r.packets[i]))
    && (forall k :: 0 <= k < |r.findings| ==>
          KindMatches(r.findings[k]) &&
          (r.findings[k].role == Architect || HasRole(r.packets, r.findings[k].role)))
  }

  /** One finding against the roles seen so far; the expected role is the packet it came in. */
  predicate FindingLicensed(f: Finding, seen: set<Role>, expected: Option<Role>) {
    && (f.role in seen || f.role == Architect)
    && (expected.Some? ==> f.role == expected.value)
    && KindMatches(f)
  }

  method ValidateFindings(findings: seq<Finding>, seen: set<Role>, expected: Option<Role>) returns (ok: bool)
    ensures ok <==> forall k :: 0 <= k < |findings| ==> FindingLicensed(findings[k], seen, expected)
  {
    ok := true;
    for k := 0 to |findings|
      invariant ok <==> forall j :: 0 <= j < k ==> FindingLicensed(findings[j], seen, expected)
    {
      ok := ok && FindingLicensed(findings[k], seen, expected);
    }
  }

  /** The boundary check: one pass that grows the set of roles seen, then the top-level findings. */
  method ReadResult(r: LifecycleResult) returns (ok: bool)
    ensures ok <==> WellFormed(r)
  {
    if !Active(r.expectedState) || r.expectedVersion < 1 {
      return false;
    }
    var seen: set<Role> := {};
    for i := 0 to |r.packets|
      invariant forall role :: role in seen <==> exists j :: 0 <= j < i && r.packets[j].role == role
      invariant forall j :: 0 <= j < i ==> PacketWellFormed(r.packets[j])
      invariant DistinctRoles(r.packets[..i])
    {
      var p := r.packets[i];
      if p.role == Architect || p.role in seen {
        assert p.role == Architect ==> !PacketWellFormed(p);
        return false;
      }
      seen := seen + {p.role};
      var fine := ValidateFindings(p.findings, seen, Some(p.role));
      if !fine {
        return false;
      }
      assert r.packets[..i + 1] == r.packets[..i] + [p];
    }
    assert r.packets[..|r.packets|] == r.packets;
    ok := ValidateFindings(r.findings, seen, None);
    assert forall role :: role in seen <==> HasRole(r.packets, role);
  }

  /** The findings of the packets, packet by packet. */
  function PacketFindings(packets: seq<Packet>): seq<Finding> {
    if packets == [] then [] else PacketFindings(Init(packets)) + Last(packets).findings
  }

  /** The top-level findings followed by every packet's own. */
  function AllFindings(r: LifecycleResult): seq<Finding> {
    r.findings + PacketFindings(r.packets)
  }

  predicate NoLicence(findings: seq<Finding>) {
    forall k :: 0 <= k < |findings| ==> findings[k].ruling != LicensedCorrection
  }

  predicate NoneBlocking(findings: seq<Finding>) {
    forall k :: 0 <= k < |findings| ==> !Blocking(findings[k])
  }

  /** Some finding of this role asks for a licensed correction. */
  predicate LicenceFrom(findings: seq<Finding>, role: Role) {
    exists k :: 0 <= k < |findings| && findings[k].ruling == LicensedCorrection && findings[k].role == role
  }

  predicate AnyBlockedVerdict(packets: seq<Packet>) {
    exists i :: 0 <= i < |packets| && packets[i].verdict == BlockedVerdict
  }

  /** The summary of the first packet that reports BLOCKED, else the default. */
  function Evidence(packets: seq<Packet>, default: string): string {
    if packets == [] then default
    else if packets[0].verdict == BlockedVerdict then packets[0].summary
    else Evidence(packets[1..], default)
  }

  /** A finding of the Architect's own can only be a top-level one. */
  lemma ArchitectFindingsAreTopLevel(r: LifecycleResult)
    requires WellFormed(r)
    ensures LicenceFrom(AllFindings(r), Architect) <==> LicenceFrom(r.findings, Architect)
  {
    PacketFindingsSpeakForPackets(r.packets);
    var all := AllFindings(r);
    assert forall k :: 0 <= k < |r.findings| ==> all[k] == r.findings[k];
    assert forall k :: |r.findings| <= k < |all| ==> all[k] == PacketFindings(r.packets)[k - |r.findings|];
  }

  lemma {:induction false} PacketFindingsSpeakForPackets(packets: seq<Packet>)
    requires forall i :: 0 <= i < |packets| ==> PacketWellFormed(packets[i])
    ensures forall k :: 0 <= k < |PacketFindings(packets)| ==>
      KindMatches(PacketFindings(packets)[k]) && PacketFindings(packets)[k].role != Architect
  {
    if packets != [] {
      PacketFindingsSpeakForPackets(Init(packets));
    }
  }
}
