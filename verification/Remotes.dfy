/**
 The publication remote: refs, pull requests and branch protection, shared with an environment the broker cannot stop.
 */
module Remotes {
  import opened Schema

  datatype Pull = Pull(open: bool, draft: bool, headRef: string, headRepo: string, headSha: Sha, baseRef: string)

  /** Pull request n is at position n - 1: GitHub never reuses or forgets a number. */
  datatype World = World(refs: map<string, Sha>, pulls: seq<Pull>, protection: nat)

  /** What becomes of one call: a handled failure or the end of the process, before or after it took effect. */
  datatype Fate = Go | Fails | FailsAfter | Vanishes | VanishesAfter

  /** Before each call the environment may move, and the call has its fate. */
  datatype Turn = Turn(world: World, fate: Fate)

  datatype Signal = Done | Raised | Gone

  /** What the broker did to the remote, and what it saw there. */
  datatype Deed =
    | Pushed(branch: string, over: Option<Sha>, head: Sha)
    | Opened(number: nat, branch: string)
    | SawRef(branch: string, found: Option<Sha>)
    | SawPull(number: nat, pull: Pull)

  /** The part of a repository's name before the slash. */
  function Owner(repository: string): string {
    if repository == "" || repository[0] == '/' then "" else [repository[0]] + Owner(repository[1..])
  }

  /** Others may move refs, protection and pull requests, but not delete a pull request or rename its head. */
  predicate Tolerated(before: World, after: World) {
    && |before.pulls| <= |after.pulls|
    && forall i :: 0 <= i < |before.pulls| ==>
         after.pulls[i].headRef == before.pulls[i].headRef && after.pulls[i].headRepo == before.pulls[i].headRepo
  }

  /** The pull request comes from this branch of some repository of this owner. */
  predicate ComesFrom(pull: Pull, owner: string, branch: string) {
    pull.headRef == branch && Owner(pull.headRepo) == owner
  }

  predicate HasPull(pulls: seq<Pull>, owner: string, branch: string) {
    exists i :: 0 <= i < |pulls| && ComesFrom(pulls[i], owner, branch)
  }

  function Ref(world: World, branch: string): Option<Sha> {
    if branch in world.refs then Some(world.refs[branch]) else None
  }

  /** The deed changed the remote. */
  predicate Wrote(deed: Deed) {
    deed.Pushed? || deed.Opened?
  }

  predicate OpenedFor(deed: Deed, branch: string) {
    deed.Opened? && deed.branch == branch
  }

  /** How many pull requests the broker opened for a branch. */
  function Openings(deeds: seq<Deed>, branch: string): nat {
    if deeds == [] then 0 else Openings(Init(deeds), branch) + (if OpenedFor(Last(deeds), branch) then 1 else 0)
  }

  /** Every time the broker wrote this ref it was absent, and it wrote this head. */
  predicate PushesOnly(deeds: seq<Deed>, branch: string, head: Sha) {
    forall i :: 0 <= i < |deeds| && deeds[i].Pushed? && deeds[i].branch == branch ==>
      deeds[i] == Pushed(branch, None, head)
  }

  /** The broker opened at most one pull request for the branch, and if it did, one is there to be found. */
  predicate OpensOnce(deeds: seq<Deed>, pulls: seq<Pull>, owner: string, branch: string) {
    Openings(deeds, branch) <= 1 && (Openings(deeds, branch) == 1 ==> HasPull(pulls, owner, branch))
  }

  predicate Sound(deeds: seq<Deed>, world: World, owner: string, branch: string, head: Sha) {
    PushesOnly(deeds, branch, head) && OpensOnce(deeds, world.pulls, owner, branch)
  }

  /** The broker wrote only about these branches, and soundly about each, at its one head. */
  predicate SoundFor(heads: map<string, Sha>, deeds: seq<Deed>, world: World, owner: string) {
    && (forall branch :: branch in heads ==> Sound(deeds, world, owner, branch, heads[branch]))
    && (forall i :: 0 <= i < |deeds| && Wrote(deeds[i]) ==> deeds[i].branch in heads)
  }

  predicate Knows(heads: map<string, Sha>, branch: string, head: Sha) {
    branch in heads && heads[branch] == head
  }

  lemma TolerableKeepsPull(before: World, after: World, owner: string, branch: string)
    requires Tolerated(before, after) && HasPull(before.pulls, owner, branch)
    ensures HasPull(after.pulls, owner, branch)
  {
    var i :| 0 <= i < |before.pulls| && ComesFrom(before.pulls[i], owner, branch);
    assert ComesFrom(after.pulls[i], owner, branch);
  }

  /** The environment's moves take nothing from what was established. */
  lemma MovingKeepsSound(heads: map<string, Sha>, deeds: seq<Deed>, before: World, after: World, owner: string)
    requires SoundFor(heads, deeds, before, owner) && Tolerated(before, after)
    ensures SoundFor(heads, deeds, after, owner)
  {
    forall branch | branch in heads
      ensures Sound(deeds, after, owner, branch, heads[branch])
    {
      assert Sound(deeds, before, owner, branch, heads[branch]);
      if HasPull(before.pulls, owner, branch) {
        TolerableKeepsPull(before, after, owner, branch);
      }
    }
  }

  /** Looking does no harm. */
  lemma SeeingKeepsSound(heads: map<string, Sha>, deeds: seq<Deed>, world: World, owner: string, seen: Deed)
    requires SoundFor(heads, deeds, world, owner) && !Wrote(seen)
    ensures SoundFor(heads, deeds + [seen], world, owner)
  {
    forall branch | branch in heads
      ensures Sound(deeds + [seen], world, owner, branch, heads[branch])
    {
      assert Sound(deeds, world, owner, branch, heads[branch]);
      InitOfAppend(deeds, seen);
    }
  }

  /** Writing a branch's one head where there was none is sound, for it and for every other branch. */
  lemma PushingKeepsSound(
      heads: map<string, Sha>, deeds: seq<Deed>, before: World, after: World, owner: string, branch: string, head: Sha)
    requires SoundFor(heads, deeds, before, owner) && Knows(heads, branch, head) && after.pulls == before.pulls
    ensures SoundFor(heads, deeds + [Pushed(branch, None, head)], after, owner)
  {
    var deed := Pushed(branch, None, head);
    forall other | other in heads
      ensures Sound(deeds + [deed], after, owner, other, heads[other])
    {
      assert Sound(deeds, before, owner, other, heads[other]);
      InitOfAppend(deeds, deed);
    }
  }

  /** Opening a pull request is sound while the broker has opened none for its branch. */
  lemma OpeningKeepsSound(
      heads: map<string, Sha>, deeds: seq<Deed>, before: World, after: World, owner: string, number: nat, pull: Pull)
    requires SoundFor(heads, deeds, before, owner) && pull.headRef in heads && Owner(pull.headRepo) == owner
    requires Openings(deeds, pull.headRef) == 0 && after.pulls == before.pulls + [pull]
    ensures SoundFor(heads, deeds + [Opened(number, pull.headRef)], after, owner)
  {
    var deed := Opened(number, pull.headRef);
    MovingKeepsSound(heads, deeds, before, after, owner);
    assert ComesFrom(after.pulls[|before.pulls|], owner, pull.headRef);
    forall other | other in heads
      ensures Sound(deeds + [deed], after, owner, other, heads[other])
    {
      assert Sound(deeds, after, owner, other, heads[other]);
      InitOfAppend(deeds, deed);
    }
  }

  datatype Listed = Listed(number: nat, pull: Pull)

  /** GET /pulls?head={owner}:{branch}: the owner's pull requests from the branch, each with its number. */
  function PullsFor(pulls: seq<Pull>, owner: string, branch: string): seq<Listed> {
    if pulls == [] then []
    else if ComesFrom(Last(pulls), owner, branch) then
      PullsFor(Init(pulls), owner, branch) + [Listed(|pulls|, Last(pulls))]
    else PullsFor(Init(pulls), owner, branch)
  }

  lemma {:induction false} PullsForMeans(pulls: seq<Pull>, owner: string, branch: string)
    ensures PullsFor(pulls, owner, branch) == [] <==> !HasPull(pulls, owner, branch)
    ensures forall p :: p in PullsFor(pulls, owner, branch) ==>
      1 <= p.number <= |pulls| && pulls[p.number - 1] == p.pull && ComesFrom(p.pull, owner, branch)
  {
    if pulls != [] {
      PullsForMeans(Init(pulls), owner, branch);
      HasPullStep(pulls, owner, branch);
    }
  }

  lemma HasPullStep(pulls: seq<Pull>, owner: string, branch: string)
    requires pulls != []
    ensures HasPull(pulls, owner, branch) <==>
      HasPull(Init(pulls), owner, branch) || ComesFrom(Last(pulls), owner, branch)
  {
    if HasPull(Init(pulls), owner, branch) {
      var i :| 0 <= i < |Init(pulls)| && ComesFrom(Init(pulls)[i], owner, branch);
      assert ComesFrom(pulls[i], owner, branch);
    }
    if HasPull(pulls, owner, branch) && !ComesFrom(Last(pulls), owner, branch) {
      var i :| 0 <= i < |pulls| && ComesFrom(pulls[i], owner, branch);
      assert ComesFrom(Init(pulls)[i], owner, branch);
    }
    assert pulls[|pulls| - 1] == Last(pulls);
  }

  class Remote {
    const repository: string
    var world: World
    /** The turns still to come; once they run out, nothing more goes wrong. */
    var plan: seq<Turn>
    ghost var deeds: seq<Deed>

    constructor (repository: string, world: World, plan: seq<Turn>)
      ensures this.repository == repository && this.world == world && this.plan == plan && deeds == []
    {
      this.repository, this.world, this.plan, deeds := repository, world, plan, [];
    }

    /** What the broker ever wrote here was about these branches, each at its one head. */
    ghost predicate IsSound(heads: map<string, Sha>)
      reads this
    {
      SoundFor(heads, deeds, world, Owner(repository))
    }

    /** The environment moves, and the next call's fate is drawn. */
    method Next(ghost heads: map<string, Sha>) returns (fate: Fate)
      requires IsSound(heads)
      modifies this`world, this`plan
      ensures IsSound(heads) && Tolerated(old(world), world)
      ensures old(plan) == [] ==> fate.Go? && world == old(world) && plan == []
    {
      if plan == [] {
        return Go;
      }
      fate := plan[0].fate;
      if Tolerated(world, plan[0].world) {
        MovingKeepsSound(heads, deeds, world, plan[0].world, Owner(repository));
        world := plan[0].world;
      }
      plan := plan[1..];
    }

    /** A step outside SQLite that leaves no trace on the remote: it succeeds, raises, or the process is gone. */
    method Quiet(ghost heads: map<string, Sha>) returns (signal: Signal)
      requires IsSound(heads)
      modifies this`world, this`plan
      ensures IsSound(heads)
      ensures old(plan) == [] ==> signal.Done? && world == old(world) && plan == []
    {
      var fate := Next(heads);
      signal := SignalOf(fate);
    }

    /** The protection fingerprint, as a ruleset snapshot. */
    method Snapshot(ghost heads: map<string, Sha>) returns (signal: Signal, fingerprint: nat)
      requires IsSound(heads)
      modifies this`world, this`plan
      ensures IsSound(heads) && fingerprint == world.protection
      ensures old(plan) == [] ==> signal.Done? && world == old(world) && plan == []
    {
      signal := Quiet(heads);
      fingerprint := world.protection;
    }

    /** git ls-remote for one branch. */
    method ReadRef(branch: string, ghost heads: map<string, Sha>) returns (signal: Signal, found: Option<Sha>)
      requires IsSound(heads)
      modifies this
      ensures IsSound(heads)
      ensures found == Ref(world, branch)
      ensures old(plan) == [] ==> signal.Done? && world == old(world) && plan == []
      ensures deeds == if signal.Done? then old(deeds) + [SawRef(branch, found)] else old(deeds)
    {
      var fate := Next(heads);
      signal, found := SignalOf(fate), Ref(world, branch);
      if signal.Done? {
        SeeingKeepsSound(heads, deeds, world, Owner(repository), SawRef(branch, found));
        deeds := deeds + [SawRef(branch, found)];
      }
    }

    /** Push with an expected-absence lease: an existing ref is never replaced. */
    method PushAbsent(branch: string, head: Sha, ghost heads: map<string, Sha>) returns (signal: Signal)
      requires IsSound(heads) && Knows(heads, branch, head)
      modifies this
      ensures IsSound(heads)
      ensures signal.Done? ==> deeds == old(deeds) + [Pushed(branch, None, head)] && Ref(world, branch) == Some(head)
      ensures deeds == old(deeds) || deeds == old(deeds) + [Pushed(branch, None, head)]
      ensures old(plan) == [] && branch !in old(world).refs ==>
        signal.Done? && world == old(world).(refs := old(world).refs[branch := head]) && plan == []
    {
      var fate := Next(heads);
      if fate.Fails? || fate.Vanishes? {
        return SignalOf(fate);
      }
      if branch in world.refs {
        return if fate.VanishesAfter? then Gone else Raised;
      }
      ghost var before := world;
      deeds := deeds + [Pushed(branch, Ref(world, branch), head)];
      world := world.(refs := world.refs[branch := head]);
      PushingKeepsSound(heads, old(deeds), before, world, Owner(repository), branch, head);
      signal := SignalOf(fate);
    }

    /** The pull requests whose head is the branch. */
    method ListPulls(branch: string, ghost heads: map<string, Sha>) returns (signal: Signal, listing: seq<Listed>)
      requires IsSound(heads)
      modifies this`world, this`plan
      ensures IsSound(heads) && listing == PullsFor(world.pulls, Owner(repository), branch)
      ensures old(plan) == [] ==> signal.Done? && world == old(world) && plan == []
    {
      signal := Quiet(heads);
      listing := PullsFor(world.pulls, Owner(repository), branch);
    }

    /** GET /pulls/{number}. */
    method ReadPull(number: nat, ghost heads: map<string, Sha>) returns (signal: Signal, pull: Option<Pull>)
      requires IsSound(heads)
      modifies this
      ensures IsSound(heads)
      ensures signal.Done? ==> 1 <= number <= |world.pulls| && pull == Some(world.pulls[number - 1])
      ensures deeds == if signal.Done? then old(deeds) + [SawPull(number, pull.value)] else old(deeds)
      ensures old(plan) == [] && 1 <= number <= |old(world).pulls| ==> signal.Done? && world == old(world) && plan == []
    {
      var fate := Next(heads);
      if !(1 <= number <= |world.pulls|) {
        return if fate.Vanishes? || fate.VanishesAfter? then Gone else Raised, None;
      }
      signal, pull := SignalOf(fate), Some(world.pulls[number - 1]);
      if signal.Done? {
        SeeingKeepsSound(heads, deeds, world, Owner(repository), SawPull(number, pull.value));
        deeds := deeds + [SawPull(number, pull.value)];
      }
    }

    /** POST /pulls, for a draft; GitHub takes the head commit from the branch, which must be there. */
    method OpenPull(branch: string, baseRef: string, ghost heads: map<string, Sha>)
      returns (signal: Signal, number: nat, pull: Option<Pull>)
      requires IsSound(heads) && branch in heads && Openings(deeds, branch) == 0
      modifies this
      ensures IsSound(heads)
      ensures signal.Done? ==> 1 <= number == |world.pulls| && pull == Some(world.pulls[number - 1])
      ensures signal.Done? ==> pull.value.headRef == branch && Ref(world, branch) == Some(pull.value.headSha)
      ensures signal.Done? ==> deeds == old(deeds) + [Opened(number, branch)]
      ensures deeds == old(deeds) || deeds == old(deeds) + [Opened(number, branch)]
      ensures old(plan) == [] && branch in old(world).refs ==>
        && signal.Done? && plan == []
            && pull == Some(Pull(true, true, branch, repository, old(world).refs[branch], baseRef))
        && world == old(world).(pulls := old(world).pulls + [pull.value])
    {
      var fate := Next(heads);
      number, pull := |world.pulls| + 1, None;
      if fate.Fails? || fate.Vanishes? {
        return SignalOf(fate), number, None;
      }
      if branch !in world.refs {
        return if fate.VanishesAfter? then Gone else Raised, number, None;
      }
      ghost var before := world;
      var draft := Pull(true, true, branch, repository, world.refs[branch], baseRef);
      deeds := deeds + [Opened(number, branch)];
      world := world.(pulls := world.pulls + [draft]);
      OpeningKeepsSound(heads, old(deeds), before, world, Owner(repository), number, draft);
      signal, pull := SignalOf(fate), Some(draft);
    }
  }

  function SignalOf(fate: Fate): Signal {
    match fate
    case Go => Done
    case Fails => Raised
    case FailsAfter => Raised
    case Vanishes => Gone
    case VanishesAfter => Gone
  }
}
