/** Publishing one exact head: durable intent, branch, draft pull request, proof, and one atomic finalization. */
module Publishing {
  import opened Schema
  import opened Queries
  import opened Reconciliation
  import opened Managed
  import opened Relations
  import opened ControlPlane
  import opened Remotes
  import opened Checkouts

  /* ---------- The pull request ---------- */

  /** The pull request proves the exact draft publication identity. */
  predicate Proves(pull: Pull, repository: string, task: TaskRow, head: Sha) {
    && pull.open && pull.draft && pull.headRef == task.branch && pull.baseRef == task.baseRef
    && pull.headRepo == repository && pull.headSha == head
  }

  /** Those listed pull requests that also name the registered base and repository. */
  function ExactOf(listing: seq<Listed>, repository: string, task: TaskRow): seq<Listed> {
    if listing == [] then []
    else if Last(listing).pull.headRef == task.branch && Last(listing).pull.baseRef == task.baseRef
            && Last(listing).pull.headRepo == repository
    then ExactOf(Init(listing), repository, task) + [Last(listing)]
    else ExactOf(Init(listing), repository, task)
  }

  lemma {:induction false} ExactAreListed(listing: seq<Listed>, repository: string, task: TaskRow)
    ensures forall p :: p in ExactOf(listing, repository, task) ==> p in listing
    ensures |ExactOf(listing, repository, task)| <= |listing|
  {
    if listing != [] {
      ExactAreListed(Init(listing), repository, task);
    }
  }

  /** The last thing seen was this pull request, and it proves the identity. */
  predicate SawProof(deeds: seq<Deed>, repository: string, task: TaskRow, head: Sha, number: nat) {
    deeds != [] && Last(deeds).SawPull? && Last(deeds).number == number
      && Proves(Last(deeds).pull, repository, task, head)
  }

  predicate ProvedAt(world: World, number: nat, repository: string, task: TaskRow, head: Sha) {
    1 <= number <= |world.pulls| && Proves(world.pulls[number - 1], repository, task, head)
  }

  /** The branch has no pull request yet, or just the one that proves the identity. */
  predicate Uncontested(world: World, repository: string, task: TaskRow, head: Sha) {
    var listing := PullsFor(world.pulls, Owner(repository), task.branch);
    listing == [] || (|listing| == 1 && Proves(listing[0].pull, repository, task, head))
  }

  method ReadProof(
      remote: Remote, task: TaskRow, head: Sha, number: nat, ghost heads: map<string, Sha>)
    returns (signal: Signal)
    requires remote.IsSound(heads)
    modifies remote
    ensures remote.IsSound(heads) && old(remote.deeds) <= remote.deeds
    ensures signal.Done? ==> |remote.deeds| == |old(remote.deeds)| + 1
                             && SawProof(remote.deeds, remote.repository, task, head, number)
    ensures old(remote.plan) == [] && ProvedAt(old(remote.world), number, remote.repository, task, head) ==>
      signal.Done? && remote.world == old(remote.world) && remote.plan == []
  {
    var pull;
    signal, pull := remote.ReadPull(number, heads);
    if signal.Done? && !Proves(pull.value, remote.repository, task, head) {
      signal := Raised;
    }
  }

  /** The broker has opened nothing for a branch that has no pull request. */
  lemma NoneOpened(heads: map<string, Sha>, deeds: seq<Deed>, world: World, owner: string, branch: string)
    requires SoundFor(heads, deeds, world, owner) && branch in heads && !HasPull(world.pulls, owner, branch)
    ensures Openings(deeds, branch) == 0
  {
    assert Sound(deeds, world, owner, branch, heads[branch]);
  }

  lemma DraftProves(before: World, after: World, number: nat, pull: Pull, repository: string, task: TaskRow, head: Sha)
    requires after == before.(pulls := before.pulls + [pull]) && number == |after.pulls|
    requires pull == Pull(true, true, task.branch, repository, head, task.baseRef)
    ensures ProvedAt(after, number, repository, task, head) && Proves(pull, repository, task, head)
  {
  }

  /** Open the draft, check what the server made of it, and read it back. */
  method OpenDraft(
      remote: Remote, task: TaskRow, head: Sha, ghost heads: map<string, Sha>)
    returns (signal: Signal, number: nat)
    requires remote.IsSound(heads) && task.branch in heads && Openings(remote.deeds, task.branch) == 0
    modifies remote
    ensures remote.IsSound(heads) && old(remote.deeds) <= remote.deeds
    ensures signal.Done? ==> number >= 1 && SawProof(remote.deeds, remote.repository, task, head, number)
    ensures old(remote.plan) == [] && Ref(old(remote.world), task.branch) == Some(head) ==>
      && signal.Done? && remote.plan == [] && ProvedAt(remote.world, number, remote.repository, task, head)
      && remote.world == old(remote.world).(pulls := remote.world.pulls)
  {
    ghost var before, calm := remote.world, remote.plan == [] && Ref(remote.world, task.branch) == Some(head);
    var pull;
    signal, number, pull := remote.OpenPull(task.branch, task.baseRef, heads);
    if signal.Done? {
      if calm {
        DraftProves(before, remote.world, number, pull.value, remote.repository, task, head);
      }
      if Proves(pull.value, remote.repository, task, head) {
        signal := ReadProof(remote, task, head, number, heads);
      } else {
        signal := Raised;
      }
    }
  }

  /** What the listing says: nothing exactly when the branch has no pull request, and an exact one can be read back. */
  lemma ListingReads(world: World, repository: string, task: TaskRow, head: Sha)
    ensures var listing := PullsFor(world.pulls, Owner(repository), task.branch);
      var exact := ExactOf(listing, repository, task);
      && (listing == [] <==> !HasPull(world.pulls, Owner(repository), task.branch))
      && (exact != [] ==> listing != [] && exact[0].number >= 1)
      && (Uncontested(world, repository, task, head) && listing != [] ==>
            |listing| == 1 && exact == listing && ProvedAt(world, exact[0].number, repository, task, head))
  {
    PullsForMeans(world.pulls, Owner(repository), task.branch);
    var listing := PullsFor(world.pulls, Owner(repository), task.branch);
    var exact := ExactOf(listing, repository, task);
    ExactAreListed(listing, repository, task);
    if exact != [] {
      assert exact[0] in exact;
    }
    if Uncontested(world, repository, task, head) && listing != [] {
      ExactOfOne(listing, repository, task, head);
      assert listing[0] in listing;
    }
  }

  lemma ExactOfOne(listing: seq<Listed>, repository: string, task: TaskRow, head: Sha)
    requires |listing| == 1 && Proves(listing[0].pull, repository, task, head)
    ensures ExactOf(listing, repository, task) == listing
  {
    assert Init(listing) == [] && ExactOf(Init(listing), repository, task) == [];
  }

  /** Adopt the one exact pull request, open one when the branch has none, and refuse anything else. */
  method ReconcilePullRequest(remote: Remote, task: TaskRow, head: Sha, ghost heads: map<string, Sha>)
    returns (signal: Signal, number: nat)
    requires remote.IsSound(heads) && Knows(heads, task.branch, head)
    modifies remote
    ensures remote.IsSound(heads) && old(remote.deeds) <= remote.deeds
    ensures signal.Done? ==> number >= 1 && SawProof(remote.deeds, remote.repository, task, head, number)
    ensures old(remote.plan) == [] && Uncontested(old(remote.world), remote.repository, task, head)
            && Ref(old(remote.world), task.branch) == Some(head) ==>
      && signal.Done? && remote.plan == [] && ProvedAt(remote.world, number, remote.repository, task, head)
      && remote.world == old(remote.world).(pulls := remote.world.pulls)
  {
    var listing;
    signal, listing := remote.ListPulls(task.branch, heads);
    number := 0;
    if !signal.Done? {
      return;
    }
    var exact := ExactOf(listing, remote.repository, task);
    ListingReads(remote.world, remote.repository, task, head);
    if |listing| > 1 || (listing != [] && exact == []) {
      return Raised, 0;
    }
    if exact != [] {
      number := exact[0].number;
      signal := ReadProof(remote, task, head, number, heads);
    } else {
      NoneOpened(heads, remote.deeds, remote.world, Owner(remote.repository), task.branch);
      signal, number := OpenDraft(remote, task, head, heads);
    }
  }

  /* ---------- The branch ---------- */

  /** The broker itself wrote the head to the branch, which was absent, since the earlier deeds. */
  predicate PushedSince(before: seq<Deed>, deeds: seq<Deed>, branch: string, head: Sha) {
    exists i :: |before| <= i < |deeds| && deeds[i] == Pushed(branch, None, head)
  }

  lemma PushedNow(before: seq<Deed>, seen: seq<Deed>, branch: string, head: Sha)
    requires before <= seen
    ensures PushedSince(before, seen + [Pushed(branch, None, head)], branch, head)
  {
    assert (seen + [Pushed(branch, None, head)])[|seen|] == Pushed(branch, None, head);
  }

  lemma PushedStays(before: seq<Deed>, deeds: seq<Deed>, more: seq<Deed>, branch: string, head: Sha)
    requires PushedSince(before, deeds, branch, head) && deeds <= more
    ensures PushedSince(before, more, branch, head)
  {
    var i :| |before| <= i < |deeds| && deeds[i] == Pushed(branch, None, head);
    assert more[i] == deeds[i];
  }

  /** The branch is free, or an earlier attempt may be resumed on it at exactly this head. */
  predicate Admits(world: World, task: TaskRow, head: Sha, allowExisting: bool) {
    Ref(world, task.branch) == None || (allowExisting && Ref(world, task.branch) == Some(head))
  }

  method PublishBranch(
      remote: Remote, task: TaskRow, head: Sha, allowExisting: bool, descends: (Sha, Sha) -> bool,
      ghost heads: map<string, Sha>)
    returns (signal: Signal)
    requires remote.IsSound(heads) && Knows(heads, task.branch, head)
    modifies remote
    ensures remote.IsSound(heads) && old(remote.deeds) <= remote.deeds
    ensures signal.Done? ==> descends(task.baseSha, head)
    ensures signal.Done? && !allowExisting ==> PushedSince(old(remote.deeds), remote.deeds, task.branch, head)
    ensures old(remote.plan) == [] && descends(task.baseSha, head)
            && Admits(old(remote.world), task, head, allowExisting) ==>
      && signal.Done? && remote.plan == [] && Ref(remote.world, task.branch) == Some(head)
      && remote.world == old(remote.world).(refs := remote.world.refs)
  {
    signal := remote.Quiet(heads);
    if !signal.Done? {
      return;
    }
    var found;
    signal, found := remote.ReadRef(task.branch, heads);
    if !signal.Done? {
      return;
    }
    if found.Some? && (found.value != head || !allowExisting) {
      return Raised;
    }
    signal := remote.Quiet(heads);
    if !signal.Done? {
      return;
    }
    if !descends(task.baseSha, head) {
      return Raised;
    }
    if found.None? {
      ghost var seen := remote.deeds;
      signal := remote.PushAbsent(task.branch, head, heads);
      if signal.Done? {
        PushedNow(old(remote.deeds), seen, task.branch, head);
      }
    }
  }

  /* ---------- One attempt ---------- */

  /** The head was seen on the branch, and after that on the open draft pull request. */
  predicate Proven(deeds: seq<Deed>, repository: string, task: TaskRow, head: Sha, number: nat) {
    && |deeds| >= 2 && deeds[|deeds| - 2] == SawRef(task.branch, Some(head))
    && SawProof(deeds, repository, task, head, number)
  }

  /** Nothing on the remote stands in the way of publishing this head. */
  predicate Receptive(world: World, repository: string, task: TaskRow, head: Sha, allowExisting: bool) {
    Admits(world, task, head, allowExisting) && Uncontested(world, repository, task, head)
  }

  /** Everything between the durable intent and finalization. */
  method Externally(
      remote: Remote, task: TaskRow, head: Sha, allowExisting: bool, descends: (Sha, Sha) -> bool,
      ghost heads: map<string, Sha>)
    returns (signal: Signal, number: Option<nat>)
    requires remote.IsSound(heads) && Knows(heads, task.branch, head)
    modifies remote
    ensures remote.IsSound(heads) && old(remote.deeds) <= remote.deeds && number != Some(0)
    ensures signal.Done? ==> number.Some? && Proven(remote.deeds, remote.repository, task, head, number.value)
    ensures signal.Done? && !allowExisting ==> PushedSince(old(remote.deeds), remote.deeds, task.branch, head)
    ensures old(remote.plan) == [] && descends(task.baseSha, head)
            && Receptive(old(remote.world), remote.repository, task, head, allowExisting) ==>
      signal.Done? && remote.plan == []
  {
    number := None;
    signal := remote.Quiet(heads);
    if !signal.Done? {
      return;
    }
    var fingerprint;
    signal, fingerprint := remote.Snapshot(heads);
    if !signal.Done? {
      return;
    }
    signal := PublishBranch(remote, task, head, allowExisting, descends, heads);
    if !signal.Done? {
      return;
    }
    ghost var pushed := remote.deeds;
    var n;
    signal, n := ReconcilePullRequest(remote, task, head, heads);
    if !signal.Done? {
      return;
    }
    number := Some(n);
    signal := Prove(remote, task, head, n, fingerprint, heads);
    if signal.Done? && !allowExisting {
      PushedStays(old(remote.deeds), pushed, remote.deeds, task.branch, head);
    }
  }

  /** The last observations: the branch, then the pull request, then that protection did not change. */
  method Prove(remote: Remote, task: TaskRow, head: Sha, number: nat, fingerprint: nat, ghost heads: map<string, Sha>)
    returns (signal: Signal)
    requires remote.IsSound(heads)
    modifies remote
    ensures remote.IsSound(heads) && old(remote.deeds) <= remote.deeds
    ensures signal.Done? ==> Proven(remote.deeds, remote.repository, task, head, number)
    ensures old(remote.plan) == [] && Ref(old(remote.world), task.branch) == Some(head)
            && ProvedAt(old(remote.world), number, remote.repository, task, head)
            && fingerprint == old(remote.world).protection ==>
      signal.Done? && remote.plan == []
  {
    var found, again;
    signal, found := remote.ReadRef(task.branch, heads);
    if !signal.Done? {
      return;
    }
    ghost var seen := remote.deeds;
    signal := ReadProof(remote, task, head, number, heads);
    if !signal.Done? {
      return;
    }
    assert remote.deeds[|remote.deeds| - 2] == seen[|seen| - 1];
    signal, again := remote.Snapshot(heads);
    if !signal.Done? {
      return;
    }
    if fingerprint != again || found != Some(head) {
      return Raised;
    }
    signal := remote.Quiet(heads);
  }

  /* ---------- What an attempt did to the database ---------- */

  /** The draft after these operations. */
  function After(d: Draft, ops: seq<Op>): Draft {
    if ops == [] then d else Effect(After(d, Init(ops)), Last(ops))
  }

  /** Each operation was enabled, and passed the arguments the host passes, when it was taken. */
  ghost predicate Permitted(d: Draft, ops: seq<Op>, descends: (Sha, Sha) -> bool) {
    ops == [] ||
    (Permitted(d, Init(ops), descends)
     && Enabled(After(d, Init(ops)).file, Last(ops)) && Disciplined(After(d, Init(ops)).file, Last(ops), descends))
  }

  lemma OneMoreOp(d: Draft, ops: seq<Op>, op: Op, descends: (Sha, Sha) -> bool)
    requires Permitted(d, ops, descends)
    requires Enabled(After(d, ops).file, op) && Disciplined(After(d, ops).file, op, descends)
    ensures Permitted(d, ops + [op], descends) && After(d, ops + [op]) == Effect(After(d, ops), op)
  {
    InitOfAppend(ops, op);
  }

  /** The retained workspace still holds exactly the accepted head. */
  predicate Verified(ws: Workspace, profile: Profile, task: TaskRow, head: Sha, descends: (Sha, Sha) -> bool)
    reads ws
  {
    GitTruth(ws, profile, task, descends) && ws.head == head
  }

  /** The first checks of a publication: what makes the task eligible at all. */
  predicate Publishable(c: CaseFile) {
    c.task.state == Archivist && c.task.currentHead.Some? && !HasOpenBlocker(c.blockers) && NoneStarted(c.runs)
  }

  /** The publication operations one attempt may take, in order. */
  predicate AttemptOps(ops: seq<Op>, task: TaskRow, head: Sha, number: Option<nat>) {
    || ops == []
    || ops == [Op.StartPublication(head, task.branch)]
    || (number.Some?
      && ops == [Op.StartPublication(head, task.branch)] + [Op.FinalizePublication(head, task.branch, number.value)])
  }

  /** What an attempt leaves in the database is these permitted operations, and nothing else. */
  ghost predicate Took(s0: Tables, s: Tables, t: Uuid, ops: seq<Op>, descends: (Sha, Sha) -> bool) {
    t in s0.tasks && Permitted(DraftOf(s0, t), ops, descends) && Became(s0, s, t, After(DraftOf(s0, t), ops))
  }

  lemma TookNothing(s0: Tables, t: Uuid, descends: (Sha, Sha) -> bool)
    requires TablesOk(s0) && t in s0.tasks
    ensures Took(s0, s0, t, [], descends)
  {
  }

  lemma TookFirst(s0: Tables, s1: Tables, t: Uuid, op: Op, descends: (Sha, Sha) -> bool)
    requires TablesOk(s0) && t in s0.tasks && Enabled(CaseOf(s0, t), op) && Disciplined(CaseOf(s0, t), op, descends)
    requires Became(s0, s1, t, Effect(DraftOf(s0, t), op))
    ensures Took(s0, s1, t, [op], descends)
  {
    OneMoreOp(DraftOf(s0, t), [], op, descends);
    assert [] + [op] == [op];
  }

  lemma TookOneMore(s0: Tables, s1: Tables, s2: Tables, t: Uuid, ops: seq<Op>, op: Op, descends: (Sha, Sha) -> bool)
    requires Took(s0, s1, t, ops, descends)
    requires Enabled(CaseOf(s1, t), op) && Disciplined(CaseOf(s1, t), op, descends)
    requires Became(s1, s2, t, Effect(DraftOf(s1, t), op))
    ensures Took(s0, s2, t, ops + [op], descends)
  {
    var d0 := DraftOf(s0, t);
    OneMoreOp(d0, ops, op, descends);
    BecameTransitive(s0, s1, s2, t, DraftOf(s1, t), After(d0, ops + [op]));
  }

  /** The one atomic finalization, if it commits; the process may stop or raise even after it. */
  method FinalizeOnce(
      db: ControlPlaneDatabase, remote: Remote, t: Uuid, branch: string, head: Sha, number: nat,
      ghost heads: map<string, Sha>)
    returns (signal: Signal, committed: bool)
    requires db.Holds(t) && remote.IsSound(heads)
    modifies db, remote
    ensures remote.IsSound(heads) && remote.deeds == old(remote.deeds)
    ensures signal.Done? ==> committed
    ensures committed <==> CanFinalize(old(db.View(t)).file, head, branch, number)
    ensures committed ==>
      Became(old(db.Rows()), db.Rows(), t, Effect(old(db.View(t)), Op.FinalizePublication(head, branch, number)))
    ensures !committed ==> db.Rows() == old(db.Rows())
    ensures old(remote.plan) == [] && committed ==> signal.Done?
  {
    committed := db.FinalizePublication(t, head, branch, number);
    if !committed {
      return Raised, false;
    }
    signal := remote.Quiet(heads);
  }

  /** Outside work, proof, finalization; the process may stop or raise anywhere, even after the final commit. */
  method CarryOut(
      db: ControlPlaneDatabase, remote: Remote, t: Uuid, task: TaskRow, head: Sha, allowExisting: bool,
      descends: (Sha, Sha) -> bool, ghost heads: map<string, Sha>, ghost s0: Tables, ghost calm: bool)
    returns (signal: Signal, number: Option<nat>, committed: bool)
    requires db.Holds(t) && db.Rows() == s0 && remote.IsSound(heads) && Knows(heads, task.branch, head)
    requires calm ==>
      remote.plan == [] && descends(task.baseSha, head) && CanFinalize(db.View(t).file, head, task.branch, 1)
                      && Receptive(remote.world, remote.repository, task, head, allowExisting)
    modifies db, remote
    ensures remote.IsSound(heads) && old(remote.deeds) <= remote.deeds && number != Some(0)
    ensures signal.Done? ==> committed
    ensures committed ==> number.Some? && Proven(remote.deeds, remote.repository, task, head, number.value)
                          && (!allowExisting ==> PushedSince(old(remote.deeds), remote.deeds, task.branch, head))
    ensures committed ==>
      && CanFinalize(CaseOf(s0, t), head, task.branch, number.value)
      && Became(s0, db.Rows(), t, Effect(DraftOf(s0, t), Op.FinalizePublication(head, task.branch, number.value)))
    ensures !committed ==> db.Rows() == s0
    ensures calm ==> signal.Done?
  {
    committed := false;
    signal, number := Externally(remote, task, head, allowExisting, descends, heads);
    assert db.Rows() == s0;
    if signal.Done? {
      signal, committed := FinalizeOnce(db, remote, t, task.branch, head, number.value, heads);
    }
  }

  /**
   What one attempt did: the operations it took, and what it had seen if it finalized; `first` without a prior row.
   */
  predicate Witnessed(
      task: TaskRow, first: bool, before: seq<Deed>, deeds: seq<Deed>, repository: string, head: Sha,
      number: Option<nat>, ops: seq<Op>)
  {
    && before <= deeds && number != Some(0) && AttemptOps(ops, task, head, number)
    && (ops == [] ==> deeds == before)
    && (|ops| == 2 ==>
          && Proven(deeds, repository, task, head, number.value)
          && (first ==> PushedSince(before, deeds, task.branch, head)))
  }

  lemma Committed(
      s0: Tables, s1: Tables, s2: Tables, t: Uuid, task: TaskRow, head: Sha, number: Option<nat>, committed: bool,
      descends: (Sha, Sha) -> bool)
    returns (ops: seq<Op>)
    requires Took(s0, s1, t, [Op.StartPublication(head, task.branch)], descends)
    requires committed ==> number.Some?
    requires committed ==>
      && CanFinalize(CaseOf(s1, t), head, task.branch, number.value)
      && Became(s1, s2, t, Effect(DraftOf(s1, t), Op.FinalizePublication(head, task.branch, number.value)))
    requires !committed ==> s2 == s1
    ensures Took(s0, s2, t, ops, descends) && AttemptOps(ops, task, head, number)
    ensures |ops| == if committed then 2 else 1
  {
    ops := [Op.StartPublication(head, task.branch)];
    if committed {
      var op := Op.FinalizePublication(head, task.branch, number.value);
      TookOneMore(s0, s1, s2, t, ops, op, descends);
      ops := ops + [op];
    }
  }

  /** A recorded intent can be finalized under whatever number the pull request turns out to have. */
  lemma IntentCanBeFinalized(c: CaseFile, head: Sha, branch: string)
    requires CanStartPublication(c, head, branch)
    ensures CanFinalize(PublicationBegun(c, head, branch), head, branch, 1)
  {
  }

  /** Once recorded the intent stands, and a row that was there before it was started or failed. */
  lemma IntentStands(c: CaseFile, after: CaseFile, head: Sha)
    requires CanStartPublication(c, head, c.task.branch) && after == PublicationBegun(c, head, c.task.branch)
    ensures CanFinalize(after, head, c.task.branch, 1)
    ensures c.publication.Some? ==> c.publication.value.status in {InProgress, Unsuccessful}
  {
    IntentCanBeFinalized(c, head, c.task.branch);
  }

  lemma Intended(s0: Tables, s1: Tables, t: Uuid, head: Sha, descends: (Sha, Sha) -> bool)
    requires TablesOk(s0) && t in s0.tasks && CanStartPublication(CaseOf(s0, t), head, s0.tasks[t].branch)
    requires Became(s0, s1, t, Effect(DraftOf(s0, t), Op.StartPublication(head, s0.tasks[t].branch)))
    ensures Took(s0, s1, t, [Op.StartPublication(head, s0.tasks[t].branch)], descends)
    ensures CanFinalize(CaseOf(s1, t), head, s0.tasks[t].branch, 1)
    ensures t in s0.publications ==> s0.publications[t].status in {InProgress, Unsuccessful}
  {
    TookFirst(s0, s1, t, Op.StartPublication(head, s0.tasks[t].branch), descends);
    assert CaseOf(s1, t) == PublicationBegun(CaseOf(s0, t), head, s0.tasks[t].branch);
    IntentStands(CaseOf(s0, t), CaseOf(s1, t), head);
  }

  /** Everything is in place: the rows, the workspace and the remote. */
  predicate Publishes(
      c: CaseFile, world: World, ws: Workspace, profile: Profile, repository: string, head: Sha,
      descends: (Sha, Sha) -> bool)
    reads ws
  {
    && CanStartPublication(c, head, c.task.branch) && Verified(ws, profile, c.task, head, descends)
    && Receptive(world, repository, c.task, head, c.publication.Some?)
  }

  /** Record the intent before anything outside is touched. */
  method Intend(
      db: ControlPlaneDatabase, remote: Remote, ws: Workspace, profile: Profile, t: Uuid, head: Sha,
      descends: (Sha, Sha) -> bool, ghost heads: map<string, Sha>, ghost calm: bool)
    returns (signal: Signal, intent: bool)
    requires db.Holds(t) && remote.IsSound(heads) && Knows(heads, db.tasks[t].branch, head)
    requires calm ==> remote.plan == [] && Verified(ws, profile, db.tasks[t], head, descends)
                      && CanStartPublication(db.View(t).file, head, db.tasks[t].branch)
    modifies db, remote
    ensures remote.IsSound(heads) && remote.deeds == old(remote.deeds)
    ensures intent <==> signal.Done?
    ensures intent ==>
      && CanStartPublication(old(db.View(t)).file, head, old(db.tasks)[t].branch)
      && Became(old(db.Rows()), db.Rows(), t,
          Effect(old(db.View(t)), Op.StartPublication(head, old(db.tasks)[t].branch)))
      && Verified(ws, profile, old(db.tasks)[t], head, descends)
    ensures !intent ==> db.Rows() == old(db.Rows())
    ensures calm ==> intent && remote.plan == [] && remote.world == old(remote.world)
  {
    var task := db.tasks[t];
    intent := false;
    signal := remote.Quiet(heads);
    if !signal.Done? {
      return;
    }
    if !Verified(ws, profile, task, head, descends) {
      return Raised, false;
    }
    intent := db.StartPublication(t, head, task.branch);
    signal := if intent then Done else Raised;
  }

  /** The intent as the rest of the attempt needs it: taken, finalizable, and whether it was the first. */
  method IntendFirst(
      db: ControlPlaneDatabase, remote: Remote, ws: Workspace, profile: Profile, t: Uuid, head: Sha,
      descends: (Sha, Sha) -> bool, ghost heads: map<string, Sha>, ghost calm: bool)
    returns (signal: Signal, intent: bool, first: bool)
    requires db.Holds(t) && remote.IsSound(heads) && Knows(heads, db.tasks[t].branch, head)
    requires calm ==>
      remote.plan == [] && Publishes(db.View(t).file, remote.world, ws, profile, remote.repository, head, descends)
    modifies db, remote
    ensures remote.IsSound(heads) && remote.deeds == old(remote.deeds)
    ensures intent <==> signal.Done?
    ensures Took(old(db.Rows()), db.Rows(), t,
                 if intent then [Op.StartPublication(head, old(db.tasks)[t].branch)] else [], descends)
    ensures intent ==> (first <==> t !in old(db.publications))
    ensures calm ==> intent && remote.plan == [] && descends(old(db.tasks)[t].baseSha, head)
                     && CanFinalize(db.View(t).file, head, old(db.tasks)[t].branch, 1)
                     && Receptive(remote.world, remote.repository, old(db.tasks)[t], head, !first)
  {
    first := !(t in db.publications && db.publications[t].status in {InProgress, Unsuccessful});
    ghost var s0 := db.Rows();
    TookNothing(s0, t, descends);
    signal, intent := Intend(db, remote, ws, profile, t, head, descends, heads, calm);
    if intent {
      Intended(s0, db.Rows(), t, head, descends);
    }
  }

  /** After the intent: what was done outside, and the finalization if it came to that. */
  method Proceed(
      db: ControlPlaneDatabase, remote: Remote, t: Uuid, task: TaskRow, head: Sha, first: bool,
      descends: (Sha, Sha) -> bool,
      ghost heads: map<string, Sha>, ghost s0: Tables, ghost calm: bool)
    returns (signal: Signal, number: Option<nat>, ghost ops: seq<Op>)
    requires db.Holds(t) && remote.IsSound(heads) && Knows(heads, task.branch, head)
    requires Took(s0, db.Rows(), t, [Op.StartPublication(head, task.branch)], descends)
    requires calm ==>
      remote.plan == [] && descends(task.baseSha, head) && CanFinalize(db.View(t).file, head, task.branch, 1)
                      && Receptive(remote.world, remote.repository, task, head, !first)
    modifies db, remote
    ensures remote.IsSound(heads) && Took(s0, db.Rows(), t, ops, descends)
    ensures Witnessed(task, first, old(remote.deeds), remote.deeds, remote.repository, head, number, ops)
    ensures ops != [] && (signal.Done? ==> |ops| == 2) && (calm ==> signal.Done?)
  {
    ghost var s1 := db.Rows();
    var committed;
    signal, number, committed := CarryOut(db, remote, t, task, head, !first, descends, heads, s1, calm);
    ops := Committed(s0, s1, db.Rows(), t, task, head, number, committed, descends);
  }

  /** Up to its intent an attempt leaves the task row alone; finalized, the task is ready at the same head. */
  lemma AttemptLeaves(d: Draft, ops: seq<Op>, head: Sha, number: Option<nat>, descends: (Sha, Sha) -> bool)
    requires d.file.task.state == Archivist && d.file.task.currentHead == Some(head)
    requires AttemptOps(ops, d.file.task, head, number) && Permitted(d, ops, descends)
    ensures var c := After(d, ops).file;
      && (|ops| < 2 ==> c.task == d.file.task)
      && (|ops| == 2 ==> c.task == d.file.task.(state := ReadyForHumanMerge, publishedHead := Some(head)))
  {
    var start := [Op.StartPublication(head, d.file.task.branch)];
    if ops == start {
      assert Init(ops) == [];
    } else if ops != [] {
      InitOfAppend(start, Last(ops));
      assert Init(start) == [];
    }
  }

  lemma TookLeaves(
      s0: Tables, s: Tables, t: Uuid, ops: seq<Op>, head: Sha, number: Option<nat>, descends: (Sha, Sha) -> bool)
    requires Took(s0, s, t, ops, descends) && AttemptOps(ops, s0.tasks[t], head, number)
    requires s0.tasks[t].state == Archivist && s0.tasks[t].currentHead == Some(head)
    ensures TablesOk(s) && t in s.tasks && s.tasks[t].currentHead == Some(head)
  {
    AttemptLeaves(DraftOf(s0, t), ops, head, number, descends);
    assert s.tasks[t] == DraftOf(s, t).file.task;
  }

  method Attempt(
      db: ControlPlaneDatabase, remote: Remote, ws: Workspace, profile: Profile, t: Uuid, head: Sha,
      descends: (Sha, Sha) -> bool, ghost heads: map<string, Sha>, ghost calm: bool)
    returns (signal: Signal, intent: bool, number: Option<nat>, ghost ops: seq<Op>)
    requires db.Holds(t) && remote.IsSound(heads) && Knows(heads, db.tasks[t].branch, head)
    requires db.tasks[t].state == Archivist && db.tasks[t].currentHead == Some(head)
    requires calm ==>
      remote.plan == [] && Publishes(db.View(t).file, remote.world, ws, profile, remote.repository, head, descends)
    modifies db, remote
    ensures remote.IsSound(heads)
    ensures Took(old(db.Rows()), db.Rows(), t, ops, descends)
    ensures Witnessed(old(db.tasks)[t], t !in old(db.publications), old(remote.deeds), remote.deeds, remote.repository,
                      head, number, ops)
    ensures (intent <==> ops != []) && (signal.Done? ==> |ops| == 2)
    ensures db.Holds(t) && db.tasks[t].currentHead == Some(head)
    ensures calm ==> signal.Done?
  {
    var task := db.tasks[t];
    ghost var s0 := db.Rows();
    var first;
    number, ops := None, [];
    signal, intent, first := IntendFirst(db, remote, ws, profile, t, head, descends, heads, calm);
    if intent {
      signal, number, ops := Proceed(db, remote, t, task, head, first, descends, heads, s0, calm);
    }
    TookLeaves(s0, db.Rows(), t, ops, head, number, descends);
  }

  /* ---------- The locked publisher ---------- */

  datatype Publication =
    | Completed(number: nat)
    | AlreadyPublished
    | Refused
    | Abandoned(persisted: bool)
    | Disappeared

  /** A handled failure is recorded: against the intent once there is one, otherwise as a plain blocker. */
  method Compensate(
      db: ControlPlaneDatabase, t: Uuid, head: Sha, intent: bool, number: Option<nat>, detail: string,
      ghost s0: Tables, ghost ops: seq<Op>, descends: (Sha, Sha) -> bool)
    returns (persisted: bool, ghost added: seq<Op>)
    requires db.Holds(t) && Took(s0, db.Rows(), t, ops, descends) && number != Some(0)
    requires db.tasks[t].currentHead == Some(head)
    modifies db
    ensures Took(s0, db.Rows(), t, ops + added, descends)
    ensures AtMostCompensation(added) && (persisted <==> added != [])
    ensures persisted ==> if intent then added[0].FailPublication? else added[0].RecordBlocker?
    ensures !persisted ==> db.Rows() == old(db.Rows())
  {
    ghost var s1 := db.Rows();
    var branch := db.tasks[t].branch;
    added := [];
    if intent {
      persisted := db.FailPublication(t, detail, Some(head), Some(branch), number);
      if persisted {
        TookOneMore(s0, s1, db.Rows(), t, ops, Op.FailPublication(detail, Some(head), Some(branch), number), descends);
        added := [Op.FailPublication(detail, Some(head), Some(branch), number)];
      } else {
        assert ops + added == ops;
      }
    } else {
      persisted := db.RecordBlocker(t, Infrastructure, detail);
      TookOneMore(s0, s1, db.Rows(), t, ops, Op.RecordBlocker(Infrastructure, detail), descends);
      added := [Op.RecordBlocker(Infrastructure, detail)];
    }
  }

  /** The operations by which a task is published, or fails to be, or is unblocked. */
  predicate PublicationOps(ops: seq<Op>) {
    forall i :: 0 <= i < |ops| ==>
      || ops[i].StartPublication? || ops[i].FinalizePublication? || ops[i].FailPublication?
      || ops[i].RecordBlocker? || ops[i].ResolveBlocker?
  }

  /** Whatever became of the call afterwards, a finalization came after both observations of exactly that head. */
  predicate FinalizedProven(
      task: TaskRow, first: bool, before: seq<Deed>, deeds: seq<Deed>, repository: string, ops: seq<Op>)
  {
    forall i :: 0 <= i < |ops| && ops[i].FinalizePublication? ==>
      && task.currentHead == Some(ops[i].head) && ops[i].branch == task.branch
      && Proven(deeds, repository, task, ops[i].head, ops[i].number)
      && (first ==> PushedSince(before, deeds, task.branch, ops[i].head))
  }

  /** The outside effects of a whole call: intent first, never after a refusal, and proof before finalization. */
  predicate Accounted(
      outcome: Publication, task: TaskRow, first: bool, before: seq<Deed>, deeds: seq<Deed>, repository: string,
      ops: seq<Op>)
  {
    && before <= deeds && PublicationOps(ops)
    && (deeds != before ==> ops != [] && ops[0].StartPublication?)
    && (outcome.Refused? || outcome.AlreadyPublished? ==> ops == [])
    && FinalizedProven(task, first, before, deeds, repository, ops)
    && (outcome.Completed? ==> |ops| == 2 && ops[1].FinalizePublication? && ops[1].number == outcome.number)
    && (outcome == Abandoned(true) ==> ops != [] && (Last(ops).FailPublication? || Last(ops).RecordBlocker?))
  }

  /** An attempt that finalized is accounted for; so is any other, with or without a compensation. */
  lemma AttemptAccounted(
      task: TaskRow, first: bool, before: seq<Deed>, deeds: seq<Deed>, repository: string, head: Sha,
      number: Option<nat>, ops: seq<Op>, added: seq<Op>, outcome: Publication)
    requires Witnessed(task, first, before, deeds, repository, head, number, ops) && task.currentHead == Some(head)
    requires AtMostCompensation(added)
    requires !outcome.Refused? && !outcome.AlreadyPublished?
    requires outcome.Completed? ==> |ops| == 2 && added == [] && number == Some(outcome.number)
    requires outcome == Abandoned(true) ==> added != []
    ensures Accounted(outcome, task, first, before, deeds, repository, ops + added)
  {
    if added == [] {
      assert ops + added == ops;
    } else {
      assert Last(ops + added) == added[0];
    }
  }

  /** Nothing, or the one operation that records a failure. */
  predicate AtMostCompensation(added: seq<Op>) {
    added == [] || (|added| == 1 && (added[0].FailPublication? || added[0].RecordBlocker?))
  }

  /** The handler of a raised failure: it records it, unless it is itself cut short. */
  method Handle(
      db: ControlPlaneDatabase, remote: Remote, t: Uuid, head: Sha, intent: bool, number: Option<nat>, detail: string,
      ghost heads: map<string, Sha>, ghost s0: Tables, ghost ops: seq<Op>, descends: (Sha, Sha) -> bool)
    returns (outcome: Publication, ghost added: seq<Op>)
    requires db.Holds(t) && Took(s0, db.Rows(), t, ops, descends) && number != Some(0)
    requires db.tasks[t].currentHead == Some(head) && remote.IsSound(heads)
    modifies db, remote
    ensures remote.IsSound(heads) && remote.deeds == old(remote.deeds)
    ensures Took(s0, db.Rows(), t, ops + added, descends)
    ensures AtMostCompensation(added)
    ensures outcome.Disappeared? || outcome.Abandoned?
    ensures outcome == Abandoned(true) ==> added != []
  {
    var signal := remote.Quiet(heads);
    if signal.Done? {
      var persisted;
      persisted, added := Compensate(db, t, head, intent, number, detail, s0, ops, descends);
      outcome := Abandoned(persisted);
    } else {
      outcome, added := if signal.Raised? then Abandoned(false) else Disappeared, [];
      assert ops + added == ops;
    }
  }

  /** How an attempt ends: completed, gone, or handled. */
  method Finish(
      db: ControlPlaneDatabase, remote: Remote, t: Uuid, head: Sha, signal: Signal, intent: bool, number: Option<nat>,
      detail: string, ghost heads: map<string, Sha>, ghost s0: Tables, ghost ops: seq<Op>, descends: (Sha, Sha) -> bool)
    returns (outcome: Publication, ghost added: seq<Op>)
    requires db.Holds(t) && Took(s0, db.Rows(), t, ops, descends) && number != Some(0)
    requires db.tasks[t].currentHead == Some(head) && remote.IsSound(heads)
    requires signal.Done? ==> number.Some?
    modifies db, remote
    ensures remote.IsSound(heads) && remote.deeds == old(remote.deeds)
    ensures Took(s0, db.Rows(), t, ops + added, descends)
    ensures AtMostCompensation(added) && !outcome.Refused? && !outcome.AlreadyPublished?
    ensures outcome.Completed? <==> signal.Done?
    ensures outcome.Completed? ==> added == [] && number == Some(outcome.number)
    ensures outcome == Abandoned(true) ==> added != []
  {
    added := [];
    assert ops + added == ops;
    match signal {
      case Done => outcome := Completed(number.value);
      case Gone => outcome := Disappeared;
      case Raised => outcome, added := Handle(db, remote, t, head, intent, number, detail, heads, s0, ops, descends);
    }
  }

  /** The attempt, and after a handled failure its compensation, which may itself fail or be cut short. */
  method AttemptAndCompensate(
      db: ControlPlaneDatabase, remote: Remote, ws: Workspace, profile: Profile, t: Uuid, head: Sha, detail: string,
      descends: (Sha, Sha) -> bool, ghost heads: map<string, Sha>, ghost calm: bool)
    returns (outcome: Publication, number: Option<nat>, ghost ops: seq<Op>, ghost added: seq<Op>)
    requires db.Holds(t) && db.tasks[t].state == Archivist && db.tasks[t].currentHead == Some(head)
    requires remote.IsSound(heads) && Knows(heads, db.tasks[t].branch, head)
    requires calm ==>
      remote.plan == [] && Publishes(db.View(t).file, remote.world, ws, profile, remote.repository, head, descends)
    modifies db, remote
    ensures remote.IsSound(heads)
    ensures Took(old(db.Rows()), db.Rows(), t, ops + added, descends)
    ensures Witnessed(old(db.tasks)[t], t !in old(db.publications), old(remote.deeds), remote.deeds, remote.repository,
                      head, number, ops)
    ensures AtMostCompensation(added)
    ensures !outcome.Refused? && !outcome.AlreadyPublished?
    ensures outcome.Completed? ==> |ops| == 2 && added == [] && number == Some(outcome.number)
    ensures outcome == Abandoned(true) ==> added != []
    ensures calm ==> outcome.Completed?
  {
    ghost var s0 := db.Rows();
    var signal, intent;
    signal, intent, number, ops := Attempt(db, remote, ws, profile, t, head, descends, heads, calm);
    outcome, added := Finish(db, remote, t, head, signal, intent, number, detail, heads, s0, ops, descends);
  }

  method PublishEligible(
      db: ControlPlaneDatabase, remote: Remote, ws: Workspace, profile: Profile, t: Uuid, head: Sha, detail: string,
      descends: (Sha, Sha) -> bool, ghost heads: map<string, Sha>, ghost calm: bool)
    returns (outcome: Publication, ghost ops: seq<Op>)
    requires db.Holds(t) && db.tasks[t].state == Archivist && db.tasks[t].currentHead == Some(head)
    requires remote.IsSound(heads) && Knows(heads, db.tasks[t].branch, head)
    requires calm ==>
      remote.plan == [] && Publishes(db.View(t).file, remote.world, ws, profile, remote.repository, head, descends)
    modifies db, remote
    ensures remote.IsSound(heads) && Took(old(db.Rows()), db.Rows(), t, ops, descends)
    ensures Accounted(outcome, old(db.tasks)[t], t !in old(db.publications), old(remote.deeds), remote.deeds,
      remote.repository, ops)
    ensures !outcome.Refused? && !outcome.AlreadyPublished? && (calm ==> outcome.Completed?)
  {
    ghost var task, first, before := db.tasks[t], t !in db.publications, remote.deeds;
    var number;
    ghost var added;
    outcome, number, ops, added :=
      AttemptAndCompensate(db, remote, ws, profile, t, head, detail, descends, heads, calm);
    AttemptAccounted(task, first, before, remote.deeds, remote.repository, head, number, ops, added, outcome);
    ops := ops + added;
  }

  /** Nothing goes wrong and everything is in place. */
  predicate Unhindered(
      plan: seq<Turn>, c: CaseFile, world: World, ws: Workspace, profile: Profile, repository: string,
      descends: (Sha, Sha) -> bool)
    reads ws
  {
    && plan == [] && c.task.project == profile.slug && c.task.currentHead.Some?
    && Publishes(c, world, ws, profile, repository, c.task.currentHead.value, descends)
  }

  method PublishKnown(
      db: ControlPlaneDatabase, remote: Remote, ws: Workspace, profile: Profile, t: Uuid, detail: string,
      descends: (Sha, Sha) -> bool, ghost heads: map<string, Sha>)
    returns (outcome: Publication, ghost ops: seq<Op>)
    requires db.Holds(t) && remote.IsSound(heads)
    requires Publishable(db.View(t).file) ==> Knows(heads, db.tasks[t].branch, db.tasks[t].currentHead.value)
    modifies db, remote
    ensures remote.IsSound(heads) && Took(old(db.Rows()), db.Rows(), t, ops, descends)
    ensures Accounted(outcome, old(db.tasks)[t], t !in old(db.publications), old(remote.deeds), remote.deeds,
      remote.repository, ops)
    ensures !outcome.Refused? && !outcome.AlreadyPublished? ==> Publishable(old(db.View(t)).file)
    ensures old(Unhindered(remote.plan, db.View(t).file, remote.world, ws, profile, remote.repository, descends)) ==>
      outcome.Completed?
  {
    var c := db.View(t).file;
    ghost var calm := Unhindered(remote.plan, c, remote.world, ws, profile, remote.repository, descends);
    TookNothing(db.Rows(), t, descends);
    ops := [];
    if c.task.project != profile.slug {
      return Refused, ops;
    }
    if c.task.state == ReadyForHumanMerge && c.publication.Some? && c.publication.value.status == Published {
      return AlreadyPublished, ops;
    }
    if !Publishable(c) {
      return Refused, ops;
    }
    outcome, ops :=
      PublishEligible(db, remote, ws, profile, t, c.task.currentHead.value, detail, descends, heads, calm);
  }

  /** Publish one task: refuse what is not eligible, answer for what is already published, else attempt it. */
  method PublishTaskLocked(
      db: ControlPlaneDatabase, remote: Remote, ws: Workspace, profile: Profile, t: Uuid, detail: string,
      descends: (Sha, Sha) -> bool, ghost heads: map<string, Sha>)
    returns (outcome: Publication, ghost ops: seq<Op>)
    requires TablesOk(db.Rows()) && remote.IsSound(heads)
    requires t in db.tasks && Publishable(db.View(t).file) ==>
      Knows(heads, db.tasks[t].branch, db.tasks[t].currentHead.value)
    modifies db, remote
    ensures remote.IsSound(heads)
    ensures t !in old(db.tasks) ==> outcome.Refused? && db.Rows() == old(db.Rows()) && remote.deeds == old(remote.deeds)
    ensures t in old(db.tasks) ==>
      && Took(old(db.Rows()), db.Rows(), t, ops, descends)
      && Accounted(outcome, old(db.tasks)[t], t !in old(db.publications), old(remote.deeds), remote.deeds,
          remote.repository, ops)
    ensures t in old(db.tasks) && !outcome.Refused? && !outcome.AlreadyPublished? ==> Publishable(old(db.View(t)).file)
    ensures t in old(db.tasks)
            && old(Unhindered(remote.plan, db.View(t).file, remote.world, ws, profile, remote.repository, descends)) ==>
      outcome.Completed?
  {
    if t !in db.tasks {
      return Refused, [];
    }
    outcome, ops := PublishKnown(db, remote, ws, profile, t, detail, descends, heads);
  }
}
