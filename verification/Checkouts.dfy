/** The retained Git checkout of one task, with the marker and the outboxes that live beside it. */
module Checkouts {
  import opened Schema
  import opened Results

  datatype Profile = Profile(slug: string, remote: string)

  /** The preparation marker; the run is filled in once an attempt has been allocated and staged. */
  datatype Marker = Marker(task: Uuid, branch: string, selected: Sha, run: Option<Uuid>)

  class Workspace {
    const name: string
    var remote: string
    var branch: string
    var head: Sha
    var dirty: bool
    var commits: set<Sha>
    var marker: Option<Marker>
    /** What each run's outbox holds; the Architect writes it. */
    var outbox: map<Uuid, LifecycleResult>

    constructor (name: string, remote: string, branch: string, head: Sha)
      ensures this.name == name && this.remote == remote && this.branch == branch && this.head == head
      ensures !dirty && commits == {head} && marker == None && outbox == map[]
    {
      this.name, this.remote, this.branch, this.head := name, remote, branch, head;
      dirty, commits, marker, outbox := false, {head}, None, map[];
    }

    /** git switch -C branch commit, from a clean checkout. */
    method Switch(branch: string, commit: Sha)
      modifies this`branch, this`head
      ensures this.branch == branch && head == commit
    {
      this.branch, head := branch, commit;
    }
  }

  datatype Checkout = Checkout(remote: string, branch: string, head: Sha, dirty: bool, commits: set<Sha>)

  function CheckoutOf(ws: Workspace): Checkout
    reads ws
  {
    Checkout(ws.remote, ws.branch, ws.head, ws.dirty, ws.commits)
  }

  /** Repository, branch, cleanliness, HEAD and base ancestry. */
  predicate GitTruth(ws: Workspace, profile: Profile, task: TaskRow, descends: (Sha, Sha) -> bool)
    reads ws
  {
    && ws.remote == profile.remote && ws.branch == task.branch && !ws.dirty
    && descends(task.baseSha, ws.head)
  }
}
