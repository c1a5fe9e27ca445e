/** What the operations of publication attempts add up to: one head, every invariant, and proof before finalization. */
module PublicationRuns {
  import opened Schema
  import opened Queries
  import opened Reconciliation
  import opened Managed
  import opened Evidence
  import opened Invariants
  import opened Preservation
  import opened Relations
  import opened ControlPlane
  import opened Checkouts
  import opened Remotes
  import opened Publishing

  /** The task is at its publication: the head that was accepted last is the only one in play. */
  predicate AtPublication(task: TaskRow, head: Sha) {
    task.state in {Archivist, ReadyForHumanMerge} && task.currentHead == Some(head)
  }

  /** No operation of a publication moves the head, the branch or the base. */
  lemma {:induction false} PublicationKeepsHead(d: Draft, ops: seq<Op>, head: Sha)
    requires PublicationOps(ops) && AtPublication(d.file.task, head)
    ensures var task := After(d, ops).file.task;
      AtPublication(task, head) && task == d.file.task.(state := task.state, publishedHead := task.publishedHead)
  {
    if ops != [] {
      PublicationKeepsHead(d, Init(ops), head);
      var op := Last(ops);
      assert op == ops[|ops| - 1];
    }
  }

  /** Permitted operations keep every invariant. */
  lemma {:induction false} PermittedKeeps(d: Draft, ops: seq<Op>, descends: (Sha, Sha) -> bool)
    requires Consistent(d, descends) && Permitted(d, ops, descends)
    ensures Consistent(After(d, ops), descends)
  {
    if ops != [] {
      PermittedKeeps(d, Init(ops), descends);
      StepKeeps(After(d, Init(ops)), Last(ops), descends);
    }
  }

  /* ---------- Proof before finalization ---------- */

  /** At some point the head was seen on the branch and, next, on the open draft pull request with this number. */
  predicate ProvenIn(deeds: seq<Deed>, repository: string, task: TaskRow, head: Sha, number: nat) {
    exists i :: 1 <= i < |deeds| && ProvenAt(deeds, i, repository, task, head, number)
  }

  predicate ProvenAt(deeds: seq<Deed>, i: nat, repository: string, task: TaskRow, head: Sha, number: nat)
    requires 1 <= i < |deeds|
  {
    && deeds[i - 1] == SawRef(task.branch, Some(head))
    && deeds[i].SawPull? && deeds[i].number == number && Proves(deeds[i].pull, repository, task, head)
  }

  lemma ProvenNow(deeds: seq<Deed>, repository: string, task: TaskRow, head: Sha, number: nat)
    requires Proven(deeds, repository, task, head, number)
    ensures ProvenIn(deeds, repository, task, head, number)
  {
    assert ProvenAt(deeds, |deeds| - 1, repository, task, head, number);
  }

  /** A proof is kept by later deeds, and speaks of any row of the task with the same branch and base. */
  lemma ProvenStays(
      deeds: seq<Deed>, more: seq<Deed>, repository: string, task: TaskRow, later: TaskRow, head: Sha, number: nat)
    requires ProvenIn(deeds, repository, task, head, number) && deeds <= more
    requires later.branch == task.branch && later.baseRef == task.baseRef
    ensures ProvenIn(more, repository, later, head, number)
  {
    var i :| 1 <= i < |deeds| && ProvenAt(deeds, i, repository, task, head, number);
    assert more[i] == deeds[i] && more[i - 1] == deeds[i - 1];
    assert ProvenAt(more, i, repository, later, head, number);
  }

  /** Every finalization among the operations was of this head and came after its proof. */
  predicate AllProven(ops: seq<Op>, deeds: seq<Deed>, repository: string, task: TaskRow, head: Sha) {
    forall i :: 0 <= i < |ops| && ops[i].FinalizePublication? ==>
      ops[i].head == head && ProvenIn(deeds, repository, task, head, ops[i].number)
  }

  lemma AttemptIsProven(
      outcome: Publication, task: TaskRow, first: bool, before: seq<Deed>, deeds: seq<Deed>, repository: string,
      ops: seq<Op>, head: Sha)
    requires Accounted(outcome, task, first, before, deeds, repository, ops) && task.currentHead == Some(head)
    ensures AllProven(ops, deeds, repository, task, head)
  {
    forall i | 0 <= i < |ops| && ops[i].FinalizePublication?
      ensures ops[i].head == head && ProvenIn(deeds, repository, task, head, ops[i].number)
    {
      ProvenNow(deeds, repository, task, head, ops[i].number);
    }
  }

  /** The publication row is the one this operation leaves. */
  predicate FinalizedBy(c: CaseFile, op: Op) {
    op.FinalizePublication?
      && c.publication == Some(PublicationRow(Some(op.head), Some(op.branch), Some(op.number), Published))
  }

  /**
   A task that publication operations brought from ARCHIVIST to ready carries the row of one of their finalizations.
   */
  lemma {:induction false} ReadyWasFinalized(
      d: Draft, ops: seq<Op>, head: Sha, descends: (Sha, Sha) -> bool)
    returns (k: nat)
    requires Permitted(d, ops, descends) && PublicationOps(ops) && AtPublication(d.file.task, head)
    requires d.file.task.state == Archivist && After(d, ops).file.task.state == ReadyForHumanMerge
    ensures k < |ops| && FinalizedBy(After(d, ops).file, ops[k])
  {
    var op, init := Last(ops), Init(ops);
    assert op == ops[|ops| - 1];
    PublicationKeepsHead(d, init, head);
    if After(d, init).file.task.state == ReadyForHumanMerge {
      k := ReadyWasFinalized(d, init, head, descends);
      assert init[k] == ops[k];
    } else {
      k := |ops| - 1;
    }
  }

  /** What is recorded of a published task was proved before it was recorded. */
  predicate RecordedProof(c: CaseFile, deeds: seq<Deed>, repository: string) {
    && c.task.currentHead.Some? && c.publication.Some? && c.publication.value.pr.Some?
    && c.publication == Some(PublicationRow(c.task.currentHead, Some(c.task.branch), c.publication.value.pr, Published))
    && ProvenIn(deeds, repository, c.task, c.task.currentHead.value, c.publication.value.pr.value)
  }

  lemma ReadyIsProven(
      d: Draft, ops: seq<Op>, deeds: seq<Deed>, repository: string, head: Sha, descends: (Sha, Sha) -> bool)
    requires Consistent(d, descends) && Permitted(d, ops, descends) && PublicationOps(ops)
      && AtPublication(d.file.task, head)
    requires AllProven(ops, deeds, repository, d.file.task, head)
    requires d.file.task.state == Archivist && After(d, ops).file.task.state == ReadyForHumanMerge
    ensures RecordedProof(After(d, ops).file, deeds, repository)
  {
    var k := ReadyWasFinalized(d, ops, head, descends);
    PublicationKeepsHead(d, ops, head);
    PermittedKeeps(d, ops, descends);
    ProvenStays(deeds, deeds, repository, d.file.task, After(d, ops).file.task, head, ops[k].number);
  }
}
