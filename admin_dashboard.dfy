/** The admin dashboard's batch approval: `approveBatch` stamps fixed
    grade and price on every batch with the id, and the "Queued Approvals"
    table lists the PENDING batches, offering Validate on each row. */
module AdminDashboard {

  import opened Types
  import opened JsArrays
  import opened App

  /** The grade and unit price every approval assigns. */
  const ApprovalGrade: string := "A"
  const ApprovalPrice: real := 12.5

  /** One step of `approveBatch`'s `prev.map(...)`. */
  function ApproveIfId(id: string): HarvestBatch -> HarvestBatch {
    (b: HarvestBatch) =>
      if b.id == id then b.(status := Approved, qualityGrade := Some(ApprovalGrade), price := Some(ApprovalPrice))
      else b
  }

  /** The batch store after `approveBatch(id)`. */
  function Approve(bs: seq<HarvestBatch>, id: string): seq<HarvestBatch> {
    Map(ApproveIfId(id), bs)
  }

  function IsPending(b: HarvestBatch): bool { b.status == Pending }

  /** The rows of the "Queued Approvals" table. */
  function PendingQueue(bs: seq<HarvestBatch>): seq<HarvestBatch> { Filter(IsPending, bs) }

  /** The "Queue Purged & Validated" row is shown exactly when the queue is empty. */
  function ShowsEmptyQueueRow(bs: seq<HarvestBatch>): (shown: bool)
    ensures shown <==> forall i :: 0 <= i < |bs| ==> bs[i].status != Pending
  {
    FilterEmpty(IsPending, bs);
    |PendingQueue(bs)| == 0
  }

  /** `approveBatch`, replacing the session's batches. */
  method ApproveBatch(store: SessionStore, id: string)
    modifies store
    ensures store.batches == Approve(old(store.batches), id)
    ensures store.orders == old(store.orders)
  {
    store.batches := Approve(store.batches, id);
  }

  /** The Validate button on row `k` of the queue. */
  method ValidateRow(store: SessionStore, k: nat)
    requires k < |PendingQueue(store.batches)|
    modifies store
    ensures store.batches == Approve(old(store.batches), old(PendingQueue(store.batches))[k].id)
    ensures PendingQueue(store.batches) ==
              Filter(HasOtherId(old(PendingQueue(store.batches))[k].id), old(PendingQueue(store.batches)))
    ensures store.orders == old(store.orders)
  {
    var id := PendingQueue(store.batches)[k].id;
    PendingQueueAfterApprove(store.batches, id);
    ApproveBatch(store, id);
  }

  /** A matching batch becomes APPROVED with grade A and price 12.5; every
      other batch, and the number of batches, stay as they were. */
  lemma ApproveEffect(bs: seq<HarvestBatch>, id: string)
    ensures |Approve(bs, id)| == |bs|
    ensures forall i :: 0 <= i < |bs| && bs[i].id == id ==>
              Approve(bs, id)[i].status == Approved && Approve(bs, id)[i].qualityGrade == Some("A")
              && Approve(bs, id)[i].price == Some(12.5)
              && Approve(bs, id)[i] == bs[i].(status := Approved, qualityGrade := Some("A"), price := Some(12.5))
    ensures forall i :: 0 <= i < |bs| && bs[i].id != id ==> Approve(bs, id)[i] == bs[i]
  {
  }

  /** Approving an id no batch has leaves the store unchanged. */
  lemma ApproveUnknownId(bs: seq<HarvestBatch>, id: string)
    requires forall i :: 0 <= i < |bs| ==> bs[i].id != id
    ensures Approve(bs, id) == bs
  {
    assert forall i :: 0 <= i < |bs| ==> Approve(bs, id)[i] == bs[i];
  }

  /** Approving twice is approving once. */
  lemma ApproveIdempotent(bs: seq<HarvestBatch>, id: string)
    ensures Approve(Approve(bs, id), id) == Approve(bs, id)
  {
    var once := Approve(bs, id);
    assert forall i :: 0 <= i < |once| ==> Approve(once, id)[i] == once[i];
  }

  /** The queue lists exactly the PENDING batches, in store order. */
  lemma PendingQueueExact(bs: seq<HarvestBatch>)
    ensures forall b :: b in PendingQueue(bs) <==> b in bs && b.status == Pending
    ensures IsSubsequence(PendingQueue(bs), bs)
  {
    forall b { FilterMembership(IsPending, bs, b); }
    FilterIsSubsequence(IsPending, bs);
  }

  /** After approving `id`, the queue is the old queue without the rows of that id. */
  lemma {:induction false} PendingQueueAfterApprove(bs: seq<HarvestBatch>, id: string)
    ensures PendingQueue(Approve(bs, id)) == Filter(HasOtherId(id), PendingQueue(bs))
  {
    if bs != [] {
      PendingQueueAfterApprove(bs[1..], id);
      assert Approve(bs, id) == [ApproveIfId(id)(bs[0])] + Approve(bs[1..], id);
    }
  }

  /** Approval driven from the queue (ids unique) only moves the chosen batch
      from PENDING to APPROVED; nothing moves backwards. */
  lemma GuardedApproveMovesForward(bs: seq<HarvestBatch>, k: nat)
    requires UniqueIds(bs) && k < |PendingQueue(bs)|
    ensures StatusesMoveForward(bs, Approve(bs, PendingQueue(bs)[k].id))
    ensures forall i :: 0 <= i < |bs| && bs[i].id == PendingQueue(bs)[k].id ==>
              bs[i].status == Pending && Approve(bs, PendingQueue(bs)[k].id)[i].status == Approved
  {
    var b := PendingQueue(bs)[k];
    assert b in PendingQueue(bs);
    FilterMembership(IsPending, bs, b);
    var m :| 0 <= m < |bs| && bs[m] == b;
    forall i | 0 <= i < |bs| && bs[i].id == b.id
      ensures bs[i].status == Pending
    {
      assert i == m;
    }
  }

  /** The handler itself does not look at the status: approving a SOLD
      batch's id moves it back to APPROVED. Only the queue prevents this. */
  lemma UnguardedApproveCanMoveBackward()
    ensures var bs := [HarvestBatch("batch-003", "F1", "Porphyra umbilicalis", 120.0, "2024-03-05", Sold, Some(45.0), Some("AAA"))];
            !StatusesMoveForward(bs, Approve(bs, "batch-003"))
  {
    var bs := [HarvestBatch("batch-003", "F1", "Porphyra umbilicalis", 120.0, "2024-03-05", Sold, Some(45.0), Some("AAA"))];
    assert Approve(bs, "batch-003")[0].status == Approved;
  }
}
