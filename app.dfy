/** The session held by the top-level application: the ordered batch and
    order stores, the handlers that replace them (`onNewBatch`, `onBuy`,
    `onUpdateStatus`) and the role views derived from them by filtering. */
module App {

  import opened Types
  import opened JsArrays

  /** The farmer identity stamped on every batch the farmer portal creates. */
  const CurrentFarmer: string := "F1"
  /** The buyer identity written on every order. */
  const CurrentBuyer: string := "CURRENT_BUYER"
  /** Order ids are this prefix followed by a random base-36 suffix. */
  const OrderIdPrefix: string := "order-"

  /** What the farmer portal passes to `onNewBatch`: every batch field except
      `id`, `farmerId` and `price`. */
  datatype BatchDraft = BatchDraft(
    species: string,
    weight: real,
    harvestDate: string,
    status: BatchStatus,
    qualityGrade: string)

  /** `{ ...draft, id, farmerId: 'F1' }`. */
  function Registered(d: BatchDraft, id: string): HarvestBatch {
    HarvestBatch(id, CurrentFarmer, d.species, d.weight, d.harvestDate, d.status, None, Some(d.qualityGrade))
  }

  /** One step of `onBuy`'s `prev.map(...)`. */
  function SoldIfId(id: string): HarvestBatch -> HarvestBatch {
    (b: HarvestBatch) => if b.id == id then b.(status := Sold) else b
  }

  /** The batch store after buying `id`. */
  function MarkSold(bs: seq<HarvestBatch>, id: string): seq<HarvestBatch> {
    Map(SoldIfId(id), bs)
  }

  function HasId(id: string): HarvestBatch -> bool {
    (b: HarvestBatch) => b.id == id
  }

  function HasOtherId(id: string): HarvestBatch -> bool {
    (b: HarvestBatch) => b.id != id
  }

  /** `batches.find(b => b.id === id)?.weight || 0`. A weight of 0 falls back
      to 0 as well, so a found batch always contributes its weight. */
  function AmountFor(bs: seq<HarvestBatch>, id: string): real {
    match Find(HasId(id), bs)
    case Some(b) => if b.weight != 0.0 then b.weight else 0.0
    case None => 0.0
  }

  /** One step of `onUpdateStatus`'s `prev.map(...)`. */
  function StatusIfId(id: string, s: OrderStatus): Order -> Order {
    (o: Order) => if o.id == id then o.(status := s) else o
  }

  /** The order store after `onUpdateStatus(id, s)`. */
  function SetOrderStatus(os: seq<Order>, id: string, s: OrderStatus): seq<Order> {
    Map(StatusIfId(id, s), os)
  }

  function OrderHasOtherId(id: string): Order -> bool {
    (o: Order) => o.id != id
  }

  function OwnedByCurrentFarmer(b: HarvestBatch): bool { b.farmerId == CurrentFarmer }
  function IsApproved(b: HarvestBatch): bool { b.status == Approved }
  function IsPaid(o: Order): bool { o.status == Paid }

  /** What the farmer portal is given. */
  function FarmerView(bs: seq<HarvestBatch>): seq<HarvestBatch> { Filter(OwnedByCurrentFarmer, bs) }
  /** What the buyer portal is given. */
  function BuyerView(bs: seq<HarvestBatch>): seq<HarvestBatch> { Filter(IsApproved, bs) }
  /** What the logistics portal is given. */
  function LogisticsView(os: seq<Order>): seq<Order> { Filter(IsPaid, os) }

  /** No two batches share an id. */
  ghost predicate UniqueIds(bs: seq<HarvestBatch>) {
    forall i, j :: 0 <= i < j < |bs| ==> bs[i].id != bs[j].id
  }

  /** No batch status moves backwards along PENDING, APPROVED, SOLD, SHIPPED
      between `bs` and `bs'`. */
  ghost predicate StatusesMoveForward(bs: seq<HarvestBatch>, bs': seq<HarvestBatch>) {
    |bs| == |bs'| && forall i :: 0 <= i < |bs| ==> BatchRank(bs[i].status) <= BatchRank(bs'[i].status)
  }

  /** The session store: two ordered collections replaced by the handlers. */
  class SessionStore {
    var batches: seq<HarvestBatch>
    var orders: seq<Order>

    /** The session starts from the built-in fixtures. */
    constructor ()
      ensures batches == [
        HarvestBatch("batch-001", "F1", "Saccharina latissima", 450.0, "2024-03-01", Pending, None, None),
        HarvestBatch("batch-002", "F2", "Palmaria palmata", 200.0, "2024-02-28", Approved, Some(15.0), Some("A")),
        HarvestBatch("batch-003", "F1", "Porphyra umbilicalis", 120.0, "2024-03-05", Sold, Some(45.0), Some("AAA"))]
      ensures orders == [Order("order-001", "batch-003", "BUYER1", 120.0, Paid, "2024-03-06")]
    {
      batches := [
        HarvestBatch("batch-001", "F1", "Saccharina latissima", 450.0, "2024-03-01", Pending, None, None),
        HarvestBatch("batch-002", "F2", "Palmaria palmata", 200.0, "2024-02-28", Approved, Some(15.0), Some("A")),
        HarvestBatch("batch-003", "F1", "Porphyra umbilicalis", 120.0, "2024-03-05", Sold, Some(45.0), Some("AAA"))];
      orders := [Order("order-001", "batch-003", "BUYER1", 120.0, Paid, "2024-03-06")];
    }

    /** `onNewBatch`: append the draft under the generated `id` as farmer F1's. */
    method NewBatch(d: BatchDraft, id: string)
      modifies this
      ensures |batches| == |old(batches)| + 1
      ensures batches[..|old(batches)|] == old(batches)
      ensures batches[|old(batches)|] == Registered(d, id)
      ensures batches[|old(batches)|].id == id && batches[|old(batches)|].farmerId == CurrentFarmer
      ensures orders == old(orders)
    {
      batches := batches + [Registered(d, id)];
    }

    /** `onBuy`: flip every batch with that id to SOLD and append one PAID
        order for it, weighed from the batches as they were before the flip. */
    method Buy(id: string, orderSuffix: string, today: string)
      modifies this
      ensures batches == MarkSold(old(batches), id)
      ensures orders == old(orders) + [Order(OrderIdPrefix + orderSuffix, id, CurrentBuyer,
                                             AmountFor(old(batches), id), Paid, today)]
    {
      var amount := AmountFor(batches, id);
      batches := MarkSold(batches, id);
      orders := orders + [Order(OrderIdPrefix + orderSuffix, id, CurrentBuyer, amount, Paid, today)];
    }

    /** `onUpdateStatus`: set the status of every order with that id. */
    method UpdateOrderStatus(id: string, s: OrderStatus)
      modifies this
      ensures orders == SetOrderStatus(old(orders), id, s)
      ensures batches == old(batches)
    {
      orders := SetOrderStatus(orders, id, s);
    }

    /** The logistics portal's "Confirm Shipment" on row `k` of its view: it
        only ever sends SHIPPED, so the order leaves the view. */
    method ConfirmShipment(k: nat)
      requires k < |LogisticsView(orders)|
      modifies this
      ensures orders == SetOrderStatus(old(orders), old(LogisticsView(orders))[k].id, OrderShipped)
      ensures LogisticsView(orders) == Filter(OrderHasOtherId(old(LogisticsView(orders))[k].id), old(LogisticsView(orders)))
      ensures batches == old(batches)
    {
      var id := LogisticsView(orders)[k].id;
      LogisticsViewAfterStatusUpdate(orders, id, OrderShipped);
      UpdateOrderStatus(id, OrderShipped);
    }
  }

  /** The farmer view is exactly F1's batches, in store order. */
  lemma FarmerViewExact(bs: seq<HarvestBatch>)
    ensures forall b :: b in FarmerView(bs) <==> b in bs && b.farmerId == CurrentFarmer
    ensures IsSubsequence(FarmerView(bs), bs)
  {
    forall b { FilterMembership(OwnedByCurrentFarmer, bs, b); }
    FilterIsSubsequence(OwnedByCurrentFarmer, bs);
  }

  /** A newly created batch always shows up, last, in the farmer view. */
  lemma FarmerViewAfterNewBatch(bs: seq<HarvestBatch>, d: BatchDraft, id: string)
    ensures FarmerView(bs + [Registered(d, id)]) == FarmerView(bs) + [Registered(d, id)]
  {
    FilterAppend(OwnedByCurrentFarmer, bs, [Registered(d, id)]);
  }

  /** The buyer view is exactly the APPROVED batches, in store order. */
  lemma BuyerViewExact(bs: seq<HarvestBatch>)
    ensures forall b :: b in BuyerView(bs) <==> b in bs && b.status == Approved
    ensures IsSubsequence(BuyerView(bs), bs)
  {
    forall b { FilterMembership(IsApproved, bs, b); }
    FilterIsSubsequence(IsApproved, bs);
  }

  /** After buying `id`, the buyer view is the old one minus the batches with
      that id: the bought batch is gone and nothing else changes. */
  lemma {:induction false} BuyerViewAfterBuy(bs: seq<HarvestBatch>, id: string)
    ensures BuyerView(MarkSold(bs, id)) == Filter(HasOtherId(id), BuyerView(bs))
  {
    if bs != [] {
      BuyerViewAfterBuy(bs[1..], id);
      assert MarkSold(bs, id) == [SoldIfId(id)(bs[0])] + MarkSold(bs[1..], id);
    }
  }

  /** `onBuy` changes only the batches with that id, and those only in status. */
  lemma BuyChangesOnlyTarget(bs: seq<HarvestBatch>, id: string)
    ensures |MarkSold(bs, id)| == |bs|
    ensures forall i :: 0 <= i < |bs| && bs[i].id != id ==> MarkSold(bs, id)[i] == bs[i]
    ensures forall i :: 0 <= i < |bs| && bs[i].id == id ==>
              MarkSold(bs, id)[i].status == Sold && MarkSold(bs, id)[i] == bs[i].(status := Sold)
  {
  }

  /** The order's amount is the weight of the first batch with that id, or 0. */
  lemma AmountIsFirstMatchWeight(bs: seq<HarvestBatch>, id: string, k: nat)
    requires k < |bs| && bs[k].id == id && forall j :: 0 <= j < k ==> bs[j].id != id
    ensures AmountFor(bs, id) == bs[k].weight
  {
    var r := Find(HasId(id), bs);
    var k' :| 0 <= k' < |bs| && bs[k'] == r.value && HasId(id)(bs[k'])
              && forall j :: 0 <= j < k' ==> !HasId(id)(bs[j]);
    assert !(k' < k) && !(k < k');
  }

  lemma AmountWithoutMatch(bs: seq<HarvestBatch>, id: string)
    requires forall j :: 0 <= j < |bs| ==> bs[j].id != id
    ensures AmountFor(bs, id) == 0.0
  {
    assert Find(HasId(id), bs).None?;
  }

  /** Buying an id no batch has leaves the batches as they were, and the
      order appended for it has amount 0. */
  lemma BuyUnknownId(bs: seq<HarvestBatch>, id: string)
    requires forall j :: 0 <= j < |bs| ==> bs[j].id != id
    ensures MarkSold(bs, id) == bs
    ensures AmountFor(bs, id) == 0.0
  {
    AmountWithoutMatch(bs, id);
    assert forall i :: 0 <= i < |bs| ==> MarkSold(bs, id)[i] == bs[i];
  }

  /** Buying a batch offered in the buyer view (ids unique): that batch goes
      APPROVED to SOLD, every other batch is untouched, nothing moves back. */
  lemma GuardedBuyMovesForward(bs: seq<HarvestBatch>, k: nat)
    requires UniqueIds(bs) && k < |BuyerView(bs)|
    ensures StatusesMoveForward(bs, MarkSold(bs, BuyerView(bs)[k].id))
    ensures forall i :: 0 <= i < |bs| && bs[i].id == BuyerView(bs)[k].id ==>
              bs[i].status == Approved && MarkSold(bs, BuyerView(bs)[k].id)[i].status == Sold
  {
    var b := BuyerView(bs)[k];
    assert b in BuyerView(bs);
    FilterMembership(IsApproved, bs, b);
    var m :| 0 <= m < |bs| && bs[m] == b;
    forall i | 0 <= i < |bs| && bs[i].id == b.id
      ensures bs[i].status == Approved
    {
      assert i == m;
    }
  }

  /** The logistics view is exactly the PAID orders, in store order. */
  lemma LogisticsViewExact(os: seq<Order>)
    ensures forall o :: o in LogisticsView(os) <==> o in os && o.status == Paid
    ensures IsSubsequence(LogisticsView(os), os)
  {
    forall o { FilterMembership(IsPaid, os, o); }
    FilterIsSubsequence(IsPaid, os);
  }

  /** `onUpdateStatus` changes only the orders with that id, and only their status. */
  lemma UpdateStatusChangesOnlyTarget(os: seq<Order>, id: string, s: OrderStatus)
    ensures |SetOrderStatus(os, id, s)| == |os|
    ensures forall i :: 0 <= i < |os| && os[i].id != id ==> SetOrderStatus(os, id, s)[i] == os[i]
    ensures forall i :: 0 <= i < |os| && os[i].id == id ==> SetOrderStatus(os, id, s)[i] == os[i].(status := s)
  {
  }

  /** Moving an order to any status other than PAID takes it, and only it,
      out of the logistics view. */
  lemma {:induction false} LogisticsViewAfterStatusUpdate(os: seq<Order>, id: string, s: OrderStatus)
    requires s != Paid
    ensures LogisticsView(SetOrderStatus(os, id, s)) == Filter(OrderHasOtherId(id), LogisticsView(os))
  {
    if os != [] {
      LogisticsViewAfterStatusUpdate(os[1..], id, s);
      assert SetOrderStatus(os, id, s) == [StatusIfId(id, s)(os[0])] + SetOrderStatus(os[1..], id, s);
    }
  }
}
