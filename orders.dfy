/** The order service: looking an order up (optionally only among a user's own orders), the
    order-status whitelist, the two ways of setting the payment fields, the cancellation
    state machine, and the order statistics with the revenue. */
module Orders {
  import opened Common
  import opened Collections
  import opened PaymentRecords

  const Placed := "placed"
  const Shipped := "shipped"
  const OutForDelivery := "out_for_delivery"
  const Delivered := "delivered"
  const Cancelled := "cancelled"

  /** The statuses `updateStatus` accepts. */
  const ValidStatuses := [Placed, Shipped, OutForDelivery, Delivered, Cancelled]

  /** The payment statuses `calculatePaymentStatus` derives. */
  const PaymentPending := "pending"
  const PaymentPaid := "paid"
  const PartiallyPaid := "partially_paid"

  const InvalidStatus := "Invalid order status"
  const CannotCancelFinished := "Cannot cancel delivered or already cancelled orders"
  const CannotCancelShipped := "Cannot cancel orders that are already shipped"

  /** The fields of an order document the service reads or writes; `paymentRecords` holds
      the ids of the order's payment records. */
  datatype Order = Order(
    id: string,
    userId: string,
    status: string,
    paymentStatus: string,
    totalAmount: int,
    paidAmount: int,
    dueAmount: int,
    paymentRecords: seq<string>)

  datatype OrderStats = OrderStats(total: nat, placed: nat, shipped: nat, delivered: nat, cancelled: nat, totalRevenue: int)

  function OrderNotFound(id: string): Error {
    NotFound("Order with ID " + id + " not found")
  }

  /** The owner filter is added only for a user id that is given and not empty. */
  predicate OwnerGiven(userId: Option<string>) {
    userId.Some? && userId.value != ""
  }

  /** The query `{ _id: id, userId? }`. */
  predicate Selects(o: Order, id: string, userId: Option<string>) {
    o.id == id && (OwnerGiven(userId) ==> o.userId == userId.value)
  }

  /** The position of the first order the query selects, or -1. */
  function Locate(orders: seq<Order>, id: string, userId: Option<string>): (i: int)
    ensures -1 <= i < |orders|
    ensures i == -1 <==> forall k :: 0 <= k < |orders| ==> !Selects(orders[k], id, userId)
    ensures 0 <= i ==> Selects(orders[i], id, userId) && forall k :: 0 <= k < i ==> !Selects(orders[k], id, userId)
  {
    FindIndex(orders, (o: Order) => Selects(o, id, userId))
  }

  /** `findOne(id, userId?)`: with an owner given, only that user's order is found. */
  function FindOne(orders: seq<Order>, id: string, userId: Option<string>): (r: Result<Order>)
    ensures r.Ok? <==> exists k :: 0 <= k < |orders| && Selects(orders[k], id, userId)
    ensures r.Ok? ==> r.value in orders && r.value.id == id
    ensures r.Ok? && OwnerGiven(userId) ==> r.value.userId == userId.value
    ensures r.Err? ==> r.error == OrderNotFound(id)
  {
    var i := Locate(orders, id, userId);
    if i == -1 then Err(OrderNotFound(id)) else Ok(orders[i])
  }

  /** Every order has a status `updateStatus` accepts. */
  predicate AllStatusesValid(orders: seq<Order>) {
    forall k :: 0 <= k < |orders| ==> orders[k].status in ValidStatuses
  }

  // ---------------------------------------------------------------- payment fields

  /** `updatePaymentStatus` on one order: the payment status is replaced; the amounts change
      only when a paid amount is given, and then the due amount is what remains. */
  function WithPayment(o: Order, paymentStatus: string, paidAmount: Option<int>): (r: Order)
    ensures r.paymentStatus == paymentStatus
    ensures paidAmount.Some? ==> r.paidAmount == paidAmount.value && r.paidAmount + r.dueAmount == r.totalAmount
    ensures paidAmount.None? ==> r.paidAmount == o.paidAmount && r.dueAmount == o.dueAmount
    ensures r.(paymentStatus := o.paymentStatus, paidAmount := o.paidAmount, dueAmount := o.dueAmount) == o
  {
    var o' := o.(paymentStatus := paymentStatus);
    if paidAmount.Some? then o'.(paidAmount := paidAmount.value, dueAmount := o.totalAmount - paidAmount.value)
    else o'
  }

  /** The ids of some records, in their order. */
  function IdsOf(rs: seq<PaymentRecord>): (ids: seq<string>)
    ensures |ids| == |rs| && forall k :: 0 <= k < |rs| ==> ids[k] == rs[k].id
  {
    seq(|rs|, k requires 0 <= k < |rs| => rs[k].id)
  }

  /** The ids that have a payment record. */
  function StoredIn(records: seq<PaymentRecord>): string -> bool {
    (id: string) => IndexOf(records, id) >= 0
  }

  /** `.populate('paymentRecords')`: the records the ids refer to, in the order of the ids;
      an id with no record is dropped, and each id gives the first record that has it. */
  function Populate(ids: seq<string>, records: seq<PaymentRecord>): (r: seq<PaymentRecord>)
    ensures |r| <= |ids|
    ensures forall k :: 0 <= k < |r| ==> r[k] in records && r[k].id in ids
    ensures IdsOf(r) == Filter(ids, StoredIn(records))
    ensures FirstOfEach(r, records)
    decreases |ids|
  {
    if |ids| == 0 then []
    else
      var i := IndexOf(records, ids[0]);
      var rest := Populate(ids[1..], records);
      var head := if i == -1 then [] else [records[i]];
      PopulateStepIds(ids, records, head, rest);
      FirstOfEachAppend(head, rest, records);
      PopulateStepMembers(ids, records, head, rest);
      head + rest
  }

  /** One step of `Populate`: the ids of the record of the first id, if any, followed by the
      ids of the rest, are the stored ids among all the ids. */
  lemma PopulateStepIds(ids: seq<string>, records: seq<PaymentRecord>, head: seq<PaymentRecord>, rest: seq<PaymentRecord>)
    requires |ids| > 0
    requires head == (if IndexOf(records, ids[0]) == -1 then [] else [records[IndexOf(records, ids[0])]])
    requires IdsOf(rest) == Filter(ids[1..], StoredIn(records))
    ensures IdsOf(head + rest) == Filter(ids, StoredIn(records))
  {
    FilterHead(ids, StoredIn(records));
    HeadIds(records, ids[0], head);
    IdsOfAppend(head, rest);
  }

  lemma HeadIds(records: seq<PaymentRecord>, x: string, head: seq<PaymentRecord>)
    requires head == (if IndexOf(records, x) == -1 then [] else [records[IndexOf(records, x)]])
    ensures IdsOf(head) == (if StoredIn(records)(x) then [x] else [])
  {
    if IndexOf(records, x) == -1 {
      assert head == [];
    } else {
      assert head == [records[IndexOf(records, x)]];
    }
  }

  /** One step of `Populate`: the records found are stored and have ids asked for. */
  lemma PopulateStepMembers(ids: seq<string>, records: seq<PaymentRecord>, head: seq<PaymentRecord>, rest: seq<PaymentRecord>)
    requires |ids| > 0
    requires head == (if IndexOf(records, ids[0]) == -1 then [] else [records[IndexOf(records, ids[0])]])
    requires forall k :: 0 <= k < |rest| ==> rest[k] in records && rest[k].id in ids[1..]
    ensures forall k :: 0 <= k < |head + rest| ==> (head + rest)[k] in records && (head + rest)[k].id in ids
  {
    assert ids == [ids[0]] + ids[1..];
    forall k | 0 <= k < |head + rest|
      ensures (head + rest)[k] in records && (head + rest)[k].id in ids
    {
      if k < |head| { assert (head + rest)[k] == head[k]; } else { assert (head + rest)[k] == rest[k - |head|]; }
    }
  }

  lemma IdsOfAppend(a: seq<PaymentRecord>, b: seq<PaymentRecord>)
    ensures IdsOf(a + b) == IdsOf(a) + IdsOf(b)
  {
  }

  /** Each of `rs` is the first record that has its id. */
  predicate FirstOfEach(rs: seq<PaymentRecord>, records: seq<PaymentRecord>) {
    forall k :: 0 <= k < |rs| ==> IndexOf(records, rs[k].id) >= 0 && rs[k] == records[IndexOf(records, rs[k].id)]
  }

  lemma FirstOfEachAppend(a: seq<PaymentRecord>, b: seq<PaymentRecord>, records: seq<PaymentRecord>)
    requires FirstOfEach(a, records) && FirstOfEach(b, records)
    ensures FirstOfEach(a + b, records)
  {
    forall k | 0 <= k < |a + b|
      ensures IndexOf(records, (a + b)[k].id) >= 0 && (a + b)[k] == records[IndexOf(records, (a + b)[k].id)]
    {
      if k < |a| { assert (a + b)[k] == a[k]; } else { assert (a + b)[k] == b[k - |a|]; }
    }
  }

  /** The sum of the amounts of the order's paid records. */
  function TotalPaid(o: Order, records: seq<PaymentRecord>): int {
    PaidTotal(Populate(o.paymentRecords, records))
  }

  /** The payment status derived from what has been paid: pending when nothing has, paid when
      the total is covered, partially paid otherwise. */
  function PaymentStatusFor(totalPaid: int, totalAmount: int): (status: string)
    ensures status in {PaymentPending, PaymentPaid, PartiallyPaid}
    ensures status == PaymentPending <==> totalPaid == 0
    ensures status == PaymentPaid <==> totalPaid != 0 && totalPaid >= totalAmount
    ensures status == PartiallyPaid <==> totalPaid != 0 && totalPaid < totalAmount
  {
    if totalPaid == 0 then PaymentPending
    else if totalPaid >= totalAmount then PaymentPaid
    else PartiallyPaid
  }

  /** `calculatePaymentStatus` on one order: the paid amount is the sum over its paid
      records, the due amount what remains, and the payment status derived from them. */
  function Recalculate(o: Order, records: seq<PaymentRecord>): (r: Order)
    ensures r.paidAmount == TotalPaid(o, records)
    ensures r.paidAmount + r.dueAmount == r.totalAmount
    ensures r.paymentStatus == PaymentPaid <==> r.paidAmount != 0 && r.dueAmount <= 0
    ensures r.paymentStatus == PaymentPending <==> r.paidAmount == 0
    ensures r.paymentStatus == PartiallyPaid <==> r.paidAmount != 0 && r.dueAmount > 0
    ensures r.paymentStatus in {PaymentPending, PaymentPaid, PartiallyPaid}
    ensures r.(paymentStatus := o.paymentStatus, paidAmount := o.paidAmount, dueAmount := o.dueAmount) == o
  {
    var paid := TotalPaid(o, records);
    o.(paidAmount := paid, dueAmount := o.totalAmount - paid, paymentStatus := PaymentStatusFor(paid, o.totalAmount))
  }

  /** Recalculating twice against the same records changes nothing the first did not. */
  lemma RecalculateIdempotent(o: Order, records: seq<PaymentRecord>)
    ensures Recalculate(Recalculate(o, records), records) == Recalculate(o, records)
  {
  }

  /** With non-negative record amounts the paid amount is never negative, and an order
      that still has something due is never reported paid. */
  lemma RecalculateWithNonNegativeAmounts(o: Order, records: seq<PaymentRecord>)
    requires forall k :: 0 <= k < |records| ==> records[k].amount >= 0
    ensures Recalculate(o, records).paidAmount >= 0
    ensures Recalculate(o, records).dueAmount > 0 ==> Recalculate(o, records).paymentStatus != PaymentPaid
  {
    var populated := Populate(o.paymentRecords, records);
    assert forall k :: 0 <= k < |populated| ==> populated[k] in records;
    PaidTotalNonNegative(populated);
  }

  // ---------------------------------------------------------------- cancellation

  /** Whether `cancel` lets an order in this status be cancelled. */
  predicate Cancellable(status: string) {
    status !in {Delivered, Cancelled, Shipped, OutForDelivery}
  }

  /** `cancel` on one order: delivered and cancelled orders are refused, then shipped and out
      for delivery ones; any other order becomes cancelled and nothing else changes. */
  function CancelOrder(o: Order): (r: Result<Order>)
    ensures r.Ok? <==> Cancellable(o.status)
    ensures r.Ok? ==> r.value == o.(status := Cancelled)
    ensures o.status in {Delivered, Cancelled} ==> r == Err(BadRequest(CannotCancelFinished))
    ensures o.status in {Shipped, OutForDelivery} ==> r == Err(BadRequest(CannotCancelShipped))
  {
    if o.status in {Delivered, Cancelled} then Err(BadRequest(CannotCancelFinished))
    else if o.status == Shipped || o.status == OutForDelivery then Err(BadRequest(CannotCancelShipped))
    else Ok(o.(status := Cancelled))
  }

  /** A cancelled order cannot be cancelled again. */
  lemma CancelIsFinal(o: Order)
    requires CancelOrder(o).Ok?
    ensures CancelOrder(CancelOrder(o).value) == Err(BadRequest(CannotCancelFinished))
  {
  }

  // ---------------------------------------------------------------- statistics

  /** `countDocuments({ status })` */
  function WithOrderStatus(orders: seq<Order>, status: string): seq<Order> {
    Filter(orders, (o: Order) => o.status == status)
  }

  /** The orders in none of the four statuses the statistics count. */
  function OtherStatuses(orders: seq<Order>): seq<Order> {
    Filter(orders, (o: Order) => o.status !in {Placed, Shipped, Delivered, Cancelled})
  }

  function PaidOrders(orders: seq<Order>): seq<Order> {
    Filter(orders, (o: Order) => o.paymentStatus == PaymentPaid)
  }

  function TotalAmount(o: Order): int { o.totalAmount }

  /** The `$sum` of `totalAmount` over paid orders (0 when there are none). */
  function Revenue(orders: seq<Order>): int {
    SumOf(PaidOrders(orders), TotalAmount)
  }

  /** `getStats`: the number of orders, the number placed, shipped, delivered or cancelled,
      and the revenue from paid orders. */
  function GetStats(orders: seq<Order>): (st: OrderStats)
    ensures st.total == |orders|
    ensures st.placed + st.shipped + st.delivered + st.cancelled <= st.total
    ensures st.placed == |WithOrderStatus(orders, Placed)| && st.shipped == |WithOrderStatus(orders, Shipped)|
    ensures st.delivered == |WithOrderStatus(orders, Delivered)| && st.cancelled == |WithOrderStatus(orders, Cancelled)|
    ensures st.totalRevenue == Revenue(orders)
    ensures (forall k :: 0 <= k < |orders| ==> orders[k].totalAmount >= 0) ==> st.totalRevenue >= 0
  {
    OrderCountsPartition(orders);
    RevenueNonNegative(orders);
    OrderStats(|orders|, |WithOrderStatus(orders, Placed)|, |WithOrderStatus(orders, Shipped)|,
               |WithOrderStatus(orders, Delivered)|, |WithOrderStatus(orders, Cancelled)|, Revenue(orders))
  }

  lemma {:induction false} OrderCountsPartition(orders: seq<Order>)
    ensures |WithOrderStatus(orders, Placed)| + |WithOrderStatus(orders, Shipped)| + |WithOrderStatus(orders, Delivered)|
          + |WithOrderStatus(orders, Cancelled)| + |OtherStatuses(orders)| == |orders|
    decreases |orders|
  {
    if |orders| > 0 {
      OrderCountsPartition(orders[1..]);
    }
  }

  lemma RevenueNonNegative(orders: seq<Order>)
    ensures (forall k :: 0 <= k < |orders| ==> orders[k].totalAmount >= 0) ==> Revenue(orders) >= 0
  {
    var paid := PaidOrders(orders);
    if forall k :: 0 <= k < |orders| ==> orders[k].totalAmount >= 0 {
      forall k | 0 <= k < |paid|
        ensures TotalAmount(paid[k]) >= 0
      {
        assert paid[k] in orders;
      }
    }
  }

  /** Cancelling an order moves it into the cancelled count and leaves the revenue alone. */
  lemma CancelMovesCount(orders: seq<Order>, i: int)
    requires 0 <= i < |orders| && CancelOrder(orders[i]).Ok?
    ensures var t := orders[i := CancelOrder(orders[i]).value];
            && |WithOrderStatus(t, Cancelled)| == |WithOrderStatus(orders, Cancelled)| + 1
            && Revenue(t) == Revenue(orders)
  {
    var x := CancelOrder(orders[i]).value;
    FilterUpdate(orders, i, x, (o: Order) => o.status == Cancelled, TotalAmount);
    FilterUpdate(orders, i, x, (o: Order) => o.paymentStatus == PaymentPaid, TotalAmount);
  }

  // ---------------------------------------------------------------- the collection

  class OrderCollection {
    var orders: seq<Order>

    constructor (orders: seq<Order>)
      ensures this.orders == orders
    {
      this.orders := orders;
    }

    /** `updateStatus(id, status)`: a status outside the whitelist is refused before the
        lookup; otherwise the order's status is replaced. */
    method UpdateStatus(id: string, status: string) returns (r: Result<Order>)
      modifies this
      ensures status !in ValidStatuses ==> r == Err(BadRequest(InvalidStatus)) && orders == old(orders)
      ensures status in ValidStatuses && Locate(old(orders), id, None) == -1 ==>
                r == Err(OrderNotFound(id)) && orders == old(orders)
      ensures status in ValidStatuses && Locate(old(orders), id, None) >= 0 ==>
                var i := Locate(old(orders), id, None);
                && orders == old(orders)[i := old(orders)[i].(status := status)]
                && r == Ok(orders[i])
      ensures AllStatusesValid(old(orders)) ==> AllStatusesValid(orders)
    {
      if status !in ValidStatuses {
        return Err(BadRequest(InvalidStatus));
      }
      var i := Locate(orders, id, None);
      if i == -1 {
        return Err(OrderNotFound(id));
      }
      orders := orders[i := orders[i].(status := status)];
      r := Ok(orders[i]);
    }

    /** `updatePaymentStatus(id, paymentStatus, paidAmount?)`. */
    method UpdatePaymentStatus(id: string, paymentStatus: string, paidAmount: Option<int>) returns (r: Result<Order>)
      modifies this
      ensures Locate(old(orders), id, None) == -1 ==> r == Err(OrderNotFound(id)) && orders == old(orders)
      ensures Locate(old(orders), id, None) >= 0 ==>
                var i := Locate(old(orders), id, None);
                && orders == old(orders)[i := WithPayment(old(orders)[i], paymentStatus, paidAmount)]
                && r == Ok(orders[i])
    {
      var i := Locate(orders, id, None);
      if i == -1 {
        return Err(OrderNotFound(id));
      }
      orders := orders[i := WithPayment(orders[i], paymentStatus, paidAmount)];
      r := Ok(orders[i]);
    }

    /** `calculatePaymentStatus(orderId)` against the payment-record collection. */
    method CalculatePaymentStatus(id: string, records: seq<PaymentRecord>) returns (r: Result<Order>)
      modifies this
      ensures Locate(old(orders), id, None) == -1 ==> r == Err(OrderNotFound(id)) && orders == old(orders)
      ensures Locate(old(orders), id, None) >= 0 ==>
                var i := Locate(old(orders), id, None);
                && orders == old(orders)[i := Recalculate(old(orders)[i], records)]
                && r == Ok(orders[i])
    {
      var i := Locate(orders, id, None);
      if i == -1 {
        return Err(OrderNotFound(id));
      }
      orders := orders[i := Recalculate(orders[i], records)];
      r := Ok(orders[i]);
    }

    /** `cancel(id, userId?)`: the order must be found (among the user's own when one is
        given) and be cancellable; a refusal changes nothing. */
    method Cancel(id: string, userId: Option<string>) returns (r: Result<Order>)
      modifies this
      ensures Locate(old(orders), id, userId) == -1 ==> r == Err(OrderNotFound(id)) && orders == old(orders)
      ensures Locate(old(orders), id, userId) >= 0 ==>
                var i := Locate(old(orders), id, userId);
                && r == CancelOrder(old(orders)[i])
                && orders == if r.Ok? then old(orders)[i := r.value] else old(orders)
      ensures AllStatusesValid(old(orders)) ==> AllStatusesValid(orders)
    {
      var i := Locate(orders, id, userId);
      if i == -1 {
        return Err(OrderNotFound(id));
      }
      r := CancelOrder(orders[i]);
      if r.Ok? {
        orders := orders[i := r.value];
      }
    }
  }
}
