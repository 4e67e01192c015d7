/** The payment-record service: looking a record up, changing its status (with the rule
    that stamps `paidAt`), and the status statistics with the total amount paid. */
module PaymentRecords {
  import opened Common
  import opened Collections

  const Pending := "pending"
  const Paid := "paid"
  const Failed := "failed"
  const Refunded := "refunded"

  /** The fields of a payment-record document the service reads or writes; `paidAt` is a
      time in milliseconds. */
  datatype PaymentRecord = PaymentRecord(id: string, userId: string, amount: int, status: string, paidAt: Option<int>)

  datatype PaymentStats = PaymentStats(total: nat, pending: nat, paid: nat, failed: nat, refunded: nat, totalAmount: int)

  function RecordNotFound(id: string): Error {
    NotFound("Payment record with ID " + id + " not found")
  }

  /** `findById(id)`: the position of the record with this id, or -1. */
  function IndexOf(records: seq<PaymentRecord>, id: string): (i: int)
    ensures -1 <= i < |records|
    ensures i == -1 <==> forall k :: 0 <= k < |records| ==> records[k].id != id
    ensures 0 <= i ==> records[i].id == id && forall k :: 0 <= k < i ==> records[k].id != id
  {
    FindIndex(records, (p: PaymentRecord) => p.id == id)
  }

  /** `findOne`: the record with this id, or NotFound. */
  function FindOne(records: seq<PaymentRecord>, id: string): (r: Result<PaymentRecord>)
    ensures r.Ok? <==> exists k :: 0 <= k < |records| && records[k].id == id
    ensures r.Ok? ==> r.value.id == id && r.value in records
    ensures r.Err? ==> r.error == RecordNotFound(id)
  {
    var i := IndexOf(records, id);
    if i == -1 then Err(RecordNotFound(id)) else Ok(records[i])
  }

  /** The `paidAt` an update leaves: stamped with the current time when the status becomes
      paid and none is given; the given one whenever one is given; otherwise untouched. */
  function StampPaidAt(status: string, given: Option<int>, current: Option<int>, now: int): (p: Option<int>)
    ensures status == Paid && given.None? ==> p == Some(now)
    ensures given.Some? ==> p == given
    ensures status != Paid && given.None? ==> p == current
    ensures status == Paid ==> p.Some?
  {
    if status == Paid && given.None? then Some(now)
    else if given.Some? then given
    else current
  }

  /** The record after `findByIdAndUpdate(id, updateData)`: the status replaced, `paidAt` by
      the stamping rule, every other field as it was. */
  function WithStatus(rec: PaymentRecord, status: string, given: Option<int>, now: int): (r: PaymentRecord)
    ensures r.status == status && r.paidAt == StampPaidAt(status, given, rec.paidAt, now)
    ensures r.id == rec.id && r.userId == rec.userId && r.amount == rec.amount
  {
    rec.(status := status, paidAt := StampPaidAt(status, given, rec.paidAt, now))
  }

  /** The collection after `updateStatus`. */
  function Updated(records: seq<PaymentRecord>, id: string, status: string, given: Option<int>, now: int): (r: seq<PaymentRecord>)
    ensures |r| == |records|
    ensures forall k :: 0 <= k < |records| && k != IndexOf(records, id) ==> r[k] == records[k]
    ensures IndexOf(records, id) >= 0 ==>
              r[IndexOf(records, id)] == WithStatus(records[IndexOf(records, id)], status, given, now)
    ensures IndexOf(records, id) == -1 ==> r == records
  {
    var i := IndexOf(records, id);
    if i == -1 then records else records[i := WithStatus(records[i], status, given, now)]
  }

  /** Every paid record carries a payment time. */
  predicate PaidStamped(records: seq<PaymentRecord>) {
    forall k :: 0 <= k < |records| && records[k].status == Paid ==> records[k].paidAt.Some?
  }

  /** `countDocuments({ status })` */
  function WithStatusIn(records: seq<PaymentRecord>, status: string): seq<PaymentRecord> {
    Filter(records, (p: PaymentRecord) => p.status == status)
  }

  /** The records whose status is none of the four the statistics count. */
  function Uncounted(records: seq<PaymentRecord>): seq<PaymentRecord> {
    Filter(records, (p: PaymentRecord) => p.status !in {Pending, Paid, Failed, Refunded})
  }

  function Amount(p: PaymentRecord): int { p.amount }

  /** The `$sum` of amounts over paid records (0 when there are none). */
  function PaidTotal(records: seq<PaymentRecord>): int {
    SumOf(WithStatusIn(records, Paid), Amount)
  }

  /** `getStats`: the number of records, the number in each of the four statuses, and the
      total amount paid. */
  function GetStats(records: seq<PaymentRecord>): (st: PaymentStats)
    ensures st.total == |records|
    ensures st.pending + st.paid + st.failed + st.refunded <= st.total
    ensures st.paid == |WithStatusIn(records, Paid)| && st.totalAmount == PaidTotal(records)
    ensures && st.pending == |WithStatusIn(records, Pending)| && st.failed == |WithStatusIn(records, Failed)|
            && st.refunded == |WithStatusIn(records, Refunded)|
    ensures (forall k :: 0 <= k < |records| ==> records[k].amount >= 0) ==> st.totalAmount >= 0
  {
    StatusCountsPartition(records);
    PaidTotalNonNegative(records);
    PaymentStats(|records|, |WithStatusIn(records, Pending)|, |WithStatusIn(records, Paid)|,
                 |WithStatusIn(records, Failed)|, |WithStatusIn(records, Refunded)|, PaidTotal(records))
  }

  /** Every record is counted under exactly one status, or under none of the four. */
  lemma {:induction false} StatusCountsPartition(records: seq<PaymentRecord>)
    ensures |WithStatusIn(records, Pending)| + |WithStatusIn(records, Paid)| + |WithStatusIn(records, Failed)|
          + |WithStatusIn(records, Refunded)| + |Uncounted(records)| == |records|
    decreases |records|
  {
    if |records| > 0 {
      StatusCountsPartition(records[1..]);
    }
  }

  lemma PaidTotalNonNegative(records: seq<PaymentRecord>)
    ensures (forall k :: 0 <= k < |records| ==> records[k].amount >= 0) ==> PaidTotal(records) >= 0
  {
    var paid := WithStatusIn(records, Paid);
    if forall k :: 0 <= k < |records| ==> records[k].amount >= 0 {
      forall k | 0 <= k < |paid|
        ensures Amount(paid[k]) >= 0
      {
        assert paid[k] in records;
      }
    }
  }

  /** Marking a not-yet-paid record paid adds it to the paid count and its amount to the
      total; marking a paid record anything else takes both away. */
  lemma UpdateMovesPaidTotal(records: seq<PaymentRecord>, id: string, status: string, given: Option<int>, now: int)
    requires IndexOf(records, id) >= 0
    ensures var prior := records[IndexOf(records, id)];
            var t := Updated(records, id, status, given, now);
            var before := if prior.status == Paid then 1 else 0;
            var after := if status == Paid then 1 else 0;
            && |WithStatusIn(t, Paid)| == |WithStatusIn(records, Paid)| - before + after
            && PaidTotal(t) == PaidTotal(records) - before * prior.amount + after * prior.amount
  {
    var i := IndexOf(records, id);
    FilterUpdate(records, i, WithStatus(records[i], status, given, now), (p: PaymentRecord) => p.status == Paid, Amount);
  }

  /** The payment-record collection. */
  class PaymentRecordCollection {
    var records: seq<PaymentRecord>

    constructor (records: seq<PaymentRecord>)
      ensures this.records == records
    {
      this.records := records;
    }

    /** `updateStatus(id, status, paidAt?)` at time `now`. */
    method UpdateStatus(id: string, status: string, paidAt: Option<int>, now: int) returns (r: Result<PaymentRecord>)
      modifies this
      ensures records == Updated(old(records), id, status, paidAt, now)
      ensures IndexOf(old(records), id) == -1 ==> r == Err(RecordNotFound(id))
      ensures IndexOf(old(records), id) >= 0 ==>
                r == Ok(WithStatus(old(records)[IndexOf(old(records), id)], status, paidAt, now))
      ensures PaidStamped(old(records)) ==> PaidStamped(records)
    {
      var i := IndexOf(records, id);
      if i == -1 {
        return Err(RecordNotFound(id));
      }
      var updated := WithStatus(records[i], status, paidAt, now);
      records := records[i := updated];
      r := Ok(updated);
    }
  }
}
