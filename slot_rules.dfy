/** The slot schema and store rules the two delivery-slot services have in common: which
    slots are offered, and the capacity counter that reserving and releasing move. Each
    service connects to the store its own `MONGODB_URI` names; both issue the same store
    queries for reserve, release, update and delete, and differ only in how they choose the
    slots to offer. */
module SlotRules {
  import opened Common
  import opened Collections

  /** The fields of a delivery-slot document the services read or write; times are in
      milliseconds. */
  datatype Slot = Slot(id: string, startTime: int, maxOrders: int, currentOrders: int, isActive: bool)

  /** The optional fields of an `updateData` object: an absent field is left as it is. */
  datatype SlotPatch = SlotPatch(
    startTime: Option<int>,
    maxOrders: Option<int>,
    currentOrders: Option<int>,
    isActive: Option<bool>)

  const SlotUnavailable := BadRequest("Slot not available or fully booked")
  const NothingToRelease := NotFound("Slot not found or no orders to release")

  function SlotNotFound(id: string): Error {
    NotFound("Delivery slot with ID " + id + " not found")
  }

  /** The capacity invariant of one slot: no negative count, never over capacity. */
  predicate WithinCapacity(slot: Slot) {
    0 <= slot.currentOrders <= slot.maxOrders
  }

  predicate AllWithinCapacity(slots: seq<Slot>) {
    forall k :: 0 <= k < |slots| ==> WithinCapacity(slots[k])
  }

  /** Slot ids are document ids, so no two slots share one. */
  predicate UniqueIds(slots: seq<Slot>) {
    forall i, j :: 0 <= i < j < |slots| ==> slots[i].id != slots[j].id
  }

  function StartTime(slot: Slot): int { slot.startTime }

  /** The filter of `getAvailableSlots` at time `now`: active, with room, not yet started,
      and starting no later than `cutoff` when there is one. */
  predicate Bookable(slot: Slot, now: int, cutoff: Option<int>) {
    && slot.isActive
    && slot.currentOrders < slot.maxOrders
    && slot.startTime >= now
    && (cutoff.Some? ==> slot.startTime <= cutoff.value)
  }

  /** `find(filter)`: the bookable slots, in collection order. */
  function Offered(slots: seq<Slot>, now: int, cutoff: Option<int>): seq<Slot> {
    Filter(slots, (x: Slot) => Bookable(x, now, cutoff))
  }

  /** `find(filter).sort({ startTime: 1 })`: the bookable slots, earliest first. */
  function Available(slots: seq<Slot>, now: int, cutoff: Option<int>): (r: seq<Slot>)
    ensures forall x :: x in r <==> x in slots && Bookable(x, now, cutoff)
    ensures SortedBy(r, StartTime)
    ensures multiset(r) == multiset(Offered(slots, now, cutoff)) <= multiset(slots)
    ensures forall x :: multiset(r)[x] == if Bookable(x, now, cutoff) then multiset(slots)[x] else 0
  {
    var offered := Offered(slots, now, cutoff);
    FilterCounts(slots, (x: Slot) => Bookable(x, now, cutoff));
    var r := SortBy(offered, StartTime);
    assert forall x :: x in r <==> x in offered by {
      forall x ensures x in r <==> x in offered {
        assert x in r <==> x in multiset(r);
        assert x in offered <==> x in multiset(offered);
      }
    }
    r
  }

  /** A cutoff only ever narrows the offer: each slot is offered no more often with one than
      without. */
  lemma {:induction false} CutoffNarrowsOffer(slots: seq<Slot>, now: int, cutoff: int)
    ensures multiset(Offered(slots, now, Some(cutoff))) <= multiset(Offered(slots, now, None))
    ensures |Offered(slots, now, Some(cutoff))| <= |Offered(slots, now, None)|
    decreases |slots|
  {
    if |slots| > 0 {
      CutoffNarrowsOffer(slots[1..], now, cutoff);
    }
  }

  /** The offer with a cutoff is the offer without one, cut at the cutoff. */
  lemma CutoffNarrows(slots: seq<Slot>, now: int, cutoff: int)
    ensures forall x :: x in Available(slots, now, Some(cutoff)) <==>
              x in Available(slots, now, None) && x.startTime <= cutoff
    ensures |Available(slots, now, Some(cutoff))| <= |Available(slots, now, None)|
  {
    CutoffNarrowsOffer(slots, now, cutoff);
    var h, p := Available(slots, now, Some(cutoff)), Available(slots, now, None);
    assert |h| == |Offered(slots, now, Some(cutoff))| by {
      assert |h| == |multiset(h)|;
    }
    assert |p| == |Offered(slots, now, None)| by {
      assert |p| == |multiset(p)|;
    }
  }

  /** The first slot the reservation query matches: this id, active, with room. */
  function ReserveIndex(slots: seq<Slot>, id: string): (i: int)
    ensures -1 <= i < |slots|
    ensures i == -1 <==> forall k :: 0 <= k < |slots| ==>
              !(slots[k].id == id && slots[k].isActive && slots[k].currentOrders < slots[k].maxOrders)
    ensures 0 <= i ==> slots[i].id == id && slots[i].isActive && slots[i].currentOrders < slots[i].maxOrders
  {
    FindIndex(slots, (x: Slot) => x.id == id && x.isActive && x.currentOrders < x.maxOrders)
  }

  /** The first slot the release query matches: this id, with at least one order. */
  function ReleaseIndex(slots: seq<Slot>, id: string): (i: int)
    ensures -1 <= i < |slots|
    ensures i == -1 <==> forall k :: 0 <= k < |slots| ==> !(slots[k].id == id && slots[k].currentOrders > 0)
    ensures 0 <= i ==> slots[i].id == id && slots[i].currentOrders > 0
  {
    FindIndex(slots, (x: Slot) => x.id == id && x.currentOrders > 0)
  }

  /** The first slot with this id (`findByIdAndUpdate`, `deleteOne({ _id })`). */
  function IdIndex(slots: seq<Slot>, id: string): (i: int)
    ensures -1 <= i < |slots|
    ensures i == -1 <==> forall k :: 0 <= k < |slots| ==> slots[k].id != id
    ensures 0 <= i ==> slots[i].id == id && forall k :: 0 <= k < i ==> slots[k].id != id
  {
    FindIndex(slots, (x: Slot) => x.id == id)
  }

  function WithOrders(slot: Slot, delta: int): (r: Slot)
    ensures r.currentOrders == slot.currentOrders + delta
    ensures r.(currentOrders := slot.currentOrders) == slot
  {
    slot.(currentOrders := slot.currentOrders + delta)
  }

  /** The collection after `reserveSlot(id)`: exactly one slot, one that had room, moves up
      by one order; no slot leaves its capacity bounds. */
  function Reserved(slots: seq<Slot>, id: string): (t: seq<Slot>)
    ensures |t| == |slots|
    ensures ReserveIndex(slots, id) == -1 ==> t == slots
    ensures var i := ReserveIndex(slots, id);
            i >= 0 ==> t[i].currentOrders == slots[i].currentOrders + 1 && t[i].currentOrders <= t[i].maxOrders
    ensures var i := ReserveIndex(slots, id);
            i >= 0 ==> t[i] == WithOrders(slots[i], 1)
    ensures forall k :: 0 <= k < |slots| && k != ReserveIndex(slots, id) ==> t[k] == slots[k]
    ensures AllWithinCapacity(slots) ==> AllWithinCapacity(t)
  {
    var i := ReserveIndex(slots, id);
    if i == -1 then slots else slots[i := WithOrders(slots[i], 1)]
  }

  /** The collection after `releaseSlot(id)`: exactly one slot, one that had an order, moves
      down by one order; no slot leaves its capacity bounds. */
  function Released(slots: seq<Slot>, id: string): (t: seq<Slot>)
    ensures |t| == |slots|
    ensures ReleaseIndex(slots, id) == -1 ==> t == slots
    ensures var i := ReleaseIndex(slots, id);
            i >= 0 ==> t[i].currentOrders == slots[i].currentOrders - 1 && t[i].currentOrders >= 0
    ensures var i := ReleaseIndex(slots, id);
            i >= 0 ==> t[i] == WithOrders(slots[i], -1)
    ensures forall k :: 0 <= k < |slots| && k != ReleaseIndex(slots, id) ==> t[k] == slots[k]
    ensures AllWithinCapacity(slots) ==> AllWithinCapacity(t)
  {
    var i := ReleaseIndex(slots, id);
    if i == -1 then slots else slots[i := WithOrders(slots[i], -1)]
  }

  /** The collection after `deleteSlot(id)`: the slot of the id cut out, the others kept
      in order. */
  function Deleted(slots: seq<Slot>, id: string): (t: seq<Slot>)
    ensures IdIndex(slots, id) == -1 ==> t == slots
    ensures var i := IdIndex(slots, id);
            i >= 0 ==> |t| == |slots| - 1 && t[..i] == slots[..i] && t[i..] == slots[i + 1..]
  {
    var i := IdIndex(slots, id);
    if i == -1 then slots else Without(slots, i)
  }

  /** The slots with the one at `i` cut out. */
  function Without(slots: seq<Slot>, i: nat): (t: seq<Slot>)
    requires i < |slots|
    ensures |t| == |slots| - 1 && t[..i] == slots[..i] && t[i..] == slots[i + 1..]
  {
    slots[..i] + slots[i + 1..]
  }

  /** A slot with the fields the patch gives replaced. */
  function Patched(slot: Slot, patch: SlotPatch): (r: Slot)
    ensures r.id == slot.id
    ensures r.startTime == (if patch.startTime.Some? then patch.startTime.value else slot.startTime)
    ensures r.maxOrders == (if patch.maxOrders.Some? then patch.maxOrders.value else slot.maxOrders)
    ensures r.currentOrders == (if patch.currentOrders.Some? then patch.currentOrders.value else slot.currentOrders)
    ensures r.isActive == (if patch.isActive.Some? then patch.isActive.value else slot.isActive)
  {
    Slot(slot.id,
         if patch.startTime.Some? then patch.startTime.value else slot.startTime,
         if patch.maxOrders.Some? then patch.maxOrders.value else slot.maxOrders,
         if patch.currentOrders.Some? then patch.currentOrders.value else slot.currentOrders,
         if patch.isActive.Some? then patch.isActive.value else slot.isActive)
  }

  /** The collection after `updateSlot(id, updateData)`: the slot of the id patched. */
  function Updated(slots: seq<Slot>, id: string, patch: SlotPatch): (t: seq<Slot>)
    ensures |t| == |slots|
    ensures IdIndex(slots, id) == -1 ==> t == slots
    ensures IdIndex(slots, id) >= 0 ==> t[IdIndex(slots, id)] == Patched(slots[IdIndex(slots, id)], patch)
  {
    var i := IdIndex(slots, id);
    if i == -1 then slots else slots[i := Patched(slots[i], patch)]
  }

  /** Both queries match only a slot of their own id, so with unique ids and counts within
      capacity a reservation of one slot followed by a release of it gives back the
      collection it started from. */
  lemma ReserveThenReleaseRestores(slots: seq<Slot>, id: string)
    requires UniqueIds(slots) && AllWithinCapacity(slots)
    requires ReserveIndex(slots, id) >= 0
    ensures Released(Reserved(slots, id), id) == slots
  {
    var i := ReserveIndex(slots, id);
    var t := Reserved(slots, id);
    assert t[i].id == id && t[i].currentOrders > 0;
    forall k | 0 <= k < i
      ensures !(t[k].id == id && t[k].currentOrders > 0)
    {
      assert t[k] == slots[k];
    }
    assert ReleaseIndex(t, id) == i;
    assert t[i := WithOrders(t[i], -1)] == slots;
  }

  /** With unique ids, deleting leaves exactly the slots of other ids, in their order. */
  lemma DeleteRemovesExactly(slots: seq<Slot>, id: string)
    requires UniqueIds(slots)
    ensures Deleted(slots, id) == Filter(slots, (x: Slot) => x.id != id)
    ensures |Deleted(slots, id)| == |slots| - (if IdIndex(slots, id) == -1 then 0 else 1)
  {
    var i := IdIndex(slots, id);
    if i == -1 {
      FilterAll(slots, (x: Slot) => x.id != id);
    } else {
      var pre, post := slots[..i], slots[i + 1..];
      assert forall k :: 0 <= k < |post| ==> post[k] == slots[i + 1 + k];
      assert slots == pre + [slots[i]] + post;
      FilterDropsOne(pre, slots[i], post, (x: Slot) => x.id != id);
    }
  }

  /** Deleting keeps the invariants of every remaining slot. */
  lemma DeleteKeepsInvariants(slots: seq<Slot>, id: string)
    ensures forall x :: x in Deleted(slots, id) ==> x in slots
    ensures AllWithinCapacity(slots) ==> AllWithinCapacity(Deleted(slots, id))
    ensures UniqueIds(slots) ==> UniqueIds(Deleted(slots, id))
  {
    var i := IdIndex(slots, id);
    if i >= 0 {
      DeletedMembers(slots, i);
      if AllWithinCapacity(slots) { DeletedWithinCapacity(slots, i); }
      if UniqueIds(slots) { DeletedUnique(slots, i); }
    }
  }

  lemma WithoutAt(slots: seq<Slot>, i: nat, k: nat)
    requires i < |slots| && k < |slots| - 1
    ensures Without(slots, i)[k] == slots[if k < i then k else k + 1]
  {
    var t := Without(slots, i);
    if k < i {
      assert t[k] == t[..i][k];
    } else {
      assert t[k] == t[i..][k - i];
    }
  }

  lemma DeletedMembers(slots: seq<Slot>, i: nat)
    requires i < |slots|
    ensures forall x :: x in Without(slots, i) ==> x in slots
  {
    var t := Without(slots, i);
    forall x | x in t
      ensures x in slots
    {
      var k :| 0 <= k < |t| && t[k] == x;
      WithoutAt(slots, i, k);
    }
  }

  lemma DeletedWithinCapacity(slots: seq<Slot>, i: nat)
    requires i < |slots| && AllWithinCapacity(slots)
    ensures AllWithinCapacity(Without(slots, i))
  {
    var t := Without(slots, i);
    forall k | 0 <= k < |t|
      ensures WithinCapacity(t[k])
    {
      WithoutAt(slots, i, k);
    }
  }

  lemma DeletedUnique(slots: seq<Slot>, i: nat)
    requires i < |slots| && UniqueIds(slots)
    ensures UniqueIds(Without(slots, i))
  {
    var t := Without(slots, i);
    forall a, b | 0 <= a < b < |t|
      ensures t[a].id != t[b].id
    {
      WithoutAt(slots, i, a);
      WithoutAt(slots, i, b);
    }
  }

  /** An update changes only the slot of its id; the same patch a second time changes nothing
      more, and an empty patch changes nothing. */
  lemma UpdateEffect(slots: seq<Slot>, id: string, patch: SlotPatch)
    ensures var t := Updated(slots, id, patch);
            && |t| == |slots|
            && (forall k :: 0 <= k < |slots| && k != IdIndex(slots, id) ==> t[k] == slots[k])
            && IdIndex(t, id) == IdIndex(slots, id)
            && Updated(t, id, patch) == t
            && Updated(slots, id, SlotPatch(None, None, None, None)) == slots
  {
    var i := IdIndex(slots, id);
    var t := Updated(slots, id, patch);
    if i >= 0 {
      assert t[i].id == id;
      forall k | 0 <= k < i
        ensures t[k].id != id
      {
        assert t[k] == slots[k];
      }
      assert Patched(t[i], patch) == t[i];
      assert Patched(slots[i], SlotPatch(None, None, None, None)) == slots[i];
    }
  }

  /** The delivery-slot collection. */
  class SlotCollection {
    var slots: seq<Slot>

    constructor (slots: seq<Slot>)
      ensures this.slots == slots
    {
      this.slots := slots;
    }

    /** `reserveSlot(slotId)`: the slot after the increment, or BadRequest when no slot of
        this id is active with room. */
    method ReserveSlot(slotId: string) returns (r: Result<Slot>)
      modifies this
      ensures slots == Reserved(old(slots), slotId)
      ensures var i := ReserveIndex(old(slots), slotId);
              r == if i == -1 then Err(SlotUnavailable) else Ok(slots[i])
      ensures AllWithinCapacity(old(slots)) ==> AllWithinCapacity(slots)
    {
      var i := ReserveIndex(slots, slotId);
      if i == -1 {
        return Err(SlotUnavailable);
      }
      slots := slots[i := WithOrders(slots[i], 1)];
      r := Ok(slots[i]);
    }

    /** `releaseSlot(slotId)`: the slot after the decrement, or NotFound when no slot of this
        id has an order. */
    method ReleaseSlot(slotId: string) returns (r: Result<Slot>)
      modifies this
      ensures slots == Released(old(slots), slotId)
      ensures var i := ReleaseIndex(old(slots), slotId);
              r == if i == -1 then Err(NothingToRelease) else Ok(slots[i])
      ensures AllWithinCapacity(old(slots)) ==> AllWithinCapacity(slots)
    {
      var i := ReleaseIndex(slots, slotId);
      if i == -1 {
        return Err(NothingToRelease);
      }
      slots := slots[i := WithOrders(slots[i], -1)];
      r := Ok(slots[i]);
    }

    /** `updateSlot(id, updateData)`: the slot after the update, or NotFound. */
    method UpdateSlot(id: string, patch: SlotPatch) returns (r: Result<Slot>)
      modifies this
      ensures slots == Updated(old(slots), id, patch)
      ensures var i := IdIndex(old(slots), id);
              r == if i == -1 then Err(SlotNotFound(id)) else Ok(slots[i])
    {
      var i := IdIndex(slots, id);
      if i == -1 {
        return Err(SlotNotFound(id));
      }
      slots := slots[i := Patched(slots[i], patch)];
      r := Ok(slots[i]);
    }

    /** `deleteSlot(id)`: NotFound when nothing was deleted. */
    method DeleteSlot(id: string) returns (r: Result<()>)
      modifies this
      ensures slots == Deleted(old(slots), id)
      ensures r.Err? <==> IdIndex(old(slots), id) == -1
      ensures r.Err? ==> r.error == SlotNotFound(id)
      ensures UniqueIds(old(slots)) ==> UniqueIds(slots)
    {
      DeleteKeepsInvariants(slots, id);
      var i := IdIndex(slots, id);
      if i == -1 {
        return Err(SlotNotFound(id));
      }
      slots := Deleted(slots, id);
      r := Ok(());
    }
  }
}
