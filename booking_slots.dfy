/** The delivery-slot service of the booking service: the same slot collection and the same
    reserve, release, update and delete rules (`SlotRules.SlotCollection`), but it has no
    product collection, so it offers every bookable slot whatever the product. */
module BookingSlots {
  import opened Common
  import opened Collections
  import opened SlotRules
  import DeliverySlots

  /** `getAvailableSlots(productId)` at time `now`: only the shape of the id is checked. */
  function GetAvailableSlots(slots: seq<Slot>, productId: string, now: int): (r: Result<seq<Slot>>)
    ensures r.Err? <==> !IsValidObjectId(productId)
    ensures r.Err? ==> r.error == DeliverySlots.InvalidProductId
    ensures r.Ok? ==> SortedBy(r.value, StartTime)
    ensures r.Ok? ==> forall x :: x in r.value <==> x in slots && Bookable(x, now, None)
    ensures r.Ok? ==> forall x :: multiset(r.value)[x] == if Bookable(x, now, None) then multiset(slots)[x] else 0
  {
    if !IsValidObjectId(productId) then Err(DeliverySlots.InvalidProductId)
    else Ok(Available(slots, now, None))
  }

  /** Against the monolith's service on the same slots: the booking service makes the same
      offer for an ordinary product, a wider one for a hot item, and an offer even for a
      product id that names no product. */
  lemma OfferMatchesMonolithForOrdinaryItems(products: map<string, DeliverySlots.Product>, slots: seq<Slot>,
                                             productId: string, now: int)
    requires IsValidObjectId(productId)
    ensures productId in products && !products[productId].isHotItem ==>
              GetAvailableSlots(slots, productId, now) == DeliverySlots.GetAvailableSlots(products, slots, productId, now)
    ensures productId in products && products[productId].isHotItem ==>
              |DeliverySlots.GetAvailableSlots(products, slots, productId, now).value|
                <= |GetAvailableSlots(slots, productId, now).value|
    ensures productId !in products ==>
              GetAvailableSlots(slots, productId, now).Ok? && DeliverySlots.GetAvailableSlots(products, slots, productId, now).Err?
  {
    CutoffNarrows(slots, now, now + DeliverySlots.HotItemWindow);
  }
}
