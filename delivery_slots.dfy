/** The delivery-slot service of the monolith: the slots offered for a product, where a hot
    item is only offered slots starting within the next 90 minutes. Reserving, releasing,
    updating and deleting a slot are the shared rules of `SlotRules.SlotCollection`. */
module DeliverySlots {
  import opened Common
  import opened Collections
  import opened SlotRules

  /** The field of a product document the service reads. */
  datatype Product = Product(isHotItem: bool)

  /** How far ahead a hot item may be delivered: 90 minutes, in milliseconds. */
  const HotItemWindow := 90 * 60 * 1000

  const InvalidProductId := BadRequest("Invalid product ID")
  const ProductNotFound := NotFound("Product not found")

  /** `getAvailableSlots(productId)` at time `now`, against the product collection. */
  function GetAvailableSlots(products: map<string, Product>, slots: seq<Slot>, productId: string, now: int): (r: Result<seq<Slot>>)
    ensures !IsValidObjectId(productId) ==> r == Err(InvalidProductId)
    ensures IsValidObjectId(productId) && productId !in products ==> r == Err(ProductNotFound)
    ensures r.Ok? <==> IsValidObjectId(productId) && productId in products
    ensures r.Ok? ==> SortedBy(r.value, StartTime)
    ensures r.Ok? ==> forall x :: x in r.value <==>
              && x in slots && Bookable(x, now, None)
              && (products[productId].isHotItem ==> x.startTime <= now + HotItemWindow)
    ensures r.Ok? ==>
              forall x ::
                multiset(r.value)[x] ==
                  if Bookable(x, now, None) && (products[productId].isHotItem ==> x.startTime <= now + HotItemWindow)
                  then multiset(slots)[x] else 0
  {
    if !IsValidObjectId(productId) then Err(InvalidProductId)
    else if productId !in products then Err(ProductNotFound)
    else
      var cutoff := if products[productId].isHotItem then Some(now + HotItemWindow) else None;
      Ok(Available(slots, now, cutoff))
  }

  /** A hot item is offered exactly the slots an ordinary item is offered that start within
      the window. */
  lemma HotItemOfferIsWindowOfOrdinaryOffer(products: map<string, Product>, slots: seq<Slot>,
                                            hot: string, plain: string, now: int)
    requires IsValidObjectId(hot) && hot in products && products[hot].isHotItem
    requires IsValidObjectId(plain) && plain in products && !products[plain].isHotItem
    ensures forall x :: x in GetAvailableSlots(products, slots, hot, now).value <==>
              x in GetAvailableSlots(products, slots, plain, now).value && x.startTime <= now + HotItemWindow
    ensures |GetAvailableSlots(products, slots, hot, now).value| <= |GetAvailableSlots(products, slots, plain, now).value|
  {
    CutoffNarrows(slots, now, now + HotItemWindow);
  }
}
