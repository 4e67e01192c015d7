/** The vendor service: creating a vendor under a unique name, one rating per user, the
    product list kept as a set (`$addToSet` / `$pull`), and removal. */
module Vendors {
  import opened Common
  import opened Collections

  datatype Rating = Rating(userId: string, rating: int, review: Option<string>, createdAt: int)

  /** The fields of a vendor document the service reads or writes. */
  datatype Vendor = Vendor(name: string, ratings: seq<Rating>, productIds: seq<string>)

  const NameTaken := BadRequest("Vendor with this name already exists")
  const InvalidVendorId := BadRequest("Invalid vendor ID")
  const InvalidVendorOrProductId := BadRequest("Invalid vendor or product ID")
  const AlreadyRated := BadRequest("You have already rated this vendor")

  function InvalidProductId(productId: string): Error {
    BadRequest("Invalid product ID: " + productId)
  }

  function VendorNotFound(id: string): Error {
    NotFound("Vendor with ID " + id + " not found")
  }

  predicate NoDuplicates(s: seq<string>) {
    forall i, j :: 0 <= i < j < |s| ==> s[i] != s[j]
  }

  /** The store's unique indexes: no two vendors share a name. */
  predicate UniqueNames(vendors: map<string, Vendor>) {
    forall u, v :: u in vendors && v in vendors && u != v ==> vendors[u].name != vendors[v].name
  }

  /** Each user has rated a vendor at most once. */
  predicate OneRatingPerUser(v: Vendor) {
    forall i, j :: 0 <= i < j < |v.ratings| ==> v.ratings[i].userId != v.ratings[j].userId
  }

  predicate HasRated(v: Vendor, userId: string) {
    exists k :: 0 <= k < |v.ratings| && v.ratings[k].userId == userId
  }

  /** `$addToSet`: x appended unless already present. */
  function AddToSet(list: seq<string>, x: string): (r: seq<string>)
    ensures forall y :: y in r <==> y in list || y == x
    ensures |list| <= |r| && r[..|list|] == list
    ensures x in list ==> r == list
    ensures NoDuplicates(list) ==> NoDuplicates(r)
  {
    if x in list then list else list + [x]
  }

  /** `$addToSet` with `$each`: the ids added one after the other. */
  function AddEachToSet(list: seq<string>, xs: seq<string>): (r: seq<string>)
    ensures forall y :: y in r <==> y in list || y in xs
    ensures |list| <= |r| && r[..|list|] == list
    ensures forall k :: |list| <= k < |r| ==> r[k] in xs && r[k] !in list
    ensures NoDuplicates(list) ==> NoDuplicates(r)
    decreases |xs|
  {
    if |xs| == 0 then list
    else
      var r := AddEachToSet(AddToSet(list, xs[0]), xs[1..]);
      AddEachStep(list, xs, r);
      r
  }

  /** What adding `xs[0]` and then each of the rest does, from what the two steps do. */
  lemma AddEachStep(list: seq<string>, xs: seq<string>, r: seq<string>)
    requires |xs| > 0
    requires var a := AddToSet(list, xs[0]);
             && (forall y :: y in r <==> y in a || y in xs[1..])
             && |a| <= |r| && r[..|a|] == a
             && (forall k :: |a| <= k < |r| ==> r[k] in xs[1..] && r[k] !in a)
             && (NoDuplicates(a) ==> NoDuplicates(r))
    ensures forall y :: y in r <==> y in list || y in xs
    ensures |list| <= |r| && r[..|list|] == list
    ensures forall k :: |list| <= k < |r| ==> r[k] in xs && r[k] !in list
    ensures NoDuplicates(list) ==> NoDuplicates(r)
  {
    var a := AddToSet(list, xs[0]);
    assert xs == [xs[0]] + xs[1..];
    assert r[..|list|] == r[..|a|][..|list|];
    forall k | |list| <= k < |r|
      ensures r[k] in xs && r[k] !in list
    {
      if k < |a| {
        assert r[k] == r[..|a|][k];
      }
    }
  }

  /** `$pull`: every occurrence of x removed. */
  function Pull(list: seq<string>, x: string): (r: seq<string>)
    ensures forall y :: y in r <==> y in list && y != x
    ensures forall y :: y != x ==> multiset(r)[y] == multiset(list)[y]
  {
    FilterCounts(list, (y: string) => y != x);
    Filter(list, (y: string) => y != x)
  }

  /** `$pull` with `$in`: every occurrence of any of xs removed. */
  function PullEach(list: seq<string>, xs: seq<string>): (r: seq<string>)
    ensures forall y :: y in r <==> y in list && y !in xs
    ensures |r| <= |list|
    ensures forall y :: y !in xs ==> multiset(r)[y] == multiset(list)[y]
  {
    FilterCounts(list, (y: string) => y !in xs);
    Filter(list, (y: string) => y !in xs)
  }

  /** Pulling an id just added to the set gives back the list it was added to. */
  lemma PullUndoesAddToSet(list: seq<string>, x: string)
    requires x !in list
    ensures Pull(AddToSet(list, x), x) == list
  {
    var p := (y: string) => y != x;
    FilterAppend(list, [x], p);
    FilterAll(list, p);
    assert Filter([x], p) == [];
  }

  /** Pulling ids just added to the set gives back the list they were added to. */
  lemma PullEachUndoesAddEach(list: seq<string>, xs: seq<string>)
    requires forall y :: y in xs ==> y !in list
    ensures PullEach(AddEachToSet(list, xs), xs) == list
  {
    var r := AddEachToSet(list, xs);
    var added := r[|list|..];
    assert r == list + added by {
      assert r[..|list|] == list;
    }
    forall k | 0 <= k < |added|
      ensures added[k] in xs
    {
      assert added[k] == r[|list| + k];
    }
    PullEachOfAdded(list, added, xs);
  }

  /** Pulling ids from a list followed by some of them leaves the list, when none of the
      ids was in it. */
  lemma PullEachOfAdded(list: seq<string>, added: seq<string>, xs: seq<string>)
    requires forall y :: y in xs ==> y !in list
    requires forall k :: 0 <= k < |added| ==> added[k] in xs
    ensures PullEach(list + added, xs) == list
  {
    var p := (y: string) => y !in xs;
    FilterNone(added, p);
    FilterAll(list, p);
    FilterAppend(list, added, p);
    assert list + [] == list;
  }

  /** `vendor.ratings.push(...)` after the one-rating-per-user check. */
  function Rate(v: Vendor, userId: string, rating: int, review: Option<string>, now: int): (r: Result<Vendor>)
    ensures r.Err? <==> HasRated(v, userId)
    ensures r.Err? ==> r.error == AlreadyRated
    ensures r.Ok? ==> r.value.ratings == v.ratings + [Rating(userId, rating, review, now)]
    ensures r.Ok? ==> r.value.name == v.name && r.value.productIds == v.productIds
    ensures r.Ok? && OneRatingPerUser(v) ==> OneRatingPerUser(r.value)
  {
    var k := FindIndex(v.ratings, (x: Rating) => x.userId == userId);
    if k >= 0 then Err(AlreadyRated)
    else Ok(v.(ratings := v.ratings + [Rating(userId, rating, review, now)]))
  }

  /** Once a user's rating is in, every further rating by that user is refused. */
  lemma SecondRatingRefused(v: Vendor, userId: string, rating: int, review: Option<string>, now: int,
                            again: int, review2: Option<string>, later: int)
    requires Rate(v, userId, rating, review, now).Ok?
    ensures Rate(Rate(v, userId, rating, review, now).value, userId, again, review2, later) == Err(AlreadyRated)
  {
    var w := Rate(v, userId, rating, review, now).value;
    assert w.ratings[|v.ratings|].userId == userId;
  }

  /** `findById(id)` behind a check of the id's shape. */
  function FindOne(vendors: map<string, Vendor>, id: string): (r: Result<Vendor>)
    ensures r.Ok? <==> IsValidObjectId(id) && id in vendors
    ensures r.Ok? ==> r.value == vendors[id]
    ensures !IsValidObjectId(id) ==> r == Err(InvalidVendorId)
    ensures IsValidObjectId(id) && id !in vendors ==> r == Err(VendorNotFound(id))
  {
    if !IsValidObjectId(id) then Err(InvalidVendorId)
    else if id !in vendors then Err(VendorNotFound(id))
    else Ok(vendors[id])
  }

  /** The first id in the list that is not a well-formed object id, if any. */
  function FirstInvalid(ids: seq<string>): (r: Option<string>)
    ensures r.None? <==> forall k :: 0 <= k < |ids| ==> IsValidObjectId(ids[k])
    ensures r.Some? ==> exists k :: 0 <= k < |ids| && ids[k] == r.value && !IsValidObjectId(ids[k])
                                      && forall j :: 0 <= j < k ==> IsValidObjectId(ids[j])
  {
    var k := FindIndex(ids, (x: string) => !IsValidObjectId(x));
    if k == -1 then None else Some(ids[k])
  }

  /** The `for (const productId of productIds)` check: stops at the first malformed id. */
  method CheckProductIds(productIds: seq<string>) returns (r: Result<()>)
    ensures r.Ok? <==> FirstInvalid(productIds).None?
    ensures r.Err? ==> r.error == InvalidProductId(FirstInvalid(productIds).value)
  {
    var i := 0;
    while i < |productIds|
      invariant 0 <= i <= |productIds|
      invariant forall k :: 0 <= k < i ==> IsValidObjectId(productIds[k])
    {
      if !IsValidObjectId(productIds[i]) {
        return Err(InvalidProductId(productIds[i]));
      }
      i := i + 1;
    }
    return Ok(());
  }

  /** The vendor collection. */
  class VendorCollection {
    var vendors: map<string, Vendor>

    constructor (vendors: map<string, Vendor>)
      ensures this.vendors == vendors
    {
      this.vendors := vendors;
    }

    /** `create(dto)` saved under the fresh id `id`: a duplicate key (the id or the unique
        name) is reported as a taken name. */
    method Create(id: string, name: string, productIds: seq<string>) returns (r: Result<Vendor>)
      modifies this
      ensures var taken := id in old(vendors) || exists u :: u in old(vendors) && old(vendors)[u].name == name;
              && (taken ==> r == Err(NameTaken) && vendors == old(vendors))
              && (!taken ==> r == Ok(Vendor(name, [], productIds)) && vendors == old(vendors)[id := r.value])
      ensures UniqueNames(old(vendors)) ==> UniqueNames(vendors)
    {
      if id in vendors || exists u :: u in vendors && vendors[u].name == name {
        return Err(NameTaken);
      }
      var v := Vendor(name, [], productIds);
      vendors := vendors[id := v];
      r := Ok(v);
    }

    /** `addRating(id, userId, dto)` at time `now`. */
    method AddRating(id: string, userId: string, rating: int, review: Option<string>, now: int) returns (r: Result<Vendor>)
      modifies this
      ensures FindOne(old(vendors), id).Err? ==> r == FindOne(old(vendors), id) && vendors == old(vendors)
      ensures FindOne(old(vendors), id).Ok? ==> r == Rate(old(vendors)[id], userId, rating, review, now)
      ensures r.Ok? ==> vendors == old(vendors)[id := r.value]
      ensures r.Err? ==> vendors == old(vendors)
    {
      var found := FindOne(vendors, id);
      if found.Err? {
        return found;
      }
      r := Rate(found.value, userId, rating, review, now);
      if r.Ok? {
        vendors := vendors[id := r.value];
      }
    }

    /** The common tail of the product-list updates: `findByIdAndUpdate` with an update of
        the product list, NotFound when no vendor has the id. */
    method UpdateProducts(id: string, update: seq<string> -> seq<string>) returns (r: Result<Vendor>)
      modifies this
      ensures id !in old(vendors) ==> r == Err(VendorNotFound(id)) && vendors == old(vendors)
      ensures id in old(vendors) ==>
                var v := old(vendors)[id].(productIds := update(old(vendors)[id].productIds));
                r == Ok(v) && vendors == old(vendors)[id := v]
    {
      if id !in vendors {
        return Err(VendorNotFound(id));
      }
      var v := vendors[id].(productIds := update(vendors[id].productIds));
      vendors := vendors[id := v];
      r := Ok(v);
    }

    /** `addProductToVendor(vendorId, productId)` */
    method AddProductToVendor(vendorId: string, productId: string) returns (r: Result<Vendor>)
      modifies this
      ensures !IsValidObjectId(vendorId) || !IsValidObjectId(productId) ==>
                r == Err(InvalidVendorOrProductId) && vendors == old(vendors)
      ensures IsValidObjectId(vendorId) && IsValidObjectId(productId) && vendorId !in old(vendors) ==>
                r == Err(VendorNotFound(vendorId)) && vendors == old(vendors)
      ensures r.Ok? ==>
                && vendorId in old(vendors)
                && r.value == old(vendors)[vendorId].(productIds := AddToSet(old(vendors)[vendorId].productIds, productId))
                && vendors == old(vendors)[vendorId := r.value]
      ensures IsValidObjectId(vendorId) && IsValidObjectId(productId) && vendorId in old(vendors) ==> r.Ok?
    {
      if !IsValidObjectId(vendorId) || !IsValidObjectId(productId) {
        return Err(InvalidVendorOrProductId);
      }
      r := UpdateProducts(vendorId, (list: seq<string>) => AddToSet(list, productId));
    }

    /** `removeProductFromVendor(vendorId, productId)` */
    method RemoveProductFromVendor(vendorId: string, productId: string) returns (r: Result<Vendor>)
      modifies this
      ensures !IsValidObjectId(vendorId) || !IsValidObjectId(productId) ==>
                r == Err(InvalidVendorOrProductId) && vendors == old(vendors)
      ensures IsValidObjectId(vendorId) && IsValidObjectId(productId) && vendorId !in old(vendors) ==>
                r == Err(VendorNotFound(vendorId)) && vendors == old(vendors)
      ensures r.Ok? ==>
                && vendorId in old(vendors)
                && r.value == old(vendors)[vendorId].(productIds := Pull(old(vendors)[vendorId].productIds, productId))
                && vendors == old(vendors)[vendorId := r.value]
      ensures IsValidObjectId(vendorId) && IsValidObjectId(productId) && vendorId in old(vendors) ==> r.Ok?
    {
      if !IsValidObjectId(vendorId) || !IsValidObjectId(productId) {
        return Err(InvalidVendorOrProductId);
      }
      r := UpdateProducts(vendorId, (list: seq<string>) => Pull(list, productId));
    }

    /** `addProducts(vendorId, productIds)` */
    method AddProducts(vendorId: string, productIds: seq<string>) returns (r: Result<Vendor>)
      modifies this
      ensures !IsValidObjectId(vendorId) ==> r == Err(InvalidVendorId) && vendors == old(vendors)
      ensures IsValidObjectId(vendorId) && FirstInvalid(productIds).Some? ==>
                r == Err(InvalidProductId(FirstInvalid(productIds).value)) && vendors == old(vendors)
      ensures IsValidObjectId(vendorId) && FirstInvalid(productIds).None? && vendorId !in old(vendors) ==>
                r == Err(VendorNotFound(vendorId)) && vendors == old(vendors)
      ensures r.Ok? ==>
                && vendorId in old(vendors)
                && r.value == old(vendors)[vendorId].(productIds := AddEachToSet(old(vendors)[vendorId].productIds, productIds))
                && vendors == old(vendors)[vendorId := r.value]
      ensures IsValidObjectId(vendorId) && FirstInvalid(productIds).None? && vendorId in old(vendors) ==> r.Ok?
    {
      if !IsValidObjectId(vendorId) {
        return Err(InvalidVendorId);
      }
      var checked := CheckProductIds(productIds);
      if checked.Err? {
        return Err(checked.error);
      }
      r := UpdateProducts(vendorId, (list: seq<string>) => AddEachToSet(list, productIds));
    }

    /** `removeProducts(vendorId, productIds)` */
    method RemoveProducts(vendorId: string, productIds: seq<string>) returns (r: Result<Vendor>)
      modifies this
      ensures !IsValidObjectId(vendorId) ==> r == Err(InvalidVendorId) && vendors == old(vendors)
      ensures IsValidObjectId(vendorId) && FirstInvalid(productIds).Some? ==>
                r == Err(InvalidProductId(FirstInvalid(productIds).value)) && vendors == old(vendors)
      ensures IsValidObjectId(vendorId) && FirstInvalid(productIds).None? && vendorId !in old(vendors) ==>
                r == Err(VendorNotFound(vendorId)) && vendors == old(vendors)
      ensures r.Ok? ==>
                && vendorId in old(vendors)
                && r.value == old(vendors)[vendorId].(productIds := PullEach(old(vendors)[vendorId].productIds, productIds))
                && vendors == old(vendors)[vendorId := r.value]
      ensures IsValidObjectId(vendorId) && FirstInvalid(productIds).None? && vendorId in old(vendors) ==> r.Ok?
    {
      if !IsValidObjectId(vendorId) {
        return Err(InvalidVendorId);
      }
      var checked := CheckProductIds(productIds);
      if checked.Err? {
        return Err(checked.error);
      }
      r := UpdateProducts(vendorId, (list: seq<string>) => PullEach(list, productIds));
    }

    /** `remove(id)` */
    method Remove(id: string) returns (r: Result<()>)
      modifies this
      ensures !IsValidObjectId(id) ==> r == Err(InvalidVendorId) && vendors == old(vendors)
      ensures IsValidObjectId(id) && id !in old(vendors) ==> r == Err(VendorNotFound(id)) && vendors == old(vendors)
      ensures r.Ok? <==> IsValidObjectId(id) && id in old(vendors)
      ensures r.Ok? ==> vendors == old(vendors) - {id}
    {
      if !IsValidObjectId(id) {
        return Err(InvalidVendorId);
      }
      if id !in vendors {
        return Err(VendorNotFound(id));
      }
      vendors := vendors - {id};
      r := Ok(());
    }
  }
}
