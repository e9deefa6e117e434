/**
 * The basket store, seen as two key spaces: serialised baskets by id, and
 * the basket id of each user.  The store keeps its own not-found error,
 * distinct from the domain's.  Reads and writes can each fail as a whole:
 * Create and Update set the basket's key and then the user's key, and the
 * one `writable` flag makes both succeed or both fail.  Key expiry in the
 * store is not modelled.
 */
module BasketStore {
  import opened Wrappers
  import opened BasketDomain

  /** Errors a basket request can end with. */
  datatype Failure =
    | Domain(err: BasketError)
    | StoreBasketNotFound
    | StoreUnavailable
    | StoreWriteFailed
    | ProductValidationFailed(cause: string)
    | StockCheckFailed(cause: string)
    | ProductLookupFailed(cause: string)

  // The stored basket after each repository write, stamped `now`.

  function Added(s: BasketState, line: Item, now: int): BasketState
  {
    var m := Merged(s.items, s.id, line.productId, line.quantity, line.unitPrice);
    s.(items := m, total := LineSum(m), updatedAt := now)
  }

  function Requantity(s: BasketState, productId: nat, quantity: int, now: int): BasketState
  {
    var m := Requantified(s.items, productId, quantity);
    s.(items := m, total := LineSum(m), updatedAt := now)
  }

  /** A product that is absent leaves the total as it was. */
  function Removed(s: BasketState, productId: nat, now: int): BasketState
  {
    var w := Without(s.items, productId);
    s.(items := w,
       total := if FirstIndex(s.items, productId).Some? then LineSum(w) else s.total,
       updatedAt := now)
  }

  function Cleared(s: BasketState, now: int): BasketState
  {
    s.(items := [], total := 0, updatedAt := now)
  }

  class BasketRepository {
    var baskets: map<string, BasketState>
    var owners: map<nat, string>
    /** False models a store that cannot be read. */
    var available: bool
    /** False models a store that refuses writes. */
    var writable: bool

    constructor ()
      ensures baskets == map[] && owners == map[] && available && writable
      ensures Valid()
    {
      baskets := map[];
      owners := map[];
      available := true;
      writable := true;
    }

    /** Every basket is stored under its own id. */
    ghost predicate Valid()
      reads this
    {
      forall k :: k in baskets ==> baskets[k].id == k
    }

    /** What GetByID answers. */
    function Lookup(id: string): (r: Result<BasketState, Failure>)
      reads this
      ensures r.Ok? <==> available && id in baskets
      ensures r.Ok? ==> r.value == baskets[id]
      ensures !available ==> r == Err(StoreUnavailable)
      ensures available && id !in baskets ==> r == Err(StoreBasketNotFound)
    {
      if !available then Err(StoreUnavailable)
      else if id !in baskets then Err(StoreBasketNotFound)
      else Ok(baskets[id])
    }

    /** What GetByUserID answers: the user's mapping, then the basket it names. */
    function LookupByUser(userId: nat): (r: Result<BasketState, Failure>)
      reads this
      ensures r.Ok? <==> available && userId in owners && owners[userId] in baskets
      ensures r.Ok? ==> r.value == baskets[owners[userId]]
      ensures r.Err? ==> r.error == (if available then StoreBasketNotFound else StoreUnavailable)
    {
      if !available then Err(StoreUnavailable)
      else if userId !in owners then Err(StoreBasketNotFound)
      else Lookup(owners[userId])
    }

    function ExistsByUserID(userId: nat): (r: Result<bool, Failure>)
      reads this
      ensures r.Ok? <==> available
      ensures r.Ok? ==> (r.value <==> userId in owners)
    {
      if !available then Err(StoreUnavailable) else Ok(userId in owners)
    }

    method GetByID(id: string) returns (r: Result<Basket, Failure>)
      ensures r.Err? ==> Lookup(id) == Err(r.error)
      ensures r.Ok? ==> Lookup(id) == Ok(r.value.State()) && fresh(r.value)
    {
      var found := Lookup(id);
      if found.Err? {
        return Err(found.error);
      }
      var b := new Basket.FromState(found.value);
      return Ok(b);
    }

    method GetByUserID(userId: nat) returns (r: Result<Basket, Failure>)
      ensures r.Err? ==> LookupByUser(userId) == Err(r.error)
      ensures r.Ok? ==> LookupByUser(userId) == Ok(r.value.State()) && fresh(r.value)
    {
      var found := LookupByUser(userId);
      if found.Err? {
        return Err(found.error);
      }
      var b := new Basket.FromState(found.value);
      return Ok(b);
    }

    /**
     * Stores a new basket: an empty id gets the fresh one, a zero expiry
     * gets twenty-four hours, both timestamps become `now`.
     */
    method Create(b: Basket, freshId: FreshId, now: int) returns (err: Option<Failure>)
      requires Valid()
      modifies this, b
      ensures Valid()
      ensures b.State() == old(b.State()).(
        id := if old(b.id) == "" then freshId else old(b.id),
        expiresAt := if old(b.expiresAt) == 0 then now + Day else old(b.expiresAt),
        createdAt := now, updatedAt := now)
      ensures !writable ==> err == Some(StoreWriteFailed) && unchanged(this)
      ensures writable ==> err.None? && Wrote(old(baskets), old(owners), b.State())
      ensures available == old(available) && writable == old(writable)
    {
      if b.id == "" {
        b.id := freshId;
      }
      if b.expiresAt == 0 {
        b.SetExpiration(Day, now);
      }
      b.createdAt := now;
      b.updatedAt := now;
      if !writable {
        return Some(StoreWriteFailed);
      }
      baskets := baskets[b.id := b.State()];
      owners := owners[b.userId := b.id];
      return None;
    }

    /** The store now holds `s` under its id, and its user maps to it; nothing else changed. */
    ghost predicate Wrote(oldBaskets: map<string, BasketState>, oldOwners: map<nat, string>, s: BasketState)
      reads this
    {
      baskets == oldBaskets[s.id := s] && owners == oldOwners[s.userId := s.id]
    }

    /** Rewrites a basket and its user's mapping, stamping `now`. */
    method Update(b: Basket, now: int) returns (err: Option<Failure>)
      requires Valid()
      modifies this, b
      ensures Valid()
      ensures b.State() == old(b.State()).(updatedAt := now)
      ensures !writable ==> err == Some(StoreWriteFailed) && unchanged(this)
      ensures writable ==> err.None? && Wrote(old(baskets), old(owners), b.State())
      ensures available == old(available) && writable == old(writable)
    {
      b.updatedAt := now;
      if !writable {
        return Some(StoreWriteFailed);
      }
      baskets := baskets[b.id := b.State()];
      owners := owners[b.userId := b.id];
      return None;
    }

    /** Loads the basket, merges the line in with the domain AddItem, saves. */
    method AddItem(basketId: string, item: Item, now: int) returns (err: Option<Failure>)
      requires Valid()
      modifies this
      ensures Valid() && available == old(available) && writable == old(writable)
      ensures old(Lookup(basketId)).Err? ==> err == Some(old(Lookup(basketId)).error) && unchanged(this)
      ensures old(Lookup(basketId)).Ok? && !writable ==> err == Some(StoreWriteFailed) && unchanged(this)
      ensures old(Lookup(basketId)).Ok? && writable ==>
        err.None? && Wrote(old(baskets), old(owners), Added(old(baskets[basketId]), item, now))
    {
      var found := GetByID(basketId);
      if found.Err? {
        return Some(found.error);
      }
      var b := found.value;
      b.AddItem(item.productId, item.quantity, item.unitPrice);
      err := Update(b, now);
    }

    /** Loads the basket, sets the line's quantity with the domain call, saves on success. */
    method UpdateItem(basketId: string, item: Item, now: int) returns (err: Option<Failure>)
      requires Valid()
      modifies this
      ensures Valid() && available == old(available) && writable == old(writable)
      ensures old(Lookup(basketId)).Err? ==> err == Some(old(Lookup(basketId)).error) && unchanged(this)
      ensures old(Lookup(basketId)).Ok? ==>
        var s := old(baskets[basketId]);
        if item.quantity <= 0 then
          err == Some(Domain(ErrInvalidQuantity)) && unchanged(this)
        else if FirstIndex(s.items, item.productId).None? then
          err == Some(Domain(ErrItemNotFound)) && unchanged(this)
        else if !writable then
          err == Some(StoreWriteFailed) && unchanged(this)
        else
          err.None? && Wrote(old(baskets), old(owners), Requantity(s, item.productId, item.quantity, now))
    {
      var found := GetByID(basketId);
      if found.Err? {
        return Some(found.error);
      }
      var b := found.value;
      var domainErr := b.UpdateItemQuantity(item.productId, item.quantity);
      if domainErr.Some? {
        return Some(Domain(domainErr.value));
      }
      err := Update(b, now);
    }

    /** Loads the basket, drops the product's line (if any), saves. */
    method RemoveItem(basketId: string, productId: nat, now: int) returns (err: Option<Failure>)
      requires Valid()
      modifies this
      ensures Valid() && available == old(available) && writable == old(writable)
      ensures old(Lookup(basketId)).Err? ==> err == Some(old(Lookup(basketId)).error) && unchanged(this)
      ensures old(Lookup(basketId)).Ok? && !writable ==> err == Some(StoreWriteFailed) && unchanged(this)
      ensures old(Lookup(basketId)).Ok? && writable ==>
        err.None? && Wrote(old(baskets), old(owners), Removed(old(baskets[basketId]), productId, now))
    {
      var found := GetByID(basketId);
      if found.Err? {
        return Some(found.error);
      }
      var b := found.value;
      b.RemoveItem(productId);
      err := Update(b, now);
    }

    /** Loads the basket, empties it, saves. */
    method ClearItems(basketId: string, now: int) returns (err: Option<Failure>)
      requires Valid()
      modifies this
      ensures Valid() && available == old(available) && writable == old(writable)
      ensures old(Lookup(basketId)).Err? ==> err == Some(old(Lookup(basketId)).error) && unchanged(this)
      ensures old(Lookup(basketId)).Ok? && !writable ==> err == Some(StoreWriteFailed) && unchanged(this)
      ensures old(Lookup(basketId)).Ok? && writable ==>
        err.None? && Wrote(old(baskets), old(owners), Cleared(old(baskets[basketId]), now))
    {
      var found := GetByID(basketId);
      if found.Err? {
        return Some(found.error);
      }
      var b := found.value;
      b.Clear();
      err := Update(b, now);
    }
  }
}
