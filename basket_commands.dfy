/**
 * The basket command handlers: get-or-create, add, update, remove and clear,
 * each gated on the basket's expiry, and the response they all build.
 * Product-service replies are inputs; one instant `now` stands for every
 * clock reading within a request.
 */
module BasketCommands {
  import opened Wrappers
  import opened BasketDomain
  import opened BasketStore

  datatype ItemResponse = ItemResponse(
    id: nat,
    productId: nat,
    quantity: int,
    unitPrice: int,
    totalPrice: int,
    createdAt: int,
    updatedAt: int)

  datatype BasketResponse = BasketResponse(
    id: string,
    userId: nat,
    items: seq<ItemResponse>,
    total: int,
    itemCount: int,
    createdAt: int,
    updatedAt: int,
    expiresAt: int,
    isExpired: bool)

  datatype AddItemCommand = AddItemCommand(userId: nat, productId: nat, quantity: int, unitPrice: int)

  datatype UpdateItemCommand = UpdateItemCommand(userId: nat, productId: nat, quantity: int)

  /**
   * What the product service answers, in call order: product validation,
   * the stock check (each an error text or none) and the product's price.
   */
  datatype ProductReplies = ProductReplies(
    validation: Option<string>,
    stock: Option<string>,
    price: Result<int, string>)

  function ItemView(line: Item): ItemResponse
  {
    ItemResponse(line.id, line.productId, line.quantity, line.unitPrice, line.totalPrice,
                 line.createdAt, line.updatedAt)
  }

  /** A response reports a stored basket, as seen at `now`. */
  ghost predicate Describes(r: BasketResponse, s: BasketState, now: int)
  {
    && r.id == s.id && r.userId == s.userId && r.total == s.total
    && r.createdAt == s.createdAt && r.updatedAt == s.updatedAt && r.expiresAt == s.expiresAt
    && |r.items| == |s.items|
    && (forall i :: 0 <= i < |s.items| ==> r.items[i] == ItemView(s.items[i]))
    && r.itemCount == QuantitySum(s.items)
    && (r.isExpired <==> now > s.expiresAt)
  }

  /** A stored basket has exactly one response at a given instant. */
  lemma DescribesUnique(r1: BasketResponse, r2: BasketResponse, s: BasketState, now: int)
    requires Describes(r1, s, now) && Describes(r2, s, now)
    ensures r1 == r2
  {
    assert r1.items == r2.items;
  }

  method MapToResponse(b: Basket, now: int) returns (r: BasketResponse)
    ensures Describes(r, b.State(), now)
  {
    var views: seq<ItemResponse> := [];
    var i := 0;
    while i < |b.items|
      invariant 0 <= i <= |b.items|
      invariant |views| == i
      invariant forall j :: 0 <= j < i ==> views[j] == ItemView(b.items[j])
    {
      views := views + [ItemView(b.items[i])];
      i := i + 1;
    }
    var count := b.GetItemCount();
    r := BasketResponse(b.id, b.userId, views, b.total, count, b.createdAt, b.updatedAt,
                        b.expiresAt, b.IsExpired(now));
  }

  /** A zero requested price falls back to the product's price. */
  function EffectiveUnitPrice(requested: int, productPrice: int): (r: int)
    ensures requested != 0 ==> r == requested
    ensures requested == 0 ==> r == productPrice
  {
    if requested == 0 && productPrice != 0 then productPrice else requested
  }

  /** The basket a user gets when none is stored yet. */
  function FreshBasket(id: string, userId: nat, now: int): BasketState
  {
    BasketState(id, userId, [], 0, now, now, now + Day)
  }

  /** Returns the user's basket, creating an empty one that lives a day if there is none. */
  method CreateBasket(repo: BasketRepository, userId: nat, freshId: FreshId, now: int)
    returns (r: Result<BasketResponse, Failure>)
    requires repo.Valid()
    modifies repo
    ensures repo.Valid() && repo.available == old(repo.available) && repo.writable == old(repo.writable)
    ensures !old(repo.available) ==> r == Err(StoreUnavailable) && unchanged(repo)
    ensures old(repo.available) && userId in old(repo.owners) ==>
      && unchanged(repo)
      && (r.Ok? <==> old(repo.LookupByUser(userId)).Ok?)
      && (r.Ok? ==> Describes(r.value, old(repo.LookupByUser(userId)).value, now))
      && (r.Err? ==> r.error == StoreBasketNotFound)
    ensures old(repo.available) && userId !in old(repo.owners) && userId == 0 ==>
      r == Err(Domain(ErrInvalidUserID)) && unchanged(repo)
    ensures old(repo.available) && userId !in old(repo.owners) && userId != 0 && !repo.writable ==>
      r == Err(StoreWriteFailed) && unchanged(repo)
    ensures old(repo.available) && userId !in old(repo.owners) && userId != 0 && repo.writable ==>
      && r.Ok? && Describes(r.value, FreshBasket(freshId, userId, now), now)
      && repo.Wrote(old(repo.baskets), old(repo.owners), FreshBasket(freshId, userId, now))
    ensures r.Ok? ==> repo.LookupByUser(userId).Ok? && Describes(r.value, repo.LookupByUser(userId).value, now)
  {
    var known := repo.ExistsByUserID(userId);
    if known.Err? {
      return Err(known.error);
    }
    if known.value {
      var got := repo.GetByUserID(userId);
      if got.Err? {
        return Err(got.error);
      }
      var response := MapToResponse(got.value, now);
      return Ok(response);
    }
    var b := new Basket.FromState(BasketState(freshId, userId, [], 0, now, now, 0));
    b.SetExpiration(Day, now);
    var invalid := b.Validate();
    if invalid.Some? {
      return Err(Domain(invalid.value));
    }
    var err := repo.Create(b, freshId, now);
    if err.Some? {
      return Err(err.value);
    }
    var response := MapToResponse(b, now);
    return Ok(response);
  }

  /** Handling the creation twice stores at most one basket and answers the same both times. */
  method CreateBasketIdempotent(repo: BasketRepository, userId: nat, first: FreshId, second: FreshId, now: int)
    returns (r1: Result<BasketResponse, Failure>, r2: Result<BasketResponse, Failure>)
    requires repo.Valid()
    modifies repo
    ensures r1.Ok? ==> r2 == r1
    ensures r1.Ok? ==> repo.baskets.Keys <= old(repo.baskets.Keys) + {r1.value.id}
  {
    r1 := CreateBasket(repo, userId, first, now);
    r2 := CreateBasket(repo, userId, second, now);
    if r1.Ok? {
      DescribesUnique(r1.value, r2.value, repo.LookupByUser(userId).value, now);
    }
  }

  /** The product-service checks all pass. */
  predicate ProductChecksPass(replies: ProductReplies)
  {
    replies.validation.None? && replies.stock.None? && replies.price.Ok?
  }

  /** The item the handler validates and adds, for a basket id. */
  function CommandLine(basketId: string, cmd: AddItemCommand, replies: ProductReplies): Item
    requires replies.price.Ok?
  {
    var price := EffectiveUnitPrice(cmd.unitPrice, replies.price.value);
    NewLine(basketId, cmd.productId, cmd.quantity, price)
  }

  /**
   * Get-or-create as the add-item handler does it, with `notFound` the
   * lookup errors read as "this user has no basket yet".
   */
  method GetOrCreate(repo: BasketRepository, userId: nat, freshId: FreshId, now: int, notFound: set<Failure>)
    returns (r: Result<Basket, Failure>)
    requires repo.Valid() && StoreUnavailable !in notFound
    modifies repo
    ensures repo.Valid() && repo.available == old(repo.available) && repo.writable == old(repo.writable)
    ensures r.Ok? ==> fresh(r.value)
    ensures old(repo.LookupByUser(userId)).Ok? ==>
      r.Ok? && r.value.State() == old(repo.LookupByUser(userId)).value && unchanged(repo)
    ensures old(repo.LookupByUser(userId)).Err? && old(repo.LookupByUser(userId)).error !in notFound ==>
      r == Err(old(repo.LookupByUser(userId)).error) && unchanged(repo)
    ensures old(repo.LookupByUser(userId)).Err? && old(repo.LookupByUser(userId)).error in notFound ==>
      if !repo.writable then r == Err(StoreWriteFailed) && unchanged(repo)
      else
        && r.Ok? && r.value.State() == FreshBasket(freshId, userId, now)
        && repo.Wrote(old(repo.baskets), old(repo.owners), FreshBasket(freshId, userId, now))
  {
    var got := repo.GetByUserID(userId);
    if got.Ok? {
      return got;
    }
    if got.error !in notFound {
      return got;
    }
    var basket := new Basket.FromState(BasketState("", userId, [], 0, 0, 0, 0));
    basket.SetExpiration(Day, now);
    var err := repo.Create(basket, freshId, now);
    if err.Some? {
      return Err(err.value);
    }
    return Ok(basket);
  }

  /**
   * The add-item handler, with `notFound` the lookup errors it reads as
   * "this user has no basket yet".
   */
  method AddItemWith(repo: BasketRepository, cmd: AddItemCommand, replies: ProductReplies,
                     freshId: FreshId, now: int, notFound: set<Failure>)
    returns (r: Result<BasketResponse, Failure>)
    requires repo.Valid() && StoreUnavailable !in notFound
    modifies repo
    ensures repo.Valid()
    ensures replies.validation.Some? ==>
      r == Err(ProductValidationFailed(replies.validation.value)) && unchanged(repo)
    ensures replies.validation.None? && replies.stock.Some? ==>
      r == Err(StockCheckFailed(replies.stock.value)) && unchanged(repo)
    ensures replies.validation.None? && replies.stock.None? && replies.price.Err? ==>
      r == Err(ProductLookupFailed(replies.price.error)) && unchanged(repo)
    ensures r.Ok? ==> ProductChecksPass(replies)
    ensures ProductChecksPass(replies) && old(repo.LookupByUser(cmd.userId)).Ok? ==>
      var s := old(repo.LookupByUser(cmd.userId)).value;
      var line := CommandLine(s.id, cmd, replies);
      if now > s.expiresAt then
        r == Err(Domain(ErrBasketExpired)) && unchanged(repo)
      else if ItemError(line).Some? then
        r == Err(Domain(ItemError(line).value)) && unchanged(repo)
      else if !repo.writable then
        r == Err(StoreWriteFailed) && unchanged(repo)
      else
        && r.Ok? && Describes(r.value, Added(s, line, now), now)
        && repo.Wrote(old(repo.baskets), old(repo.owners), Added(s, line, now))
    ensures ProductChecksPass(replies) && old(repo.LookupByUser(cmd.userId)).Err? &&
            old(repo.LookupByUser(cmd.userId)).error !in notFound ==>
      r == Err(old(repo.LookupByUser(cmd.userId)).error) && unchanged(repo)
    ensures ProductChecksPass(replies) && old(repo.LookupByUser(cmd.userId)).Err? &&
            old(repo.LookupByUser(cmd.userId)).error in notFound ==>
      var s := FreshBasket(freshId, cmd.userId, now);
      var line := CommandLine(freshId, cmd, replies);
      if !repo.writable then
        r == Err(StoreWriteFailed) && unchanged(repo)
      else if ItemError(line).Some? then
        r == Err(Domain(ItemError(line).value)) && repo.Wrote(old(repo.baskets), old(repo.owners), s)
      else
        && r.Ok? && Describes(r.value, Added(s, line, now), now)
        && repo.Wrote(old(repo.baskets), old(repo.owners), Added(s, line, now))
  {
    if replies.validation.Some? {
      return Err(ProductValidationFailed(replies.validation.value));
    }
    if replies.stock.Some? {
      return Err(StockCheckFailed(replies.stock.value));
    }
    if replies.price.Err? {
      return Err(ProductLookupFailed(replies.price.error));
    }
    var unitPrice := cmd.unitPrice;
    if unitPrice == 0 && replies.price.value != 0 {
      unitPrice := replies.price.value;
    }
    r := AddToUserBasket(repo, cmd.userId, cmd.productId, cmd.quantity, unitPrice, freshId, now, notFound);
  }

  /** Get-or-create the user's basket, then add the line to it. */
  method AddToUserBasket(repo: BasketRepository, userId: nat, productId: nat, quantity: int, unitPrice: int,
                         freshId: FreshId, now: int, notFound: set<Failure>)
    returns (r: Result<BasketResponse, Failure>)
    requires repo.Valid() && StoreUnavailable !in notFound
    modifies repo
    ensures repo.Valid()
    ensures old(repo.LookupByUser(userId)).Ok? ==>
      var s := old(repo.LookupByUser(userId)).value;
      var line := NewLine(s.id, productId, quantity, unitPrice);
      if now > s.expiresAt then
        r == Err(Domain(ErrBasketExpired)) && unchanged(repo)
      else if ItemError(line).Some? then
        r == Err(Domain(ItemError(line).value)) && unchanged(repo)
      else if !repo.writable then
        r == Err(StoreWriteFailed) && unchanged(repo)
      else
        && r.Ok? && Describes(r.value, Added(s, line, now), now)
        && repo.Wrote(old(repo.baskets), old(repo.owners), Added(s, line, now))
    ensures old(repo.LookupByUser(userId)).Err? && old(repo.LookupByUser(userId)).error !in notFound ==>
      r == Err(old(repo.LookupByUser(userId)).error) && unchanged(repo)
    ensures old(repo.LookupByUser(userId)).Err? && old(repo.LookupByUser(userId)).error in notFound ==>
      var s := FreshBasket(freshId, userId, now);
      var line := NewLine(freshId, productId, quantity, unitPrice);
      if !repo.writable then
        r == Err(StoreWriteFailed) && unchanged(repo)
      else if ItemError(line).Some? then
        r == Err(Domain(ItemError(line).value)) && repo.Wrote(old(repo.baskets), old(repo.owners), s)
      else
        && r.Ok? && Describes(r.value, Added(s, line, now), now)
        && repo.Wrote(old(repo.baskets), old(repo.owners), Added(s, line, now))
  {
    var got := GetOrCreate(repo, userId, freshId, now, notFound);
    if got.Err? {
      return Err(got.error);
    }
    r := AddLine(repo, got.value, NewLine(got.value.id, productId, quantity, unitPrice), now);
  }

  /**
   * The rest of the add-item handler once the basket is in hand: the
   * expiry gate, the item's validation, the store's add and the re-read.
   */
  method AddLine(repo: BasketRepository, basket: Basket, line: Item, now: int)
    returns (r: Result<BasketResponse, Failure>)
    requires repo.Valid() && repo.Lookup(basket.id) == Ok(basket.State()) && line.basketId == basket.id
    modifies repo
    ensures repo.Valid()
    ensures now > old(basket.expiresAt) ==> r == Err(Domain(ErrBasketExpired)) && unchanged(repo)
    ensures now <= old(basket.expiresAt) && ItemError(line).Some? ==>
      r == Err(Domain(ItemError(line).value)) && unchanged(repo)
    ensures now <= old(basket.expiresAt) && ItemError(line).None? && !repo.writable ==>
      r == Err(StoreWriteFailed) && unchanged(repo)
    ensures now <= old(basket.expiresAt) && ItemError(line).None? && repo.writable ==>
      && r.Ok? && Describes(r.value, Added(old(basket.State()), line, now), now)
      && repo.Wrote(old(repo.baskets), old(repo.owners), Added(old(basket.State()), line, now))
  {
    if basket.IsExpired(now) {
      return Err(Domain(ErrBasketExpired));
    }
    var invalid := ItemError(line);
    if invalid.Some? {
      return Err(Domain(invalid.value));
    }
    var err := repo.AddItem(basket.id, line, now);
    if err.Some? {
      return Err(err.value);
    }
    var updated := repo.GetByID(basket.id);
    match updated {
      case Err(e) => return Err(e);
      case Ok(stored) =>
        var response := MapToResponse(stored, now);
        return Ok(response);
    }
  }

  /**
   * The add-item handler as written: only the domain's not-found error
   * triggers basket creation, and the store never returns that error, so a
   * user without a basket gets the store's not-found error and nothing is
   * stored.
   */
  method AddItem(repo: BasketRepository, cmd: AddItemCommand, replies: ProductReplies,
                 freshId: FreshId, now: int)
    returns (r: Result<BasketResponse, Failure>)
    requires repo.Valid()
    modifies repo
    ensures repo.Valid()
    ensures r.Ok? ==> old(repo.LookupByUser(cmd.userId)).Ok?
    ensures old(repo.LookupByUser(cmd.userId)).Err? ==> r.Err? && unchanged(repo)
    ensures ProductChecksPass(replies) && old(repo.available) && old(repo.LookupByUser(cmd.userId)).Err? ==>
      r == Err(StoreBasketNotFound)
  {
    r := AddItemWith(repo, cmd, replies, freshId, now, {Domain(ErrBasketNotFound)});
  }

  /** The add-item handler with either not-found error read as "no basket yet". */
  method AddItemCorrected(repo: BasketRepository, cmd: AddItemCommand, replies: ProductReplies,
                          freshId: FreshId, now: int)
    returns (r: Result<BasketResponse, Failure>)
    requires repo.Valid()
    modifies repo
    ensures repo.Valid()
    ensures ProductChecksPass(replies) && old(repo.available) && repo.writable &&
            old(repo.LookupByUser(cmd.userId)).Err? ==>
      && repo.owners == old(repo.owners)[cmd.userId := freshId]
      && freshId in repo.baskets
      && repo.baskets[freshId].expiresAt == now + Day
      && (ItemError(CommandLine(freshId, cmd, replies)).None? ==>
            r.Ok? && QuantitySum(repo.baskets[freshId].items) == cmd.quantity)
  {
    r := AddItemWith(repo, cmd, replies, freshId, now, {Domain(ErrBasketNotFound), StoreBasketNotFound});
    if ProductChecksPass(replies) && old(repo.available) && repo.writable && old(repo.LookupByUser(cmd.userId)).Err? {
      var line := CommandLine(freshId, cmd, replies);
      QuantitySumAppend([], line);
    }
  }

  /** On a store without the user's basket, the handler as written fails instead of creating one. */
  method AddItemToNewUserFails() returns (r: Result<BasketResponse, Failure>)
    ensures r == Err(StoreBasketNotFound)
  {
    var repo := new BasketRepository();
    r := AddItem(repo, AddItemCommand(7, 42, 1, 1000), ProductReplies(None, None, Ok(1000)), "fresh", 0);
  }

  /** Sets one line's quantity in the user's live basket. */
  method UpdateItem(repo: BasketRepository, cmd: UpdateItemCommand, now: int)
    returns (r: Result<BasketResponse, Failure>)
    requires repo.Valid()
    modifies repo
    ensures repo.Valid()
    ensures old(repo.LookupByUser(cmd.userId)).Err? ==>
      r == Err(old(repo.LookupByUser(cmd.userId)).error) && unchanged(repo)
    ensures old(repo.LookupByUser(cmd.userId)).Ok? ==>
      var s := old(repo.LookupByUser(cmd.userId)).value;
      if now > s.expiresAt then
        r == Err(Domain(ErrBasketExpired)) && unchanged(repo)
      else if cmd.quantity <= 0 then
        r == Err(Domain(ErrInvalidQuantity)) && unchanged(repo)
      else if FirstIndex(s.items, cmd.productId).None? then
        r == Err(Domain(ErrItemNotFound)) && unchanged(repo)
      else if !repo.writable then
        r == Err(StoreWriteFailed) && unchanged(repo)
      else
        var t := Requantity(s, cmd.productId, cmd.quantity, now);
        r.Ok? && Describes(r.value, t, now) && repo.Wrote(old(repo.baskets), old(repo.owners), t)
  {
    var got := repo.GetByUserID(cmd.userId);
    if got.Err? {
      return Err(got.error);
    }
    var basket := got.value;
    if basket.IsExpired(now) {
      return Err(Domain(ErrBasketExpired));
    }
    var item := Item(0, basket.id, cmd.productId, cmd.quantity, 0, 0, 0, 0);
    var err := repo.UpdateItem(basket.id, item, now);
    if err.Some? {
      return Err(err.value);
    }
    var updated := repo.GetByID(basket.id);
    match updated {
      case Err(e) => return Err(e);
      case Ok(stored) =>
        var response := MapToResponse(stored, now);
        return Ok(response);
    }
  }

  /** Drops a product from the user's live basket; an absent product is not an error. */
  method RemoveItem(repo: BasketRepository, userId: nat, productId: nat, now: int)
    returns (r: Result<BasketResponse, Failure>)
    requires repo.Valid()
    modifies repo
    ensures repo.Valid()
    ensures old(repo.LookupByUser(userId)).Err? ==>
      r == Err(old(repo.LookupByUser(userId)).error) && unchanged(repo)
    ensures old(repo.LookupByUser(userId)).Ok? ==>
      var s := old(repo.LookupByUser(userId)).value;
      if now > s.expiresAt then
        r == Err(Domain(ErrBasketExpired)) && unchanged(repo)
      else if !repo.writable then
        r == Err(StoreWriteFailed) && unchanged(repo)
      else
        var t := Removed(s, productId, now);
        r.Ok? && Describes(r.value, t, now) && repo.Wrote(old(repo.baskets), old(repo.owners), t)
  {
    var got := repo.GetByUserID(userId);
    if got.Err? {
      return Err(got.error);
    }
    var basket := got.value;
    if basket.IsExpired(now) {
      return Err(Domain(ErrBasketExpired));
    }
    var err := repo.RemoveItem(basket.id, productId, now);
    if err.Some? {
      return Err(err.value);
    }
    var updated := repo.GetByID(basket.id);
    match updated {
      case Err(e) => return Err(e);
      case Ok(stored) =>
        var response := MapToResponse(stored, now);
        return Ok(response);
    }
  }

  /** Empties the user's live basket, keeping its id, owner and expiry. */
  method ClearBasket(repo: BasketRepository, userId: nat, now: int)
    returns (r: Result<BasketResponse, Failure>)
    requires repo.Valid()
    modifies repo
    ensures repo.Valid()
    ensures old(repo.LookupByUser(userId)).Err? ==>
      r == Err(old(repo.LookupByUser(userId)).error) && unchanged(repo)
    ensures old(repo.LookupByUser(userId)).Ok? ==>
      var s := old(repo.LookupByUser(userId)).value;
      if now > s.expiresAt then
        r == Err(Domain(ErrBasketExpired)) && unchanged(repo)
      else if !repo.writable then
        r == Err(StoreWriteFailed) && unchanged(repo)
      else
        && r.Ok? && Describes(r.value, Cleared(s, now), now)
        && r.value.items == [] && r.value.total == 0 && r.value.itemCount == 0
        && r.value.id == s.id && r.value.userId == s.userId && r.value.expiresAt == s.expiresAt
        && repo.Wrote(old(repo.baskets), old(repo.owners), Cleared(s, now))
  {
    var got := repo.GetByUserID(userId);
    if got.Err? {
      return Err(got.error);
    }
    var basket := got.value;
    if basket.IsExpired(now) {
      return Err(Domain(ErrBasketExpired));
    }
    var err := repo.ClearItems(basket.id, now);
    if err.Some? {
      return Err(err.value);
    }
    var updated := repo.GetByID(basket.id);
    match updated {
      case Err(e) => return Err(e);
      case Ok(stored) =>
        var response := MapToResponse(stored, now);
        return Ok(response);
    }
  }
}
