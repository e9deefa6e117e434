/**
 * The product command handlers: create, partial update, the three stock
 * handlers, the flag handlers and the view counter.  Each handler that
 * changes a stored product fetches it, mutates the entity, and saves only
 * when every check has passed.
 */
module ProductCommands {
  import opened Wrappers
  import opened ProductDomain
  import opened ProductStore

  // ---------------------------------------------------------------------
  // Create.

  /** Every client-settable field of a new product. */
  datatype CreateProductCommand = CreateProductCommand(
    name: string,
    description: string,
    shortDescription: string,
    price: int,
    comparePrice: int,
    costPrice: int,
    stock: int,
    minStock: int,
    maxStock: int,
    category: string,
    subCategory: string,
    brand: string,
    sku: string,
    barcode: string,
    weight: int,
    dimensions: string,
    color: string,
    size: string,
    material: string,
    tags: string,
    images: string,
    isDigital: bool,
    isFeatured: bool,
    isOnSale: bool,
    sortOrder: int)

  /** The entity a create command builds: copied fields, active, not yet stored. */
  function NewProductRow(c: CreateProductCommand): ProductRow
  {
    ProductRow(0, c.name, c.description, c.shortDescription, c.price, c.comparePrice, c.costPrice,
               c.stock, c.minStock, c.maxStock, c.category, c.subCategory, c.brand, c.sku, c.barcode,
               c.weight, c.dimensions, c.color, c.size, c.material, c.tags, c.images,
               true, c.isDigital, c.isFeatured, c.isOnSale, c.sortOrder, 0, 0, 0)
  }

  /** The command fields a row carries. */
  function CommandOf(r: ProductRow): CreateProductCommand
  {
    CreateProductCommand(r.name, r.description, r.shortDescription, r.price, r.comparePrice, r.costPrice,
                         r.stock, r.minStock, r.maxStock, r.category, r.subCategory, r.brand, r.sku,
                         r.barcode, r.weight, r.dimensions, r.color, r.size, r.material, r.tags,
                         r.images, r.isDigital, r.isFeatured, r.isOnSale, r.sortOrder)
  }

  /** Creation copies every command field, whatever the command, and forces the product active. */
  lemma CreateCopiesCommand(c: CreateProductCommand, r: ProductRow)
    ensures CommandOf(NewProductRow(c)) == c
    ensures NewProductRow(c).isActive && NewProductRow(c).viewCount == 0
    ensures CommandOf(r) == c ==> NewProductRow(c) == r.(id := 0, isActive := true, viewCount := 0, createdAt := 0, updatedAt := 0)
  {
  }

  /**
   * Builds the product, validates it, then stores it.  An invalid product
   * never reaches the store; a store refusal returns no product.
   */
  method CreateProduct(repo: ProductRepository, c: CreateProductCommand, now: int)
    returns (r: Result<ProductRow, Failure>)
    requires repo.Valid()
    modifies repo
    ensures repo.Valid()
    ensures !NewProductRow(c).WellFormed() ==> r == Err(Domain(ErrInvalidProductData)) && unchanged(repo)
    ensures NewProductRow(c).WellFormed() && !repo.available ==> r == Err(StoreUnavailable) && unchanged(repo)
    ensures NewProductRow(c).WellFormed() && repo.available && old(repo.SkuTaken(c.sku)) ==>
      r == Err(StoreProductAlreadyExists) && unchanged(repo)
    ensures NewProductRow(c).WellFormed() && repo.available && !old(repo.SkuTaken(c.sku)) && !repo.writable ==>
      r == Err(StoreWriteFailed) && unchanged(repo)
    ensures NewProductRow(c).WellFormed() && repo.available && !old(repo.SkuTaken(c.sku)) && repo.writable ==>
      && r == Ok(NewProductRow(c).(id := old(repo.nextId), createdAt := now, updatedAt := now))
      && old(repo.nextId) !in old(repo.products)
      && repo.products == old(repo.products)[r.value.id := r.value]
    ensures r.Ok? ==> r.value.WellFormed() && r.value.isActive && CommandOf(r.value) == c
  {
    var p := new Product.FromRow(NewProductRow(c));
    var invalid := p.Row().ValidateProduct();
    if invalid.Some? {
      return Err(Domain(invalid.value));
    }
    var err := repo.Create(p, now);
    if err.Some? {
      return Err(err.value);
    }
    return Ok(p.Row());
  }

  // ---------------------------------------------------------------------
  // Partial update: an absent field keeps the stored value.

  datatype UpdateProductCommand = UpdateProductCommand(
    productId: nat,
    name: Option<string>,
    description: Option<string>,
    shortDescription: Option<string>,
    price: Option<int>,
    comparePrice: Option<int>,
    costPrice: Option<int>,
    stock: Option<int>,
    minStock: Option<int>,
    maxStock: Option<int>,
    category: Option<string>,
    subCategory: Option<string>,
    brand: Option<string>,
    barcode: Option<string>,
    weight: Option<int>,
    dimensions: Option<string>,
    color: Option<string>,
    size: Option<string>,
    material: Option<string>,
    tags: Option<string>,
    images: Option<string>,
    isActive: Option<bool>,
    isDigital: Option<bool>,
    isFeatured: Option<bool>,
    isOnSale: Option<bool>,
    sortOrder: Option<int>)

  /** The given value, or the current one when none is given. */
  function Keep<T>(given: Option<T>, current: T): T
  {
    if given.Some? then given.value else current
  }

  /** The row after the command's given fields are written over it. */
  function Patched(r: ProductRow, c: UpdateProductCommand): ProductRow
  {
    r.(name := Keep(c.name, r.name),
       description := Keep(c.description, r.description),
       shortDescription := Keep(c.shortDescription, r.shortDescription),
       price := Keep(c.price, r.price),
       comparePrice := Keep(c.comparePrice, r.comparePrice),
       costPrice := Keep(c.costPrice, r.costPrice),
       stock := Keep(c.stock, r.stock),
       minStock := Keep(c.minStock, r.minStock),
       maxStock := Keep(c.maxStock, r.maxStock),
       category := Keep(c.category, r.category),
       subCategory := Keep(c.subCategory, r.subCategory),
       brand := Keep(c.brand, r.brand),
       barcode := Keep(c.barcode, r.barcode),
       weight := Keep(c.weight, r.weight),
       dimensions := Keep(c.dimensions, r.dimensions),
       color := Keep(c.color, r.color),
       size := Keep(c.size, r.size),
       material := Keep(c.material, r.material),
       tags := Keep(c.tags, r.tags),
       images := Keep(c.images, r.images),
       isActive := Keep(c.isActive, r.isActive),
       isDigital := Keep(c.isDigital, r.isDigital),
       isFeatured := Keep(c.isFeatured, r.isFeatured),
       isOnSale := Keep(c.isOnSale, r.isOnSale),
       sortOrder := Keep(c.sortOrder, r.sortOrder))
  }

  /** The later of two optional values. */
  function Later<T>(first: Option<T>, second: Option<T>): Option<T>
  {
    if second.Some? then second else first
  }

  /** One command with the effect of `c1` followed by `c2`. */
  function Then(c1: UpdateProductCommand, c2: UpdateProductCommand): UpdateProductCommand
  {
    UpdateProductCommand(c2.productId,
      Later(c1.name, c2.name), Later(c1.description, c2.description),
      Later(c1.shortDescription, c2.shortDescription), Later(c1.price, c2.price),
      Later(c1.comparePrice, c2.comparePrice), Later(c1.costPrice, c2.costPrice),
      Later(c1.stock, c2.stock), Later(c1.minStock, c2.minStock), Later(c1.maxStock, c2.maxStock),
      Later(c1.category, c2.category), Later(c1.subCategory, c2.subCategory),
      Later(c1.brand, c2.brand), Later(c1.barcode, c2.barcode), Later(c1.weight, c2.weight),
      Later(c1.dimensions, c2.dimensions), Later(c1.color, c2.color), Later(c1.size, c2.size),
      Later(c1.material, c2.material), Later(c1.tags, c2.tags), Later(c1.images, c2.images),
      Later(c1.isActive, c2.isActive), Later(c1.isDigital, c2.isDigital),
      Later(c1.isFeatured, c2.isFeatured), Later(c1.isOnSale, c2.isOnSale),
      Later(c1.sortOrder, c2.sortOrder))
  }

  /** A command with no fields given. */
  function NoChanges(productId: nat): UpdateProductCommand
  {
    UpdateProductCommand(productId, None, None, None, None, None, None, None, None, None, None,
                         None, None, None, None, None, None, None, None, None, None, None,
                         None, None, None, None)
  }

  /** Two patches in a row are one patch whose given fields are the later ones. */
  lemma PatchesCompose(r: ProductRow, c1: UpdateProductCommand, c2: UpdateProductCommand)
    ensures Patched(Patched(r, c1), c2) == Patched(r, Then(c1, c2))
  {
  }

  /** Applying the same command twice equals applying it once. */
  lemma PatchIdempotent(r: ProductRow, c: UpdateProductCommand)
    ensures Patched(Patched(r, c), c) == Patched(r, c)
  {
    PatchesCompose(r, c, c);
    assert Then(c, c) == c;
  }

  /** Identity, SKU, view count and timestamps are out of an update's reach; an empty command changes nothing. */
  lemma PatchKeepsIdentity(r: ProductRow, c: UpdateProductCommand)
    ensures Patched(r, c).id == r.id && Patched(r, c).sku == r.sku
    ensures Patched(r, c).viewCount == r.viewCount
    ensures Patched(r, c).createdAt == r.createdAt && Patched(r, c).updatedAt == r.updatedAt
    ensures Patched(r, NoChanges(c.productId)) == r
  {
  }

  /**
   * Fetches the product, patches it, validates the result and saves it.
   * A patched product that fails validation is never saved.
   */
  method UpdateProduct(repo: ProductRepository, c: UpdateProductCommand, now: int)
    returns (r: Result<ProductRow, Failure>)
    requires repo.Valid()
    modifies repo
    ensures repo.Valid() && repo.nextId == old(repo.nextId)
    ensures old(repo.Lookup(c.productId)).Err? ==>
      r == Err(old(repo.Lookup(c.productId)).error) && unchanged(repo)
    ensures old(repo.Lookup(c.productId)).Ok? ==>
      var patched := Patched(old(repo.products[c.productId]), c);
      if !patched.WellFormed() then
        r == Err(Domain(ErrInvalidProductData)) && unchanged(repo)
      else if !repo.writable then
        r == Err(StoreWriteFailed) && repo.products == old(repo.products)
      else
        r == Ok(Stamped(patched, now)) && repo.products == old(repo.products)[c.productId := r.value]
  {
    var found := repo.GetByID(c.productId);
    if found.Err? {
      return Err(found.error);
    }
    var p := new Product.FromRow(Patched(found.value.Row(), c));
    var invalid := p.Row().ValidateProduct();
    if invalid.Some? {
      return Err(Domain(invalid.value));
    }
    var err := repo.Update(p, now);
    if err.Some? {
      return Err(err.value);
    }
    return Ok(p.Row());
  }

  // ---------------------------------------------------------------------
  // Stock.

  /** Sets the stored stock to the given value, negative or not. */
  method UpdateStock(repo: ProductRepository, productId: nat, stock: int, now: int)
    returns (err: Option<Failure>)
    requires repo.Valid()
    modifies repo
    ensures repo.Valid() && repo.nextId == old(repo.nextId)
    ensures !repo.writable ==> err == Some(StoreWriteFailed) && repo.products == old(repo.products)
    ensures repo.writable && productId !in old(repo.products) ==>
      err == Some(StoreProductNotFound) && repo.products == old(repo.products)
    ensures repo.writable && productId in old(repo.products) ==>
      && err.None?
      && repo.products == old(repo.products)[productId := Stamped(old(repo.products[productId]).(stock := stock), now)]
  {
    err := repo.UpdateStock(productId, stock, now);
  }

  /** Fetches, takes `amount` out under the domain rules, and saves only if that succeeded. */
  method ReduceStock(repo: ProductRepository, productId: nat, amount: int, now: int)
    returns (err: Option<Failure>)
    requires repo.Valid()
    modifies repo
    ensures repo.Valid() && repo.nextId == old(repo.nextId)
    ensures old(repo.Lookup(productId)).Err? ==>
      err == Some(old(repo.Lookup(productId)).error) && unchanged(repo)
    ensures old(repo.Lookup(productId)).Ok? ==>
      var row := old(repo.products[productId]);
      if Reduced(row.stock, amount).Err? then
        err == Some(Domain(Reduced(row.stock, amount).error)) && unchanged(repo)
      else if !repo.writable then
        err == Some(StoreWriteFailed) && repo.products == old(repo.products)
      else
        && err.None?
        && repo.products == old(repo.products)[productId := Stamped(row.(stock := row.stock - amount), now)]
  {
    var found := repo.GetByID(productId);
    if found.Err? {
      return Some(found.error);
    }
    var p := found.value;
    var domainErr := p.ReduceStock(amount);
    if domainErr.Some? {
      return Some(Domain(domainErr.value));
    }
    err := repo.Update(p, now);
  }

  /** Fetches, puts `amount` in under the domain rules, and saves only if that succeeded. */
  method IncreaseStock(repo: ProductRepository, productId: nat, amount: int, now: int)
    returns (err: Option<Failure>)
    requires repo.Valid()
    modifies repo
    ensures repo.Valid() && repo.nextId == old(repo.nextId)
    ensures old(repo.Lookup(productId)).Err? ==>
      err == Some(old(repo.Lookup(productId)).error) && unchanged(repo)
    ensures old(repo.Lookup(productId)).Ok? ==>
      var row := old(repo.products[productId]);
      if amount <= 0 then
        err == Some(Domain(ErrInvalidStockAmount)) && unchanged(repo)
      else if !repo.writable then
        err == Some(StoreWriteFailed) && repo.products == old(repo.products)
      else
        && err.None?
        && repo.products == old(repo.products)[productId := Stamped(row.(stock := row.stock + amount), now)]
  {
    var found := repo.GetByID(productId);
    if found.Err? {
      return Some(found.error);
    }
    var p := found.value;
    var domainErr := p.IncreaseStock(amount);
    if domainErr.Some? {
      return Some(Domain(domainErr.value));
    }
    err := repo.Update(p, now);
  }

  // ---------------------------------------------------------------------
  // Flags and the view counter.

  /** The four flag handlers. */
  datatype Toggle = Activate | Deactivate | MarkFeatured | UnmarkFeatured

  /** The row after a flag handler's entity call. */
  function Toggled(r: ProductRow, t: Toggle): ProductRow
  {
    match t
    case Activate => r.(isActive := true)
    case Deactivate => r.(isActive := false)
    case MarkFeatured => r.(isFeatured := true)
    case UnmarkFeatured => r.(isFeatured := false)
  }

  /**
   * Each flag handler sets its flag to a fixed value and touches nothing
   * else, so repeating it changes nothing more.
   */
  lemma ToggleRules(r: ProductRow, t: Toggle)
    ensures Toggled(Toggled(r, t), t) == Toggled(r, t)
    ensures t.Activate? || t.Deactivate? ==>
      Toggled(r, t).(isActive := r.isActive) == r && Toggled(r, t).isActive == t.Activate?
    ensures t.MarkFeatured? || t.UnmarkFeatured? ==>
      Toggled(r, t).(isFeatured := r.isFeatured) == r && Toggled(r, t).isFeatured == t.MarkFeatured?
  {
  }

  /** Fetches, sets the handler's flag, saves, and returns the saved product. */
  method ToggleProduct(repo: ProductRepository, productId: nat, t: Toggle, now: int)
    returns (r: Result<ProductRow, Failure>)
    requires repo.Valid()
    modifies repo
    ensures repo.Valid() && repo.nextId == old(repo.nextId)
    ensures old(repo.Lookup(productId)).Err? ==>
      r == Err(old(repo.Lookup(productId)).error) && unchanged(repo)
    ensures old(repo.Lookup(productId)).Ok? && !repo.writable ==>
      r == Err(StoreWriteFailed) && repo.products == old(repo.products)
    ensures old(repo.Lookup(productId)).Ok? && repo.writable ==>
      && r == Ok(Stamped(Toggled(old(repo.products[productId]), t), now))
      && repo.products == old(repo.products)[productId := r.value]
  {
    var found := repo.GetByID(productId);
    if found.Err? {
      return Err(found.error);
    }
    var p := found.value;
    match t {
      case Activate => p.Activate();
      case Deactivate => p.Deactivate();
      case MarkFeatured => p.MarkAsFeatured();
      case UnmarkFeatured => p.UnmarkAsFeatured();
    }
    var err := repo.Update(p, now);
    if err.Some? {
      return Err(err.value);
    }
    return Ok(p.Row());
  }

  /** The row after one view. */
  function Viewed(r: ProductRow, now: int): ProductRow
  {
    Stamped(r.(viewCount := r.viewCount + 1), now)
  }

  /** Two views add two to the counter and change nothing else but the stamp. */
  lemma ViewedTwice(r: ProductRow, now1: int, now2: int)
    ensures Viewed(Viewed(r, now1), now2).viewCount == r.viewCount + 2
    ensures Viewed(Viewed(r, now1), now2) == Stamped(r.(viewCount := r.viewCount + 2), now2)
  {
  }

  /** Fetches, counts one more view, saves. */
  method IncrementViewCount(repo: ProductRepository, productId: nat, now: int)
    returns (err: Option<Failure>)
    requires repo.Valid()
    modifies repo
    ensures repo.Valid() && repo.nextId == old(repo.nextId)
    ensures old(repo.Lookup(productId)).Err? ==>
      err == Some(old(repo.Lookup(productId)).error) && unchanged(repo)
    ensures old(repo.Lookup(productId)).Ok? && !repo.writable ==>
      err == Some(StoreWriteFailed) && repo.products == old(repo.products)
    ensures old(repo.Lookup(productId)).Ok? && repo.writable ==>
      err.None? && repo.products == old(repo.products)[productId := Viewed(old(repo.products[productId]), now)]
  {
    var found := repo.GetByID(productId);
    if found.Err? {
      return Some(found.error);
    }
    var p := found.value;
    p.IncrementViewCount();
    err := repo.Update(p, now);
  }
}
