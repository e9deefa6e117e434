/**
 * The product entity: a guarded stock counter, twelve field checks behind
 * one validation, stock thresholds and one-field flag setters.  Prices are
 * integer cents and weights integer grams; string lengths count characters.
 */
module ProductDomain {
  import opened Wrappers

  /** The product domain's error values. */
  datatype ProductError =
    | ErrProductNotFound
    | ErrProductAlreadyExists
    | ErrInvalidStockAmount
    | ErrInsufficientStock
    | ErrInvalidProductData
    | ErrProductNotActive

  // ---------------------------------------------------------------------
  // The stock counter rules, shared by products and variants.

  /** Stock after taking `amount` out, or why it is refused. */
  function Reduced(stock: int, amount: int): (r: Result<int, ProductError>)
    ensures amount <= 0 ==> r == Err(ErrInvalidStockAmount)
    ensures amount > 0 && stock < amount ==> r == Err(ErrInsufficientStock)
    ensures r.Ok? <==> 0 < amount <= stock
    ensures r.Ok? ==> r.value + amount == stock && r.value >= 0
  {
    if amount <= 0 then Err(ErrInvalidStockAmount)
    else if stock < amount then Err(ErrInsufficientStock)
    else Ok(stock - amount)
  }

  /** Stock after putting `amount` in, or why it is refused. */
  function Increased(stock: int, amount: int): (r: Result<int, ProductError>)
    ensures r.Ok? <==> amount > 0
    ensures r.Err? ==> r.error == ErrInvalidStockAmount
    ensures r.Ok? ==> r.value - amount == stock && r.value > stock
  {
    if amount <= 0 then Err(ErrInvalidStockAmount) else Ok(stock + amount)
  }

  /** Putting stock in and taking the same amount out restores it. */
  lemma IncreaseThenReduce(stock: int, amount: int)
    requires stock >= 0 && amount > 0
    ensures Increased(stock, amount).Ok?
    ensures Reduced(Increased(stock, amount).value, amount) == Ok(stock)
  {
  }

  /** A successful reduction keeps a non-negative counter non-negative; an increase keeps it positive. */
  lemma StockStaysNonNegative(stock: int, amount: int)
    requires stock >= 0
    ensures Reduced(stock, amount).Ok? ==> Reduced(stock, amount).value >= 0
    ensures Increased(stock, amount).Ok? ==> Increased(stock, amount).value > 0
  {
  }

  // ---------------------------------------------------------------------
  // The product row.

  datatype ProductRow = ProductRow(
    id: nat,
    name: string,
    description: string,
    shortDescription: string,
    price: int,
    comparePrice: int,
    costPrice: int,
    stock: int,
    minStock: int,
    maxStock: int,
    category: string,
    subCategory: string,
    brand: string,
    sku: string,
    barcode: string,
    weight: int,
    dimensions: string,
    color: string,
    size: string,
    material: string,
    tags: string,
    images: string,
    isActive: bool,
    isDigital: bool,
    isFeatured: bool,
    isOnSale: bool,
    sortOrder: int,
    viewCount: int,
    createdAt: int,
    updatedAt: int)
  {
    predicate IsValidName() { |name| > 0 && |name| <= 255 }
    predicate IsValidPrice() { price >= 0 }
    predicate IsValidStock() { stock >= 0 }
    predicate IsValidSKU() { |sku| > 0 && |sku| <= 100 }
    predicate IsValidBarcode() { |barcode| == 0 || |barcode| <= 50 }
    predicate IsValidWeight() { weight >= 0 }
    predicate IsValidDimensions() { |dimensions| == 0 || |dimensions| <= 100 }
    predicate IsValidShortDescription() { |shortDescription| <= 500 }
    predicate IsValidComparePrice() { comparePrice >= 0 && comparePrice >= price }
    predicate IsValidCostPrice() { costPrice >= 0 }
    predicate IsValidMinStock() { minStock >= 0 }
    predicate IsValidMaxStock() { maxStock == 0 || maxStock >= minStock }

    /** All twelve field checks, stated directly on the fields. */
    predicate WellFormed()
    {
      && 1 <= |name| <= 255 && 1 <= |sku| <= 100
      && |barcode| <= 50 && |dimensions| <= 100 && |shortDescription| <= 500
      && price >= 0 && stock >= 0 && weight >= 0 && costPrice >= 0 && minStock >= 0
      && comparePrice >= price
      && (maxStock == 0 || maxStock >= minStock)
    }

    /** The checks in the order ValidateProduct makes them; every failure is the same error. */
    function ValidateProduct(): (r: Option<ProductError>)
      ensures r.None? <==> WellFormed()
      ensures r.Some? ==> r.value == ErrInvalidProductData
    {
      if !IsValidName() then Some(ErrInvalidProductData)
      else if !IsValidPrice() then Some(ErrInvalidProductData)
      else if !IsValidStock() then Some(ErrInvalidProductData)
      else if !IsValidSKU() then Some(ErrInvalidProductData)
      else if !IsValidBarcode() then Some(ErrInvalidProductData)
      else if !IsValidWeight() then Some(ErrInvalidProductData)
      else if !IsValidDimensions() then Some(ErrInvalidProductData)
      else if !IsValidShortDescription() then Some(ErrInvalidProductData)
      else if !IsValidComparePrice() then Some(ErrInvalidProductData)
      else if !IsValidCostPrice() then Some(ErrInvalidProductData)
      else if !IsValidMinStock() then Some(ErrInvalidProductData)
      else if !IsValidMaxStock() then Some(ErrInvalidProductData)
      else None
    }

    predicate IsInStock() { stock > 0 && isActive }

    predicate IsAvailable() { isActive && IsInStock() }

    predicate IsLowStock() { stock <= minStock && minStock > 0 }

    predicate IsOverStock() { maxStock > 0 && stock > maxStock }

    predicate IsDigitalProduct() { isDigital }

    predicate IsPhysicalProduct() { !isDigital }
  }

  /** In-stock and available are the same test: positive stock on an active product. */
  lemma AvailabilityRules(p: ProductRow)
    ensures p.IsInStock() <==> p.stock > 0 && p.isActive
    ensures p.IsAvailable() <==> p.IsInStock()
  {
  }

  /** Low and over stock are threshold tests that a zero threshold switches off; they exclude each other on a valid row. */
  lemma StockThresholds(p: ProductRow)
    ensures p.IsLowStock() <==> p.minStock > 0 && p.stock <= p.minStock
    ensures p.IsOverStock() <==> p.maxStock > 0 && p.stock > p.maxStock
    ensures p.WellFormed() ==> !(p.IsLowStock() && p.IsOverStock())
    ensures p.IsDigitalProduct() != p.IsPhysicalProduct()
  {
  }

  /** The compare price must reach the price, so the default zero fails any priced product. */
  lemma DefaultComparePriceRejected(p: ProductRow)
    requires p.price > 0 && p.comparePrice == 0
    ensures p.ValidateProduct() == Some(ErrInvalidProductData)
  {
  }

  // ---------------------------------------------------------------------
  // The entity.

  class Product {
    var id: nat
    var name: string
    var description: string
    var shortDescription: string
    var price: int
    var comparePrice: int
    var costPrice: int
    var stock: int
    var minStock: int
    var maxStock: int
    var category: string
    var subCategory: string
    var brand: string
    var sku: string
    var barcode: string
    var weight: int
    var dimensions: string
    var color: string
    var size: string
    var material: string
    var tags: string
    var images: string
    var isActive: bool
    var isDigital: bool
    var isFeatured: bool
    var isOnSale: bool
    var sortOrder: int
    var viewCount: int
    var createdAt: int
    var updatedAt: int

    /** Loads a stored row. */
    constructor FromRow(r: ProductRow)
      ensures Row() == r
    {
      id, name, description, shortDescription := r.id, r.name, r.description, r.shortDescription;
      price, comparePrice, costPrice := r.price, r.comparePrice, r.costPrice;
      stock, minStock, maxStock := r.stock, r.minStock, r.maxStock;
      category, subCategory, brand, sku, barcode := r.category, r.subCategory, r.brand, r.sku, r.barcode;
      weight, dimensions, color, size, material := r.weight, r.dimensions, r.color, r.size, r.material;
      tags, images := r.tags, r.images;
      isActive, isDigital, isFeatured, isOnSale := r.isActive, r.isDigital, r.isFeatured, r.isOnSale;
      sortOrder, viewCount, createdAt, updatedAt := r.sortOrder, r.viewCount, r.createdAt, r.updatedAt;
    }

    /** The entity as a row. */
    function Row(): ProductRow
      reads this
    {
      ProductRow(id, name, description, shortDescription, price, comparePrice, costPrice,
                 stock, minStock, maxStock, category, subCategory, brand, sku, barcode,
                 weight, dimensions, color, size, material, tags, images,
                 isActive, isDigital, isFeatured, isOnSale, sortOrder, viewCount,
                 createdAt, updatedAt)
    }

    /** What the store does to a product it inserts: assigns the id and both timestamps. */
    method AssignIdentity(newId: nat, now: int)
      modifies this
      ensures Row() == old(Row()).(id := newId, createdAt := now, updatedAt := now)
    {
      id := newId;
      StampCreation(now);
    }

    method StampCreation(now: int)
      modifies this
      ensures Row() == old(Row()).(createdAt := now, updatedAt := now)
    {
      createdAt, updatedAt := now, now;
    }

    method Activate()
      modifies this
      ensures Row() == old(Row()).(isActive := true)
    {
      isActive := true;
    }

    method Deactivate()
      modifies this
      ensures Row() == old(Row()).(isActive := false)
    {
      isActive := false;
    }

    /** Takes stock out; on refusal nothing changes. */
    method ReduceStock(amount: int) returns (err: Option<ProductError>)
      modifies this
      ensures Reduced(old(stock), amount).Err? ==>
        err == Some(Reduced(old(stock), amount).error) && Row() == old(Row())
      ensures Reduced(old(stock), amount).Ok? ==>
        err.None? && Row() == old(Row()).(stock := Reduced(old(stock), amount).value)
    {
      if amount <= 0 {
        return Some(ErrInvalidStockAmount);
      }
      if stock < amount {
        return Some(ErrInsufficientStock);
      }
      stock := stock - amount;
      return None;
    }

    /** Puts stock in; on refusal nothing changes. */
    method IncreaseStock(amount: int) returns (err: Option<ProductError>)
      modifies this
      ensures Increased(old(stock), amount).Err? ==>
        err == Some(Increased(old(stock), amount).error) && Row() == old(Row())
      ensures Increased(old(stock), amount).Ok? ==>
        err.None? && Row() == old(Row()).(stock := Increased(old(stock), amount).value)
    {
      if amount <= 0 {
        return Some(ErrInvalidStockAmount);
      }
      stock := stock + amount;
      return None;
    }

    method MarkAsFeatured()
      modifies this
      ensures Row() == old(Row()).(isFeatured := true)
    {
      isFeatured := true;
    }

    method UnmarkAsFeatured()
      modifies this
      ensures Row() == old(Row()).(isFeatured := false)
    {
      isFeatured := false;
    }

    method MarkAsOnSale()
      modifies this
      ensures Row() == old(Row()).(isOnSale := true)
    {
      isOnSale := true;
    }

    method UnmarkAsOnSale()
      modifies this
      ensures Row() == old(Row()).(isOnSale := false)
    {
      isOnSale := false;
    }

    method IncrementViewCount()
      modifies this
      ensures Row() == old(Row()).(viewCount := old(viewCount) + 1)
    {
      viewCount := viewCount + 1;
    }

    method SetSortOrder(order: int)
      modifies this
      ensures Row() == old(Row()).(sortOrder := order)
    {
      sortOrder := order;
    }
  }
}
