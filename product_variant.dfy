/**
 * A product variant: its own price and weight override the parent
 * product's when set, and its stock follows the product's counter rules.
 */
module ProductVariants {
  import opened Wrappers
  import opened ProductDomain

  datatype VariantRow = VariantRow(
    id: nat,
    productId: nat,
    /** The loaded parent product, if any. */
    product: Option<ProductRow>,
    name: string,
    sku: string,
    price: int,
    stock: int,
    weight: int,
    color: string,
    size: string,
    material: string,
    image: string,
    isActive: bool,
    sortOrder: int,
    createdAt: int,
    updatedAt: int)
  {
    predicate IsValidName() { |name| > 0 && |name| <= 255 }
    predicate IsValidSKU() { |sku| > 0 && |sku| <= 100 }
    predicate IsValidPrice() { price >= 0 }
    predicate IsValidStock() { stock >= 0 }
    predicate IsValidWeight() { weight >= 0 }

    /** The five field checks, stated directly on the fields. */
    predicate WellFormed()
    {
      1 <= |name| <= 255 && 1 <= |sku| <= 100 && price >= 0 && stock >= 0 && weight >= 0
    }

    function ValidateVariant(): (r: Option<ProductError>)
      ensures r.None? <==> WellFormed()
      ensures r.Some? ==> r.value == ErrInvalidProductData
    {
      if !IsValidName() then Some(ErrInvalidProductData)
      else if !IsValidSKU() then Some(ErrInvalidProductData)
      else if !IsValidPrice() then Some(ErrInvalidProductData)
      else if !IsValidStock() then Some(ErrInvalidProductData)
      else if !IsValidWeight() then Some(ErrInvalidProductData)
      else None
    }

    function GetEffectivePrice(): int
    {
      if price > 0 then price
      else if product.Some? then product.value.price
      else 0
    }

    function GetEffectiveWeight(): int
    {
      if weight > 0 then weight
      else if product.Some? then product.value.weight
      else 0
    }

    predicate IsInStock() { stock > 0 && isActive }

    predicate IsAvailable() { isActive && IsInStock() }
  }

  /**
   * A variant's own positive price wins; otherwise the parent's price is
   * used, and without a parent the price is zero.  Weight follows the same
   * three-way rule.
   */
  lemma EffectivePriceRule(v: VariantRow)
    ensures v.price > 0 ==> v.GetEffectivePrice() == v.price
    ensures v.price <= 0 && v.product.Some? ==> v.GetEffectivePrice() == v.product.value.price
    ensures v.price <= 0 && v.product.None? ==> v.GetEffectivePrice() == 0
    ensures v.weight > 0 ==> v.GetEffectiveWeight() == v.weight
    ensures v.weight <= 0 && v.product.Some? ==> v.GetEffectiveWeight() == v.product.value.weight
    ensures v.weight <= 0 && v.product.None? ==> v.GetEffectiveWeight() == 0
  {
  }

  /** A valid variant of a valid product never has a negative effective price or weight. */
  lemma EffectiveValuesNonNegative(v: VariantRow)
    requires v.WellFormed()
    requires v.product.Some? ==> v.product.value.WellFormed()
    ensures v.GetEffectivePrice() >= 0 && v.GetEffectiveWeight() >= 0
  {
  }

  /** A variant's own price makes its parent irrelevant. */
  lemma OwnPriceIgnoresParent(v: VariantRow, parent: Option<ProductRow>)
    requires v.price > 0
    ensures v.(product := parent).GetEffectivePrice() == v.GetEffectivePrice()
  {
  }

  lemma VariantAvailability(v: VariantRow)
    ensures v.IsInStock() <==> v.stock > 0 && v.isActive
    ensures v.IsAvailable() <==> v.IsInStock()
  {
  }

  class ProductVariant {
    var id: nat
    var productId: nat
    var product: Option<ProductRow>
    var name: string
    var sku: string
    var price: int
    var stock: int
    var weight: int
    var color: string
    var size: string
    var material: string
    var image: string
    var isActive: bool
    var sortOrder: int
    var createdAt: int
    var updatedAt: int

    constructor FromRow(r: VariantRow)
      ensures Row() == r
    {
      id, productId, product, name, sku := r.id, r.productId, r.product, r.name, r.sku;
      price, stock, weight := r.price, r.stock, r.weight;
      color, size, material, image := r.color, r.size, r.material, r.image;
      isActive, sortOrder, createdAt, updatedAt := r.isActive, r.sortOrder, r.createdAt, r.updatedAt;
    }

    function Row(): VariantRow
      reads this
    {
      VariantRow(id, productId, product, name, sku, price, stock, weight,
                 color, size, material, image, isActive, sortOrder, createdAt, updatedAt)
    }

    /** Takes stock out under the product rules; on refusal nothing changes. */
    method ReduceStock(amount: int) returns (err: Option<ProductError>)
      modifies this
      ensures Reduced(old(stock), amount).Err? ==>
        err == Some(Reduced(old(stock), amount).error) && Row() == old(Row())
      ensures Reduced(old(stock), amount).Ok? ==>
        err.None? && Row() == old(Row()).(stock := Reduced(old(stock), amount).value)
    {
      if amount <= 0 {
        return Some(ErrInvalidStockAmount);
      }
      if stock < amount {
        return Some(ErrInsufficientStock);
      }
      stock := stock - amount;
      return None;
    }

    /** Puts stock in under the product rules; on refusal nothing changes. */
    method IncreaseStock(amount: int) returns (err: Option<ProductError>)
      modifies this
      ensures Increased(old(stock), amount).Err? ==>
        err == Some(Increased(old(stock), amount).error) && Row() == old(Row())
      ensures Increased(old(stock), amount).Ok? ==>
        err.None? && Row() == old(Row()).(stock := Increased(old(stock), amount).value)
    {
      if amount <= 0 {
        return Some(ErrInvalidStockAmount);
      }
      stock := stock + amount;
      return None;
    }

    method Activate()
      modifies this
      ensures Row() == old(Row()).(isActive := true)
    {
      isActive := true;
    }

    method Deactivate()
      modifies this
      ensures Row() == old(Row()).(isActive := false)
    {
      isActive := false;
    }

    method SetSortOrder(order: int)
      modifies this
      ensures Row() == old(Row()).(sortOrder := order)
    {
      sortOrder := order;
    }
  }
}
