/**
 * The non-CQRS product service.  Its create, update and flag operations
 * are the command handlers' sequences followed by a conversion to the
 * response shape, so they are defined here by calling those handlers.
 * Its stock operations and view counter answer with an error only, and
 * are step for step the handlers in ProductCommands.  The listing
 * operations convert a page the store returned.
 */
module ProductService {
  import opened Wrappers
  import opened ProductDomain
  import opened ProductStore
  import opened ProductCommands

  /** The product as the service returns it: every stored field but the deletion mark. */
  datatype ProductResponse = ProductResponse(
    id: nat,
    name: string,
    description: string,
    shortDescription: string,
    price: int,
    comparePrice: int,
    costPrice: int,
    stock: int,
    minStock: int,
    maxStock: int,
    category: string,
    subCategory: string,
    brand: string,
    sku: string,
    barcode: string,
    weight: int,
    dimensions: string,
    color: string,
    size: string,
    material: string,
    tags: string,
    images: string,
    isActive: bool,
    isDigital: bool,
    isFeatured: bool,
    isOnSale: bool,
    sortOrder: int,
    viewCount: int,
    createdAt: int,
    updatedAt: int)

  datatype ListProductsResponse = ListProductsResponse(
    products: seq<ProductResponse>,
    total: int,
    offset: int,
    limit: int)

  function ToProductResponse(p: ProductRow): ProductResponse
  {
    ProductResponse(p.id, p.name, p.description, p.shortDescription, p.price, p.comparePrice,
                    p.costPrice, p.stock, p.minStock, p.maxStock, p.category, p.subCategory,
                    p.brand, p.sku, p.barcode, p.weight, p.dimensions, p.color, p.size,
                    p.material, p.tags, p.images, p.isActive, p.isDigital, p.isFeatured,
                    p.isOnSale, p.sortOrder, p.viewCount, p.createdAt, p.updatedAt)
  }

  /** The row a response describes. */
  function FromResponse(r: ProductResponse): ProductRow
  {
    ProductRow(r.id, r.name, r.description, r.shortDescription, r.price, r.comparePrice,
               r.costPrice, r.stock, r.minStock, r.maxStock, r.category, r.subCategory,
               r.brand, r.sku, r.barcode, r.weight, r.dimensions, r.color, r.size,
               r.material, r.tags, r.images, r.isActive, r.isDigital, r.isFeatured,
               r.isOnSale, r.sortOrder, r.viewCount, r.createdAt, r.updatedAt)
  }

  /** The conversion loses nothing: it is a bijection between rows and responses. */
  lemma ResponseRoundTrip(p: ProductRow, r: ProductResponse)
    ensures FromResponse(ToProductResponse(p)) == p
    ensures ToProductResponse(FromResponse(r)) == r
  {
  }

  /** Creates through the create handler and answers with the stored product. */
  method CreateProduct(repo: ProductRepository, req: CreateProductCommand, now: int)
    returns (r: Result<ProductResponse, Failure>)
    requires repo.Valid()
    modifies repo
    ensures repo.Valid()
    ensures !NewProductRow(req).WellFormed() ==> r == Err(Domain(ErrInvalidProductData))
    ensures r.Ok? <==> NewProductRow(req).WellFormed() && repo.available && !old(repo.SkuTaken(req.sku)) && repo.writable
    ensures r.Err? ==> repo.products == old(repo.products)
    ensures r.Ok? ==>
      && FromResponse(r.value) == NewProductRow(req).(id := old(repo.nextId), createdAt := now, updatedAt := now)
      && repo.products == old(repo.products)[r.value.id := FromResponse(r.value)]
  {
    var created := ProductCommands.CreateProduct(repo, req, now);
    if created.Err? {
      return Err(created.error);
    }
    return Ok(ToProductResponse(created.value));
  }

  /** Updates through the update handler; the request carries the same optional fields as the command. */
  method UpdateProduct(repo: ProductRepository, id: nat, req: UpdateProductCommand, now: int)
    returns (r: Result<ProductResponse, Failure>)
    requires repo.Valid()
    modifies repo
    ensures repo.Valid()
    ensures old(repo.Lookup(id)).Err? ==> r == Err(old(repo.Lookup(id)).error) && unchanged(repo)
    ensures r.Err? ==> repo.products == old(repo.products)
    ensures old(repo.Lookup(id)).Ok? ==>
      var patched := Patched(old(repo.products[id]), req);
      && (!patched.WellFormed() ==> r == Err(Domain(ErrInvalidProductData)))
      && (r.Ok? <==> patched.WellFormed() && repo.writable)
      && (r.Ok? ==> FromResponse(r.value) == Stamped(patched, now) && repo.products == old(repo.products)[id := FromResponse(r.value)])
  {
    var updated := ProductCommands.UpdateProduct(repo, req.(productId := id), now);
    if updated.Err? {
      return Err(updated.error);
    }
    return Ok(ToProductResponse(updated.value));
  }

  /** Activate, deactivate, mark and unmark featured, answered with the saved product. */
  method ToggleProductFlag(repo: ProductRepository, id: nat, t: Toggle, now: int)
    returns (r: Result<ProductResponse, Failure>)
    requires repo.Valid()
    modifies repo
    ensures repo.Valid()
    ensures old(repo.Lookup(id)).Err? ==> r == Err(old(repo.Lookup(id)).error) && unchanged(repo)
    ensures r.Err? ==> repo.products == old(repo.products)
    ensures old(repo.Lookup(id)).Ok? ==>
      && (r.Ok? <==> repo.writable)
      && (r.Ok? ==> FromResponse(r.value) == Stamped(Toggled(old(repo.products[id]), t), now))
      && (r.Ok? ==> repo.products == old(repo.products)[id := FromResponse(r.value)])
  {
    var toggled := ToggleProduct(repo, id, t, now);
    if toggled.Err? {
      return Err(toggled.error);
    }
    return Ok(ToProductResponse(toggled.value));
  }

  /**
   * Converts the page the store returned for a listing, a category
   * listing or a name search.  The total is the page's own length, and
   * the requested offset and limit are echoed back.
   */
  method ListProducts(found: Result<seq<ProductRow>, Failure>, offset: int, limit: int)
    returns (r: Result<ListProductsResponse, Failure>)
    ensures found.Err? ==> r == Err(found.error)
    ensures found.Ok? ==> r.Ok?
    ensures r.Ok? ==>
      && r.value.total == |found.value| == |r.value.products|
      && r.value.offset == offset && r.value.limit == limit
      && (forall i :: 0 <= i < |found.value| ==> FromResponse(r.value.products[i]) == found.value[i])
  {
    if found.Err? {
      return Err(found.error);
    }
    var page := found.value;
    var responses: seq<ProductResponse> := [];
    var i := 0;
    while i < |page|
      invariant 0 <= i <= |page| && |responses| == i
      invariant forall j :: 0 <= j < i ==> FromResponse(responses[j]) == page[j]
    {
      responses := responses + [ToProductResponse(page[i])];
      i := i + 1;
    }
    return Ok(ListProductsResponse(responses, |responses|, offset, limit));
  }
}
