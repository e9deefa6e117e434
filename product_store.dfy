/**
 * The product table seen as a map from id to row.  Ids are assigned from
 * a counter on create; a save stamps the update time and rewrites the row
 * stored under the entity's id, and a save of an id with no row writes
 * nothing, which the repository reports as not-found.  The store has its
 * own not-found and duplicate values, distinct from the domain's, and
 * reads and writes can each fail as a whole.  Soft deletion is not
 * modelled.
 */
module ProductStore {
  import opened Wrappers
  import opened ProductDomain

  /** Errors a product request can end with. */
  datatype Failure =
    | Domain(err: ProductError)
    | StoreProductNotFound
    | StoreProductAlreadyExists
    | StoreUnavailable
    | StoreWriteFailed

  /** The row a save writes: the entity as it stands, stamped `now`. */
  function Stamped(r: ProductRow, now: int): (s: ProductRow)
    ensures s.(updatedAt := r.updatedAt) == r && s.updatedAt == now
  {
    r.(updatedAt := now)
  }

  class ProductRepository {
    var products: map<nat, ProductRow>
    /** The id the next create assigns. */
    var nextId: nat
    /** False models a database that cannot be read. */
    var available: bool
    /** False models a database that refuses writes. */
    var writable: bool

    constructor ()
      ensures products == map[] && nextId == 1 && available && writable
      ensures Valid()
    {
      products := map[];
      nextId := 1;
      available := true;
      writable := true;
    }

    /** Every row is stored under its own id, and ids are below the counter. */
    ghost predicate Valid()
      reads this
    {
      nextId >= 1 && forall k :: k in products ==> products[k].id == k && 1 <= k < nextId
    }

    /** What GetByID answers. */
    function Lookup(id: nat): (r: Result<ProductRow, Failure>)
      reads this
      ensures r.Ok? <==> available && id in products
      ensures r.Ok? ==> r.value == products[id]
      ensures !available ==> r == Err(StoreUnavailable)
      ensures available && id !in products ==> r == Err(StoreProductNotFound)
    {
      if !available then Err(StoreUnavailable)
      else if id !in products then Err(StoreProductNotFound)
      else Ok(products[id])
    }

    /** Whether some stored row carries this SKU. */
    ghost predicate SkuTaken(sku: string)
      reads this
    {
      exists k :: k in products && products[k].sku == sku
    }

    /** What Exists answers. */
    method Exists(sku: string) returns (r: Result<bool, Failure>)
      ensures r.Ok? <==> available
      ensures r.Err? ==> r.error == StoreUnavailable
      ensures r.Ok? ==> (r.value <==> SkuTaken(sku))
    {
      if !available {
        return Err(StoreUnavailable);
      }
      var keys := products.Keys;
      var found := false;
      while keys != {}
        invariant keys <= products.Keys
        invariant found <==> exists k :: k in products.Keys - keys && products[k].sku == sku
        decreases keys
      {
        var k :| k in keys;
        if products[k].sku == sku {
          found := true;
        }
        keys := keys - {k};
      }
      return Ok(found);
    }

    method GetByID(id: nat) returns (r: Result<Product, Failure>)
      ensures r.Err? ==> Lookup(id) == Err(r.error)
      ensures r.Ok? ==> Lookup(id) == Ok(r.value.Row()) && fresh(r.value)
    {
      var found := Lookup(id);
      if found.Err? {
        return Err(found.error);
      }
      var p := new Product.FromRow(found.value);
      return Ok(p);
    }

    /**
     * Inserts a product whose SKU is not yet stored, assigning the next id
     * and stamping both timestamps.  A taken SKU or a failed read or write
     * stores nothing and leaves the entity as it was.
     */
    method Create(p: Product, now: int) returns (err: Option<Failure>)
      requires Valid()
      modifies this, p
      ensures Valid() && available == old(available) && writable == old(writable)
      ensures !available ==> err == Some(StoreUnavailable) && unchanged(this) && unchanged(p)
      ensures available && old(SkuTaken(p.sku)) ==>
        err == Some(StoreProductAlreadyExists) && unchanged(this) && unchanged(p)
      ensures available && !old(SkuTaken(p.sku)) && !writable ==>
        err == Some(StoreWriteFailed) && unchanged(this) && unchanged(p)
      ensures available && !old(SkuTaken(p.sku)) && writable ==>
        && err.None?
        && p.Row() == old(p.Row()).(id := old(nextId), createdAt := now, updatedAt := now)
        && products == old(products)[p.id := p.Row()]
        && old(nextId) !in old(products)
        && nextId == old(nextId) + 1
    {
      var taken := Exists(p.sku);
      if taken.Err? {
        return Some(taken.error);
      }
      if taken.value {
        return Some(StoreProductAlreadyExists);
      }
      if !writable {
        return Some(StoreWriteFailed);
      }
      assert nextId !in products;
      p.AssignIdentity(nextId, now);
      Insert(p.Row());
      return None;
    }

    /** Stores a row under the next id and advances the counter. */
    method Insert(row: ProductRow)
      requires Valid() && row.id == nextId
      modifies this
      ensures Valid() && available == old(available) && writable == old(writable)
      ensures products == old(products)[row.id := row] && nextId == old(nextId) + 1
    {
      products := products[row.id := row];
      nextId := nextId + 1;
    }

    /** Saves every column of a stored product, stamping `now`; an unknown id saves nothing. */
    method Update(p: Product, now: int) returns (err: Option<Failure>)
      requires Valid()
      modifies this, p
      ensures Valid() && available == old(available) && writable == old(writable)
      ensures nextId == old(nextId)
      ensures p.Row() == Stamped(old(p.Row()), now)
      ensures !writable ==> err == Some(StoreWriteFailed) && products == old(products)
      ensures writable && p.id !in old(products) ==> err == Some(StoreProductNotFound) && products == old(products)
      ensures writable && p.id in old(products) ==> err.None? && products == old(products)[p.id := p.Row()]
    {
      p.updatedAt := now;
      if !writable {
        return Some(StoreWriteFailed);
      }
      if p.id !in products {
        return Some(StoreProductNotFound);
      }
      products := products[p.id := p.Row()];
      return None;
    }

    /** Overwrites the stock column of a stored product, with no check on the value. */
    method UpdateStock(id: nat, stock: int, now: int) returns (err: Option<Failure>)
      requires Valid()
      modifies this
      ensures Valid() && available == old(available) && writable == old(writable)
      ensures nextId == old(nextId)
      ensures !writable ==> err == Some(StoreWriteFailed) && products == old(products)
      ensures writable && id !in old(products) ==> err == Some(StoreProductNotFound) && products == old(products)
      ensures writable && id in old(products) ==>
        err.None? && products == old(products)[id := Stamped(old(products[id]).(stock := stock), now)]
    {
      if !writable {
        return Some(StoreWriteFailed);
      }
      if id !in products {
        return Some(StoreProductNotFound);
      }
      products := products[id := Stamped(products[id].(stock := stock), now)];
      return None;
    }
  }
}
