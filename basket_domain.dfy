/**
 * The basket aggregate: a list of lines with at most one line per product,
 * a running total and an expiry instant.  Money is in integer cents and
 * instants are integer seconds.
 */
module BasketDomain {
  import opened Wrappers

  /** The basket domain's error values. */
  datatype BasketError =
    | ErrBasketNotFound
    | ErrBasketExpired
    | ErrInvalidBasketID
    | ErrInvalidUserID
    | ErrItemNotFound
    | ErrInvalidProductID
    | ErrInvalidQuantity
    | ErrInvalidPrice

  /** Twenty-four hours in seconds, the unit of every timestamp here. */
  const Day: int := 86400

  /** One basket line. */
  datatype Item = Item(
    id: nat,
    basketId: string,
    productId: nat,
    quantity: int,
    unitPrice: int,
    totalPrice: int,
    createdAt: int,
    updatedAt: int)

  /** A basket as the store serialises it. */
  datatype BasketState = BasketState(
    id: string,
    userId: nat,
    items: seq<Item>,
    total: int,
    createdAt: int,
    updatedAt: int,
    expiresAt: int)

  // ---------------------------------------------------------------------
  // Sums over the line list, accumulated front to back.

  function LineSum(items: seq<Item>): int
  {
    if |items| == 0 then 0 else LineSum(items[..|items| - 1]) + items[|items| - 1].totalPrice
  }

  function QuantitySum(items: seq<Item>): int
  {
    if |items| == 0 then 0 else QuantitySum(items[..|items| - 1]) + items[|items| - 1].quantity
  }

  /** How many units of one product the lines hold, wherever they sit. */
  function QuantityOf(items: seq<Item>, productId: nat): int
  {
    if |items| == 0 then 0
    else QuantityOf(items[..|items| - 1], productId)
         + (if items[|items| - 1].productId == productId then items[|items| - 1].quantity else 0)
  }

  /** At most one line per product. */
  ghost predicate Unique(items: seq<Item>)
  {
    forall i, j :: 0 <= i < j < |items| ==> items[i].productId != items[j].productId
  }

  /** Every line's total is its quantity times its unit price. */
  ghost predicate Priced(items: seq<Item>)
  {
    forall i :: 0 <= i < |items| ==> items[i].totalPrice == items[i].quantity * items[i].unitPrice
  }

  /** The lines of other products, in their original order. */
  function Others(items: seq<Item>, productId: nat): seq<Item>
  {
    if |items| == 0 then []
    else if items[0].productId == productId then Others(items[1..], productId)
    else [items[0]] + Others(items[1..], productId)
  }

  /** Position of the first line holding a product, if any. */
  function FirstIndex(items: seq<Item>, productId: nat): (r: Option<nat>)
    ensures r.Some? ==> r.value < |items| && items[r.value].productId == productId
    ensures r.Some? ==> forall j :: 0 <= j < r.value ==> items[j].productId != productId
    ensures r.None? <==> forall j :: 0 <= j < |items| ==> items[j].productId != productId
  {
    if |items| == 0 then None
    else if items[0].productId == productId then Some(0)
    else match FirstIndex(items[1..], productId)
      case None => None
      case Some(k) => Some(k + 1)
  }

  // ---------------------------------------------------------------------
  // The line list after each mutation.

  /** The line a fresh product gets. */
  function NewLine(basketId: string, productId: nat, quantity: int, unitPrice: int): Item
  {
    Item(0, basketId, productId, quantity, unitPrice, quantity * unitPrice, 0, 0)
  }

  /** An existing line with more units, re-priced at its stored unit price. */
  function Bumped(line: Item, quantity: int): Item
  {
    line.(quantity := line.quantity + quantity,
          totalPrice := (line.quantity + quantity) * line.unitPrice)
  }

  function Merged(items: seq<Item>, basketId: string, productId: nat, quantity: int, unitPrice: int): seq<Item>
  {
    match FirstIndex(items, productId)
    case Some(i) => items[i := Bumped(items[i], quantity)]
    case None => items + [NewLine(basketId, productId, quantity, unitPrice)]
  }

  function Without(items: seq<Item>, productId: nat): seq<Item>
  {
    match FirstIndex(items, productId)
    case Some(i) => items[..i] + items[i + 1..]
    case None => items
  }

  function Requantified(items: seq<Item>, productId: nat, quantity: int): seq<Item>
  {
    match FirstIndex(items, productId)
    case Some(i) => items[i := items[i].(quantity := quantity, totalPrice := quantity * items[i].unitPrice)]
    case None => items
  }

  /** The unit price a product's units are charged at after AddItem. */
  function ChargedPrice(items: seq<Item>, productId: nat, unitPrice: int): int
  {
    match FirstIndex(items, productId)
    case Some(i) => items[i].unitPrice
    case None => unitPrice
  }

  // ---------------------------------------------------------------------
  // Validation.

  /** The first failing check of a line, in the order BasketItem.Validate makes them. */
  function ItemError(line: Item): (r: Option<BasketError>)
    ensures r.None? <==>
      line.productId != 0 && line.quantity > 0 && line.unitPrice >= 0 && line.basketId != ""
    ensures line.productId == 0 ==> r == Some(ErrInvalidProductID)
    ensures line.productId != 0 && line.quantity <= 0 ==> r == Some(ErrInvalidQuantity)
    ensures line.productId != 0 && line.quantity > 0 && line.unitPrice < 0 ==> r == Some(ErrInvalidPrice)
    ensures r.Some? && line.unitPrice >= 0 && line.quantity > 0 && line.productId != 0 ==>
      r == Some(ErrInvalidBasketID)
  {
    if line.productId == 0 then Some(ErrInvalidProductID)
    else if line.quantity <= 0 then Some(ErrInvalidQuantity)
    else if line.unitPrice < 0 then Some(ErrInvalidPrice)
    else if line.basketId == "" then Some(ErrInvalidBasketID)
    else None
  }

  /** The error of the first line that fails validation. */
  function FirstItemError(items: seq<Item>): (r: Option<BasketError>)
    ensures r.None? <==> forall j :: 0 <= j < |items| ==> ItemError(items[j]).None?
    ensures r.Some? ==> exists j :: 0 <= j < |items| && ItemError(items[j]) == r &&
                                    forall k :: 0 <= k < j ==> ItemError(items[k]).None?
  {
    if |items| == 0 then None
    else if ItemError(items[0]).Some? then ItemError(items[0])
    else
      var rest := FirstItemError(items[1..]);
      rest
  }

  /** Basket.Validate over a serialised basket. */
  function BasketValidation(userId: nat, id: string, items: seq<Item>): (r: Option<BasketError>)
    ensures userId == 0 ==> r == Some(ErrInvalidUserID)
    ensures userId != 0 && id == "" ==> r == Some(ErrInvalidBasketID)
    ensures userId != 0 && id != "" ==> r == FirstItemError(items)
    ensures r.None? <==> userId != 0 && id != "" && forall j :: 0 <= j < |items| ==> ItemError(items[j]).None?
  {
    if userId == 0 then Some(ErrInvalidUserID)
    else if id == "" then Some(ErrInvalidBasketID)
    else FirstItemError(items)
  }

  // ---------------------------------------------------------------------
  // The aggregate.

  class Basket {
    var id: string
    var userId: nat
    var items: seq<Item>
    var total: int
    var createdAt: int
    var updatedAt: int
    var expiresAt: int

    /** Deserialises a stored basket. */
    constructor FromState(s: BasketState)
      ensures State() == s
    {
      id := s.id;
      userId := s.userId;
      items := s.items;
      total := s.total;
      createdAt := s.createdAt;
      updatedAt := s.updatedAt;
      expiresAt := s.expiresAt;
    }

    /** The basket as the store serialises it. */
    function State(): BasketState
      reads this
    {
      BasketState(id, userId, items, total, createdAt, updatedAt, expiresAt)
    }

    method CalculateTotal()
      modifies this
      ensures total == LineSum(items)
      ensures State() == old(State()).(total := LineSum(old(items)))
    {
      var sum := 0;
      var i := 0;
      while i < |items|
        invariant 0 <= i <= |items|
        invariant sum == LineSum(items[..i])
      {
        sum := sum + items[i].totalPrice;
        assert items[..i + 1][..i] == items[..i];
        i := i + 1;
      }
      assert items[..|items|] == items;
      total := sum;
    }

    /**
     * Adds units of a product: an existing line grows and is re-priced at
     * its stored unit price, otherwise one line is appended.
     */
    method AddItem(productId: nat, quantity: int, unitPrice: int)
      modifies this
      ensures items == Merged(old(items), old(id), productId, quantity, unitPrice)
      ensures total == LineSum(items)
      ensures State() == old(State()).(items := items, total := total)
    {
      var i := 0;
      while i < |items|
        invariant 0 <= i <= |items|
        invariant forall j :: 0 <= j < i ==> items[j].productId != productId
        invariant State() == old(State())
      {
        if items[i].productId == productId {
          var line := items[i];
          line := line.(quantity := line.quantity + quantity);
          line := line.(totalPrice := line.quantity * line.unitPrice);
          items := items[i := line];
          CalculateTotal();
          return;
        }
        i := i + 1;
      }
      items := items + [Item(0, id, productId, quantity, unitPrice, quantity * unitPrice, 0, 0)];
      CalculateTotal();
    }

    /** Drops the first line of a product; a complete no-op when there is none. */
    method RemoveItem(productId: nat)
      modifies this
      ensures items == Without(old(items), productId)
      ensures FirstIndex(old(items), productId).Some? ==> total == LineSum(items)
      ensures FirstIndex(old(items), productId).None? ==> State() == old(State())
      ensures State() == old(State()).(items := items, total := total)
    {
      var i := 0;
      while i < |items|
        invariant 0 <= i <= |items|
        invariant forall j :: 0 <= j < i ==> items[j].productId != productId
        invariant State() == old(State())
      {
        if items[i].productId == productId {
          items := items[..i] + items[i + 1..];
          CalculateTotal();
          return;
        }
        i := i + 1;
      }
    }

    /** Sets one line's quantity, re-priced at its stored unit price. */
    method UpdateItemQuantity(productId: nat, quantity: int) returns (err: Option<BasketError>)
      modifies this
      ensures quantity <= 0 ==> err == Some(ErrInvalidQuantity) && State() == old(State())
      ensures quantity > 0 && FirstIndex(old(items), productId).None? ==>
        err == Some(ErrItemNotFound) && State() == old(State())
      ensures quantity > 0 && FirstIndex(old(items), productId).Some? ==>
        err.None? && items == Requantified(old(items), productId, quantity) && total == LineSum(items)
      ensures State() == old(State()).(items := items, total := total)
    {
      if quantity <= 0 {
        return Some(ErrInvalidQuantity);
      }
      var i := 0;
      while i < |items|
        invariant 0 <= i <= |items|
        invariant forall j :: 0 <= j < i ==> items[j].productId != productId
        invariant State() == old(State())
      {
        if items[i].productId == productId {
          items := items[i := items[i].(quantity := quantity, totalPrice := quantity * items[i].unitPrice)];
          CalculateTotal();
          return None;
        }
        i := i + 1;
      }
      return Some(ErrItemNotFound);
    }

    method Clear()
      modifies this
      ensures items == [] && total == 0 && IsEmpty()
      ensures State() == old(State()).(items := [], total := 0)
    {
      items := [];
      total := 0;
    }

    predicate IsEmpty()
      reads this
    {
      |items| == 0
    }

    /** The number of units in the basket. */
    method GetItemCount() returns (count: int)
      ensures count == QuantitySum(items)
    {
      count := 0;
      var i := 0;
      while i < |items|
        invariant 0 <= i <= |items|
        invariant count == QuantitySum(items[..i])
      {
        count := count + items[i].quantity;
        assert items[..i + 1][..i] == items[..i];
        i := i + 1;
      }
      assert items[..|items|] == items;
    }

    predicate IsExpired(now: int)
      reads this
    {
      now > expiresAt
    }

    method SetExpiration(duration: int, now: int)
      modifies this
      ensures !IsExpired(now) <==> duration >= 0
      ensures State() == old(State()).(expiresAt := now + duration)
    {
      expiresAt := now + duration;
    }

    /** A copy of the first line holding the product, if any. */
    method GetItemByProductID(productId: nat) returns (r: Option<Item>)
      ensures r.None? <==> forall j :: 0 <= j < |items| ==> items[j].productId != productId
      ensures r.Some? ==> r.value.productId == productId
      ensures r.Some? ==> exists j :: 0 <= j < |items| && items[j] == r.value &&
                                      forall k :: 0 <= k < j ==> items[k].productId != productId
    {
      var i := 0;
      while i < |items|
        invariant 0 <= i <= |items|
        invariant forall j :: 0 <= j < i ==> items[j].productId != productId
      {
        if items[i].productId == productId {
          return Some(items[i]);
        }
        i := i + 1;
      }
      return None;
    }

    /** Basket.Validate: user, then id, then the lines in order. */
    method Validate() returns (err: Option<BasketError>)
      ensures err == BasketValidation(userId, id, items)
    {
      if userId == 0 {
        return Some(ErrInvalidUserID);
      }
      if id == "" {
        return Some(ErrInvalidBasketID);
      }
      var i := 0;
      while i < |items|
        invariant 0 <= i <= |items|
        invariant forall j :: 0 <= j < i ==> ItemError(items[j]).None?
      {
        var e := ItemError(items[i]);
        if e.Some? {
          ItemErrorIsFirst(items, i);
          return e;
        }
        i := i + 1;
      }
      return None;
    }
  }

  // ---------------------------------------------------------------------
  // Lemmas about the line list.

  /** When line i is the first failing one, its error is the basket's item error. */
  lemma {:induction false} ItemErrorIsFirst(items: seq<Item>, i: nat)
    requires i < |items|
    requires forall j :: 0 <= j < i ==> ItemError(items[j]).None?
    requires ItemError(items[i]).Some?
    ensures FirstItemError(items) == ItemError(items[i])
  {
    if i > 0 {
      ItemErrorIsFirst(items[1..], i - 1);
    }
  }

  lemma {:induction false} LineSumUpdate(items: seq<Item>, i: nat, line: Item)
    requires i < |items|
    ensures LineSum(items[i := line]) == LineSum(items) - items[i].totalPrice + line.totalPrice
  {
    var n := |items|;
    if i < n - 1 {
      assert items[i := line][..n - 1] == items[..n - 1][i := line];
      LineSumUpdate(items[..n - 1], i, line);
    } else {
      assert items[i := line][..n - 1] == items[..n - 1];
    }
  }

  lemma LineSumAppend(items: seq<Item>, line: Item)
    ensures LineSum(items + [line]) == LineSum(items) + line.totalPrice
  {
    assert (items + [line])[..|items|] == items;
  }

  lemma {:induction false} QuantitySumUpdate(items: seq<Item>, i: nat, line: Item)
    requires i < |items|
    ensures QuantitySum(items[i := line]) == QuantitySum(items) - items[i].quantity + line.quantity
  {
    var n := |items|;
    if i < n - 1 {
      assert items[i := line][..n - 1] == items[..n - 1][i := line];
      QuantitySumUpdate(items[..n - 1], i, line);
    } else {
      assert items[i := line][..n - 1] == items[..n - 1];
    }
  }

  lemma QuantitySumAppend(items: seq<Item>, line: Item)
    ensures QuantitySum(items + [line]) == QuantitySum(items) + line.quantity
  {
    assert (items + [line])[..|items|] == items;
  }

  lemma {:induction false} QuantityOfUpdate(items: seq<Item>, i: nat, line: Item, p: nat)
    requires i < |items|
    ensures QuantityOf(items[i := line], p) ==
            QuantityOf(items, p)
            - (if items[i].productId == p then items[i].quantity else 0)
            + (if line.productId == p then line.quantity else 0)
  {
    var n := |items|;
    if i < n - 1 {
      assert items[i := line][..n - 1] == items[..n - 1][i := line];
      QuantityOfUpdate(items[..n - 1], i, line, p);
    } else {
      assert items[i := line][..n - 1] == items[..n - 1];
    }
  }

  lemma QuantityOfAppend(items: seq<Item>, line: Item, p: nat)
    ensures QuantityOf(items + [line], p) ==
            QuantityOf(items, p) + (if line.productId == p then line.quantity else 0)
  {
    assert (items + [line])[..|items|] == items;
  }

  /** AddItem never creates a second line for a product. */
  lemma MergedKeepsUnique(items: seq<Item>, basketId: string, productId: nat, quantity: int, unitPrice: int)
    requires Unique(items)
    ensures Unique(Merged(items, basketId, productId, quantity, unitPrice))
    ensures |Merged(items, basketId, productId, quantity, unitPrice)| ==
            |items| + (if FirstIndex(items, productId).Some? then 0 else 1)
  {
  }

  /**
   * AddItem adds exactly `quantity` units of the product, changes no other
   * product, and charges them at the stored unit price when the product was
   * already present: the new unit price is then ignored.
   */
  lemma MergedEffect(items: seq<Item>, basketId: string, productId: nat, quantity: int, unitPrice: int, p: nat)
    requires Priced(items)
    ensures var m := Merged(items, basketId, productId, quantity, unitPrice);
      && QuantityOf(m, p) == QuantityOf(items, p) + (if p == productId then quantity else 0)
      && QuantitySum(m) == QuantitySum(items) + quantity
      && LineSum(m) == LineSum(items) + quantity * ChargedPrice(items, productId, unitPrice)
      && Priced(m)
  {
    var m := Merged(items, basketId, productId, quantity, unitPrice);
    match FirstIndex(items, productId)
    case Some(i) =>
      var line := Bumped(items[i], quantity);
      QuantityOfUpdate(items, i, line, p);
      QuantitySumUpdate(items, i, line);
      LineSumUpdate(items, i, line);
      assert line.totalPrice - items[i].totalPrice == quantity * items[i].unitPrice by {
        assert line.totalPrice == (items[i].quantity + quantity) * items[i].unitPrice;
        assert items[i].totalPrice == items[i].quantity * items[i].unitPrice;
      }
    case None =>
      var line := NewLine(basketId, productId, quantity, unitPrice);
      QuantityOfAppend(items, line, p);
      QuantitySumAppend(items, line);
      LineSumAppend(items, line);
  }

  /** A new product's line carries the basket's id and every earlier line stays put. */
  lemma MergedAppendsNewLine(items: seq<Item>, basketId: string, productId: nat, quantity: int, unitPrice: int)
    requires FirstIndex(items, productId).None?
    ensures var m := Merged(items, basketId, productId, quantity, unitPrice);
      && m[..|items|] == items
      && m[|items|] == Item(0, basketId, productId, quantity, unitPrice, quantity * unitPrice, 0, 0)
  {
  }

  /** Under uniqueness, RemoveItem keeps exactly the other products' lines, in order. */
  lemma {:induction false} WithoutIsOthers(items: seq<Item>, productId: nat)
    requires Unique(items)
    ensures Without(items, productId) == Others(items, productId)
  {
    if |items| == 0 {
    } else if items[0].productId == productId {
      assert items[..0] == [];
      assert Without(items, productId) == items[1..];
      OthersAbsent(items[1..], productId);
    } else {
      var rest := items[1..];
      assert Unique(rest);
      WithoutIsOthers(rest, productId);
      match FirstIndex(rest, productId)
      case Some(k) =>
        assert FirstIndex(items, productId) == Some(k + 1);
        assert items[..k + 1] == [items[0]] + rest[..k];
        assert items[k + 2..] == rest[k + 1..];
        assert items[..k + 1] + items[k + 2..] == [items[0]] + (rest[..k] + rest[k + 1..]);
      case None =>
        assert FirstIndex(items, productId).None?;
    }
  }

  lemma {:induction false} OthersAbsent(items: seq<Item>, productId: nat)
    requires forall j :: 0 <= j < |items| ==> items[j].productId != productId
    ensures Others(items, productId) == items
  {
    if |items| > 0 {
      OthersAbsent(items[1..], productId);
    }
  }

  /** Others drops every unit of the product and keeps every other product's. */
  lemma {:induction false} OthersQuantity(items: seq<Item>, productId: nat, p: nat)
    ensures QuantityOf(Others(items, productId), p) == (if p == productId then 0 else QuantityOf(items, p))
  {
    if |items| > 0 {
      OthersQuantity(items[1..], productId, p);
      QuantityOfFront(items, p);
      if items[0].productId != productId {
        QuantityOfFront([items[0]] + Others(items[1..], productId), p);
        assert ([items[0]] + Others(items[1..], productId))[1..] == Others(items[1..], productId);
      }
    }
  }

  /** QuantityOf also peels from the front. */
  lemma {:induction false} QuantityOfFront(items: seq<Item>, p: nat)
    requires |items| > 0
    ensures QuantityOf(items, p) ==
            (if items[0].productId == p then items[0].quantity else 0) + QuantityOf(items[1..], p)
  {
    var n := |items|;
    if n > 1 {
      QuantityOfFront(items[..n - 1], p);
      assert items[..n - 1][1..] == items[1..][..n - 2];
    } else {
      assert items[1..] == [];
      assert items[..0] == [];
    }
  }

  /** After a RemoveItem on a basket with unique lines the product is gone. */
  lemma RemovedIsGone(items: seq<Item>, productId: nat, p: nat)
    requires Unique(items)
    ensures QuantityOf(Without(items, productId), p) == (if p == productId then 0 else QuantityOf(items, p))
    ensures Unique(Without(items, productId))
  {
    WithoutIsOthers(items, productId);
    OthersQuantity(items, productId, p);
    WithoutKeepsUnique(items, productId);
  }

  /** Dropping a line keeps the others' products distinct. */
  lemma WithoutKeepsUnique(items: seq<Item>, productId: nat)
    requires Unique(items)
    ensures Unique(Without(items, productId))
  {
    match FirstIndex(items, productId)
    case Some(i) =>
      var w := items[..i] + items[i + 1..];
      forall a, b | 0 <= a < b < |w|
        ensures w[a].productId != w[b].productId
      {
        var a' := if a < i then a else a + 1;
        var b' := if b < i then b else b + 1;
        assert w[a] == items[a'] && w[b] == items[b'];
      }
    case None =>
  }

  /**
   * A successful UpdateItemQuantity leaves the product with exactly the new
   * quantity, every other product untouched, and the lines priced.
   */
  lemma RequantifiedEffect(items: seq<Item>, productId: nat, quantity: int, p: nat)
    requires Unique(items) && Priced(items)
    requires FirstIndex(items, productId).Some?
    ensures var r := Requantified(items, productId, quantity);
      && |r| == |items|
      && QuantityOf(r, p) == (if p == productId then quantity else QuantityOf(items, p))
      && Unique(r) && Priced(r)
      && forall j :: 0 <= j < |items| && items[j].productId != productId ==> r[j] == items[j]
  {
    var i := FirstIndex(items, productId).value;
    var line := items[i].(quantity := quantity, totalPrice := quantity * items[i].unitPrice);
    QuantityOfUpdate(items, i, line, p);
    if p == productId {
      OnlyLineQuantity(items, i);
    }
  }

  /** With unique lines, a product's units are those of its one line. */
  lemma {:induction false} OnlyLineQuantity(items: seq<Item>, i: nat)
    requires Unique(items) && i < |items|
    ensures QuantityOf(items, items[i].productId) == items[i].quantity
  {
    var n := |items|;
    var p := items[i].productId;
    if i == n - 1 {
      AbsentQuantity(items[..n - 1], p);
    } else {
      assert Unique(items[..n - 1]);
      OnlyLineQuantity(items[..n - 1], i);
    }
  }

  lemma {:induction false} AbsentQuantity(items: seq<Item>, p: nat)
    requires forall j :: 0 <= j < |items| ==> items[j].productId != p
    ensures QuantityOf(items, p) == 0
  {
    if |items| > 0 {
      AbsentQuantity(items[..|items| - 1], p);
    }
  }

  /** With positive quantities, a basket holds no units exactly when it has no lines. */
  lemma {:induction false} EmptyIffNoUnits(items: seq<Item>)
    requires forall j :: 0 <= j < |items| ==> items[j].quantity > 0
    ensures |items| == 0 <==> QuantitySum(items) == 0
    ensures QuantitySum(items) >= |items|
  {
    if |items| > 0 {
      EmptyIffNoUnits(items[..|items| - 1]);
    }
  }
}
