/**
 * The payment and payment-method tables, each seen as a map from the
 * record's id to its row.  A lookup of an absent id answers the domain's
 * not-found value.  A save stamps the update time and rewrites the row
 * stored under the record's id; as in the user and product stores, a save
 * of an id with no row writes nothing, and since the payment repositories
 * do not look at the affected-row count, that save still answers no
 * error.  Reads and writes can each fail as a whole.
 */
module PaymentStore {
  import opened Wrappers
  import opened PaymentDomain

  /** Errors a payment request can end with. */
  datatype Failure =
    | Domain(err: PaymentError)
    | StoreUnavailable
    | StoreWriteFailed
    | GatewayFailed(cause: string)
    | BasketValidationFailed(cause: string)
    | BasketTotalMismatch
    | ProductValidationFailed(cause: string)
    | InvalidQuantity
    | ProductTotalMismatch
    | InsufficientStock
    | NoPurchaseTarget

  /**
   * The payment-method table after every method of `userId` has lost its
   * default mark in one bulk update at `now`; the update also stamps each
   * row it touches.
   */
  function NonDefaultFor(methods: map<string, MethodRow>, userId: nat, now: int): (r: map<string, MethodRow>)
    ensures r.Keys == methods.Keys
    ensures forall k :: k in methods && methods[k].userId == userId ==>
      r[k] == methods[k].(isDefault := false, updatedAt := now)
    ensures forall k :: k in methods && methods[k].userId != userId ==> r[k] == methods[k]
  {
    map k | k in methods :: if methods[k].userId == userId then methods[k].(isDefault := false, updatedAt := now) else methods[k]
  }

  class PaymentRepository {
    var payments: map<string, PaymentRow>
    /** False models a database that cannot be read. */
    var available: bool
    /** False models a database that refuses writes. */
    var writable: bool

    constructor ()
      ensures payments == map[] && available && writable
      ensures Valid()
    {
      payments := map[];
      available := true;
      writable := true;
    }

    /** Every row is stored under its own id. */
    ghost predicate Valid()
      reads this
    {
      forall k :: k in payments ==> payments[k].id == k
    }

    /** What GetByID answers. */
    function Lookup(id: string): (r: Result<PaymentRow, Failure>)
      reads this
      ensures r.Ok? <==> available && id in payments
      ensures r.Ok? ==> r.value == payments[id]
      ensures !available ==> r == Err(StoreUnavailable)
      ensures available && id !in payments ==> r == Err(Domain(ErrPaymentNotFound))
    {
      if !available then Err(StoreUnavailable)
      else if id !in payments then Err(Domain(ErrPaymentNotFound))
      else Ok(payments[id])
    }

    method GetByID(id: string) returns (r: Result<Payment, Failure>)
      ensures r.Err? ==> Lookup(id) == Err(r.error)
      ensures r.Ok? ==> Lookup(id) == Ok(r.value.Row()) && fresh(r.value)
    {
      var found := Lookup(id);
      if found.Err? {
        return Err(found.error);
      }
      var p := new Payment.FromRow(found.value);
      return Ok(p);
    }

    /** Inserts a payment; a refused write or a taken id stores nothing. */
    method Create(p: Payment) returns (err: Option<Failure>)
      requires Valid()
      modifies this
      ensures Valid() && available == old(available) && writable == old(writable)
      ensures !writable || p.id in old(payments) ==> err == Some(StoreWriteFailed) && payments == old(payments)
      ensures writable && p.id !in old(payments) ==> err.None? && payments == old(payments)[p.id := p.Row()]
    {
      if !writable || p.id in payments {
        return Some(StoreWriteFailed);
      }
      payments := payments[p.id := p.Row()];
      return None;
    }

    /** Saves every column of a stored payment, stamping `now`; an unknown id writes nothing. */
    method Update(p: Payment, now: int) returns (err: Option<Failure>)
      requires Valid()
      modifies this, p
      ensures Valid() && available == old(available) && writable == old(writable)
      ensures p.Row() == old(p.Row()).(updatedAt := now)
      ensures !writable ==> err == Some(StoreWriteFailed) && payments == old(payments)
      ensures writable && p.id in old(payments) ==> err.None? && payments == old(payments)[p.id := p.Row()]
      ensures writable && p.id !in old(payments) ==> err.None? && payments == old(payments)
    {
      p.updatedAt := now;
      if !writable {
        return Some(StoreWriteFailed);
      }
      if p.id !in payments {
        return None;
      }
      payments := payments[p.id := p.Row()];
      return None;
    }
  }

  class PaymentMethodRepository {
    var methods: map<string, MethodRow>
    var available: bool
    /** False models a database that refuses the single-row writes. */
    var writable: bool
    /**
     * False models a database that refuses the bulk update clearing a
     * user's default marks.  It is a separate statement, so it can fail
     * or succeed independently of a single-row write that follows it.
     */
    var bulkWritable: bool

    constructor ()
      ensures methods == map[] && available && writable && bulkWritable
      ensures Valid()
    {
      methods := map[];
      available := true;
      writable := true;
      bulkWritable := true;
    }

    ghost predicate Valid()
      reads this
    {
      forall k :: k in methods ==> methods[k].id == k
    }

    function Lookup(id: string): (r: Result<MethodRow, Failure>)
      reads this
      ensures r.Ok? <==> available && id in methods
      ensures r.Ok? ==> r.value == methods[id]
      ensures !available ==> r == Err(StoreUnavailable)
      ensures available && id !in methods ==> r == Err(Domain(ErrPaymentMethodNotFound))
    {
      if !available then Err(StoreUnavailable)
      else if id !in methods then Err(Domain(ErrPaymentMethodNotFound))
      else Ok(methods[id])
    }

    method GetByID(id: string) returns (r: Result<PaymentMethodInfo, Failure>)
      ensures r.Err? ==> Lookup(id) == Err(r.error)
      ensures r.Ok? ==> Lookup(id) == Ok(r.value.Row()) && fresh(r.value)
    {
      var found := Lookup(id);
      if found.Err? {
        return Err(found.error);
      }
      var m := new PaymentMethodInfo.FromRow(found.value);
      return Ok(m);
    }

    method Create(m: PaymentMethodInfo) returns (err: Option<Failure>)
      requires Valid()
      modifies this
      ensures Valid() && available == old(available) && writable == old(writable) && bulkWritable == old(bulkWritable)
      ensures !writable || m.id in old(methods) ==> err == Some(StoreWriteFailed) && methods == old(methods)
      ensures writable && m.id !in old(methods) ==> err.None? && methods == old(methods)[m.id := m.Row()]
    {
      if !writable || m.id in methods {
        return Some(StoreWriteFailed);
      }
      methods := methods[m.id := m.Row()];
      return None;
    }

    method Update(m: PaymentMethodInfo, now: int) returns (err: Option<Failure>)
      requires Valid()
      modifies this, m
      ensures Valid() && available == old(available) && writable == old(writable) && bulkWritable == old(bulkWritable)
      ensures m.Row() == old(m.Row()).(updatedAt := now)
      ensures !writable ==> err == Some(StoreWriteFailed) && methods == old(methods)
      ensures writable && m.id in old(methods) ==> err.None? && methods == old(methods)[m.id := m.Row()]
      ensures writable && m.id !in old(methods) ==> err.None? && methods == old(methods)
    {
      m.updatedAt := now;
      if !writable {
        return Some(StoreWriteFailed);
      }
      if m.id !in methods {
        return None;
      }
      methods := methods[m.id := m.Row()];
      return None;
    }

    /** Removes a method; an absent id is not an error. */
    method Delete(id: string) returns (err: Option<Failure>)
      requires Valid()
      modifies this
      ensures Valid() && available == old(available) && writable == old(writable) && bulkWritable == old(bulkWritable)
      ensures !writable ==> err == Some(StoreWriteFailed) && methods == old(methods)
      ensures writable ==> err.None? && methods == old(methods) - {id}
    {
      if !writable {
        return Some(StoreWriteFailed);
      }
      methods := methods - {id};
      return None;
    }

    /** Clears the default mark on every method of `userId`, in one statement stamped `now`. */
    method SetAllNonDefault(userId: nat, now: int) returns (err: Option<Failure>)
      requires Valid()
      modifies this
      ensures Valid() && available == old(available) && writable == old(writable) && bulkWritable == old(bulkWritable)
      ensures !bulkWritable ==> err == Some(StoreWriteFailed) && methods == old(methods)
      ensures bulkWritable ==> err.None? && methods == NonDefaultFor(old(methods), userId, now)
    {
      if !bulkWritable {
        return Some(StoreWriteFailed);
      }
      methods := NonDefaultFor(methods, userId, now);
      return None;
    }
  }
}
