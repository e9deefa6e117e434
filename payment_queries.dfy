/**
 * The payment queries: a paged listing of one user's payments, and
 * lookups of one payment or one payment method that hide records owned by
 * someone else.  Integers are Go's signed integers, whose division
 * truncates toward zero.
 */
module PaymentQueries {
  import opened Wrappers
  import opened PaymentDomain
  import opened PaymentStore
  import opened PaymentResponses

  datatype ListPaymentsQuery = ListPaymentsQuery(userId: nat, page: int, limit: int, status: string)

  /** The store's paged query: whose payments, how many, how many to skip, which status ("" for all). */
  datatype StoreQuery = StoreQuery(userId: nat, limit: int, offset: int, status: string)

  /** The store's answer: one page of rows and the count of all matching rows. */
  datatype StorePage = StorePage(rows: seq<PaymentRow>, total: int)

  datatype PaymentListResponse = PaymentListResponse(
    payments: seq<PaymentResponse>,
    total: int,
    page: int,
    limit: int,
    totalPages: int,
    hasNext: bool,
    hasPrev: bool)

  function Abs(x: int): nat
  {
    if x < 0 then -x else x
  }

  lemma QuotientBounds(x: nat, y: nat, m: nat)
    requires y > 0 && m == x / y
    ensures m * y <= x < m * y + y
    ensures m > 0 ==> x > 0
  {
  }

  /**
   * Go's integer division, which truncates toward zero: the quotient's
   * magnitude is the whole number of times `|b|` fits in `|a|`, and a
   * non-zero quotient is positive exactly when the operands have the
   * same sign.
   */
  function TruncDiv(a: int, b: int): (q: int)
    requires b != 0
    ensures Abs(q) * Abs(b) <= Abs(a) < Abs(q) * Abs(b) + Abs(b)
    ensures q != 0 ==> (q > 0 <==> (a > 0 <==> b > 0))
    ensures a >= 0 && b > 0 ==> q == a / b
  {
    var m := Abs(a) / Abs(b);
    QuotientBounds(Abs(a), Abs(b), m);
    if (a < 0) != (b < 0) then -(m as int) else m
  }

  /** The store query a listing makes: the page's offset counts the rows of every earlier page. */
  function StoreRequest(q: ListPaymentsQuery): StoreQuery
  {
    StoreQuery(q.userId, q.limit, (q.page - 1) * q.limit, q.status)
  }

  function TotalPages(total: int, limit: int): int
    requires limit != 0
  {
    TruncDiv(total + limit - 1, limit)
  }

  /** With a positive limit, the page count is the least number of pages that hold every row. */
  lemma TotalPagesIsCeiling(total: int, limit: int)
    requires total >= 0 && limit > 0
    ensures TotalPages(total, limit) >= 0
    ensures (TotalPages(total, limit) - 1) * limit < total <= TotalPages(total, limit) * limit
  {
    var t := TotalPages(total, limit);
    assert t == (total + limit - 1) / limit;
    var rem := (total + limit - 1) % limit;
    assert t * limit + rem == total + limit - 1 && 0 <= rem < limit;
  }

  /**
   * With a positive limit, there is a next page iff rows remain beyond
   * this one, and a previous page iff this page skips some rows.
   */
  lemma PagingFlags(q: ListPaymentsQuery, total: int)
    requires total >= 0 && q.limit > 0
    ensures q.page < TotalPages(total, q.limit) <==> q.page * q.limit < total
    ensures q.page > 1 <==> StoreRequest(q).offset > 0
  {
    var t := TotalPages(total, q.limit);
    TotalPagesIsCeiling(total, q.limit);
    if q.page < t {
      assert q.page <= t - 1;
      MultiplyMonotone(q.page, t - 1, q.limit);
    } else {
      MultiplyMonotone(t, q.page, q.limit);
    }
    if q.page > 1 {
      MultiplyPositive(q.page - 1, q.limit);
    } else {
      MultiplyMonotone(q.page - 1, 0, q.limit);
    }
  }

  lemma MultiplyMonotone(a: int, b: int, c: int)
    requires a <= b && c > 0
    ensures a * c <= b * c
  {
    assert b * c - a * c == (b - a) * c;
  }

  lemma MultiplyPositive(a: int, c: int)
    requires a > 0 && c > 0
    ensures a * c > 0
  {
  }

  /**
   * Lists one page of a user's payments.  `store` is what the database
   * answers for each query; a zero limit is a division by zero in the
   * page count.
   */
  method ListPayments(q: ListPaymentsQuery, store: StoreQuery -> Result<StorePage, Failure>)
    returns (r: Result<PaymentListResponse, Failure>)
    requires q.limit != 0
    ensures store(StoreRequest(q)).Err? ==> r == Err(store(StoreRequest(q)).error)
    ensures store(StoreRequest(q)).Ok? ==>
      var page := store(StoreRequest(q)).value;
      && r.Ok?
      && |r.value.payments| == |page.rows|
      && (forall i :: 0 <= i < |page.rows| ==> r.value.payments[i] == ToResponse(page.rows[i]))
      && r.value.total == page.total && r.value.page == q.page && r.value.limit == q.limit
      && r.value.totalPages == TotalPages(page.total, q.limit)
      && (r.value.hasNext <==> q.page < r.value.totalPages)
      && (r.value.hasPrev <==> q.page > 1)
  {
    var offset := (q.page - 1) * q.limit;
    var found := store(StoreQuery(q.userId, q.limit, offset, q.status));
    if found.Err? {
      return Err(found.error);
    }
    var rows := found.value.rows;
    var responses: seq<PaymentResponse> := [];
    var i := 0;
    while i < |rows|
      invariant 0 <= i <= |rows| && |responses| == i
      invariant forall j :: 0 <= j < i ==> responses[j] == ToResponse(rows[j])
    {
      responses := responses + [ToResponse(rows[i])];
      i := i + 1;
    }
    var total := found.value.total;
    var totalPages := TruncDiv(total + q.limit - 1, q.limit);
    return Ok(PaymentListResponse(responses, total, q.page, q.limit, totalPages,
                                  q.page < totalPages, q.page > 1));
  }

  /** One payment of the asking user; another user's payment answers as if absent. */
  function GetPayment(repo: PaymentRepository, userId: nat, paymentId: string): (r: Result<PaymentResponse, Failure>)
    reads repo
    ensures repo.Lookup(paymentId).Err? ==> r == Err(repo.Lookup(paymentId).error)
    ensures r.Ok? <==> repo.Lookup(paymentId).Ok? && repo.payments[paymentId].userId == userId
    ensures r.Ok? ==> r.value == ToResponse(repo.payments[paymentId])
    ensures repo.Lookup(paymentId).Ok? && !r.Ok? ==> r == Err(Domain(ErrPaymentNotFound))
  {
    var found := repo.Lookup(paymentId);
    if found.Err? then Err(found.error)
    else if found.value.userId != userId then Err(Domain(ErrPaymentNotFound))
    else Ok(ToResponse(found.value))
  }

  /** An owner check failure is indistinguishable from an id that is not stored. */
  lemma ForeignPaymentLooksMissing(repo: PaymentRepository, userId: nat, paymentId: string, missing: string)
    requires repo.available && paymentId in repo.payments && repo.payments[paymentId].userId != userId
    requires missing !in repo.payments
    ensures GetPayment(repo, userId, paymentId) == GetPayment(repo, userId, missing)
  {
  }

  function GetPaymentMethod(repo: PaymentMethodRepository, userId: nat, methodId: string): (r: Result<MethodResponse, Failure>)
    reads repo
    ensures repo.Lookup(methodId).Err? ==> r == Err(repo.Lookup(methodId).error)
    ensures r.Ok? <==> repo.Lookup(methodId).Ok? && repo.methods[methodId].userId == userId
    ensures r.Ok? ==> FromMethodResponse(r.value) == repo.methods[methodId]
    ensures repo.Lookup(methodId).Ok? && !r.Ok? ==> r == Err(Domain(ErrPaymentMethodNotFound))
  {
    var found := repo.Lookup(methodId);
    if found.Err? then Err(found.error)
    else if found.value.userId != userId then Err(Domain(ErrPaymentMethodNotFound))
    else Ok(ToMethodResponse(found.value))
  }

  lemma ForeignMethodLooksMissing(repo: PaymentMethodRepository, userId: nat, methodId: string, missing: string)
    requires repo.available && methodId in repo.methods && repo.methods[methodId].userId != userId
    requires missing !in repo.methods
    ensures GetPaymentMethod(repo, userId, methodId) == GetPaymentMethod(repo, userId, missing)
  {
  }
}
