/**
 * The payment service facade: purchase checks before a payment is
 * created, ownership checks around processing and cancelling, the
 * completion event, the single-default rule for payment methods, and the
 * administrative placeholders.  Basket and product service replies are
 * inputs.
 */
module PaymentService {
  import opened Wrappers
  import opened PaymentDomain
  import opened PaymentStore
  import opened PaymentResponses
  import opened PaymentQueries
  import opened PaymentCommands

  /** A create request: the command's fields plus an optional purchase target. */
  datatype CreatePaymentRequest = CreatePaymentRequest(
    orderId: string,
    amount: int,
    currency: string,
    paymentMethod: string,
    paymentMethodId: string,
    returnUrl: string,
    cancelUrl: string,
    productId: Option<nat>,
    quantity: Option<int>,
    basketId: Option<string>)

  /** One line of the basket the basket service validated. */
  datatype BasketLine = BasketLine(productId: nat, quantity: int, unitPrice: int)

  /** What the product service answers for a product. */
  datatype ProductInfo = ProductInfo(price: int, stock: int)

  /** Which collaborator a create request consults. */
  datatype Source = NoSource | BasketService | ProductService

  // ---------------------------------------------------------------------
  // Purchase checks.

  /** The basket's value: quantity times unit price, summed over the lines in order. */
  function LinesTotal(lines: seq<BasketLine>): int
  {
    if lines == [] then 0
    else LinesTotal(lines[..|lines| - 1]) + lines[|lines| - 1].quantity * lines[|lines| - 1].unitPrice
  }

  /** The basket's value is additive over a split of its lines. */
  lemma {:induction false} LinesTotalAppend(a: seq<BasketLine>, b: seq<BasketLine>)
    ensures LinesTotal(a + b) == LinesTotal(a) + LinesTotal(b)
    decreases |b|
  {
    if b == [] {
      assert a + b == a;
    } else {
      var last := b[|b| - 1];
      assert (a + b)[..|a + b| - 1] == a + b[..|b| - 1];
      LinesTotalAppend(a, b[..|b| - 1]);
    }
  }

  /** Lines with non-negative quantities and prices have a non-negative value. */
  lemma {:induction false} LinesTotalNonNegative(lines: seq<BasketLine>)
    requires forall i :: 0 <= i < |lines| ==> lines[i].quantity >= 0 && lines[i].unitPrice >= 0
    ensures LinesTotal(lines) >= 0
    decreases |lines|
  {
    if lines != [] {
      LinesTotalNonNegative(lines[..|lines| - 1]);
    }
  }

  method BasketTotal(lines: seq<BasketLine>) returns (total: int)
    ensures total == LinesTotal(lines)
  {
    total := 0;
    var i := 0;
    while i < |lines|
      invariant 0 <= i <= |lines|
      invariant total == LinesTotal(lines[..i])
    {
      assert lines[..i + 1][..i] == lines[..i];
      total := total + lines[i].quantity * lines[i].unitPrice;
      i := i + 1;
    }
    assert lines[..|lines|] == lines;
  }

  /** The collaborator a request consults: the basket whenever one is named. */
  function SourceOf(req: CreatePaymentRequest): (s: Source)
    ensures s == BasketService <==> req.basketId.Some?
    ensures s == ProductService <==> req.basketId.None? && req.productId.Some? && req.quantity.Some?
  {
    if req.basketId.Some? then BasketService
    else if req.productId.Some? && req.quantity.Some? then ProductService
    else NoSource
  }

  /** Why a request is refused before any payment is built, if it is. */
  function PurchaseCheck(req: CreatePaymentRequest, basket: Result<seq<BasketLine>, string>,
                         product: Result<ProductInfo, string>): (r: Option<Failure>)
    ensures SourceOf(req) == NoSource ==> r == Some(NoPurchaseTarget)
    ensures SourceOf(req) == BasketService ==>
      && (basket.Err? ==> r == Some(BasketValidationFailed(basket.error)))
      && (basket.Ok? ==> (r.None? <==> req.amount == LinesTotal(basket.value)))
      && (basket.Ok? && r.Some? ==> r == Some(BasketTotalMismatch))
    ensures SourceOf(req) == ProductService ==>
      var q := req.quantity.value;
      && (product.Err? ==> r == Some(ProductValidationFailed(product.error)))
      && (product.Ok? ==>
            (r.None? <==> q > 0 && req.amount == q * product.value.price && product.value.stock >= q))
      && (product.Ok? && q <= 0 ==> r == Some(InvalidQuantity))
      && (product.Ok? && q > 0 && req.amount != q * product.value.price ==> r == Some(ProductTotalMismatch))
  {
    match SourceOf(req)
    case BasketService =>
      if basket.Err? then Some(BasketValidationFailed(basket.error))
      else if req.amount != LinesTotal(basket.value) then Some(BasketTotalMismatch)
      else None
    case ProductService =>
      var q := req.quantity.value;
      if product.Err? then Some(ProductValidationFailed(product.error))
      else if q <= 0 then Some(InvalidQuantity)
      else if req.amount != q * product.value.price then Some(ProductTotalMismatch)
      else if product.value.stock < q then Some(InsufficientStock)
      else None
    case NoSource => Some(NoPurchaseTarget)
  }

  /** The command the service hands to the create handler. */
  function CommandFor(userId: nat, req: CreatePaymentRequest): CreatePaymentCommand
  {
    CreatePaymentCommand(userId, req.orderId, req.amount, req.currency, req.paymentMethod,
                         req.paymentMethodId, req.returnUrl, req.cancelUrl)
  }

  /** The purchase checks, consulting the basket or the product service as the request says. */
  method CheckPurchase(req: CreatePaymentRequest, basket: Result<seq<BasketLine>, string>,
                       product: Result<ProductInfo, string>)
    returns (err: Option<Failure>, asked: Source)
    ensures err == PurchaseCheck(req, basket, product) && asked == SourceOf(req)
  {
    if req.basketId.Some? {
      asked := BasketService;
      if basket.Err? {
        return Some(BasketValidationFailed(basket.error)), asked;
      }
      var total := BasketTotal(basket.value);
      if req.amount != total {
        return Some(BasketTotalMismatch), asked;
      }
      return None, asked;
    } else if req.productId.Some? && req.quantity.Some? {
      asked := ProductService;
      if product.Err? {
        return Some(ProductValidationFailed(product.error)), asked;
      }
      var q := req.quantity.value;
      if q <= 0 {
        return Some(InvalidQuantity), asked;
      }
      if req.amount != q * product.value.price {
        return Some(ProductTotalMismatch), asked;
      }
      if product.value.stock < q {
        return Some(InsufficientStock), asked;
      }
      return None, asked;
    }
    return Some(NoPurchaseTarget), NoSource;
  }

  method CreatePayment(repo: PaymentRepository, userId: nat, req: CreatePaymentRequest,
                       basket: Result<seq<BasketLine>, string>, product: Result<ProductInfo, string>,
                       id: FreshId, now: int, gateway: Result<GatewayReply, string>)
    returns (r: Result<PaymentResponse, Failure>, asked: Source, gatewayCalled: bool)
    requires repo.Valid()
    modifies repo
    ensures repo.Valid()
    ensures asked == SourceOf(req)
    ensures r.Err? ==> repo.payments == old(repo.payments)
    ensures PurchaseCheck(req, basket, product).Some? ==>
      r == Err(PurchaseCheck(req, basket, product).value) && !gatewayCalled
    ensures gatewayCalled <==>
      PurchaseCheck(req, basket, product).None? && Prepared(CommandFor(userId, req), id, now).Validate().None?
    ensures r.Ok? ==>
      && PurchaseCheck(req, basket, product).None? && gateway.Ok?
      && repo.payments == old(repo.payments)[id := Charged(Prepared(CommandFor(userId, req), id, now), gateway.value)]
      && r.value.id == id && r.value.userId == userId && r.value.amount == req.amount
      && r.value.status == PaymentStatusPending
  {
    var err;
    err, asked := CheckPurchase(req, basket, product);
    if err.Some? {
      return Err(err.value), asked, false;
    }
    r, gatewayCalled := PaymentCommands.CreatePayment(repo, CommandFor(userId, req), id, now, gateway);
  }

  // ---------------------------------------------------------------------
  // Processing, with the completion event.

  /** One purchased item in the completion event; a direct purchase carries no unit price. */
  datatype PaymentItem = PaymentItem(productId: nat, quantity: int, unitPrice: Option<int>, totalPrice: int)

  datatype CompletedEvent = CompletedEvent(
    paymentId: string,
    userId: nat,
    orderId: string,
    amount: int,
    currency: string,
    paymentMethod: string,
    items: seq<PaymentItem>,
    basketId: Option<string>)

  function LineItem(line: BasketLine): PaymentItem
  {
    PaymentItem(line.productId, line.quantity, Some(line.unitPrice), line.quantity * line.unitPrice)
  }

  /** One event item per basket line, in order. */
  method BasketItems(lines: seq<BasketLine>) returns (items: seq<PaymentItem>)
    ensures |items| == |lines|
    ensures forall i :: 0 <= i < |lines| ==> items[i] == LineItem(lines[i])
  {
    items := [];
    var i := 0;
    while i < |lines|
      invariant 0 <= i <= |lines| && |items| == i
      invariant forall j :: 0 <= j < i ==> items[j] == LineItem(lines[j])
    {
      items := items + [LineItem(lines[i])];
      i := i + 1;
    }
  }

  /** The items of a completed payment: its direct product, else its basket's lines as fetched, else none. */
  ghost predicate EventItems(p: PaymentRow, basket: Result<seq<BasketLine>, string>, items: seq<PaymentItem>)
  {
    if p.productId.Some? && p.quantity.Some? then
      items == [PaymentItem(p.productId.value, p.quantity.value, None, p.amount)]
    else if p.basketId.Some? && basket.Ok? then
      |items| == |basket.value| && forall i :: 0 <= i < |items| ==> items[i] == LineItem(basket.value[i])
    else
      items == []
  }

  /**
   * Processes a payment of the asking user.  Another user's payment
   * answers as if absent, before the gateway is called.  A completed
   * result yields the completion event, built from the payment as it was
   * fetched; publishing it cannot change the answer.
   */
  method ProcessPayment(repo: PaymentRepository, userId: nat, paymentId: string, now: int,
                        gateway: Result<GatewayReply, string>, basket: Result<seq<BasketLine>, string>)
    returns (r: Result<PaymentResponse, Failure>, gatewayCalled: bool, event: Option<CompletedEvent>)
    requires repo.Valid()
    modifies repo
    ensures repo.Valid()
    ensures r.Err? ==> repo.payments == old(repo.payments) && event.None?
    ensures old(repo.Lookup(paymentId)).Err? ==> r == Err(old(repo.Lookup(paymentId)).error) && !gatewayCalled
    ensures old(repo.Lookup(paymentId)).Ok? && old(repo.payments[paymentId]).userId != userId ==>
      r == Err(Domain(ErrPaymentNotFound)) && !gatewayCalled
    ensures gatewayCalled <==> old(repo.Lookup(paymentId)).Ok? && old(repo.payments[paymentId]).userId == userId
    ensures gatewayCalled && gateway.Err? ==> r == Err(GatewayFailed(gateway.error))
    ensures gatewayCalled && gateway.Ok? ==>
      var stored := Processed(old(repo.payments[paymentId]), gateway.value, now);
      if repo.writable then
        r == Ok(ToResponse(stored)) && repo.payments == old(repo.payments)[paymentId := stored]
      else
        r == Err(StoreWriteFailed)
    ensures event.Some? <==> r.Ok? && r.value.status == PaymentStatusCompleted
    ensures event.Some? ==>
      var p := old(repo.payments[paymentId]);
      && event.value.paymentId == paymentId && event.value.userId == userId
      && event.value.orderId == p.orderId && event.value.amount == p.amount
      && event.value.currency == p.currency && event.value.paymentMethod == p.paymentMethod
      && event.value.basketId == p.basketId
      && EventItems(p, basket, event.value.items)
  {
    event := None;
    var found := repo.GetByID(paymentId);
    if found.Err? {
      return Err(found.error), false, None;
    }
    var payment := found.value.Row();
    if payment.userId != userId {
      return Err(Domain(ErrPaymentNotFound)), false, None;
    }
    r, gatewayCalled := PaymentCommands.ProcessPayment(repo, paymentId, now, gateway);
    if r.Err? {
      return;
    }
    if r.value.status == PaymentStatusCompleted {
      var items: seq<PaymentItem> := [];
      if payment.productId.Some? && payment.quantity.Some? {
        items := [PaymentItem(payment.productId.value, payment.quantity.value, None, payment.amount)];
      } else if payment.basketId.Some? {
        if basket.Ok? {
          items := BasketItems(basket.value);
        }
      }
      event := Some(CompletedEvent(paymentId, userId, payment.orderId, payment.amount, payment.currency,
                                   payment.paymentMethod, items, payment.basketId));
    }
  }

  /** Cancels a payment of the asking user; another user's payment answers as if absent. */
  method CancelPayment(repo: PaymentRepository, userId: nat, paymentId: string, now: int,
                       gateway: Result<GatewayReply, string>)
    returns (r: Result<PaymentResponse, Failure>, gatewayCalled: bool)
    requires repo.Valid()
    modifies repo
    ensures repo.Valid()
    ensures r.Err? ==> repo.payments == old(repo.payments)
    ensures old(repo.Lookup(paymentId)).Err? ==> r == Err(old(repo.Lookup(paymentId)).error) && !gatewayCalled
    ensures old(repo.Lookup(paymentId)).Ok? && old(repo.payments[paymentId]).userId != userId ==>
      r == Err(Domain(ErrPaymentNotFound)) && !gatewayCalled
    ensures old(repo.Lookup(paymentId)).Ok? && old(repo.payments[paymentId]).userId == userId ==>
      && (gatewayCalled <==> old(repo.payments[paymentId]).CanBeCancelled())
      && (!gatewayCalled ==> r == Err(Domain(ErrPaymentCannotBeCancelled)))
      && (gatewayCalled && gateway.Err? ==> r == Err(GatewayFailed(gateway.error)))
      && (gatewayCalled && gateway.Ok? ==>
            var stored := Cancelled(old(repo.payments[paymentId]), gateway.value, now);
            if repo.writable then
              r == Ok(ToResponse(stored)) && repo.payments == old(repo.payments)[paymentId := stored]
            else
              r == Err(StoreWriteFailed))
  {
    var found := repo.GetByID(paymentId);
    if found.Err? {
      return Err(found.error), false;
    }
    if found.value.userId != userId {
      return Err(Domain(ErrPaymentNotFound)), false;
    }
    r, gatewayCalled := PaymentCommands.CancelPayment(repo, paymentId, now, gateway);
  }

  // ---------------------------------------------------------------------
  // The default payment method.

  /** The method table after `methodId` became the default of `userId`, both writes made at `now`. */
  function WithDefault(methods: map<string, MethodRow>, userId: nat, methodId: string, now: int): map<string, MethodRow>
    requires methodId in methods
  {
    NonDefaultFor(methods, userId, now)[methodId := methods[methodId].(isDefault := true, updatedAt := now)]
  }

  /**
   * Making one of a user's methods the default leaves it the only default
   * among that user's methods and leaves every other user's methods as
   * they were.
   */
  lemma OneDefaultPerUser(methods: map<string, MethodRow>, userId: nat, methodId: string, now: int)
    requires methodId in methods && methods[methodId].userId == userId
    ensures WithDefault(methods, userId, methodId, now).Keys == methods.Keys
    ensures forall k :: k in methods && methods[k].userId == userId ==>
      (WithDefault(methods, userId, methodId, now)[k].isDefault <==> k == methodId)
    ensures forall k :: k in methods && methods[k].userId != userId ==>
      WithDefault(methods, userId, methodId, now)[k] == methods[k]
  {
  }

  method SetDefaultPaymentMethod(repo: PaymentMethodRepository, userId: nat, methodId: string, now: int)
    returns (r: Result<MethodResponse, Failure>)
    requires repo.Valid()
    modifies repo
    ensures repo.Valid()
    ensures old(repo.Lookup(methodId)).Err? ==>
      r == Err(old(repo.Lookup(methodId)).error) && repo.methods == old(repo.methods)
    ensures old(repo.Lookup(methodId)).Ok? && old(repo.methods[methodId]).userId != userId ==>
      r == Err(Domain(ErrPaymentMethodNotFound)) && repo.methods == old(repo.methods)
    ensures old(repo.Lookup(methodId)).Ok? && old(repo.methods[methodId]).userId == userId ==>
      if !repo.bulkWritable then
        r == Err(StoreWriteFailed) && repo.methods == old(repo.methods)
      else if !repo.writable then
        // The bulk update has committed before the save failed: the user is left with no default.
        && r == Err(StoreWriteFailed)
        && repo.methods == NonDefaultFor(old(repo.methods), userId, now)
        && (forall k :: k in repo.methods && repo.methods[k].userId == userId ==> !repo.methods[k].isDefault)
      else
        && repo.methods == WithDefault(old(repo.methods), userId, methodId, now)
        && r == Ok(ToMethodResponse(repo.methods[methodId]))
  {
    var found := repo.GetByID(methodId);
    if found.Err? {
      return Err(found.error);
    }
    var m := found.value;
    if m.userId != userId {
      return Err(Domain(ErrPaymentMethodNotFound));
    }
    var err := repo.SetAllNonDefault(userId, now);
    if err.Some? {
      return Err(err.value);
    }
    m.isDefault := true;
    err := repo.Update(m, now);
    if err.Some? {
      return Err(err.value);
    }
    return Ok(ToMethodResponse(m.Row()));
  }

  // ---------------------------------------------------------------------
  // Administrative placeholders.

  datatype RefundListResponse = RefundListResponse(refunds: seq<RefundRow>, total: int, page: int, limit: int)

  /** Payment statistics; the floating-point averages are integer cents here. */
  datatype PaymentStats = PaymentStats(
    totalPayments: int,
    totalAmount: int,
    successfulPayments: int,
    failedPayments: int,
    pendingPayments: int,
    refundedAmount: int,
    averageAmount: int)

  function AdminListPayments(page: int, limit: int): PaymentListResponse
  {
    PaymentListResponse([], 0, page, limit, 0, false, false)
  }

  function AdminGetPayment(paymentId: string): Result<PaymentResponse, Failure>
  {
    Err(Domain(ErrPaymentNotFound))
  }

  function AdminUpdatePaymentStatus(paymentId: string, status: string, reason: string): Result<PaymentResponse, Failure>
  {
    Err(Domain(ErrPaymentNotFound))
  }

  function CreateRefund(paymentId: string, amount: int, reason: string): Result<RefundRow, Failure>
  {
    Err(Domain(ErrRefundNotFound))
  }

  function AdminListRefunds(page: int, limit: int): RefundListResponse
  {
    RefundListResponse([], 0, page, limit)
  }

  function AdminGetRefund(refundId: string): Result<RefundRow, Failure>
  {
    Err(Domain(ErrRefundNotFound))
  }

  function ProcessRefund(refundId: string): Result<RefundRow, Failure>
  {
    Err(Domain(ErrRefundNotFound))
  }

  function GetPaymentStats(period: string): PaymentStats
  {
    PaymentStats(0, 0, 0, 0, 0, 0, 0)
  }

  /**
   * Every administrative operation answers without consulting any store:
   * empty listings that echo the paging, all-zero statistics, and
   * not-found for every single-record request.
   */
  lemma AdminPlaceholdersAnswerNothing(page: int, limit: int, id: string, status: string, reason: string,
                                       amount: int, period: string)
    ensures AdminListPayments(page, limit).payments == [] && AdminListPayments(page, limit).total == 0
    ensures AdminListPayments(page, limit).page == page && AdminListPayments(page, limit).limit == limit
    ensures AdminListPayments(page, limit).totalPages == 0
    ensures !AdminListPayments(page, limit).hasNext && !AdminListPayments(page, limit).hasPrev
    ensures AdminGetPayment(id) == AdminUpdatePaymentStatus(id, status, reason) == Err(Domain(ErrPaymentNotFound))
    ensures CreateRefund(id, amount, reason) == AdminGetRefund(id) == ProcessRefund(id) == Err(Domain(ErrRefundNotFound))
    ensures AdminListRefunds(page, limit) == RefundListResponse([], 0, page, limit)
    ensures GetPaymentStats(period) == PaymentStats(0, 0, 0, 0, 0, 0, 0)
  {
  }
}
