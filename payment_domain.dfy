/**
 * The payment entities: a payment with a six-valued status, a stored
 * payment method and a refund, each with an ordered validation that
 * reports the first failing check.  Amounts are integer cents; instants
 * and durations are integer seconds.
 */
module PaymentDomain {
  import opened Wrappers

  /** The payment domain's error values. */
  datatype PaymentError =
    | ErrInvalidUserID
    | ErrInvalidOrderID
    | ErrInvalidAmount
    | ErrInvalidCurrency
    | ErrInvalidPaymentMethod
    | ErrInvalidPaymentProvider
    | ErrInvalidPaymentMethodType
    | ErrInvalidPaymentID
    | ErrInvalidRefundReason
    | ErrPaymentNotFound
    | ErrPaymentMethodNotFound
    | ErrPaymentCannotBeCancelled
    | ErrRefundNotFound

  const PaymentStatusPending: string := "pending"
  const PaymentStatusProcessing: string := "processing"
  const PaymentStatusCompleted: string := "completed"
  const PaymentStatusFailed: string := "failed"
  const PaymentStatusCancelled: string := "cancelled"
  const PaymentStatusRefunded: string := "refunded"

  /** The six statuses the domain names; the stored column is free text. */
  predicate KnownStatus(s: string)
  {
    s in {PaymentStatusPending, PaymentStatusProcessing, PaymentStatusCompleted,
          PaymentStatusFailed, PaymentStatusCancelled, PaymentStatusRefunded}
  }

  /** The free-form map a gateway answers with, its values as text. */
  type GatewayData = map<string, string>

  /** Twenty-four hours, the lifetime of a new payment. */
  const PaymentLifetime: int := 86400

  // ---------------------------------------------------------------------
  // Ordered validation, stated once for all three entities.

  /** One validation step: whether it passes, and the error it reports if not. */
  datatype Check = Check(ok: bool, err: PaymentError)

  /** The error of the first failing step, or none when every step passes. */
  function FirstFailure(checks: seq<Check>): (r: Option<PaymentError>)
    ensures r.None? <==> forall i :: 0 <= i < |checks| ==> checks[i].ok
    ensures r.Some? ==>
      exists i :: 0 <= i < |checks| && !checks[i].ok && checks[i].err == r.value &&
        forall j :: 0 <= j < i ==> checks[j].ok
  {
    if |checks| == 0 then None
    else if !checks[0].ok then Some(checks[0].err)
    else
      var rest := FirstFailure(checks[1..]);
      assert forall i :: 1 <= i < |checks| ==> checks[i] == checks[1..][i - 1];
      if rest.Some? then
        var k :| 0 <= k < |checks[1..]| && !checks[1..][k].ok && checks[1..][k].err == rest.value &&
          forall j :: 0 <= j < k ==> checks[1..][j].ok;
        assert !checks[k + 1].ok && checks[k + 1].err == rest.value;
        assert forall j :: 0 <= j < k + 1 ==> checks[j].ok by {
          forall j | 0 <= j < k + 1 ensures checks[j].ok {
            if j > 0 { assert checks[j] == checks[1..][j - 1]; }
          }
        }
        rest
      else
        rest
  }

  /** One unfolding of the first-failure scan. */
  lemma FirstFailureStep(checks: seq<Check>)
    requires |checks| > 0
    ensures FirstFailure(checks) == if !checks[0].ok then Some(checks[0].err) else FirstFailure(checks[1..])
  {
  }

  // ---------------------------------------------------------------------
  // The payment row.

  datatype PaymentRow = PaymentRow(
    id: string,
    userId: nat,
    orderId: string,
    amount: int,
    currency: string,
    status: string,
    paymentMethod: string,
    paymentProvider: string,
    transactionId: Option<string>,
    gatewayResponse: GatewayData,
    returnUrl: Option<string>,
    cancelUrl: Option<string>,
    productId: Option<nat>,
    quantity: Option<int>,
    basketId: Option<string>,
    createdAt: int,
    updatedAt: int,
    completedAt: Option<int>,
    expiresAt: Option<int>)
  {
    predicate IsCompleted() { status == PaymentStatusCompleted }
    predicate IsFailed() { status == PaymentStatusFailed }
    predicate IsPending() { status == PaymentStatusPending }
    predicate IsProcessing() { status == PaymentStatusProcessing }
    predicate IsCancelled() { status == PaymentStatusCancelled }
    predicate IsRefunded() { status == PaymentStatusRefunded }

    predicate CanBeRefunded() { IsCompleted() && !IsRefunded() }

    predicate CanBeCancelled() { IsPending() || IsProcessing() }

    /** Whether the payment's deadline has passed at `now`; no deadline never expires. */
    predicate IsExpired(now: int)
    {
      match expiresAt
      case None => false
      case Some(t) => now > t
    }

    /** The six checks, in the order they are made. */
    function Checks(): seq<Check>
    {
      [ Check(userId != 0, ErrInvalidUserID),
        Check(orderId != "", ErrInvalidOrderID),
        Check(amount > 0, ErrInvalidAmount),
        Check(currency != "", ErrInvalidCurrency),
        Check(paymentMethod != "", ErrInvalidPaymentMethod),
        Check(paymentProvider != "", ErrInvalidPaymentProvider) ]
    }

    function Validate(): (r: Option<PaymentError>)
      ensures r.None? <==>
        userId != 0 && orderId != "" && amount > 0 && currency != "" &&
        paymentMethod != "" && paymentProvider != ""
      ensures userId == 0 ==> r == Some(ErrInvalidUserID)
      ensures r.Some? && r.value == ErrInvalidPaymentProvider ==>
        userId != 0 && orderId != "" && amount > 0 && currency != "" && paymentMethod != ""
    {
      if userId == 0 then Some(ErrInvalidUserID)
      else if orderId == "" then Some(ErrInvalidOrderID)
      else if amount <= 0 then Some(ErrInvalidAmount)
      else if currency == "" then Some(ErrInvalidCurrency)
      else if paymentMethod == "" then Some(ErrInvalidPaymentMethod)
      else if paymentProvider == "" then Some(ErrInvalidPaymentProvider)
      else None
    }
  }

  /** The status predicates as a list, in declaration order. */
  function StatusFlags(p: PaymentRow): seq<bool>
  {
    [p.IsPending(), p.IsProcessing(), p.IsCompleted(), p.IsFailed(), p.IsCancelled(), p.IsRefunded()]
  }

  function CountTrue(flags: seq<bool>): (n: nat)
    ensures n <= |flags|
  {
    if flags == [] then 0 else (if flags[0] then 1 else 0) + CountTrue(flags[1..])
  }

  /** A known status makes exactly one status predicate hold; any other text makes none hold. */
  lemma ExactlyOneStatus(p: PaymentRow)
    ensures KnownStatus(p.status) <==> CountTrue(StatusFlags(p)) == 1
    ensures !KnownStatus(p.status) ==> CountTrue(StatusFlags(p)) == 0
  {
    var f := StatusFlags(p);
    assert f[1..][1..] == f[2..] && f[2..][1..] == f[3..] && f[3..][1..] == f[4..];
    assert f[4..][1..] == f[5..] && f[5..][1..] == [];
    assert CountTrue(f[5..]) == (if f[5] then 1 else 0);
    assert CountTrue(f[4..]) == (if f[4] then 1 else 0) + CountTrue(f[5..]);
    assert CountTrue(f[3..]) == (if f[3] then 1 else 0) + CountTrue(f[4..]);
    assert CountTrue(f[2..]) == (if f[2] then 1 else 0) + CountTrue(f[3..]);
    assert CountTrue(f[1..]) == (if f[1] then 1 else 0) + CountTrue(f[2..]);
  }

  /** Cancellable means pending or processing; refundable means completed; never both. */
  lemma LifecycleRules(p: PaymentRow)
    ensures p.CanBeCancelled() <==> p.status == PaymentStatusPending || p.status == PaymentStatusProcessing
    ensures p.CanBeRefunded() <==> p.status == PaymentStatusCompleted
    ensures !(p.CanBeCancelled() && p.CanBeRefunded())
  {
  }

  /** A deadline set `d >= 0` seconds after `now` has not passed at `now`. */
  lemma FreshDeadlineNotExpired(p: PaymentRow, d: int, now: int)
    requires d >= 0
    ensures !p.(expiresAt := Some(now + d)).IsExpired(now)
    ensures p.(expiresAt := None).IsExpired(now) == false
  {
  }

  /** The payment check is the first failure of its six steps. */
  lemma PaymentValidateIsFirstFailure(p: PaymentRow)
    ensures p.Validate() == FirstFailure(p.Checks())
  {
    var c := p.Checks();
    var t5 := [c[5]];
    var t4 := [c[4]] + t5;
    var t3 := [c[3]] + t4;
    var t2 := [c[2]] + t3;
    var t1 := [c[1]] + t2;
    assert c == [c[0]] + t1;
    FirstFailureStep(t5);
    assert t5[1..] == [];
    FirstFailureStep(t4);
    assert t4[1..] == t5;
    FirstFailureStep(t3);
    assert t3[1..] == t4;
    FirstFailureStep(t2);
    assert t2[1..] == t3;
    FirstFailureStep(t1);
    assert t1[1..] == t2;
    FirstFailureStep(c);
    assert c[1..] == t1;
  }

  // ---------------------------------------------------------------------
  // The stored payment method and the refund.

  datatype MethodRow = MethodRow(
    id: string,
    userId: nat,
    methodType: string,
    provider: string,
    lastFourDigits: Option<string>,
    expiryMonth: Option<int>,
    expiryYear: Option<int>,
    isDefault: bool,
    isActive: bool,
    createdAt: int,
    updatedAt: int)
  {
    function Checks(): seq<Check>
    {
      [ Check(userId != 0, ErrInvalidUserID),
        Check(methodType != "", ErrInvalidPaymentMethodType),
        Check(provider != "", ErrInvalidPaymentProvider) ]
    }

    function Validate(): (r: Option<PaymentError>)
      ensures r.None? <==> userId != 0 && methodType != "" && provider != ""
      ensures userId == 0 ==> r == Some(ErrInvalidUserID)
    {
      if userId == 0 then Some(ErrInvalidUserID)
      else if methodType == "" then Some(ErrInvalidPaymentMethodType)
      else if provider == "" then Some(ErrInvalidPaymentProvider)
      else None
    }
  }

  /** A sequence of three checks reports the first that fails, in order. */
  lemma FirstFailureOfThree(c: seq<Check>)
    requires |c| == 3
    ensures FirstFailure(c) ==
      if !c[0].ok then Some(c[0].err)
      else if !c[1].ok then Some(c[1].err)
      else if !c[2].ok then Some(c[2].err)
      else None
  {
    FirstFailureStep(c);
    FirstFailureStep(c[1..]);
    FirstFailureStep(c[2..]);
    assert c[1..][1..] == c[2..] && c[2..][1..] == [];
  }

  lemma MethodValidateIsFirstFailure(m: MethodRow)
    ensures m.Validate() == FirstFailure(m.Checks())
  {
    FirstFailureOfThree(m.Checks());
  }

  datatype RefundRow = RefundRow(
    id: string,
    paymentId: string,
    amount: int,
    reason: string,
    status: string,
    createdAt: int,
    updatedAt: int,
    completedAt: Option<int>)
  {
    function Checks(): seq<Check>
    {
      [ Check(paymentId != "", ErrInvalidPaymentID),
        Check(amount > 0, ErrInvalidAmount),
        Check(reason != "", ErrInvalidRefundReason) ]
    }

    function Validate(): (r: Option<PaymentError>)
      ensures r.None? <==> paymentId != "" && amount > 0 && reason != ""
      ensures paymentId == "" ==> r == Some(ErrInvalidPaymentID)
    {
      if paymentId == "" then Some(ErrInvalidPaymentID)
      else if amount <= 0 then Some(ErrInvalidAmount)
      else if reason == "" then Some(ErrInvalidRefundReason)
      else None
    }
  }

  lemma RefundValidateIsFirstFailure(r: RefundRow)
    ensures r.Validate() == FirstFailure(r.Checks())
  {
    FirstFailureOfThree(r.Checks());
  }

  // ---------------------------------------------------------------------
  // The entities the handlers change in place.

  class Payment {
    var id: string
    var userId: nat
    var orderId: string
    var amount: int
    var currency: string
    var status: string
    var paymentMethod: string
    var paymentProvider: string
    var transactionId: Option<string>
    var gatewayResponse: GatewayData
    var returnUrl: Option<string>
    var cancelUrl: Option<string>
    var productId: Option<nat>
    var quantity: Option<int>
    var basketId: Option<string>
    var createdAt: int
    var updatedAt: int
    var completedAt: Option<int>
    var expiresAt: Option<int>

    constructor FromRow(r: PaymentRow)
      ensures Row() == r
    {
      id, userId, orderId, amount, currency := r.id, r.userId, r.orderId, r.amount, r.currency;
      status, paymentMethod, paymentProvider := r.status, r.paymentMethod, r.paymentProvider;
      transactionId, gatewayResponse := r.transactionId, r.gatewayResponse;
      returnUrl, cancelUrl := r.returnUrl, r.cancelUrl;
      productId, quantity, basketId := r.productId, r.quantity, r.basketId;
      createdAt, updatedAt, completedAt, expiresAt := r.createdAt, r.updatedAt, r.completedAt, r.expiresAt;
    }

    function Row(): PaymentRow
      reads this
    {
      PaymentRow(id, userId, orderId, amount, currency, status, paymentMethod, paymentProvider,
                 transactionId, gatewayResponse, returnUrl, cancelUrl, productId, quantity,
                 basketId, createdAt, updatedAt, completedAt, expiresAt)
    }

    /** Marks the payment completed at `now`, whatever its status was. */
    method SetCompleted(now: int)
      modifies this
      ensures Row() == old(Row()).(status := PaymentStatusCompleted, completedAt := Some(now))
    {
      status := PaymentStatusCompleted;
      completedAt := Some(now);
    }

    method SetFailed()
      modifies this
      ensures Row() == old(Row()).(status := PaymentStatusFailed)
    {
      status := PaymentStatusFailed;
    }

    method SetProcessing()
      modifies this
      ensures Row() == old(Row()).(status := PaymentStatusProcessing)
    {
      status := PaymentStatusProcessing;
    }

    method SetCancelled()
      modifies this
      ensures Row() == old(Row()).(status := PaymentStatusCancelled)
    {
      status := PaymentStatusCancelled;
    }

    method SetRefunded()
      modifies this
      ensures Row() == old(Row()).(status := PaymentStatusRefunded)
    {
      status := PaymentStatusRefunded;
    }

    /** Sets the deadline `duration` seconds after `now`. */
    method SetExpiration(duration: int, now: int)
      modifies this
      ensures Row() == old(Row()).(expiresAt := Some(now + duration))
    {
      expiresAt := Some(now + duration);
    }
  }

  class PaymentMethodInfo {
    var id: string
    var userId: nat
    var methodType: string
    var provider: string
    var lastFourDigits: Option<string>
    var expiryMonth: Option<int>
    var expiryYear: Option<int>
    var isDefault: bool
    var isActive: bool
    var createdAt: int
    var updatedAt: int

    constructor FromRow(r: MethodRow)
      ensures Row() == r
    {
      id, userId, methodType, provider := r.id, r.userId, r.methodType, r.provider;
      lastFourDigits, expiryMonth, expiryYear := r.lastFourDigits, r.expiryMonth, r.expiryYear;
      isDefault, isActive, createdAt, updatedAt := r.isDefault, r.isActive, r.createdAt, r.updatedAt;
    }

    function Row(): MethodRow
      reads this
    {
      MethodRow(id, userId, methodType, provider, lastFourDigits, expiryMonth, expiryYear,
                isDefault, isActive, createdAt, updatedAt)
    }
  }
}
