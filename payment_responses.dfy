/**
 * The payment service's response shapes and the conversions every handler
 * and query uses to build them.
 */
module PaymentResponses {
  import opened Wrappers
  import opened PaymentDomain

  datatype PaymentResponse = PaymentResponse(
    id: string,
    userId: nat,
    orderId: string,
    amount: int,
    currency: string,
    status: string,
    paymentMethod: string,
    paymentProvider: string,
    transactionId: Option<string>,
    gatewayResponse: GatewayData,
    paymentUrl: string,
    clientSecret: string,
    createdAt: int,
    updatedAt: int,
    completedAt: Option<int>,
    expiresAt: Option<int>)

  datatype MethodResponse = MethodResponse(
    id: string,
    userId: nat,
    methodType: string,
    provider: string,
    lastFourDigits: Option<string>,
    expiryMonth: Option<int>,
    expiryYear: Option<int>,
    isDefault: bool,
    isActive: bool,
    createdAt: int,
    updatedAt: int)

  /** A stored payment as answered outside the create handler: no payment URL or client secret. */
  function ToResponse(p: PaymentRow): PaymentResponse
  {
    PaymentResponse(p.id, p.userId, p.orderId, p.amount, p.currency, p.status, p.paymentMethod,
                    p.paymentProvider, p.transactionId, p.gatewayResponse, "", "",
                    p.createdAt, p.updatedAt, p.completedAt, p.expiresAt)
  }

  /**
   * The response forgets exactly the return and cancel URLs and the
   * purchase target: two payments answer alike iff they differ in
   * nothing else.
   */
  lemma ResponseForgetsOnlyTarget(p: PaymentRow, q: PaymentRow)
    ensures ToResponse(p) == ToResponse(q) <==>
      p.(returnUrl := q.returnUrl, cancelUrl := q.cancelUrl, productId := q.productId,
         quantity := q.quantity, basketId := q.basketId) == q
    ensures ToResponse(p).paymentUrl == "" && ToResponse(p).clientSecret == ""
  {
  }

  function ToMethodResponse(m: MethodRow): MethodResponse
  {
    MethodResponse(m.id, m.userId, m.methodType, m.provider, m.lastFourDigits, m.expiryMonth,
                   m.expiryYear, m.isDefault, m.isActive, m.createdAt, m.updatedAt)
  }

  /** The record a method response describes. */
  function FromMethodResponse(r: MethodResponse): MethodRow
  {
    MethodRow(r.id, r.userId, r.methodType, r.provider, r.lastFourDigits, r.expiryMonth,
              r.expiryYear, r.isDefault, r.isActive, r.createdAt, r.updatedAt)
  }

  /** A method response mirrors every column of the record. */
  lemma MethodResponseRoundTrip(m: MethodRow, r: MethodResponse)
    ensures FromMethodResponse(ToMethodResponse(m)) == m
    ensures ToMethodResponse(FromMethodResponse(r)) == r
  {
  }
}
