/**
 * The payment command handlers: create, process and cancel a payment;
 * add, update and delete a stored payment method.  The gateway's answer
 * to each call is an input, and each handler also reports whether it
 * called the gateway at all.
 */
module PaymentCommands {
  import opened Wrappers
  import opened PaymentDomain
  import opened PaymentStore
  import opened PaymentResponses

  datatype CreatePaymentCommand = CreatePaymentCommand(
    userId: nat,
    orderId: string,
    amount: int,
    currency: string,
    paymentMethod: string,
    paymentMethodId: string,
    returnUrl: string,
    cancelUrl: string)

  datatype AddPaymentMethodCommand = AddPaymentMethodCommand(
    userId: nat,
    methodType: string,
    provider: string,
    token: string,
    isDefault: bool)

  datatype UpdatePaymentMethodCommand = UpdatePaymentMethodCommand(
    paymentMethodId: string,
    isDefault: bool,
    isActive: bool)

  /** What a successful gateway call answers. */
  datatype GatewayReply = GatewayReply(
    transactionId: string,
    paymentUrl: string,
    clientSecret: string,
    status: string,
    data: GatewayData)

  // ---------------------------------------------------------------------
  // Create.

  /** The payment the create handler builds, before its deadline is set. */
  function NewPayment(cmd: CreatePaymentCommand, id: FreshId, now: int): PaymentRow
  {
    PaymentRow(id, cmd.userId, cmd.orderId, cmd.amount, cmd.currency, PaymentStatusPending,
               cmd.paymentMethod, "stripe", None, map[], None, None, None, None, None,
               now, now, None, None)
  }

  /** The new payment with its 24-hour deadline: what is validated and shown to the gateway. */
  function Prepared(cmd: CreatePaymentCommand, id: FreshId, now: int): PaymentRow
  {
    NewPayment(cmd, id, now).(expiresAt := Some(now + PaymentLifetime))
  }

  /** A payment carrying the gateway's transaction id and data. */
  function Charged(p: PaymentRow, reply: GatewayReply): PaymentRow
  {
    p.(transactionId := Some(reply.transactionId), gatewayResponse := reply.data)
  }

  /** Records the gateway's transaction id and data on the entity. */
  method Charge(p: Payment, reply: GatewayReply)
    modifies p
    ensures p.Row() == Charged(old(p.Row()), reply)
  {
    p.transactionId, p.gatewayResponse := Some(reply.transactionId), reply.data;
  }

  /**
   * A new payment is pending, cancellable, with the default provider and a
   * deadline a day ahead; its validation can only fail on the command's
   * fields, never on the provider; the command's URLs are not kept.
   */
  lemma NewPaymentShape(cmd: CreatePaymentCommand, id: FreshId, now: int)
    ensures Prepared(cmd, id, now).IsPending() && Prepared(cmd, id, now).CanBeCancelled()
    ensures Prepared(cmd, id, now).paymentProvider == "stripe"
    ensures Prepared(cmd, id, now).expiresAt == Some(now + 86400)
    ensures !Prepared(cmd, id, now).IsExpired(now) && Prepared(cmd, id, now).IsExpired(now + 86401)
    ensures Prepared(cmd, id, now).Validate() != Some(ErrInvalidPaymentProvider)
    ensures Prepared(cmd, id, now).Validate().None? <==>
      cmd.userId != 0 && cmd.orderId != "" && cmd.amount > 0 && cmd.currency != "" && cmd.paymentMethod != ""
    ensures Prepared(cmd, id, now).returnUrl.None? && Prepared(cmd, id, now).cancelUrl.None?
    ensures Prepared(cmd, id, now).transactionId.None?
  {
  }

  method CreatePayment(repo: PaymentRepository, cmd: CreatePaymentCommand, id: FreshId, now: int,
                       gateway: Result<GatewayReply, string>)
    returns (r: Result<PaymentResponse, Failure>, gatewayCalled: bool)
    requires repo.Valid()
    modifies repo
    ensures repo.Valid() && repo.available == old(repo.available) && repo.writable == old(repo.writable)
    ensures gatewayCalled <==> Prepared(cmd, id, now).Validate().None?
    ensures r.Err? ==> repo.payments == old(repo.payments)
    ensures Prepared(cmd, id, now).Validate().Some? ==>
      r == Err(Domain(Prepared(cmd, id, now).Validate().value))
    ensures gatewayCalled && gateway.Err? ==> r == Err(GatewayFailed(gateway.error))
    ensures gatewayCalled && gateway.Ok? ==>
      var stored := Charged(Prepared(cmd, id, now), gateway.value);
      if repo.writable && id !in old(repo.payments) then
        && r == Ok(ToResponse(stored).(paymentUrl := gateway.value.paymentUrl,
                                       clientSecret := gateway.value.clientSecret))
        && repo.payments == old(repo.payments)[id := stored]
      else
        r == Err(StoreWriteFailed)
  {
    var p := new Payment.FromRow(NewPayment(cmd, id, now));
    p.SetExpiration(PaymentLifetime, now);
    var invalid := p.Row().Validate();
    if invalid.Some? {
      return Err(Domain(invalid.value)), false;
    }
    if gateway.Err? {
      return Err(GatewayFailed(gateway.error)), true;
    }
    Charge(p, gateway.value);
    var err := repo.Create(p);
    if err.Some? {
      return Err(err.value), true;
    }
    var response := ToResponse(p.Row());
    return Ok(response.(paymentUrl := gateway.value.paymentUrl, clientSecret := gateway.value.clientSecret)), true;
  }

  // ---------------------------------------------------------------------
  // Process.

  /** A payment after processing: the gateway's status, transaction id and data, saved at `now`. */
  function Processed(p: PaymentRow, reply: GatewayReply, now: int): PaymentRow
  {
    p.(status := reply.status, transactionId := Some(reply.transactionId),
       gatewayResponse := reply.data, updatedAt := now)
  }

  /**
   * Processing copies the gateway's status as given and never records a
   * completion time, even when that status is completed.
   */
  lemma ProcessedKeepsCompletionTime(p: PaymentRow, reply: GatewayReply, now: int)
    ensures Processed(p, reply, now).completedAt == p.completedAt
    ensures Processed(p, reply, now).IsCompleted() <==> reply.status == PaymentStatusCompleted
    ensures Processed(p, reply, now).(status := p.status, transactionId := p.transactionId,
                                      gatewayResponse := p.gatewayResponse, updatedAt := p.updatedAt) == p
  {
  }

  method ProcessPayment(repo: PaymentRepository, paymentId: string, now: int,
                        gateway: Result<GatewayReply, string>)
    returns (r: Result<PaymentResponse, Failure>, gatewayCalled: bool)
    requires repo.Valid()
    modifies repo
    ensures repo.Valid() && repo.available == old(repo.available) && repo.writable == old(repo.writable)
    ensures gatewayCalled <==> old(repo.Lookup(paymentId)).Ok?
    ensures r.Err? ==> repo.payments == old(repo.payments)
    ensures old(repo.Lookup(paymentId)).Err? ==> r == Err(old(repo.Lookup(paymentId)).error)
    ensures gatewayCalled && gateway.Err? ==> r == Err(GatewayFailed(gateway.error))
    ensures gatewayCalled && gateway.Ok? ==>
      var stored := Processed(old(repo.payments[paymentId]), gateway.value, now);
      if repo.writable then
        r == Ok(ToResponse(stored)) && repo.payments == old(repo.payments)[paymentId := stored]
      else
        r == Err(StoreWriteFailed)
  {
    var found := repo.GetByID(paymentId);
    if found.Err? {
      return Err(found.error), false;
    }
    var p := found.value;
    if gateway.Err? {
      return Err(GatewayFailed(gateway.error)), true;
    }
    p.status := gateway.value.status;
    Charge(p, gateway.value);
    var err := repo.Update(p, now);
    if err.Some? {
      return Err(err.value), true;
    }
    return Ok(ToResponse(p.Row())), true;
  }

  // ---------------------------------------------------------------------
  // Cancel.

  /** A payment after cancellation: cancelled, with the gateway's data, saved at `now`. */
  function Cancelled(p: PaymentRow, reply: GatewayReply, now: int): PaymentRow
  {
    p.(status := PaymentStatusCancelled, gatewayResponse := reply.data, updatedAt := now)
  }

  /**
   * A cancelled payment can be neither cancelled again nor refunded, and
   * cancellation keeps its amount and transaction id.
   */
  lemma CancelledIsFinal(p: PaymentRow, reply: GatewayReply, now: int)
    ensures !Cancelled(p, reply, now).CanBeCancelled() && !Cancelled(p, reply, now).CanBeRefunded()
    ensures Cancelled(p, reply, now).amount == p.amount
    ensures Cancelled(p, reply, now).transactionId == p.transactionId
    ensures Cancelled(p, reply, now).IsCancelled()
  {
  }

  method CancelPayment(repo: PaymentRepository, paymentId: string, now: int,
                       gateway: Result<GatewayReply, string>)
    returns (r: Result<PaymentResponse, Failure>, gatewayCalled: bool)
    requires repo.Valid()
    modifies repo
    ensures repo.Valid() && repo.available == old(repo.available) && repo.writable == old(repo.writable)
    ensures gatewayCalled <==> old(repo.Lookup(paymentId)).Ok? && old(repo.Lookup(paymentId)).value.CanBeCancelled()
    ensures r.Err? ==> repo.payments == old(repo.payments)
    ensures old(repo.Lookup(paymentId)).Err? ==> r == Err(old(repo.Lookup(paymentId)).error)
    ensures old(repo.Lookup(paymentId)).Ok? && !old(repo.Lookup(paymentId)).value.CanBeCancelled() ==>
      r == Err(Domain(ErrPaymentCannotBeCancelled))
    ensures gatewayCalled && gateway.Err? ==> r == Err(GatewayFailed(gateway.error))
    ensures gatewayCalled && gateway.Ok? ==>
      var stored := Cancelled(old(repo.payments[paymentId]), gateway.value, now);
      if repo.writable then
        r == Ok(ToResponse(stored)) && repo.payments == old(repo.payments)[paymentId := stored]
      else
        r == Err(StoreWriteFailed)
  {
    var found := repo.GetByID(paymentId);
    if found.Err? {
      return Err(found.error), false;
    }
    var p := found.value;
    if !p.Row().CanBeCancelled() {
      return Err(Domain(ErrPaymentCannotBeCancelled)), false;
    }
    if gateway.Err? {
      return Err(GatewayFailed(gateway.error)), true;
    }
    p.SetCancelled();
    p.gatewayResponse := gateway.value.data;
    var err := repo.Update(p, now);
    if err.Some? {
      return Err(err.value), true;
    }
    return Ok(ToResponse(p.Row())), true;
  }

  // ---------------------------------------------------------------------
  // Payment methods.

  /** The record the add handler builds: active, with the command's default flag and no card details. */
  function NewMethod(cmd: AddPaymentMethodCommand, id: FreshId, now: int): MethodRow
  {
    MethodRow(id, cmd.userId, cmd.methodType, cmd.provider, None, None, None,
              cmd.isDefault, true, now, now)
  }

  /**
   * Adding a method never touches the user's other methods, so adding a
   * default next to an existing default leaves two defaults.
   */
  lemma AddKeepsOtherDefaults(methods: map<string, MethodRow>, cmd: AddPaymentMethodCommand,
                              id: FreshId, now: int, k: string)
    requires k in methods && k != id && methods[k].userId == cmd.userId && methods[k].isDefault
    requires cmd.isDefault
    ensures var after := methods[id := NewMethod(cmd, id, now)];
      && after[k].isDefault && after[id].isDefault && after[id].isActive
      && after[k].userId == after[id].userId
  {
  }

  method AddPaymentMethod(repo: PaymentMethodRepository, cmd: AddPaymentMethodCommand, id: FreshId,
                          now: int, gateway: Result<GatewayReply, string>)
    returns (r: Result<MethodResponse, Failure>, gatewayCalled: bool)
    requires repo.Valid()
    modifies repo
    ensures repo.Valid() && repo.available == old(repo.available) && repo.writable == old(repo.writable)
    ensures gatewayCalled <==> NewMethod(cmd, id, now).Validate().None?
    ensures r.Err? ==> repo.methods == old(repo.methods)
    ensures NewMethod(cmd, id, now).Validate().Some? ==> r == Err(Domain(NewMethod(cmd, id, now).Validate().value))
    ensures gatewayCalled && gateway.Err? ==> r == Err(GatewayFailed(gateway.error))
    ensures gatewayCalled && gateway.Ok? ==>
      if repo.writable && id !in old(repo.methods) then
        && r == Ok(ToMethodResponse(NewMethod(cmd, id, now)))
        && repo.methods == old(repo.methods)[id := NewMethod(cmd, id, now)]
      else
        r == Err(StoreWriteFailed)
  {
    var m := new PaymentMethodInfo.FromRow(NewMethod(cmd, id, now));
    var invalid := m.Row().Validate();
    if invalid.Some? {
      return Err(Domain(invalid.value)), false;
    }
    if gateway.Err? {
      return Err(GatewayFailed(gateway.error)), true;
    }
    var err := repo.Create(m);
    if err.Some? {
      return Err(err.value), true;
    }
    return Ok(ToMethodResponse(m.Row())), true;
  }

  /** Overwrites both flags of a stored method, whoever owns it. */
  method UpdatePaymentMethod(repo: PaymentMethodRepository, cmd: UpdatePaymentMethodCommand, now: int)
    returns (r: Result<MethodResponse, Failure>)
    requires repo.Valid()
    modifies repo
    ensures repo.Valid() && repo.available == old(repo.available) && repo.writable == old(repo.writable)
    ensures r.Err? ==> repo.methods == old(repo.methods)
    ensures old(repo.Lookup(cmd.paymentMethodId)).Err? ==> r == Err(old(repo.Lookup(cmd.paymentMethodId)).error)
    ensures old(repo.Lookup(cmd.paymentMethodId)).Ok? ==>
      var stored := old(repo.methods[cmd.paymentMethodId]).(isDefault := cmd.isDefault,
                                                             isActive := cmd.isActive, updatedAt := now);
      if repo.writable then
        r == Ok(ToMethodResponse(stored)) && repo.methods == old(repo.methods)[cmd.paymentMethodId := stored]
      else
        r == Err(StoreWriteFailed)
  {
    var found := repo.GetByID(cmd.paymentMethodId);
    if found.Err? {
      return Err(found.error);
    }
    var m := found.value;
    m.isDefault := cmd.isDefault;
    m.isActive := cmd.isActive;
    var err := repo.Update(m, now);
    if err.Some? {
      return Err(err.value);
    }
    return Ok(ToMethodResponse(m.Row()));
  }

  method DeletePaymentMethod(repo: PaymentMethodRepository, paymentMethodId: string)
    returns (err: Option<Failure>)
    requires repo.Valid()
    modifies repo
    ensures repo.Valid() && repo.available == old(repo.available) && repo.writable == old(repo.writable)
    ensures err.Some? <==> !repo.writable
    ensures err.Some? ==> repo.methods == old(repo.methods)
    ensures err.None? ==> paymentMethodId !in repo.methods && repo.methods == old(repo.methods) - {paymentMethodId}
  {
    err := repo.Delete(paymentMethodId);
  }
}
