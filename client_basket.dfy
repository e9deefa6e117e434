/**
 * The client's basket service: every user-scoped call first requires a
 * signed-in user in the session store, the bulk helpers send one call
 * per element in order and stop at the first rejection, and the count,
 * total and emptiness helpers fall back to 0, 0 and true whenever the
 * basket cannot be fetched.  What the server answers to the n-th call is
 * the input `replies(n)`; every call sent is logged with the
 * Authorization header it carried.
 */
module ClientBasketService {
  import opened Wrappers
  import opened ClientStorage

  /** A basket as the client reads it: how many lines, how many units, and the total. */
  datatype BasketData = BasketData(lineCount: nat, itemCount: int, total: int)

  datatype ItemSpec = ItemSpec(productId: int, quantity: int, unitPrice: int)
  datatype QuantitySpec = QuantitySpec(productId: int, quantity: int)

  /** The calls the service makes, with the user id the body carries where it carries one. */
  datatype Request =
    | CreateBasketRequest(userId: Option<int>)
    | GetBasketRequest
    | AddItemRequest(userId: Option<int>, productId: int, quantity: int, unitPrice: int)
    | UpdateItemRequest(userId: Option<int>, productId: int, quantity: int)
    | RemoveItemRequest(productId: int)
    | ClearBasketRequest

  datatype Sent = Sent(request: Request, authorization: Option<string>)

  /** Why a call threw. */
  datatype Thrown = NotAuthenticated | HttpRejected(status: Option<int>)

  datatype BasketOp =
    | CreateBasket
    | GetBasket
    | AddItem(productId: int, quantity: int, unitPrice: int)
    | UpdateItem(productId: int, quantity: int)
    | RemoveItem(productId: int)
    | ClearBasket

  function RequestFor(op: BasketOp, userId: Option<int>): Request
  {
    match op
    case CreateBasket => CreateBasketRequest(userId)
    case GetBasket => GetBasketRequest
    case AddItem(p, q, u) => AddItemRequest(userId, p, q, u)
    case UpdateItem(p, q) => UpdateItemRequest(userId, p, q)
    case RemoveItem(p) => RemoveItemRequest(p)
    case ClearBasket => ClearBasketRequest
  }

  /** One call through the interceptors: the request carries the stored token, a rejection runs the 401 handling. */
  method Send(store: LocalStorage, request: Request, reply: Reply<BasketData>)
    returns (r: Result<Envelope<BasketData>, Thrown>, sent: Sent)
    modifies store
    ensures sent == Sent(request, AuthorizationHeader(old(store.items)))
    ensures reply.Rejected? ==>
      r == Err(HttpRejected(reply.status)) && store.items == AfterRejection(old(store.items), reply.status)
    ensures reply.Response? ==> r == Ok(reply.body) && store.items == old(store.items)
  {
    sent := Sent(request, AuthorizationHeader(store.items));
    if reply.Rejected? {
      OnRejected(store, reply.status);
      return Err(HttpRejected(reply.status)), sent;
    }
    return Ok(reply.body), sent;
  }

  /** A user-scoped single call: nothing is sent without a signed-in user. */
  method UserScoped(store: LocalStorage, parse: string -> Option<StoredUser>, op: BasketOp, reply: Reply<BasketData>)
    returns (r: Result<Envelope<BasketData>, Thrown>, sent: seq<Sent>)
    modifies store
    ensures CurrentUser(old(store.items), parse).None? ==>
      r == Err(NotAuthenticated) && sent == [] && store.items == old(store.items)
    ensures CurrentUser(old(store.items), parse).Some? ==>
      && sent == [Sent(RequestFor(op, CurrentUser(old(store.items), parse).value.id), AuthorizationHeader(old(store.items)))]
      && (reply.Rejected? ==>
            r == Err(HttpRejected(reply.status)) && store.items == AfterRejection(old(store.items), reply.status))
      && (reply.Response? ==> r == Ok(reply.body) && store.items == old(store.items))
  {
    var user := CurrentUser(store.items, parse);
    if user.None? {
      return Err(NotAuthenticated), [];
    }
    var one;
    r, one := Send(store, RequestFor(op, user.value.id), reply);
    sent := [one];
  }

  // ---------------------------------------------------------------------
  // Bulk helpers.

  /** The first of the first `n` calls that is rejected, if any. */
  function FirstRejected(replies: nat -> Reply<BasketData>, n: nat): (i: Option<nat>)
    ensures i.Some? ==> i.value < n && replies(i.value).Rejected? && forall j :: 0 <= j < i.value ==> replies(j).Response?
    ensures i.None? ==> forall j :: 0 <= j < n ==> replies(j).Response?
  {
    if n == 0 then None
    else
      var earlier := FirstRejected(replies, n - 1);
      if earlier.Some? then earlier
      else if replies(n - 1).Rejected? then Some(n - 1)
      else None
  }

  /**
   * What a bulk run of `requests` leaves: the calls up to and including
   * the first rejected one are sent in order with the header stored at
   * the start, the rejection propagates, and without one the answer is
   * the last call's body, or the failure envelope for an empty list.
   */
  ghost predicate BulkOutcome(before: map<string, string>, after: map<string, string>, requests: seq<Request>,
                              replies: nat -> Reply<BasketData>, emptyMessage: string,
                              r: Result<Envelope<BasketData>, Thrown>, sent: seq<Sent>)
  {
    var header := AuthorizationHeader(before);
    match FirstRejected(replies, |requests|)
    case Some(i) =>
      && |sent| == i + 1 && (forall j :: 0 <= j <= i ==> sent[j] == Sent(requests[j], header))
      && r == Err(HttpRejected(replies(i).status))
      && after == AfterRejection(before, replies(i).status)
    case None =>
      && |sent| == |requests| && (forall j :: 0 <= j < |requests| ==> sent[j] == Sent(requests[j], header))
      && after == before
      && r == Ok(if |requests| == 0 then Envelope(false, emptyMessage, None) else replies(|requests| - 1).body)
  }

  /** A bulk run sends a prefix of its requests, all of them exactly when none is rejected. */
  lemma BulkSendsPrefix(before: map<string, string>, after: map<string, string>, requests: seq<Request>,
                        replies: nat -> Reply<BasketData>, emptyMessage: string,
                        r: Result<Envelope<BasketData>, Thrown>, sent: seq<Sent>)
    requires BulkOutcome(before, after, requests, replies, emptyMessage, r, sent)
    ensures |sent| <= |requests|
    ensures forall j :: 0 <= j < |sent| ==> sent[j].request == requests[j]
    ensures r.Err? ==> |sent| > 0 && r == Err(HttpRejected(replies(|sent| - 1).status))
    ensures forall j :: 0 <= j < |sent| - 1 ==> replies(j).Response?
    ensures r.Ok? <==> forall j :: 0 <= j < |requests| ==> replies(j).Response?
  {
  }

  /** Sends the requests one after another, stopping at the first rejection. */
  method SendAll(store: LocalStorage, requests: seq<Request>, replies: nat -> Reply<BasketData>, emptyMessage: string)
    returns (r: Result<Envelope<BasketData>, Thrown>, sent: seq<Sent>)
    modifies store
    ensures BulkOutcome(old(store.items), store.items, requests, replies, emptyMessage, r, sent)
  {
    ghost var header := AuthorizationHeader(store.items);
    var last: Option<Envelope<BasketData>> := None;
    sent := [];
    var i := 0;
    while i < |requests|
      invariant 0 <= i <= |requests| && |sent| == i
      invariant store.items == old(store.items)
      invariant FirstRejected(replies, i).None?
      invariant forall j :: 0 <= j < i ==> sent[j] == Sent(requests[j], header)
      invariant last == if i == 0 then None else Some(replies(i - 1).body)
    {
      var res, one := Send(store, requests[i], replies(i));
      sent := sent + [one];
      if res.Err? {
        assert FirstRejected(replies, i + 1) == Some(i);
        return res, sent;
      }
      last := Some(res.value);
      i := i + 1;
    }
    if last.Some? {
      return Ok(last.value), sent;
    }
    return Ok(Envelope(false, emptyMessage, None)), sent;
  }

  function AddRequests(userId: Option<int>, items: seq<ItemSpec>): (rs: seq<Request>)
    ensures |rs| == |items|
    ensures forall i :: 0 <= i < |items| ==>
      rs[i] == AddItemRequest(userId, items[i].productId, items[i].quantity, items[i].unitPrice)
  {
    seq(|items|, i requires 0 <= i < |items| => AddItemRequest(userId, items[i].productId, items[i].quantity, items[i].unitPrice))
  }

  function UpdateRequests(userId: Option<int>, items: seq<QuantitySpec>): (rs: seq<Request>)
    ensures |rs| == |items|
    ensures forall i :: 0 <= i < |items| ==> rs[i] == UpdateItemRequest(userId, items[i].productId, items[i].quantity)
  {
    seq(|items|, i requires 0 <= i < |items| => UpdateItemRequest(userId, items[i].productId, items[i].quantity))
  }

  function RemoveRequests(productIds: seq<int>): (rs: seq<Request>)
    ensures |rs| == |productIds|
    ensures forall i :: 0 <= i < |productIds| ==> rs[i] == RemoveItemRequest(productIds[i])
  {
    seq(|productIds|, i requires 0 <= i < |productIds| => RemoveItemRequest(productIds[i]))
  }

  method AddMultipleItems(store: LocalStorage, parse: string -> Option<StoredUser>, items: seq<ItemSpec>,
                          replies: nat -> Reply<BasketData>)
    returns (r: Result<Envelope<BasketData>, Thrown>, sent: seq<Sent>)
    modifies store
    ensures CurrentUser(old(store.items), parse).None? ==>
      r == Err(NotAuthenticated) && sent == [] && store.items == old(store.items)
    ensures CurrentUser(old(store.items), parse).Some? ==>
      BulkOutcome(old(store.items), store.items, AddRequests(CurrentUser(old(store.items), parse).value.id, items),
                  replies, "Failed to add items", r, sent)
  {
    var user := CurrentUser(store.items, parse);
    if user.None? {
      return Err(NotAuthenticated), [];
    }
    r, sent := SendAll(store, AddRequests(user.value.id, items), replies, "Failed to add items");
  }

  method UpdateMultipleItems(store: LocalStorage, parse: string -> Option<StoredUser>, items: seq<QuantitySpec>,
                             replies: nat -> Reply<BasketData>)
    returns (r: Result<Envelope<BasketData>, Thrown>, sent: seq<Sent>)
    modifies store
    ensures CurrentUser(old(store.items), parse).None? ==>
      r == Err(NotAuthenticated) && sent == [] && store.items == old(store.items)
    ensures CurrentUser(old(store.items), parse).Some? ==>
      BulkOutcome(old(store.items), store.items, UpdateRequests(CurrentUser(old(store.items), parse).value.id, items),
                  replies, "Failed to update items", r, sent)
  {
    var user := CurrentUser(store.items, parse);
    if user.None? {
      return Err(NotAuthenticated), [];
    }
    r, sent := SendAll(store, UpdateRequests(user.value.id, items), replies, "Failed to update items");
  }

  method RemoveMultipleItems(store: LocalStorage, parse: string -> Option<StoredUser>, productIds: seq<int>,
                             replies: nat -> Reply<BasketData>)
    returns (r: Result<Envelope<BasketData>, Thrown>, sent: seq<Sent>)
    modifies store
    ensures CurrentUser(old(store.items), parse).None? ==>
      r == Err(NotAuthenticated) && sent == [] && store.items == old(store.items)
    ensures CurrentUser(old(store.items), parse).Some? ==>
      BulkOutcome(old(store.items), store.items, RemoveRequests(productIds), replies, "Failed to remove items", r, sent)
  {
    var user := CurrentUser(store.items, parse);
    if user.None? {
      return Err(NotAuthenticated), [];
    }
    r, sent := SendAll(store, RemoveRequests(productIds), replies, "Failed to remove items");
  }

  // ---------------------------------------------------------------------
  // Read-only helpers and fallbacks.

  /**
   * The administrator check as this service writes it: a signed-in user
   * is required, then the entry is parsed again and its role compared,
   * a parse that throws answering false.
   */
  function IsAdminHere(items: map<string, string>, parse: string -> Option<StoredUser>): (b: bool)
    ensures b == IsAdmin(items, parse)
  {
    if CurrentUser(items, parse).None? then false
    else if UserKey in items && items[UserKey] != "" then
      match parse(items[UserKey])
      case None => false
      case Some(u) => u.role == Some("admin")
    else false
  }

  /** The basket a successful getBasket yields, if it yields one. */
  function Fetched(items: map<string, string>, parse: string -> Option<StoredUser>, reply: Reply<BasketData>): Option<BasketData>
  {
    if CurrentUser(items, parse).None? || reply.Rejected? then None
    else if reply.body.success && reply.body.data.Some? then reply.body.data
    else None
  }

  method GetBasketItemCount(store: LocalStorage, parse: string -> Option<StoredUser>, reply: Reply<BasketData>)
    returns (n: int)
    modifies store
    ensures n == if Fetched(old(store.items), parse, reply).Some? then Fetched(old(store.items), parse, reply).value.itemCount else 0
    ensures CurrentUser(old(store.items), parse).Some? && reply.Rejected? ==>
      store.items == AfterRejection(old(store.items), reply.status)
    ensures CurrentUser(old(store.items), parse).None? || reply.Response? ==> store.items == old(store.items)
  {
    var r, _ := UserScoped(store, parse, GetBasket, reply);
    if r.Ok? && r.value.success && r.value.data.Some? {
      return r.value.data.value.itemCount;
    }
    return 0;
  }

  method IsBasketEmpty(store: LocalStorage, parse: string -> Option<StoredUser>, reply: Reply<BasketData>)
    returns (empty: bool)
    modifies store
    ensures empty <==> Fetched(old(store.items), parse, reply).None? || Fetched(old(store.items), parse, reply).value.lineCount == 0
    ensures CurrentUser(old(store.items), parse).Some? && reply.Rejected? ==>
      store.items == AfterRejection(old(store.items), reply.status)
    ensures CurrentUser(old(store.items), parse).None? || reply.Response? ==> store.items == old(store.items)
  {
    var r, _ := UserScoped(store, parse, GetBasket, reply);
    if r.Ok? && r.value.success && r.value.data.Some? {
      return r.value.data.value.lineCount == 0;
    }
    return true;
  }

  method GetBasketTotal(store: LocalStorage, parse: string -> Option<StoredUser>, reply: Reply<BasketData>)
    returns (total: int)
    modifies store
    ensures total == if Fetched(old(store.items), parse, reply).Some? then Fetched(old(store.items), parse, reply).value.total else 0
    ensures CurrentUser(old(store.items), parse).Some? && reply.Rejected? ==>
      store.items == AfterRejection(old(store.items), reply.status)
    ensures CurrentUser(old(store.items), parse).None? || reply.Response? ==> store.items == old(store.items)
  {
    var r, _ := UserScoped(store, parse, GetBasket, reply);
    if r.Ok? && r.value.success && r.value.data.Some? {
      return r.value.data.value.total;
    }
    return 0;
  }
}
