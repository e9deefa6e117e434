/**
 * The browser-side session store shared by the client's user and basket
 * services: a string-to-string local storage holding the bearer token
 * under "auth_token" and the signed-in user as JSON under "user", the
 * request interceptor that turns the token into an Authorization header,
 * and the response interceptor that forgets the session on a 401.
 *
 * JSON parsing is a function parameter: `parse(text)` is the parsed user
 * when the text parses to a truthy value, and None when parsing throws or
 * yields a falsy value (null, false, 0, "").  A missing field of the
 * parsed value is None.
 */
module ClientStorage {
  import opened Wrappers

  const AuthTokenKey: string := "auth_token"
  const UserKey: string := "user"

  /** The fields of a stored user the services read. */
  datatype StoredUser = StoredUser(id: Option<int>, role: Option<string>)

  /** A service's answer envelope. */
  datatype Envelope<T> = Envelope(success: bool, message: string, data: Option<T>)

  /** What one HTTP call produced: a response body, or a rejection with the response status if there was one. */
  datatype Reply<T> = Response(body: Envelope<T>) | Rejected(status: Option<int>)

  class LocalStorage {
    var items: map<string, string>

    constructor ()
      ensures items == map[]
    {
      items := map[];
    }

    function GetItem(key: string): Option<string>
      reads this
    {
      if key in items then Some(items[key]) else None
    }

    method SetItem(key: string, value: string)
      modifies this
      ensures items == old(items)[key := value]
    {
      items := items[key := value];
    }

    method RemoveItem(key: string)
      modifies this
      ensures items == old(items) - {key}
    {
      items := items - {key};
    }
  }

  /** JavaScript truthiness of a stored string: present and non-empty. */
  predicate Truthy(s: Option<string>)
  {
    s.Some? && s.value != ""
  }

  /** The signed-in user, as getCurrentUser answers: None without a truthy entry or when it does not parse. */
  function CurrentUser(items: map<string, string>, parse: string -> Option<StoredUser>): (u: Option<StoredUser>)
    ensures UserKey !in items || items[UserKey] == "" ==> u.None?
    ensures UserKey in items && items[UserKey] != "" ==> u == parse(items[UserKey])
  {
    if UserKey in items && items[UserKey] != "" then parse(items[UserKey]) else None
  }

  predicate IsAuthenticated(items: map<string, string>)
  {
    AuthTokenKey in items && items[AuthTokenKey] != ""
  }

  /** The signed-in user is an administrator: it parses and its role is exactly "admin". */
  predicate IsAdmin(items: map<string, string>, parse: string -> Option<StoredUser>)
  {
    var u := CurrentUser(items, parse);
    u.Some? && u.value.role == Some("admin")
  }

  /** The Authorization header the request interceptor adds, if any. */
  function AuthorizationHeader(items: map<string, string>): (h: Option<string>)
    ensures h.Some? <==> IsAuthenticated(items)
    ensures h.Some? ==> |h.value| > 7 && h.value[..7] == "Bearer " && h.value[7..] == items[AuthTokenKey]
  {
    if IsAuthenticated(items) then Some("Bearer " + items[AuthTokenKey]) else None
  }

  /** The store after a rejected call: a 401 forgets the whole session, any other rejection nothing. */
  function AfterRejection(items: map<string, string>, status: Option<int>): map<string, string>
  {
    if status == Some(401) then items - {AuthTokenKey, UserKey} else items
  }

  /**
   * After a 401 the client is neither authenticated nor signed in, and
   * every other entry survives; other rejections change nothing.
   */
  lemma RejectionForgetsSession(items: map<string, string>, status: Option<int>, parse: string -> Option<StoredUser>)
    ensures status == Some(401) ==>
      && !IsAuthenticated(AfterRejection(items, status))
      && CurrentUser(AfterRejection(items, status), parse).None?
      && AuthorizationHeader(AfterRejection(items, status)).None?
    ensures forall k :: k in items && k != AuthTokenKey && k != UserKey ==>
      k in AfterRejection(items, status) && AfterRejection(items, status)[k] == items[k]
    ensures status != Some(401) ==> AfterRejection(items, status) == items
  {
  }

  /** The response interceptor's error branch; the error is then rethrown by the caller. */
  method OnRejected(store: LocalStorage, status: Option<int>)
    modifies store
    ensures store.items == AfterRejection(old(store.items), status)
  {
    if status == Some(401) {
      store.RemoveItem(AuthTokenKey);
      store.RemoveItem(UserKey);
    }
  }
}
