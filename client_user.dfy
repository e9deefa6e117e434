/**
 * The client's user service, for the parts that touch the session store:
 * login and token refresh record what the server answered, logout forgets
 * the session, and the read-only checks look at what is stored.  Each
 * call's outcome is an input; JSON serialisation of the user is the
 * function parameter `stringify`.
 */
module ClientUserService {
  import opened Wrappers
  import opened ClientStorage

  datatype AuthUser = AuthUser(
    id: int,
    email: string,
    firstName: string,
    lastName: string,
    role: string,
    isActive: bool,
    createdAt: string,
    updatedAt: string)

  datatype LoginData = LoginData(user: AuthUser, token: string)
  datatype TokenData = TokenData(token: string)

  /** The store after a login answer: token and user are recorded only from a successful answer carrying data. */
  function LoginEffect(items: map<string, string>, body: Envelope<LoginData>, stringify: AuthUser -> string): map<string, string>
  {
    if body.success && body.data.Some? then
      items[AuthTokenKey := body.data.value.token][UserKey := stringify(body.data.value.user)]
    else items
  }

  /** The store after a refresh answer: only the token can change. */
  function RefreshEffect(items: map<string, string>, body: Envelope<TokenData>): map<string, string>
  {
    if body.success && body.data.Some? then items[AuthTokenKey := body.data.value.token] else items
  }

  /**
   * A successful login with a non-empty token authenticates the client
   * as the user the server returned, and logging out undoes both; a
   * refresh never touches the stored user.
   */
  lemma SessionEffects(items: map<string, string>, login: Envelope<LoginData>, refresh: Envelope<TokenData>,
                       stringify: AuthUser -> string, parse: string -> Option<StoredUser>)
    ensures login.success && login.data.Some? && login.data.value.token != "" ==>
      IsAuthenticated(LoginEffect(items, login, stringify))
    ensures login.success && login.data.Some? && stringify(login.data.value.user) != "" ==>
      CurrentUser(LoginEffect(items, login, stringify), parse) == parse(stringify(login.data.value.user))
    ensures !(login.success && login.data.Some?) ==> LoginEffect(items, login, stringify) == items
    ensures CurrentUser(RefreshEffect(items, refresh), parse) == CurrentUser(items, parse)
    ensures UserKey in items <==> UserKey in RefreshEffect(items, refresh)
    ensures !IsAuthenticated(LoginEffect(items, login, stringify) - {AuthTokenKey, UserKey})
    ensures CurrentUser(LoginEffect(items, login, stringify) - {AuthTokenKey, UserKey}, parse).None?
  {
  }

  method Login(store: LocalStorage, reply: Reply<LoginData>, stringify: AuthUser -> string)
    returns (r: Result<Envelope<LoginData>, Option<int>>)
    modifies store
    ensures reply.Rejected? ==> r == Err(reply.status) && store.items == AfterRejection(old(store.items), reply.status)
    ensures reply.Response? ==> r == Ok(reply.body) && store.items == LoginEffect(old(store.items), reply.body, stringify)
  {
    if reply.Rejected? {
      OnRejected(store, reply.status);
      return Err(reply.status);
    }
    var body := reply.body;
    if body.success && body.data.Some? {
      store.SetItem(AuthTokenKey, body.data.value.token);
      store.SetItem(UserKey, stringify(body.data.value.user));
    }
    return Ok(body);
  }

  method RefreshToken(store: LocalStorage, reply: Reply<TokenData>) returns (r: Result<Envelope<TokenData>, Option<int>>)
    modifies store
    ensures reply.Rejected? ==> r == Err(reply.status) && store.items == AfterRejection(old(store.items), reply.status)
    ensures reply.Response? ==> r == Ok(reply.body) && store.items == RefreshEffect(old(store.items), reply.body)
  {
    if reply.Rejected? {
      OnRejected(store, reply.status);
      return Err(reply.status);
    }
    var body := reply.body;
    if body.success && body.data.Some? {
      store.SetItem(AuthTokenKey, body.data.value.token);
    }
    return Ok(body);
  }

  method Logout(store: LocalStorage)
    modifies store
    ensures store.items == old(store.items) - {AuthTokenKey, UserKey}
  {
    store.RemoveItem(AuthTokenKey);
    store.RemoveItem(UserKey);
  }

  /** The stored token as it is, empty or not. */
  function GetAuthToken(items: map<string, string>): (t: Option<string>)
    ensures IsAuthenticated(items) <==> t.Some? && t.value != ""
    ensures t.Some? ==> AuthorizationHeader(items) == (if t.value == "" then None else Some("Bearer " + t.value))
  {
    if AuthTokenKey in items then Some(items[AuthTokenKey]) else None
  }
}
