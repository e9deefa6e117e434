/**
 * The user service: the same account operations as the command handlers,
 * answering with a response that omits the password.  Every operation
 * runs the handler's definition; the only behavioural differences are
 * that a wrong old password is reported as bad credentials, and that the
 * self-update request's activity field is ignored.
 */
module UserService {
  import opened Wrappers
  import opened UserDomain
  import opened UserStore
  import opened UserCommands

  datatype CreateUserRequest = CreateUserRequest(email: string, password: string, firstName: string, lastName: string)
  datatype LoginRequest = LoginRequest(email: string, password: string)
  datatype UpdateUserRequest = UpdateUserRequest(firstName: string, lastName: string, isActive: Option<bool>)
  datatype UpdateUserByAdminRequest = UpdateUserByAdminRequest(
    firstName: string, lastName: string, role: Role, isActive: Option<bool>)

  datatype UserResponse = UserResponse(
    id: nat,
    email: string,
    firstName: string,
    lastName: string,
    role: Role,
    isActive: bool,
    createdAt: int,
    updatedAt: int)

  datatype LoginResponse = LoginResponse(user: UserResponse, token: string)
  datatype ListUsersResponse = ListUsersResponse(users: seq<UserResponse>, total: int, offset: int, limit: int)

  function ToUserResponse(u: UserRow): UserResponse
  {
    UserResponse(u.id, u.email, u.firstName, u.lastName, u.role, u.isActive, u.createdAt, u.updatedAt)
  }

  /** The response keeps every column but the password: two accounts answer alike iff only their passwords differ. */
  lemma ResponseHidesOnlyPassword(a: UserRow, b: UserRow)
    ensures ToUserResponse(a) == ToUserResponse(b) <==> a.(password := b.password) == b
  {
  }

  method CreateUser(repo: UserRepository, req: CreateUserRequest, hash: string -> Result<string, string>, now: int)
    returns (r: Result<UserResponse, Failure>)
    requires repo.Valid()
    modifies repo
    ensures repo.Valid()
    ensures r.Err? ==> repo.users == old(repo.users)
    ensures hash(req.password).Err? ==> r == Err(HashFailed(hash(req.password).error))
    ensures hash(req.password).Ok? ==>
      if !repo.available then r == Err(StoreUnavailable)
      else if old(repo.EmailTaken(req.email)) then r == Err(ErrUserAlreadyExists)
      else if !repo.writable then r == Err(StoreWriteFailed)
      else
        var stored := NewUser(CreateUserCommand(req.email, req.password, req.firstName, req.lastName),
                              hash(req.password).value).(id := old(repo.nextId), createdAt := now, updatedAt := now);
        && r == Ok(ToUserResponse(stored))
        && repo.users == old(repo.users)[stored.id := stored]
    ensures r.Ok? ==> r.value.role == RoleUser && r.value.isActive
  {
    var created := UserCommands.CreateUser(repo, CreateUserCommand(req.email, req.password, req.firstName, req.lastName),
                                           hash, now);
    if created.Err? {
      return Err(created.error);
    }
    return Ok(ToUserResponse(created.value));
  }

  /** The service's login: the handler's decision, with the account as a response. */
  function Login(repo: UserRepository, req: LoginRequest, compare: (string, string) -> bool,
                 generate: (nat, string, Role) -> Result<string, string>): (r: Result<LoginResponse, Failure>)
    requires repo.Valid()
    reads repo
    ensures UserCommands.Login(repo, LoginCommand(req.email, req.password), compare, generate).Err? ==>
      r == Err(UserCommands.Login(repo, LoginCommand(req.email, req.password), compare, generate).error)
    ensures UserCommands.Login(repo, LoginCommand(req.email, req.password), compare, generate).Ok? ==>
      var res := UserCommands.Login(repo, LoginCommand(req.email, req.password), compare, generate).value;
      r == Ok(LoginResponse(ToUserResponse(res.user), res.token))
  {
    var res := UserCommands.Login(repo, LoginCommand(req.email, req.password), compare, generate);
    if res.Err? then Err(res.error)
    else Ok(LoginResponse(ToUserResponse(res.value.user), res.value.token))
  }

  /** Renames one's own account; the request's activity flag is ignored. */
  method UpdateUser(repo: UserRepository, id: nat, req: UpdateUserRequest, now: int) returns (r: Result<UserResponse, Failure>)
    requires repo.Valid()
    modifies repo
    ensures repo.Valid()
    ensures r.Err? ==> repo.users == old(repo.users)
    ensures old(repo.Lookup(id)).Err? ==> r == Err(old(repo.Lookup(id)).error)
    ensures old(repo.Lookup(id)).Ok? ==>
      if repo.writable then
        && repo.users == old(repo.users)[id := Renamed(old(repo.users[id]), req.firstName, req.lastName).(updatedAt := now)]
        && r == Ok(ToUserResponse(repo.users[id]))
        && repo.users[id].isActive == old(repo.users[id]).isActive
      else
        r == Err(StoreWriteFailed)
  {
    var updated := UserCommands.UpdateUser(repo, UpdateUserCommand(id, req.firstName, req.lastName), now);
    if updated.Err? {
      return Err(updated.error);
    }
    return Ok(ToUserResponse(updated.value));
  }

  method UpdateUserByAdmin(repo: UserRepository, id: nat, req: UpdateUserByAdminRequest, now: int)
    returns (r: Result<UserResponse, Failure>)
    requires repo.Valid()
    modifies repo
    ensures repo.Valid()
    ensures r.Err? ==> repo.users == old(repo.users)
    ensures old(repo.Lookup(id)).Err? ==> r == Err(old(repo.Lookup(id)).error)
    ensures old(repo.Lookup(id)).Ok? ==>
      var cmd := UpdateUserByAdminCommand(id, req.firstName, req.lastName, req.role, req.isActive);
      if repo.writable then
        && repo.users == old(repo.users)[id := AdminPatched(old(repo.users[id]), cmd).(updatedAt := now)]
        && r == Ok(ToUserResponse(repo.users[id]))
      else
        r == Err(StoreWriteFailed)
  {
    var updated := UserCommands.UpdateUserByAdmin(
      repo, UpdateUserByAdminCommand(id, req.firstName, req.lastName, req.role, req.isActive), now);
    if updated.Err? {
      return Err(updated.error);
    }
    return Ok(ToUserResponse(updated.value));
  }

  method AssignRole(repo: UserRepository, userId: nat, role: Role, now: int) returns (r: Result<UserResponse, Failure>)
    requires repo.Valid()
    modifies repo
    ensures repo.Valid()
    ensures r.Err? ==> repo.users == old(repo.users)
    ensures !RoleIsValid(role) ==> r == Err(ErrInvalidRole)
    ensures RoleIsValid(role) && old(repo.Lookup(userId)).Err? ==> r == Err(old(repo.Lookup(userId)).error)
    ensures RoleIsValid(role) && old(repo.Lookup(userId)).Ok? ==>
      if repo.writable then
        && repo.users == old(repo.users)[userId := old(repo.users[userId]).(role := role, updatedAt := now)]
        && r == Ok(ToUserResponse(repo.users[userId]))
      else
        r == Err(StoreWriteFailed)
  {
    var result := UserCommands.AssignRole(repo, AssignRoleCommand(userId, role), now);
    if result.Err? {
      return Err(result.error);
    }
    return Ok(ToUserResponse(result.value));
  }

  /** The handler's change-password flow, reporting a wrong old password as bad credentials. */
  method ChangePassword(repo: UserRepository, id: nat, oldPassword: string, newPassword: string,
                        compare: (string, string) -> bool, hash: string -> Result<string, string>, now: int)
    returns (err: Option<Failure>)
    requires repo.Valid()
    modifies repo
    ensures repo.Valid()
    ensures err.Some? ==> repo.users == old(repo.users)
    ensures old(repo.Lookup(id)).Err? ==> err == Some(old(repo.Lookup(id)).error)
    ensures old(repo.Lookup(id)).Ok? && !compare(old(repo.users[id]).password, oldPassword) ==>
      err == Some(ErrInvalidCredentials)
    ensures old(repo.Lookup(id)).Ok? ==>
      match PasswordChange(old(repo.users[id]), oldPassword, newPassword, compare, hash, now, ErrInvalidCredentials)
      case Err(e) => err == Some(e)
      case Ok(v) =>
        if repo.writable then err.None? && repo.users == old(repo.users)[id := v]
        else err == Some(StoreWriteFailed)
  {
    err := ChangePasswordWith(repo, id, oldPassword, newPassword, compare, hash, now, ErrInvalidCredentials);
  }

  /**
   * One page of accounts as the store returns it for the offset and
   * limit; the reported total is the length of that page, not the number
   * of accounts.
   */
  method ListUsers(offset: int, limit: int, page: Result<seq<UserRow>, Failure>)
    returns (r: Result<ListUsersResponse, Failure>)
    ensures page.Err? ==> r == Err(page.error)
    ensures page.Ok? ==>
      && r.Ok?
      && |r.value.users| == |page.value| == r.value.total
      && (forall i :: 0 <= i < |page.value| ==> r.value.users[i] == ToUserResponse(page.value[i]))
      && r.value.offset == offset && r.value.limit == limit
  {
    if page.Err? {
      return Err(page.error);
    }
    var users := page.value;
    var responses: seq<UserResponse> := [];
    var i := 0;
    while i < |users|
      invariant 0 <= i <= |users| && |responses| == i
      invariant forall j :: 0 <= j < i ==> responses[j] == ToUserResponse(users[j])
    {
      responses := responses + [ToUserResponse(users[i])];
      i := i + 1;
    }
    return Ok(ListUsersResponse(responses, |responses|, offset, limit));
  }
}
