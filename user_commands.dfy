/**
 * The user command handlers: create, login, change password, the two
 * kinds of profile update, and role assignment.  The password hasher and
 * the token generator are function parameters: `hash` answers what
 * hashing a plaintext gives, `compare(stored, plain)` whether a plaintext
 * matches a stored hash, `generate(id, email, role)` the token.
 */
module UserCommands {
  import opened Wrappers
  import opened UserDomain
  import opened UserStore

  datatype CreateUserCommand = CreateUserCommand(email: string, password: string, firstName: string, lastName: string)
  datatype LoginCommand = LoginCommand(email: string, password: string)
  datatype LoginResult = LoginResult(user: UserRow, token: string)
  datatype ChangePasswordCommand = ChangePasswordCommand(userId: nat, oldPassword: string, newPassword: string)
  datatype UpdateUserCommand = UpdateUserCommand(userId: nat, firstName: string, lastName: string)
  datatype UpdateUserByAdminCommand = UpdateUserByAdminCommand(
    userId: nat, firstName: string, lastName: string, role: Role, isActive: Option<bool>)
  datatype AssignRoleCommand = AssignRoleCommand(userId: nat, role: Role)

  // ---------------------------------------------------------------------
  // Create.

  /** The account a create command builds around the hashed password; the store assigns id and times. */
  function NewUser(cmd: CreateUserCommand, hashed: string): UserRow
  {
    UserRow(0, cmd.email, hashed, cmd.firstName, cmd.lastName, RoleUser, true, 0, 0)
  }

  /**
   * A new account is an active plain user, never an administrator, and
   * keeps the hash rather than the plaintext.
   */
  lemma NewUserIsPlainUser(cmd: CreateUserCommand, hashed: string)
    ensures NewUser(cmd, hashed).role == RoleUser && NewUser(cmd, hashed).isActive
    ensures !NewUser(cmd, hashed).IsAdmin() && RoleIsValid(NewUser(cmd, hashed).role)
    ensures NewUser(cmd, hashed).password == hashed
    ensures hashed != cmd.password ==> NewUser(cmd, hashed).password != cmd.password
    ensures NewUser(cmd, hashed).email == cmd.email
    ensures NewUser(cmd, hashed).FullName() == cmd.firstName + " " + cmd.lastName
  {
  }

  method CreateUser(repo: UserRepository, cmd: CreateUserCommand, hash: string -> Result<string, string>, now: int)
    returns (r: Result<UserRow, Failure>)
    requires repo.Valid()
    modifies repo
    ensures repo.Valid() && repo.available == old(repo.available) && repo.writable == old(repo.writable)
    ensures r.Err? ==> repo.users == old(repo.users)
    ensures hash(cmd.password).Err? ==> r == Err(HashFailed(hash(cmd.password).error))
    ensures hash(cmd.password).Ok? ==>
      if !repo.available then r == Err(StoreUnavailable)
      else if old(repo.EmailTaken(cmd.email)) then r == Err(ErrUserAlreadyExists)
      else if !repo.writable then r == Err(StoreWriteFailed)
      else
        && r == Ok(NewUser(cmd, hash(cmd.password).value).(id := old(repo.nextId), createdAt := now, updatedAt := now))
        && old(repo.nextId) !in old(repo.users)
        && repo.users == old(repo.users)[r.value.id := r.value]
  {
    var hashed := hash(cmd.password);
    if hashed.Err? {
      return Err(HashFailed(hashed.error));
    }
    var u := new User.FromRow(NewUser(cmd, hashed.value));
    var err := repo.Create(u, now);
    if err.Some? {
      return Err(err.value);
    }
    return Ok(u.Row());
  }

  // ---------------------------------------------------------------------
  // Login.

  /**
   * The login decision: an unknown email is bad credentials, an inactive
   * account is refused before its password is looked at, a wrong password
   * is bad credentials, and only then is a token generated.  Nothing is
   * written.
   */
  function Login(repo: UserRepository, cmd: LoginCommand, compare: (string, string) -> bool,
                 generate: (nat, string, Role) -> Result<string, string>): (r: Result<LoginResult, Failure>)
    requires repo.Valid()
    reads repo
    ensures repo.LookupEmail(cmd.email).Err? ==> r == Err(ErrInvalidCredentials)
    ensures repo.LookupEmail(cmd.email).Ok? ==>
      var u := repo.LookupEmail(cmd.email).value;
      && (!u.isActive ==> r == Err(ErrUserInactive))
      && (u.isActive && !compare(u.password, cmd.password) ==> r == Err(ErrInvalidCredentials))
      && (u.isActive && compare(u.password, cmd.password) && generate(u.id, u.email, u.role).Err? ==>
            r == Err(TokenFailed(generate(u.id, u.email, u.role).error)))
    ensures r.Ok? <==>
      && repo.LookupEmail(cmd.email).Ok?
      && repo.LookupEmail(cmd.email).value.isActive
      && compare(repo.LookupEmail(cmd.email).value.password, cmd.password)
      && generate(repo.LookupEmail(cmd.email).value.id, cmd.email, repo.LookupEmail(cmd.email).value.role).Ok?
    ensures r.Ok? ==>
      && r.value.user.email == cmd.email && r.value.user.id in repo.users
      && repo.users[r.value.user.id] == r.value.user
      && r.value.token == generate(r.value.user.id, cmd.email, r.value.user.role).value
  {
    var found := repo.LookupEmail(cmd.email);
    if found.Err? then Err(ErrInvalidCredentials)
    else if !found.value.isActive then Err(ErrUserInactive)
    else if !compare(found.value.password, cmd.password) then Err(ErrInvalidCredentials)
    else
      var token := generate(found.value.id, found.value.email, found.value.role);
      if token.Err? then Err(TokenFailed(token.error))
      else Ok(LoginResult(found.value, token.value))
  }

  /** An inactive account answers the same whatever password is tried and however it compares. */
  lemma InactiveIgnoresPassword(repo: UserRepository, email: string, p1: string, p2: string,
                                c1: (string, string) -> bool, c2: (string, string) -> bool,
                                generate: (nat, string, Role) -> Result<string, string>)
    requires repo.Valid()
    requires repo.LookupEmail(email).Ok? && !repo.LookupEmail(email).value.isActive
    ensures Login(repo, LoginCommand(email, p1), c1, generate) == Login(repo, LoginCommand(email, p2), c2, generate)
    ensures Login(repo, LoginCommand(email, p1), c1, generate) == Err(ErrUserInactive)
  {
  }

  // ---------------------------------------------------------------------
  // Change password.

  /**
   * The account after a password change, or why there is none: a
   * plaintext that does not match the stored hash gives `mismatch`, a
   * hashing failure gives its cause.
   */
  function PasswordChange(u: UserRow, oldPassword: string, newPassword: string, compare: (string, string) -> bool,
                          hash: string -> Result<string, string>, now: int, mismatch: Failure): Result<UserRow, Failure>
  {
    if !compare(u.password, oldPassword) then Err(mismatch)
    else if hash(newPassword).Err? then Err(HashFailed(hash(newPassword).error))
    else Ok(u.(password := hash(newPassword).value, updatedAt := now))
  }

  /**
   * A change succeeds iff the old password matches and hashing works; the
   * new password is the hash of the new plaintext and nothing else but
   * the update time changes.  The mismatch value is the only difference
   * between two callers that name different ones.
   */
  lemma PasswordChangeRules(u: UserRow, oldPassword: string, newPassword: string, compare: (string, string) -> bool,
                            hash: string -> Result<string, string>, now: int, m1: Failure, m2: Failure)
    ensures PasswordChange(u, oldPassword, newPassword, compare, hash, now, m1).Ok? <==>
      compare(u.password, oldPassword) && hash(newPassword).Ok?
    ensures !compare(u.password, oldPassword) ==> PasswordChange(u, oldPassword, newPassword, compare, hash, now, m1) == Err(m1)
    ensures PasswordChange(u, oldPassword, newPassword, compare, hash, now, m1).Ok? ==>
      var v := PasswordChange(u, oldPassword, newPassword, compare, hash, now, m1).value;
      v.password == hash(newPassword).value && v.(password := u.password, updatedAt := u.updatedAt) == u
    ensures compare(u.password, oldPassword) ==>
      PasswordChange(u, oldPassword, newPassword, compare, hash, now, m1) ==
      PasswordChange(u, oldPassword, newPassword, compare, hash, now, m2)
  {
  }

  /** The change-password flow shared by the handler and the service, which differ in `mismatch`. */
  method ChangePasswordWith(repo: UserRepository, userId: nat, oldPassword: string, newPassword: string,
                            compare: (string, string) -> bool, hash: string -> Result<string, string>,
                            now: int, mismatch: Failure)
    returns (err: Option<Failure>)
    requires repo.Valid()
    modifies repo
    ensures repo.Valid() && repo.available == old(repo.available) && repo.writable == old(repo.writable)
    ensures err.Some? ==> repo.users == old(repo.users)
    ensures old(repo.Lookup(userId)).Err? ==> err == Some(old(repo.Lookup(userId)).error)
    ensures old(repo.Lookup(userId)).Ok? ==>
      match PasswordChange(old(repo.users[userId]), oldPassword, newPassword, compare, hash, now, mismatch)
      case Err(e) => err == Some(e)
      case Ok(v) =>
        if repo.writable then err.None? && repo.users == old(repo.users)[userId := v]
        else err == Some(StoreWriteFailed)
  {
    var found := repo.GetByID(userId);
    if found.Err? {
      return Some(found.error);
    }
    var u := found.value;
    if !compare(u.password, oldPassword) {
      return Some(mismatch);
    }
    var hashed := hash(newPassword);
    if hashed.Err? {
      return Some(HashFailed(hashed.error));
    }
    u.password := hashed.value;
    err := repo.Update(u, now);
  }

  method ChangePassword(repo: UserRepository, cmd: ChangePasswordCommand, compare: (string, string) -> bool,
                        hash: string -> Result<string, string>, now: int)
    returns (err: Option<Failure>)
    requires repo.Valid()
    modifies repo
    ensures repo.Valid()
    ensures err.Some? ==> repo.users == old(repo.users)
    ensures old(repo.Lookup(cmd.userId)).Err? ==> err == Some(old(repo.Lookup(cmd.userId)).error)
    ensures old(repo.Lookup(cmd.userId)).Ok? ==>
      match PasswordChange(old(repo.users[cmd.userId]), cmd.oldPassword, cmd.newPassword, compare, hash, now,
                           ErrInvalidOldPassword)
      case Err(e) => err == Some(e)
      case Ok(v) =>
        if repo.writable then err.None? && repo.users == old(repo.users)[cmd.userId := v]
        else err == Some(StoreWriteFailed)
  {
    err := ChangePasswordWith(repo, cmd.userId, cmd.oldPassword, cmd.newPassword, compare, hash, now,
                              ErrInvalidOldPassword);
  }

  // ---------------------------------------------------------------------
  // Profile updates.

  /** An empty value keeps the current one. */
  function KeepUnlessEmpty(given: string, current: string): (s: string)
    ensures s == (if given == "" then current else given)
    ensures s == "" ==> given == "" && current == ""
  {
    if given == "" then current else given
  }

  /** The account with the given names, where an empty name keeps the current one. */
  function Renamed(u: UserRow, firstName: string, lastName: string): UserRow
  {
    u.(firstName := KeepUnlessEmpty(firstName, u.firstName), lastName := KeepUnlessEmpty(lastName, u.lastName))
  }

  /**
   * Renaming overwrites exactly the non-empty names, touches nothing
   * else, and applying it twice is applying it once.
   */
  lemma RenamedRules(u: UserRow, firstName: string, lastName: string)
    ensures Renamed(u, firstName, lastName).firstName == u.firstName <==> firstName == "" || firstName == u.firstName
    ensures firstName != "" ==> Renamed(u, firstName, lastName).firstName == firstName
    ensures lastName != "" ==> Renamed(u, firstName, lastName).lastName == lastName
    ensures Renamed(u, firstName, lastName).(firstName := u.firstName, lastName := u.lastName) == u
    ensures Renamed(Renamed(u, firstName, lastName), firstName, lastName) == Renamed(u, firstName, lastName)
  {
  }

  /** Fetches, renames and saves; role, activity, email and password stay as stored. */
  method UpdateUser(repo: UserRepository, cmd: UpdateUserCommand, now: int) returns (r: Result<UserRow, Failure>)
    requires repo.Valid()
    modifies repo
    ensures repo.Valid() && repo.available == old(repo.available) && repo.writable == old(repo.writable)
    ensures r.Err? ==> repo.users == old(repo.users)
    ensures old(repo.Lookup(cmd.userId)).Err? ==> r == Err(old(repo.Lookup(cmd.userId)).error)
    ensures old(repo.Lookup(cmd.userId)).Ok? ==>
      if repo.writable then
        && r == Ok(Renamed(old(repo.users[cmd.userId]), cmd.firstName, cmd.lastName).(updatedAt := now))
        && repo.users == old(repo.users)[cmd.userId := r.value]
      else
        r == Err(StoreWriteFailed)
  {
    var found := repo.GetByID(cmd.userId);
    if found.Err? {
      return Err(found.error);
    }
    var u := found.value;
    if cmd.firstName != "" {
      u.firstName := cmd.firstName;
    }
    if cmd.lastName != "" {
      u.lastName := cmd.lastName;
    }
    var err := repo.Update(u, now);
    if err.Some? {
      return Err(err.value);
    }
    return Ok(u.Row());
  }

  /**
   * The account an administrator's update leaves: names as in a rename,
   * the role only when one that is non-empty and valid is given, the
   * activity flag only when one is given.
   */
  function AdminPatched(u: UserRow, cmd: UpdateUserByAdminCommand): UserRow
  {
    var named := Renamed(u, cmd.firstName, cmd.lastName);
    var roled := if cmd.role != "" && RoleIsValid(cmd.role) then WithRole(named, cmd.role) else named;
    if cmd.isActive.Some? then roled.(isActive := cmd.isActive.value) else roled
  }

  /**
   * An administrator's update changes the role iff a valid one is given
   * (the emptiness test adds nothing to the validity test), sets the
   * activity flag iff one is given, never touches id, email, password or
   * the timestamps, and is idempotent.
   */
  lemma AdminPatchedRules(u: UserRow, cmd: UpdateUserByAdminCommand)
    ensures AdminPatched(u, cmd).role == (if RoleIsValid(cmd.role) then cmd.role else u.role)
    ensures AdminPatched(u, cmd).role == WithRole(u, cmd.role).role
    ensures AdminPatched(u, cmd).isActive == (if cmd.isActive.Some? then cmd.isActive.value else u.isActive)
    ensures AdminPatched(u, cmd).firstName == Renamed(u, cmd.firstName, cmd.lastName).firstName
    ensures AdminPatched(u, cmd).lastName == Renamed(u, cmd.firstName, cmd.lastName).lastName
    ensures AdminPatched(u, cmd).(firstName := u.firstName, lastName := u.lastName, role := u.role,
                                  isActive := u.isActive) == u
    ensures AdminPatched(AdminPatched(u, cmd), cmd) == AdminPatched(u, cmd)
  {
  }

  /** The conditional overwrites of an administrator's update, on the fetched entity. */
  method ApplyAdminPatch(u: User, cmd: UpdateUserByAdminCommand)
    modifies u
    ensures u.Row() == AdminPatched(old(u.Row()), cmd)
  {
    ghost var stored := u.Row();
    if cmd.firstName != "" {
      u.firstName := cmd.firstName;
    }
    if cmd.lastName != "" {
      u.lastName := cmd.lastName;
    }
    assert u.Row() == Renamed(stored, cmd.firstName, cmd.lastName);
    if cmd.role != "" && RoleIsValid(cmd.role) {
      u.AssignRole(cmd.role);
    }
    if cmd.isActive.Some? {
      u.isActive := cmd.isActive.value;
    }
  }

  method UpdateUserByAdmin(repo: UserRepository, cmd: UpdateUserByAdminCommand, now: int)
    returns (r: Result<UserRow, Failure>)
    requires repo.Valid()
    modifies repo
    ensures repo.Valid() && repo.available == old(repo.available) && repo.writable == old(repo.writable)
    ensures r.Err? ==> repo.users == old(repo.users)
    ensures old(repo.Lookup(cmd.userId)).Err? ==> r == Err(old(repo.Lookup(cmd.userId)).error)
    ensures old(repo.Lookup(cmd.userId)).Ok? ==>
      if repo.writable then
        && r == Ok(AdminPatched(old(repo.users[cmd.userId]), cmd).(updatedAt := now))
        && repo.users == old(repo.users)[cmd.userId := r.value]
      else
        r == Err(StoreWriteFailed)
  {
    var found := repo.GetByID(cmd.userId);
    if found.Err? {
      return Err(found.error);
    }
    var u := found.value;
    ApplyAdminPatch(u, cmd);
    var err := repo.Update(u, now);
    if err.Some? {
      return Err(err.value);
    }
    return Ok(u.Row());
  }

  // ---------------------------------------------------------------------
  // Role assignment.

  /**
   * Assigns a role.  An invalid role is refused before the store is
   * consulted, so the answer does not depend on it; with a valid role the
   * stored role becomes the requested one and nothing else but the update
   * time changes.
   */
  method AssignRole(repo: UserRepository, cmd: AssignRoleCommand, now: int) returns (r: Result<UserRow, Failure>)
    requires repo.Valid()
    modifies repo
    ensures repo.Valid() && repo.available == old(repo.available) && repo.writable == old(repo.writable)
    ensures r.Err? ==> repo.users == old(repo.users)
    ensures !RoleIsValid(cmd.role) ==> r == Err(ErrInvalidRole)
    ensures RoleIsValid(cmd.role) && old(repo.Lookup(cmd.userId)).Err? ==> r == Err(old(repo.Lookup(cmd.userId)).error)
    ensures RoleIsValid(cmd.role) && old(repo.Lookup(cmd.userId)).Ok? ==>
      if repo.writable then
        && r == Ok(old(repo.users[cmd.userId]).(role := cmd.role, updatedAt := now))
        && repo.users == old(repo.users)[cmd.userId := r.value]
      else
        r == Err(StoreWriteFailed)
  {
    if !RoleIsValid(cmd.role) {
      return Err(ErrInvalidRole);
    }
    var found := repo.GetByID(cmd.userId);
    if found.Err? {
      return Err(found.error);
    }
    var u := found.value;
    u.AssignRole(cmd.role);
    var err := repo.Update(u, now);
    if err.Some? {
      return Err(err.value);
    }
    return Ok(u.Row());
  }
}
