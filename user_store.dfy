/**
 * The user table seen as a map from id to row.  Ids come from a counter
 * on create, both timestamps are stamped on create and the update time on
 * every save, and the email column is unique.  A save rewrites the row
 * stored under the entity's id; a save of an id with no row writes
 * nothing, which the repository reports as not-found.  The store has its own
 * not-found and duplicate values; reads and writes can each fail as a
 * whole.  Soft deletion is not modelled.
 */
module UserStore {
  import opened Wrappers
  import opened UserDomain

  /** Errors a user request can end with. */
  datatype Failure =
    | ErrUserNotFound
    | ErrUserAlreadyExists
    | ErrInvalidCredentials
    | ErrUserInactive
    | ErrInvalidOldPassword
    | ErrInvalidRole
    | StoreUnavailable
    | StoreWriteFailed
    | HashFailed(cause: string)
    | TokenFailed(cause: string)

  class UserRepository {
    var users: map<nat, UserRow>
    /** The id the next create assigns. */
    var nextId: nat
    /** False models a database that cannot be read. */
    var available: bool
    /** False models a database that refuses writes. */
    var writable: bool

    constructor ()
      ensures users == map[] && nextId == 1 && available && writable
      ensures Valid()
    {
      users := map[];
      nextId := 1;
      available := true;
      writable := true;
    }

    /** Every row is stored under its own id, below the counter, and no two rows share an email. */
    ghost predicate Valid()
      reads this
    {
      && nextId >= 1
      && (forall k :: k in users ==> users[k].id == k && 1 <= k < nextId)
      && (forall a, b :: a in users && b in users && users[a].email == users[b].email ==> a == b)
    }

    predicate EmailTaken(email: string)
      reads this
    {
      exists k :: k in users && users[k].email == email
    }

    /** What GetByID answers. */
    function Lookup(id: nat): (r: Result<UserRow, Failure>)
      reads this
      ensures r.Ok? <==> available && id in users
      ensures r.Ok? ==> r.value == users[id]
      ensures !available ==> r == Err(StoreUnavailable)
      ensures available && id !in users ==> r == Err(ErrUserNotFound)
    {
      if !available then Err(StoreUnavailable)
      else if id !in users then Err(ErrUserNotFound)
      else Ok(users[id])
    }

    /** What GetByEmail answers: the one row with that email. */
    function LookupEmail(email: string): (r: Result<UserRow, Failure>)
      requires Valid()
      reads this
      ensures r.Ok? <==> available && EmailTaken(email)
      ensures r.Ok? ==> r.value.email == email && r.value.id in users && users[r.value.id] == r.value
      ensures !available ==> r == Err(StoreUnavailable)
      ensures available && !EmailTaken(email) ==> r == Err(ErrUserNotFound)
    {
      if !available then Err(StoreUnavailable)
      else if !EmailTaken(email) then Err(ErrUserNotFound)
      else
        var k :| k in users && users[k].email == email;
        Ok(users[k])
    }

    method GetByID(id: nat) returns (r: Result<User, Failure>)
      ensures r.Err? ==> Lookup(id) == Err(r.error)
      ensures r.Ok? ==> Lookup(id) == Ok(r.value.Row()) && fresh(r.value)
    {
      var found := Lookup(id);
      if found.Err? {
        return Err(found.error);
      }
      var u := new User.FromRow(found.value);
      return Ok(u);
    }

    /**
     * Inserts a user whose email is not yet stored, assigning the next id
     * and stamping both timestamps.  A taken email or a failed read or
     * write stores nothing and leaves the entity as it was.
     */
    method Create(u: User, now: int) returns (err: Option<Failure>)
      requires Valid()
      modifies this, u
      ensures Valid() && available == old(available) && writable == old(writable)
      ensures !available ==> err == Some(StoreUnavailable) && unchanged(this) && unchanged(u)
      ensures available && old(EmailTaken(u.email)) ==>
        err == Some(ErrUserAlreadyExists) && unchanged(this) && unchanged(u)
      ensures available && !old(EmailTaken(u.email)) && !writable ==>
        err == Some(StoreWriteFailed) && unchanged(this) && unchanged(u)
      ensures available && !old(EmailTaken(u.email)) && writable ==>
        && err.None?
        && u.Row() == old(u.Row()).(id := old(nextId), createdAt := now, updatedAt := now)
        && users == old(users)[u.id := u.Row()]
        && old(nextId) !in old(users)
        && nextId == old(nextId) + 1
    {
      if !available {
        return Some(StoreUnavailable);
      }
      if EmailTaken(u.email) {
        return Some(ErrUserAlreadyExists);
      }
      if !writable {
        return Some(StoreWriteFailed);
      }
      assert nextId !in users;
      u.id := nextId;
      u.createdAt := now;
      u.updatedAt := now;
      users := users[u.id := u.Row()];
      nextId := nextId + 1;
      return None;
    }

    /**
     * Saves every column of a stored user, stamping `now`.  An unknown id
     * saves nothing, and so does an email another row already holds.
     */
    method Update(u: User, now: int) returns (err: Option<Failure>)
      requires Valid()
      modifies this, u
      ensures Valid() && available == old(available) && writable == old(writable)
      ensures nextId == old(nextId)
      ensures u.Row() == old(u.Row()).(updatedAt := now)
      ensures !writable ==> err == Some(StoreWriteFailed) && users == old(users)
      ensures writable && u.id !in old(users) ==> err == Some(ErrUserNotFound) && users == old(users)
      ensures writable && u.id in old(users) && u.email == old(users[u.id]).email ==>
        err.None? && users == old(users)[u.id := u.Row()]
      ensures writable && u.id in old(users) && u.email != old(users[u.id]).email ==>
        && (err.None? <==> !old(EmailTaken(u.email)))
        && (err.None? ==> users == old(users)[u.id := u.Row()])
        && (err.Some? ==> err == Some(StoreWriteFailed) && users == old(users))
    {
      u.updatedAt := now;
      if !writable {
        return Some(StoreWriteFailed);
      }
      if u.id !in users {
        return Some(ErrUserNotFound);
      }
      if exists k :: k in users && k != u.id && users[k].email == u.email {
        return Some(StoreWriteFailed);
      }
      users := users[u.id := u.Row()];
      return None;
    }
  }
}
