/**
 * The user account entity and its role.  A role is a plain string of which
 * two values are meaningful; the entity's checks are pure, and activation
 * and role assignment change one field in place.  Lengths count
 * characters.
 */
module UserDomain {

  type Role = string

  const RoleUser: Role := "user"
  const RoleAdmin: Role := "admin"

  predicate RoleIsValid(r: Role)
  {
    r == RoleUser || r == RoleAdmin
  }

  predicate RoleIsAdmin(r: Role)
  {
    r == RoleAdmin
  }

  predicate RoleIsUser(r: Role)
  {
    r == RoleUser
  }

  /** The role's text: the role itself. */
  function RoleString(r: Role): (s: string)
    ensures s == r
  {
    r
  }

  /**
   * A role is valid iff it is one of the two known roles; no role is both,
   * and a valid role is exactly one of them.
   */
  lemma RoleRules(r: Role)
    ensures RoleIsValid(r) <==> r == "user" || r == "admin"
    ensures !(RoleIsAdmin(r) && RoleIsUser(r))
    ensures RoleIsValid(r) <==> (RoleIsAdmin(r) != RoleIsUser(r))
    ensures RoleString(r) == r
  {
  }

  datatype UserRow = UserRow(
    id: nat,
    email: string,
    password: string,
    firstName: string,
    lastName: string,
    role: Role,
    isActive: bool,
    createdAt: int,
    updatedAt: int)
  {
    predicate IsValidEmail()
    {
      0 < |email| <= 255
    }

    predicate IsValidPassword()
    {
      |password| >= 6
    }

    /** First and last name joined by one space. */
    function FullName(): (s: string)
      ensures |s| == |firstName| + 1 + |lastName|
      ensures s[..|firstName|] == firstName && s[|firstName|] == ' ' && s[|firstName| + 1..] == lastName
    {
      firstName + " " + lastName
    }

    predicate IsAdmin()
    {
      RoleIsAdmin(role)
    }

    predicate HasRole(r: Role)
    {
      role == r
    }
  }

  /** The account after a role assignment: an invalid role is ignored. */
  function WithRole(u: UserRow, r: Role): UserRow
  {
    if RoleIsValid(r) then u.(role := r) else u
  }

  /**
   * Assigning a role changes the role iff the new one is valid, keeps a
   * valid role valid, and changes nothing else.
   */
  lemma AssignRoleRules(u: UserRow, r: Role)
    ensures WithRole(u, r).role == r <==> RoleIsValid(r) || u.role == r
    ensures !RoleIsValid(r) ==> WithRole(u, r) == u
    ensures RoleIsValid(u.role) ==> RoleIsValid(WithRole(u, r).role)
    ensures WithRole(u, r).(role := u.role) == u
    ensures WithRole(u, r).IsAdmin() <==> (if RoleIsValid(r) then r == RoleAdmin else u.IsAdmin())
  {
  }

  /** The administrator check and the role check agree with the role's own checks. */
  lemma UserRoleChecks(u: UserRow)
    ensures u.IsAdmin() <==> u.HasRole(RoleAdmin)
    ensures u.HasRole(u.role)
    ensures RoleIsValid(u.role) ==> (u.IsAdmin() <==> !u.HasRole(RoleUser))
  {
  }

  class User {
    var id: nat
    var email: string
    var password: string
    var firstName: string
    var lastName: string
    var role: Role
    var isActive: bool
    var createdAt: int
    var updatedAt: int

    constructor FromRow(r: UserRow)
      ensures Row() == r
    {
      id, email, password, firstName, lastName := r.id, r.email, r.password, r.firstName, r.lastName;
      role, isActive, createdAt, updatedAt := r.role, r.isActive, r.createdAt, r.updatedAt;
    }

    function Row(): UserRow
      reads this
    {
      UserRow(id, email, password, firstName, lastName, role, isActive, createdAt, updatedAt)
    }

    method Activate()
      modifies this
      ensures Row() == old(Row()).(isActive := true)
    {
      isActive := true;
    }

    method Deactivate()
      modifies this
      ensures Row() == old(Row()).(isActive := false)
    {
      isActive := false;
    }

    method AssignRole(r: Role)
      modifies this
      ensures Row() == WithRole(old(Row()), r)
    {
      if RoleIsValid(r) {
        role := r;
      }
    }
  }
}
