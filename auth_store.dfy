/** The authentication store: whether someone is signed in, their roles and name, and the
    roles the sign-in forms ask for. */
module AuthStore {
  import opened Wrappers

  datatype UserRole = Distributor | Editor

  /** The roles the forms start with. */
  const DefaultRequestedRoles: seq<UserRole> := [Distributor]

  class AuthStore {
    var isAuthenticated: bool
    var roles: seq<UserRole>
    var requestedRoles: seq<UserRole>
    var userName: Option<string>

    /** Nobody is signed in. */
    predicate SignedOut()
      reads this
    {
      !isAuthenticated && roles == [] && userName == None
    }

    constructor()
      ensures SignedOut()
      ensures requestedRoles == DefaultRequestedRoles
    {
      isAuthenticated := false;
      roles := [];
      requestedRoles := DefaultRequestedRoles;
      userName := None;
    }

    method SetRequestedRoles(roles: seq<UserRole>)
      modifies this`requestedRoles
      ensures requestedRoles == roles
      ensures isAuthenticated == old(isAuthenticated) && this.roles == old(this.roles) && userName == old(userName)
    {
      requestedRoles := roles;
    }

    /** Signs in; the requested roles stay as they were. */
    method Authenticate(userName: string, roles: seq<UserRole>)
      modifies this`isAuthenticated, this`roles, this`userName
      ensures isAuthenticated && this.userName == Some(userName) && this.roles == roles
      ensures requestedRoles == old(requestedRoles)
    {
      isAuthenticated := true;
      this.userName := Some(userName);
      this.roles := roles;
    }

    /** Signs out, whatever the state was, back to the initial authentication fields. */
    method SignOut()
      modifies this`isAuthenticated, this`roles, this`userName
      ensures SignedOut()
      ensures requestedRoles == old(requestedRoles)
    {
      isAuthenticated := false;
      roles := [];
      userName := None;
    }
  }
}
