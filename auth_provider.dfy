/**
 * The session gate: the operator's email is kept in browser storage under
 * "userStatus", and the panel trusts it only after the admin list answers for it.
 * Every way the check can fail signs the operator out.
 */
module AuthProvider {
  import opened Wrappers

  /** The fields of `/admin-list/<email>` that the gate reads; a falsy email is "". */
  datatype Payload = Payload(email: string, username: Option<string>, role: string)

  /** How the lookup ends: an answer (`res.ok`, and the JSON, None for null), or an exception. */
  datatype Lookup = Responded(ok: bool, data: Option<Payload>) | Threw

  /** The signed-in operator, with the role as the panel shows it. */
  datatype User = User(email: string, name: Option<string>, role: string)

  /** `data.role === "superadmin" ? "Admin" : data.role`. */
  function ShownRole(role: string): (r: string)
    ensures r != "superadmin"
    ensures role != "superadmin" ==> r == role
  {
    if role == "superadmin" then "Admin" else role
  }

  /** The super admin is shown as an Admin; every other role stays as it is. */
  lemma ShownRoleCases(role: string)
    ensures ShownRole("superadmin") == "Admin"
    ensures ShownRole(role) == role <==> role != "superadmin"
  {
  }

  /**
   * The admin list hides the role spelled "superAdmin", which this mapping does not
   * touch: the two pages spell the super admin role differently.
   */
  lemma SuperAdminSpellings()
    ensures ShownRole("superAdmin") == "superAdmin"
  {
  }

  /** The user the gate builds from an accepted answer. */
  function UserOf(p: Payload): (u: User)
    ensures u.email == p.email && u.name == p.username && u.role == ShownRole(p.role)
  {
    User(p.email, p.username, ShownRole(p.role))
  }

  /** The answer lets the operator in: ok, a JSON object, and an email in it. */
  predicate Accepted(lookup: Lookup) {
    lookup.Responded? && lookup.ok && lookup.data.Some? && lookup.data.value.email != ""
  }

  class Session {
    var user: Option<User>
    var loading: bool
    /** `localStorage.getItem("userStatus")`. */
    var storedKey: Option<string>

    constructor(stored: Option<string>)
      ensures user.None? && loading && storedKey == stored
    {
      user := None;
      loading := true;
      storedKey := stored;
    }

    /** `!userEmail`: no key, or an empty one. */
    predicate HasKey()
      reads this
    {
      storedKey.Some? && storedKey.value != ""
    }

    /** A user is present only under a stored key and with the email the server gave. */
    predicate Gated()
      reads this
    {
      user.Some? ==> HasKey() && user.value.email != "" && user.value.role != "superadmin"
    }

    /** `userAccount: user?.name`. */
    function Account(): (r: Option<string>)
      reads this
      ensures user.None? ==> r.None?
      ensures user.Some? ==> r == user.value.name
    {
      if user.Some? then user.value.name else None
    }

    /** `signOutUser`: the key is removed, nobody is signed in, loading is over. */
    method SignOut()
      modifies this`user, this`loading, this`storedKey
      ensures storedKey.None? && user.None? && !loading
      ensures !HasKey() && Gated() && Account().None?
    {
      loading := true;
      storedKey := None;
      user := None;
      loading := false;
    }

    /**
     * `fetchUser`. Without a key nothing is requested and only loading ends. With one,
     * the key is looked up; an accepted answer signs the operator in, and a non-ok
     * answer, a missing email or an exception signs them out. `requested` is the key
     * sent to the server, if any.
     */
    method FetchUser(lookup: Lookup) returns (requested: Option<string>)
      modifies this`user, this`loading, this`storedKey
      ensures !old(HasKey()) ==>
        requested.None? && !loading && user == old(user) && storedKey == old(storedKey)
      ensures old(HasKey()) ==> requested == old(storedKey)
      ensures old(HasKey()) && Accepted(lookup) ==>
        user == Some(UserOf(lookup.data.value)) && !loading && storedKey == old(storedKey)
        && Account() == lookup.data.value.username
      ensures old(HasKey()) && !Accepted(lookup) ==> user.None? && !loading && storedKey.None?
      ensures old(Gated()) ==> Gated()
    {
      if !HasKey() {
        loading := false;
        return None;
      }
      requested := storedKey;
      if lookup.Threw? || !lookup.ok {
        SignOut();
        return;
      }
      if lookup.data.None? || lookup.data.value.email == "" {
        SignOut();
        return;
      }
      user := Some(UserOf(lookup.data.value));
      loading := false;
    }
  }
}
