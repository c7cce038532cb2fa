/** `UserProxy`: role-based access to the actions of a user object. The
    permission list comes from the lower-cased user type; an action runs
    only if it is listed there and the user's class defines a method of that
    name. */
module UserProxy {
  import opened Common

  /** The class of the wrapped user object. */
  datatype UserClass = BaseUser | AdminUser | HostUser | GuestUser

  /** The wrapped user as the proxy reads it: its class, `getName()` and
      `getUserType()`. */
  datatype ProxiedUser = ProxiedUser(cls: UserClass, name: string, userType: string)

  datatype Response = Invoked(action: string) | Denied(message: string)

  const NotLoggedIn := "Access Denied! User not logged in."

  /** The methods each class defines or inherits. */
  function MethodsOf(c: UserClass): (m: set<string>)
    ensures "browse_listings" in m
  {
    var base := {"getName", "getEmail", "getPassword", "getUserType", "getId", "showRooms", "browse_listings"};
    match c
    case BaseUser => base
    case AdminUser => base + {"manage_users", "view_reports", "delete_account"}
    case HostUser => base + {"create_listing", "manage_bookings", "view_earnings", "delete_listing"}
    case GuestUser => base + {"book_accommodation"}
  }

  /** `str.lower` on ASCII letters. */
  function LowerChar(c: char): (d: char)
    ensures 'A' <= c <= 'Z' ==> d as int == c as int + 32
    ensures !('A' <= c <= 'Z') ==> d == c
  {
    if 'A' <= c <= 'Z' then (c as int + 32) as char else c
  }

  function ToLower(s: string): (r: string)
    ensures |r| == |s|
    ensures forall i :: 0 <= i < |s| ==> r[i] == LowerChar(s[i])
  {
    if |s| == 0 then [] else [LowerChar(s[0])] + ToLower(s[1..])
  }

  /** Lower-casing is idempotent, so a role name already in lower case is
      looked up as written. */
  lemma ToLowerIdempotent(s: string)
    ensures ToLower(ToLower(s)) == ToLower(s)
  {
    var t := ToLower(s);
    assert forall i :: 0 <= i < |t| ==> LowerChar(t[i]) == t[i];
  }

  /** The role table, keyed by lower-case role name; any other name maps
      to no permissions. Exactly the three known roles have permissions,
      each lists `browse_listings` first and no action twice, and every
      action other than browsing belongs to one role only. */
  function RolePermissions(role: string): (p: seq<string>)
    ensures p != [] <==> role == "admin" || role == "host" || role == "guest"
    ensures p != [] ==> p[0] == "browse_listings"
    ensures forall i, j :: 0 <= i < j < |p| ==> p[i] != p[j]
    ensures "create_listing" in p || "manage_bookings" in p || "view_earnings" in p || "delete_listing" in p ==> role == "host"
    ensures "manage_users" in p || "view_reports" in p || "delete_account" in p ==> role == "admin"
    ensures "book_accommodation" in p ==> role == "guest"
  {
    if role == "admin" then ["browse_listings", "manage_users", "view_reports", "delete_account"]
    else if role == "host" then ["browse_listings", "create_listing", "manage_bookings", "view_earnings", "delete_listing"]
    else if role == "guest" then ["browse_listings", "book_accommodation"]
    else []
  }

  /** `get_role_permissions`: none for a missing user, otherwise the table
      entry of the lower-cased user type. Exactly the three known roles get
      any permission, and each of them may browse; only a host may manage
      listings. */
  function GetRolePermissions(user: Option<ProxiedUser>): (p: seq<string>)
    ensures user.None? ==> p == []
    ensures user.Some? ==> p == RolePermissions(ToLower(user.value.userType))
    ensures p != [] <==> user.Some? && ToLower(user.value.userType) in {"admin", "host", "guest"}
    ensures p != [] ==> p[0] == "browse_listings"
    ensures "create_listing" in p || "delete_listing" in p ==> ToLower(user.value.userType) == "host"
  {
    match user
    case None => []
    case Some(u) => RolePermissions(ToLower(u.userType))
  }

  /** `execute`: a missing user is told to log in; otherwise the action is
      invoked exactly when it is permitted and the class has it, and refused
      by name otherwise. */
  function Execute(user: Option<ProxiedUser>, action: string): (r: Response)
    ensures user.None? ==> r == Denied(NotLoggedIn)
    ensures r.Invoked? <==> user.Some? && action in GetRolePermissions(user) && action in MethodsOf(user.value.cls)
    ensures r.Invoked? ==> r.action == action
    ensures user.Some? && !r.Invoked? ==>
              r == Denied("Access Denied! " + user.value.name + " cannot perform " + action + ".")
  {
    match user
    case None => Denied(NotLoggedIn)
    case Some(u) =>
      if action in GetRolePermissions(user) && action in MethodsOf(u.cls) then Invoked(action)
      else Denied("Access Denied! " + u.name + " cannot perform " + action + ".")
  }

  /** Every permission of a role names a method of that role's own class, so
      for a user whose class matches its type the table alone decides. */
  lemma RoleTableMatchesClasses(u: ProxiedUser, action: string)
    requires ToLower(u.userType) == "admin" ==> u.cls == AdminUser
    requires ToLower(u.userType) == "host" ==> u.cls == HostUser
    requires ToLower(u.userType) == "guest" ==> u.cls == GuestUser
    ensures Execute(Some(u), action).Invoked? <==> action in RolePermissions(ToLower(u.userType))
  {
  }

  /** An unknown role may do nothing at all, not even browse. */
  lemma UnknownRoleDenied(u: ProxiedUser, action: string)
    requires ToLower(u.userType) != "admin" && ToLower(u.userType) != "host" && ToLower(u.userType) != "guest"
    ensures Execute(Some(u), action).Denied?
  {
  }

  /** The type decides the permissions and the class the methods: a guest
      object whose type reads as `"host"` is permitted `create_listing` but
      has no such method, so it is refused. */
  lemma MismatchedClassRefused(u: ProxiedUser)
    requires u.cls == GuestUser && ToLower(u.userType) == "host"
    ensures "create_listing" in GetRolePermissions(Some(u))
    ensures Execute(Some(u), "create_listing") == Denied("Access Denied! " + u.name + " cannot perform " + "create_listing" + ".")
  {
  }

  /** The host actions run only for a user whose type reads as `host` and
      whose class is the host class; anyone else is refused. */
  lemma HostOnlyActions(u: ProxiedUser, action: string)
    requires action in {"create_listing", "manage_bookings", "view_earnings", "delete_listing"}
    ensures Execute(Some(u), action).Invoked? <==> ToLower(u.userType) == "host" && u.cls == HostUser
  {
  }
}
