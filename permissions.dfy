/** permissions/permissions.py: the `has_permission` predicates of the five
    permission classes, over the requesting user and the view's URL arguments. */
module Permissions {
  import opened Wrappers
  import opened AccountsModels
  import PyText

  /** `request.user`: Django's anonymous user, or a signed-in user with an id and
      a stored role string (which may be any string, "patient" included). */
  datatype Principal = Anonymous | SignedIn(id: UserId, role: string) {
    predicate IsAuthenticated() {
      SignedIn?
    }
  }

  /** `view.kwargs.get('user_id')`: missing, an int (the `<int:user_id>` converter)
      or a string (a `<str:...>` route). */
  datatype UrlArg = Missing | IntArg(n: int) | StrArg(s: string)

  /** Python's `int(x)` on the URL argument: None is a TypeError and an
      unparsable string a ValueError, both None here. */
  function ToInt(arg: UrlArg): Option<int> {
    match arg
    case Missing => None
    case IntArg(n) => Some(n)
    case StrArg(s) => PyText.ParseInt(s)
  }

  predicate IsAdminUser(user: Principal) {
    user.IsAuthenticated() && user.role == "admin"
  }

  /** `user` is None when `request.user` is missing, which only this class tests for. */
  predicate IsAdminOrOwner(user: Option<Principal>, userId: UrlArg) {
    if user.None? || !user.value.IsAuthenticated() then false
    else if user.value.role == "admin" then true
    else
      match ToInt(userId)
      case Some(n) => n == user.value.id
      case None => false
  }

  predicate IsDoctorOrAdmin(user: Principal) {
    user.IsAuthenticated() && user.role in ["doctor", "admin"]
  }

  predicate IsAccountantOrAdmin(user: Principal) {
    user.IsAuthenticated() && user.role in ["accountant", "admin"]
  }

  predicate IsStaffUser(user: Principal) {
    user.IsAuthenticated() && user.role != "patient"
  }

  /** A missing or anonymous user is refused whatever the URL says; a signed-in
      admin is admitted whatever the URL says. */
  lemma AdminOrOwnerAuthentication(user: Option<Principal>, userId: UrlArg)
    ensures user.None? ==> !IsAdminOrOwner(user, userId)
    ensures user == Some(Anonymous) ==> !IsAdminOrOwner(user, userId)
    ensures user.Some? && user.value.SignedIn? && user.value.role == "admin" ==> IsAdminOrOwner(user, userId)
  {
  }

  /** For a signed-in non-admin, access is granted exactly when the URL argument
      converts to an int equal to the user's own id; a missing or unparsable
      argument refuses. */
  lemma AdminOrOwnerForNonAdmin(id: UserId, role: string, userId: UrlArg)
    requires role != "admin"
    ensures IsAdminOrOwner(Some(SignedIn(id, role)), userId) <==> ToInt(userId) == Some(id)
    ensures userId.Missing? ==> !IsAdminOrOwner(Some(SignedIn(id, role)), userId)
  {
  }

  /** The owner is admitted whether the id reaches the view as an int or as the
      decimal string of that int. */
  lemma OwnerAdmitted(id: UserId, role: string)
    ensures IsAdminOrOwner(Some(SignedIn(id, role)), IntArg(id))
    ensures IsAdminOrOwner(Some(SignedIn(id, role)), StrArg(PyText.IntToString(id)))
  {
    PyText.IntToStringRoundTrip(id);
  }

  /** A non-admin naming another user's id is refused, in either form. */
  lemma OtherUserRefused(id: UserId, other: UserId, role: string)
    requires role != "admin" && other != id
    ensures !IsAdminOrOwner(Some(SignedIn(id, role)), IntArg(other))
    ensures !IsAdminOrOwner(Some(SignedIn(id, role)), StrArg(PyText.IntToString(other)))
  {
    PyText.IntToStringRoundTrip(other);
  }

  /** A signed-in admin passes all five checks; an anonymous user passes none. */
  lemma AdminPassesAllAnonymousNone(id: UserId, userId: UrlArg)
    ensures var admin := SignedIn(id, "admin");
      IsAdminUser(admin) && IsAdminOrOwner(Some(admin), userId) && IsDoctorOrAdmin(admin)
      && IsAccountantOrAdmin(admin) && IsStaffUser(admin)
    ensures !IsAdminUser(Anonymous) && !IsAdminOrOwner(Some(Anonymous), userId)
      && !IsDoctorOrAdmin(Anonymous) && !IsAccountantOrAdmin(Anonymous) && !IsStaffUser(Anonymous)
  {
  }

  /** Each narrower check implies the staff check, and the admin check implies
      every other. */
  lemma PermissionHierarchy(user: Principal, userId: UrlArg)
    ensures IsAdminUser(user) ==> IsDoctorOrAdmin(user) && IsAccountantOrAdmin(user) && IsAdminOrOwner(Some(user), userId)
    ensures IsDoctorOrAdmin(user) ==> IsStaffUser(user)
    ensures IsAccountantOrAdmin(user) ==> IsStaffUser(user)
  {
  }

  /** No role of USER_ROLES is "patient", so for a user holding a listed role
      IsStaffUser reduces to being signed in. */
  lemma StaffForEveryListedRole(id: UserId, r: Role)
    ensures IsStaffUser(SignedIn(id, Code(r)))
    ensures IsDoctorOrAdmin(SignedIn(id, Code(r))) <==> r == Doctor || r == Admin
    ensures IsAccountantOrAdmin(SignedIn(id, Code(r))) <==> r == Accountant || r == Admin
  {
    ParseCode(r);
  }
}
