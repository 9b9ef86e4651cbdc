/** The two custom DRF permission classes, and the way DRF evaluates a
    list of permission classes for a request. */
module Permissions {
  import opened Domain

  /** `request.user`: DRF's anonymous user or an authenticated one. */
  datatype Requester = Anonymous | Authenticated(user: User)

  datatype Permission = IsAuthenticated | IsOwnerOrStaff | IsGestionnaireOrAdmin

  /** `IsGestionnaireOrAdmin.has_permission`. */
  predicate GestionnaireOrAdmin(u: User) {
    IsStaffRole(u.role)
  }

  /** `IsOwnerOrStaff.has_object_permission` for an object whose client is
      the user with id `owner`. */
  predicate OwnerOrStaff(u: User, owner: int) {
    IsStaffRole(u.role) || owner == u.id
  }

  /** The role test admits exactly GESTIONNAIRE and ADMIN, so a CLIENT
      never passes it. */
  lemma GestionnaireOrAdminRoles(u: User)
    ensures GestionnaireOrAdmin(u) <==> u.role == GestionnaireRole || u.role == AdminRole
    ensures u.role == ClientRole ==> !GestionnaireOrAdmin(u)
  {
  }

  /** Staff pass the ownership test on every object; anyone else passes it
      exactly on the objects whose client they are. */
  lemma OwnerOrStaffCases(u: User, owner: int)
    ensures IsStaffRole(u.role) ==> OwnerOrStaff(u, owner)
    ensures !IsStaffRole(u.role) ==> (OwnerOrStaff(u, owner) <==> owner == u.id)
  {
  }

  /** `has_permission`: IsOwnerOrStaff keeps BasePermission's default. The
      anonymous user has no role; it is refused here, and every list this
      model evaluates puts IsAuthenticated first, so that case is never
      reached. */
  predicate HasPermission(p: Permission, r: Requester) {
    match p
    case IsAuthenticated => r.Authenticated?
    case IsOwnerOrStaff => true
    case IsGestionnaireOrAdmin => r.Authenticated? && GestionnaireOrAdmin(r.user)
  }

  /** `has_object_permission`: only IsOwnerOrStaff overrides the default. */
  predicate HasObjectPermission(p: Permission, u: User, owner: int) {
    match p
    case IsAuthenticated => true
    case IsOwnerOrStaff => OwnerOrStaff(u, owner)
    case IsGestionnaireOrAdmin => true
  }

  /** The outcome of DRF's permission checks. */
  datatype Verdict = Granted | NotAuthenticated | Denied

  /** `check_permissions`: the first failing class decides, and a failure
      for an unauthenticated request is reported as 401. */
  function CheckPermissions(perms: seq<Permission>, r: Requester): (v: Verdict)
    ensures v.Granted? <==> forall i :: 0 <= i < |perms| ==> HasPermission(perms[i], r)
    ensures v.NotAuthenticated? ==> r.Anonymous?
    ensures v.Denied? ==> r.Authenticated?
  {
    if perms == [] then Granted
    else if !HasPermission(perms[0], r) then
      if r.Anonymous? then NotAuthenticated else Denied
    else
      var rest := CheckPermissions(perms[1..], r);
      assert forall i :: 1 <= i < |perms| ==> perms[i] == perms[1..][i - 1];
      rest
  }

  /** `check_object_permissions` for an object owned by `owner`. */
  function CheckObjectPermissions(perms: seq<Permission>, u: User, owner: int): (ok: bool)
    ensures ok <==> forall i :: 0 <= i < |perms| ==> HasObjectPermission(perms[i], u, owner)
  {
    if perms == [] then true
    else
      assert forall i :: 1 <= i < |perms| ==> perms[i] == perms[1..][i - 1];
      HasObjectPermission(perms[0], u, owner) && CheckObjectPermissions(perms[1..], u, owner)
  }
}
