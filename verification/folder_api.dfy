/** `FolderViewSet`: which folders a user sees, who may touch them, how a
    folder is created, and the `change_status` action. The folder table is
    a map from primary key to folder. */
module FolderApi {
  import opened Wrappers
  import opened Domain
  import opened Permissions
  import opened Json

  type Store = map<int, Folder>

  const OwnerActions: seq<string> := ["update", "partial_update", "destroy"]

  /** `get_permissions` as written: IsAuthenticated always, and
      IsOwnerOrStaff for the three write actions. It ignores the
      `permission_classes` given to `@action`. */
  function FolderPermissions(action: string): (r: seq<Permission>)
    ensures |r| > 0 && r[0] == IsAuthenticated
    ensures IsOwnerOrStaff in r <==> action in OwnerActions
    ensures IsGestionnaireOrAdmin !in r
  {
    if action in OwnerActions then [IsAuthenticated, IsOwnerOrStaff]
    else [IsAuthenticated]
  }

  /** `get_queryset`: staff see every folder, anyone else only their own. */
  function Queryset(u: User, store: Store): (r: Store)
    ensures IsStaffRole(u.role) ==> r == store
    ensures forall k :: k in r <==> k in store && (IsStaffRole(u.role) || store[k].client == u.id)
    ensures forall k :: k in r ==> r[k] == store[k]
  {
    if IsStaffRole(u.role) then store
    else map k | k in store && store[k].client == u.id :: store[k]
  }

  /** A folder is visible to a user exactly when IsOwnerOrStaff admits the
      user on it: for this viewset the object check adds nothing. */
  lemma VisibleIffOwnerOrStaff(u: User, store: Store, k: int)
    requires k in store
    ensures k in Queryset(u, store) <==> OwnerOrStaff(u, store[k].client)
  {
  }

  /** The writable fields of a creation request. `client` is read-only in
      the serializer, so whatever the body says there is dropped. */
  datatype CreatePayload = CreatePayload(
    vehicle: int,
    typeFolder: FolderType,
    status: Option<FolderStatus>,
    client: Option<int>)

  /** `perform_create`: the client is the requesting user; a status left
      out of the request takes the model default; both dates are the
      moment of the save. */
  function PerformCreate(u: User, p: CreatePayload, id: int, now: int): (f: Folder)
    ensures f.client == u.id
    ensures f.id == id && f.vehicle == p.vehicle && f.typeFolder == p.typeFolder
    ensures f.created == now && f.modified == now
    ensures p.status.None? ==> f.status == DefaultStatus
    ensures p.status.Some? ==> f.status == p.status.value
  {
    Folder(id, u.id, p.vehicle, p.typeFolder, p.status.GetOr(DefaultStatus), now, now)
  }

  /** A newly created folder without an explicit status is PENDING, and its
      client never comes from the request body. */
  lemma CreatedFolderIsPendingAndOwned(u: User, p: CreatePayload, id: int, now: int, claimed: int)
    requires p.status.None?
    ensures PerformCreate(u, p, id, now).status == Pending
    ensures PerformCreate(u, p.(client := Some(claimed)), id, now) == PerformCreate(u, p, id, now)
  {
  }

  datatype Response =
    | Ok(folder: Folder)           // 200 with the serialized folder
    | BadRequest(error: string)    // 400
    | Unauthorized                 // 401
    | Forbidden                    // 403
    | NotFound                     // 404
    | ServerError                  // 500: an exception escaped the view

  const InvalidStatus := "Statut invalide"

  /** Python's `value in dict(Folder.STATUS)` for the `status` of the
      request body: a string is looked up among the keys, `None` (a missing
      key or JSON null), a boolean or a number is hashable and matches no
      key, and a list or an object is unhashable and raises `TypeError`
      (`None` here). */
  function StatusLookup(v: JsValue): (r: Option<bool>)
    ensures r.None? <==> v.Arr? || v.Obj?
    ensures r == Some(true) <==> v.Str? && IsChoice(StatusChoices, v.s)
  {
    match v
    case Str(s) => Some(IsChoice(StatusChoices, s))
    case Arr(_) => None
    case Obj(_) => None
    case _ => Some(false)
  }

  /** `request.data.get('status')`. A JSON object body is a dict, and a
      request without a body (`Undefined`) parses to an empty one; both
      answer the `status` entry, a missing key reading as `None`. Any other
      JSON body (an array, a string, a number, a boolean or null) is
      returned as is by the parser and has no `.get`, which raises
      `AttributeError` (`None` here). */
  function RequestStatus(body: JsValue): (r: Option<JsValue>)
    ensures r.Some? <==> body.Obj? || body.Undefined?
    ensures body.Obj? && "status" in body.fields ==> r == Some(body.fields["status"])
    ensures (body.Obj? && "status" !in body.fields) || body.Undefined? ==> r == Some(Undefined)
  {
    if body.Obj? || body.Undefined? then Some(Get(body, "status")) else None
  }

  /** Lines 36-43 of `change_status` once the status is read: a status
      that is a key of `Folder.STATUS` is stored, `save()` stamps
      `modification_date` with `now`, and the folder is returned; a list
      or an object fails the lookup with 500; anything else, a missing
      status included, is refused with 400. */
  function SetStatus(f: Folder, newStatus: JsValue, now: int): (r: (Folder, Response))
    ensures r.1.Ok? <==> newStatus.Str? && IsChoice(StatusChoices, newStatus.s)
    ensures r.1.Ok? ==> r.0 == f.(status := r.0.status, modified := now)
                        && StatusCode(r.0.status) == newStatus.s
                        && r.1.folder == r.0
    ensures r.1 == ServerError <==> newStatus.Arr? || newStatus.Obj?
    ensures !r.1.Ok? ==> r.0 == f
    ensures !r.1.Ok? && r.1 != ServerError ==> r.1 == BadRequest(InvalidStatus)
  {
    match StatusLookup(newStatus)
    case None => (f, ServerError)
    case Some(found) =>
      if found then
        StatusChoicesAreStatuses(newStatus.s);
        var g := f.(status := ParseStatus(newStatus.s).value, modified := now);
        (g, Ok(g))
      else
        if newStatus.Str? then StatusChoicesAreStatuses(newStatus.s); (f, BadRequest(InvalidStatus))
        else (f, BadRequest(InvalidStatus))
  }

  /** A request body `change_status` accepts: an object whose `status` is
      one of the `Folder.STATUS` codes. */
  predicate AcceptedBody(body: JsValue) {
    body.Obj? && Get(body, "status").Str? && IsChoice(StatusChoices, Get(body, "status").s)
  }

  /** The body of `change_status` once the folder is in hand, given the
      request body: a body with no `.get` fails with 500 before the status
      is looked at. */
  function ChangeStatus(f: Folder, body: JsValue, now: int): (r: (Folder, Response))
    ensures r.1.Ok? <==> body.Obj? && "status" in body.fields && body.fields["status"].Str?
                         && IsChoice(StatusChoices, body.fields["status"].s)
    ensures r.1.Ok? ==> r.0 == f.(status := r.0.status, modified := now)
                        && Str(StatusCode(r.0.status)) == body.fields["status"]
                        && r.1.folder == r.0
    ensures r.1 == ServerError <==>
      !(body.Obj? || body.Undefined?)
      || (body.Obj? && "status" in body.fields && (body.fields["status"].Arr? || body.fields["status"].Obj?))
    ensures !r.1.Ok? ==> r.0 == f
    ensures !r.1.Ok? && r.1 != ServerError ==> r.1 == BadRequest(InvalidStatus)
  {
    match RequestStatus(body)
    case None => (f, ServerError)
    case Some(status) => SetStatus(f, status, now)
  }

  /** A request body that is not a JSON object, such as the bare string
      "VALIDATED", fails with 500 and changes nothing. */
  lemma BareStatusFails(f: Folder, now: int)
    ensures ChangeStatus(f, Str("VALIDATED"), now) == (f, ServerError)
  {
  }

  /** The front end's "APPROVED" status is not a back-end status, so
      `change_status` refuses it and leaves the folder as it was. */
  lemma ApprovedIsRefused(f: Folder, now: int)
    ensures ChangeStatus(f, Obj(map["status" := Str("APPROVED")]), now) == (f, BadRequest(InvalidStatus))
  {
  }

  datatype Access = Allowed(folder: Folder) | Refused(response: Response)

  /** DRF's path to the object of a detail action: the permission checks,
      then `get_object` (a lookup in the user's queryset, 404 when absent),
      then the object permission checks. */
  function Authorize(perms: seq<Permission>, r: Requester, store: Store, pk: int): (a: Access)
    ensures a.Allowed? <==>
      && CheckPermissions(perms, r).Granted?
      && r.Authenticated? && pk in Queryset(r.user, store)
      && CheckObjectPermissions(perms, r.user, store[pk].client)
    ensures a.Allowed? ==> pk in store && a.folder == store[pk]
  {
    match CheckPermissions(perms, r)
    case NotAuthenticated => Refused(Unauthorized)
    case Denied => Refused(Forbidden)
    case Granted =>
      if !r.Authenticated? then Refused(Unauthorized)
      else
        var visible := Queryset(r.user, store);
        if pk !in visible then Refused(NotFound)
        else if !CheckObjectPermissions(perms, r.user, visible[pk].client) then Refused(Forbidden)
        else Allowed(visible[pk])
  }

  /** For every folder action (update, partial_update and destroy included)
      access is granted exactly to an authenticated owner or staff member;
      another user's folder answers 404, never 403. */
  lemma {:induction false} FolderAccess(action: string, r: Requester, store: Store, pk: int)
    ensures Authorize(FolderPermissions(action), r, store, pk).Allowed? <==>
      r.Authenticated? && pk in store && OwnerOrStaff(r.user, store[pk].client)
    ensures r.Authenticated? && pk in store && !OwnerOrStaff(r.user, store[pk].client) ==>
      Authorize(FolderPermissions(action), r, store, pk) == Refused(NotFound)
  {
    var perms := FolderPermissions(action);
    if r.Authenticated? {
      assert CheckPermissions(perms, r).Granted?;
      if pk in store && OwnerOrStaff(r.user, store[pk].client) {
        assert forall i :: 0 <= i < |perms| ==> HasObjectPermission(perms[i], r.user, store[pk].client);
      }
    } else {
      assert !HasPermission(perms[0], r);
    }
  }

  /** The whole `change_status` request under the permission list `perms`.
      Only the folder `pk` can change, and only in its status. */
  function ChangeStatusRequest(perms: seq<Permission>, r: Requester, store: Store, pk: int,
                               body: JsValue, now: int): (res: (Store, Response))
    ensures res.0.Keys == store.Keys
    ensures forall k :: k in store && k != pk ==> res.0[k] == store[k]
    ensures pk in store ==> res.0[pk] == store[pk].(status := res.0[pk].status, modified := res.0[pk].modified)
    ensures res.1.Ok? ==> Authorize(perms, r, store, pk).Allowed?
                          && res.1.folder == res.0[pk]
                          && res.0[pk].modified == now
                          && Get(body, "status") == Str(StatusCode(res.0[pk].status))
    ensures !res.1.Ok? ==> res.0 == store
  {
    match Authorize(perms, r, store, pk)
    case Refused(resp) => (store, resp)
    case Allowed(f) =>
      var (g, resp) := ChangeStatus(f, body, now);
      if resp.Ok? then (store[pk := g], resp) else (store, resp)
  }

  /** As written: `change_status` only demands authentication, so any
      signed-in user who can see the folder sets any declared status. */
  function ChangeStatusAsWritten(r: Requester, store: Store, pk: int, body: JsValue, now: int)
    : (res: (Store, Response))
    ensures res.1.Ok? <==> r.Authenticated? && pk in store && OwnerOrStaff(r.user, store[pk].client)
                           && AcceptedBody(body)
    ensures res.1.Ok? ==> pk in res.0 && res.0[pk].status == ParseStatus(Get(body, "status").s).value
  {
    var perms := FolderPermissions("change_status");
    FolderAccess("change_status", r, store, pk);
    var res := ChangeStatusRequest(perms, r, store, pk, body, now);
    if Get(body, "status").Str? then StatusChoicesAreStatuses(Get(body, "status").s); res else res
  }

  /** As written, a CLIENT validates their own folder. */
  lemma ClientValidatesOwnFolder()
    ensures
      var client := User(7, "client@example.com", ClientRole);
      var store := map[1 := Folder(1, 7, 3, Rental, Pending, 0, 0)];
      var res := ChangeStatusAsWritten(Authenticated(client), store, 1, Obj(map["status" := Str("VALIDATED")]), 5);
      res.1.Ok? && res.0[1].status == Validated
  {
    var client := User(7, "client@example.com", ClientRole);
    var store := map[1 := Folder(1, 7, 3, Rental, Pending, 0, 0)];
    assert Authorize([IsAuthenticated], Authenticated(client), store, 1).Allowed?;
    assert StatusChoices[2].0 == "VALIDATED";
  }

  /** The permission list the `@action` decorator asks for, behind the
      authentication check every other action has. */
  const ChangeStatusPermissions: seq<Permission> := [IsAuthenticated, IsGestionnaireOrAdmin]

  function ChangeStatusGuarded(r: Requester, store: Store, pk: int, body: JsValue, now: int)
    : (res: (Store, Response))
    ensures res.1.Ok? ==> r.Authenticated? && IsStaffRole(r.user.role)
  {
    var res := ChangeStatusRequest(ChangeStatusPermissions, r, store, pk, body, now);
    assert res.1.Ok? ==> HasPermission(ChangeStatusPermissions[1], r);
    res
  }

  /** With the decorator honoured, only GESTIONNAIRE and ADMIN change a
      status: everyone else leaves the table untouched, and staff succeed
      on any existing folder with any declared status. */
  lemma {:induction false} OnlyStaffChangeStatus(r: Requester, store: Store, pk: int, body: JsValue, now: int)
    ensures !(r.Authenticated? && IsStaffRole(r.user.role)) ==>
      ChangeStatusGuarded(r, store, pk, body, now).0 == store
    ensures r.Authenticated? && IsStaffRole(r.user.role) && pk in store
            && AcceptedBody(body) ==>
      ChangeStatusGuarded(r, store, pk, body, now).1.Ok?
  {
    var perms := ChangeStatusPermissions;
    if r.Authenticated? && IsStaffRole(r.user.role) && pk in store {
      assert forall i :: 0 <= i < |perms| ==> HasPermission(perms[i], r);
      assert CheckPermissions(perms, r).Granted?;
      assert forall i :: 0 <= i < |perms| ==> HasObjectPermission(perms[i], r.user, store[pk].client);
    } else if r.Authenticated? && !IsStaffRole(r.user.role) {
      assert !HasPermission(perms[1], r);
    } else if r.Anonymous? {
      assert !HasPermission(perms[0], r);
    }
  }
}
