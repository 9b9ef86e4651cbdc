/** The administrator's side of the profile page: how folder statuses are
    displayed, the profile form check, the vehicle update that follows a
    status change, the folder list query and ordering, and which status
    buttons each folder row offers. */
module Profile {
  import opened Wrappers
  import opened Domain
  import opened Sorting

  // ---------------------------------------------------------------------
  // Status display

  /** `getFolderStatusColor`. */
  function StatusColor(status: string): (c: string)
    ensures status == "PENDING" ==> c == "warning"
    ensures status == "VALIDATED" ==> c == "success"
    ensures status == "REJECTED" ==> c == "error"
    ensures status !in ["PENDING", "VALIDATED", "REJECTED"] ==> c == "default"
  {
    if status == "PENDING" then "warning"
    else if status == "VALIDATED" then "success"
    else if status == "REJECTED" then "error"
    else "default"
  }

  /** `getFolderStatusLabel`: a French label, or the raw status. */
  function StatusLabel(status: string): (l: string)
    ensures status == "PENDING" ==> l == "En attente"
    ensures status == "VALIDATED" ==> l == "Validé"
    ensures status == "REJECTED" ==> l == "Refusé"
    ensures status !in ["PENDING", "VALIDATED", "REJECTED"] ==> l == status
  {
    if status == "PENDING" then "En attente"
    else if status == "VALIDATED" then "Validé"
    else if status == "REJECTED" then "Refusé"
    else status
  }

  /** The properties every plain JavaScript object inherits from
      `Object.prototype`; looking one of them up in an object literal finds
      a function (or, for `__proto__`, the prototype itself). */
  const InheritedKeys: set<string> := {
    "constructor", "hasOwnProperty", "isPrototypeOf", "propertyIsEnumerable",
    "toLocaleString", "toString", "valueOf", "__proto__",
    "__defineGetter__", "__defineSetter__", "__lookupGetter__", "__lookupSetter__"}

  /** The color and label a chip is given; `None` is `undefined`. */
  datatype Chip = Chip(color: Option<string>, text: Option<string>)

  /** `getStatusChip`: the entry of `statusConfig` (which also knows
      IN_PROGRESS), else ('default', the raw status). An inherited key
      finds a truthy value with no `color` or `label`. */
  function StatusChip(status: string): (chip: Chip)
    ensures status == "PENDING" ==> chip == Chip(Some("warning"), Some("En attente"))
    ensures status == "IN_PROGRESS" ==> chip == Chip(Some("info"), Some("En cours"))
    ensures status == "VALIDATED" ==> chip == Chip(Some("success"), Some("Validé"))
    ensures status == "REJECTED" ==> chip == Chip(Some("error"), Some("Rejeté"))
    ensures status in InheritedKeys ==> chip == Chip(None, None)
    ensures status !in ["PENDING", "IN_PROGRESS", "VALIDATED", "REJECTED"] && status !in InheritedKeys ==>
      chip == Chip(Some("default"), Some(status))
  {
    if status == "PENDING" then Chip(Some("warning"), Some("En attente"))
    else if status == "IN_PROGRESS" then Chip(Some("info"), Some("En cours"))
    else if status == "VALIDATED" then Chip(Some("success"), Some("Validé"))
    else if status == "REJECTED" then Chip(Some("error"), Some("Rejeté"))
    else if status in InheritedKeys then Chip(None, None)
    else Chip(Some("default"), Some(status))
  }

  /** The color falls back to 'default' exactly when the label falls back
      to the raw status; the chip agrees with the color on the three
      statuses the color knows, and colors every back-end status, while
      the plain color map leaves IN_PROGRESS at 'default'. */
  lemma {:induction false} StatusDisplayAgrees(status: string, s: FolderStatus)
    ensures StatusColor(status) == "default" <==> StatusLabel(status) == status
    ensures StatusColor(status) != "default" ==> StatusChip(status).color == Some(StatusColor(status))
    ensures StatusChip(StatusCode(s)).color.Some? && StatusChip(StatusCode(s)).color != Some("default")
    ensures StatusColor(StatusCode(InProgress)) == "default"
  {
    if status in ["PENDING", "VALIDATED", "REJECTED"] {
      assert status == "PENDING" || status == "VALIDATED" || status == "REJECTED";
    }
  }

  // ---------------------------------------------------------------------
  // Profile form

  datatype ProfileForm = ProfileForm(email: string, firstName: string, lastName: string, phone: string)

  const RequiredFieldsError := "Tous les champs obligatoires doivent être remplis"
  const PhoneError := "Format de numéro de téléphone invalide"

  /** `validateForm`: `None` when valid, else the error it sets. The phone
      check (`isValidPhone`, not part of this model) is a parameter. */
  function ValidateProfile(form: ProfileForm, isValidPhone: string -> bool): (r: Option<string>)
    ensures r.None? <==> form.email != "" && form.firstName != "" && form.lastName != ""
                         && isValidPhone(form.phone)
    ensures (form.email == "" || form.firstName == "" || form.lastName == "") ==>
      r == Some(RequiredFieldsError)
    ensures form.email != "" && form.firstName != "" && form.lastName != "" && !isValidPhone(form.phone) ==>
      r == Some(PhoneError)
    ensures r.Some? ==> r.value in [RequiredFieldsError, PhoneError]
  {
    if form.email == "" || form.firstName == "" || form.lastName == "" then Some(RequiredFieldsError)
    else if !isValidPhone(form.phone) then Some(PhoneError)
    else None
  }

  // ---------------------------------------------------------------------
  // Vehicle update after a status change

  /** A key of a PATCH body: left out, sent as null, or sent with a value. */
  datatype Field<T> = Absent | Null | Value(v: T)

  datatype VehiclePatch = VehiclePatch(
    state: VehicleState,
    owner: Field<int>,
    renter: Field<int>,
    rentalStart: Field<int>,
    rentalEnd: Field<int>)

  /** The patch `handleStatusChange` sends for folder `f` moving to
      `newStatus`; `now` is the current time. */
  function VehiclePatchFor(f: Folder, newStatus: FolderStatus, now: int): (p: Option<VehiclePatch>)
    ensures p.Some? <==> newStatus == Validated || newStatus == Rejected
    ensures newStatus == Validated && f.typeFolder == Purchase ==>
      p.value.state == Sold && p.value.owner == Value(f.client) && p.value.renter == Absent
    ensures newStatus == Validated && f.typeFolder != Purchase ==>
      p.value.state == Rented && p.value.renter == Value(f.client) && p.value.owner == Absent
    ensures newStatus == Validated ==>
      (p.value.rentalStart.Value? <==> f.typeFolder == Rental)
      && (f.typeFolder == Rental ==> p.value.rentalStart == Value(now))
      && (f.typeFolder != Rental ==> p.value.rentalStart == Null)
      && p.value.rentalEnd == Absent
    ensures newStatus == Rejected ==>
      p == Some(VehiclePatch(Available, Null, Null, Null, Null))
  {
    match newStatus
    case Validated =>
      var purchase := f.typeFolder == Purchase;
      Some(VehiclePatch(
        if purchase then Sold else Rented,
        if purchase then Value(f.client) else Absent,
        if purchase then Absent else Value(f.client),
        if f.typeFolder == Rental then Value(now) else Null,
        Absent))
    case Rejected => Some(VehiclePatch(Available, Null, Null, Null, Null))
    case _ => None
  }

  /** Who holds a vehicle, as the PATCH keys above describe it. */
  datatype Holding = Holding(
    state: VehicleState,
    owner: Option<int>,
    renter: Option<int>,
    rentalStart: Option<int>,
    rentalEnd: Option<int>)

  function ApplyField<T>(prev: Option<T>, f: Field<T>): (r: Option<T>)
    ensures f.Absent? ==> r == prev
    ensures f.Null? ==> r.None?
    ensures f.Value? ==> r == Some(f.v)
  {
    match f
    case Absent => prev
    case Null => None
    case Value(v) => Some(v)
  }

  /** PATCH semantics: absent keys keep their value. */
  function ApplyPatch(h: Holding, p: VehiclePatch): Holding {
    Holding(p.state, ApplyField(h.owner, p.owner), ApplyField(h.renter, p.renter),
            ApplyField(h.rentalStart, p.rentalStart), ApplyField(h.rentalEnd, p.rentalEnd))
  }

  /** Validating hands the vehicle to the folder's client, as owner for a
      purchase and as renter for a rental, without touching the other
      role; rejecting afterwards frees the vehicle completely. */
  lemma {:induction false} ValidateThenReject(h: Holding, f: Folder, now: int)
    ensures var v := ApplyPatch(h, VehiclePatchFor(f, Validated, now).value);
      && (f.typeFolder == Purchase ==> v.state == Sold && v.owner == Some(f.client) && v.renter == h.renter)
      && (f.typeFolder == Rental ==> v.state == Rented && v.renter == Some(f.client)
                                     && v.owner == h.owner && v.rentalStart == Some(now))
      && v.rentalEnd == h.rentalEnd
    ensures ApplyPatch(ApplyPatch(h, VehiclePatchFor(f, Validated, now).value),
                       VehiclePatchFor(f, Rejected, now).value)
            == Holding(Available, None, None, None, None)
  {
    var p := VehiclePatchFor(f, Validated, now).value;
    assert ApplyField(h.rentalEnd, p.rentalEnd) == h.rentalEnd;
  }

  /** `folders.find(f => f.id === id)`. */
  function FindFolder(folders: seq<Folder>, id: int): (r: Option<Folder>)
    ensures r.Some? ==> r.value in folders && r.value.id == id
    ensures r.None? ==> forall f :: f in folders ==> f.id != id
    ensures r.Some? ==> exists i :: 0 <= i < |folders| && folders[i] == r.value
                                    && forall j :: 0 <= j < i ==> folders[j].id != id
  {
    if folders == [] then None
    else if folders[0].id == id then Some(folders[0])
    else
      var r := FindFolder(folders[1..], id);
      assert forall f :: f in folders[1..] ==> f in folders;
      if r.Some? then
        var i :| 0 <= i < |folders[1..]| && folders[1..][i] == r.value
                 && forall j :: 0 <= j < i ==> folders[1..][j].id != id;
        assert folders[i + 1] == r.value;
        assert forall j :: 0 <= j < i + 1 ==> folders[j].id != id by {
          forall j | 0 <= j < i + 1 ensures folders[j].id != id {
            if j > 0 { assert folders[j] == folders[1..][j - 1]; }
          }
        }
        r
      else
        assert folders == [folders[0]] + folders[1..];
        r
  }

  const StatusUpdated := "Statut du dossier mis à jour avec succès"
  const StatusUpdateFailed := "Erreur lors de la mise à jour du statut"

  /** What one `handleStatusChange` does: the vehicle PATCH it sends (the
      vehicle id with the body), the message it shows, and whether it
      reloads the folders. `postOk`/`patchOk` are the server's answers. */
  datatype StatusChangeEffects = StatusChangeEffects(
    patch: Option<(int, VehiclePatch)>,
    message: Option<string>,
    error: Option<string>,
    reload: bool)

  function HandleStatusChange(folders: seq<Folder>, folderId: int, newStatus: FolderStatus,
                              now: int, postOk: bool, patchOk: bool): (e: StatusChangeEffects)
    ensures !postOk ==> e == StatusChangeEffects(None, None, Some(StatusUpdateFailed), false)
    ensures postOk ==>
      match FindFolder(folders, folderId)
      case None => e.patch.None?
      case Some(f) =>
        (e.patch.Some? <==> VehiclePatchFor(f, newStatus, now).Some?)
        && (e.patch.Some? ==> e.patch.value == (f.vehicle, VehiclePatchFor(f, newStatus, now).value))
    ensures postOk && (newStatus == Pending || newStatus == InProgress) ==> e.patch.None?
    ensures e.reload <==> e.message == Some(StatusUpdated)
    ensures e.reload <==> postOk && (e.patch.None? || patchOk)
    ensures e.error.Some? <==> !e.reload
  {
    if !postOk then StatusChangeEffects(None, None, Some(StatusUpdateFailed), false)
    else
      var patch :=
        match FindFolder(folders, folderId)
        case None => None
        case Some(f) =>
          match VehiclePatchFor(f, newStatus, now)
          case None => None
          case Some(p) => Some((f.vehicle, p));
      if patch.Some? && !patchOk then StatusChangeEffects(patch, None, Some(StatusUpdateFailed), false)
      else StatusChangeEffects(patch, Some(StatusUpdated), None, true)
  }

  // ---------------------------------------------------------------------
  // Folder list: query and ordering

  /** The `URLSearchParams` of `fetchFolders`. */
  function FolderQuery(statusFilter: string, typeFilter: string): (params: seq<(string, string)>)
    ensures |params| <= 2
    ensures (exists i :: 0 <= i < |params| && params[i].0 == "status") <==> statusFilter != ""
    ensures (exists i :: 0 <= i < |params| && params[i].0 == "type_folder") <==> typeFilter != ""
    ensures forall i :: 0 <= i < |params| && params[i].0 == "status" ==> params[i].1 == statusFilter
    ensures forall i :: 0 <= i < |params| && params[i].0 == "type_folder" ==> params[i].1 == typeFilter
    ensures statusFilter != "" ==> params[0] == ("status", statusFilter)
  {
    var params := (if statusFilter != "" then [("status", statusFilter)] else [])
                  + (if typeFilter != "" then [("type_folder", typeFilter)] else []);
    assert statusFilter != "" ==> params[0].0 == "status";
    assert typeFilter != "" ==> params[|params| - 1].0 == "type_folder";
    params
  }

  /** `params.toString()` for parameters that need no percent-encoding:
      each pair as `name=value`, joined by '&'. */
  function QueryString(params: seq<(string, string)>): (q: string)
    ensures params == [] <==> q == ""
    ensures |params| == 1 ==> q == params[0].0 + "=" + params[0].1
  {
    if params == [] then ""
    else
      var head := params[0].0 + "=" + params[0].1;
      if |params| == 1 then head else head + "&" + QueryString(params[1..])
  }

  /** Serializing two non-empty parameter lists one after the other joins
      their strings with '&'. */
  lemma {:induction false} QueryStringConcat(a: seq<(string, string)>, b: seq<(string, string)>)
    requires a != [] && b != []
    ensures QueryString(a + b) == QueryString(a) + "&" + QueryString(b)
    decreases |a|
  {
    var head := a[0].0 + "=" + a[0].1;
    assert (a + b)[0] == a[0] && (a + b)[1..] == a[1..] + b;
    if |a| == 1 {
      assert a[1..] + b == b;
    } else {
      QueryStringConcat(a[1..], b);
    }
  }

  /** The query `fetchFolders` appends to "/folders/?" for each way of
      setting the two filters; empty filters ask for every folder. */
  lemma {:induction false} FolderQueryText(statusFilter: string, typeFilter: string)
    ensures statusFilter == "" && typeFilter == "" ==> QueryString(FolderQuery(statusFilter, typeFilter)) == ""
    ensures statusFilter != "" && typeFilter == "" ==>
      QueryString(FolderQuery(statusFilter, typeFilter)) == "status=" + statusFilter
    ensures statusFilter == "" && typeFilter != "" ==>
      QueryString(FolderQuery(statusFilter, typeFilter)) == "type_folder=" + typeFilter
    ensures statusFilter != "" && typeFilter != "" ==>
      QueryString(FolderQuery(statusFilter, typeFilter))
      == "status=" + statusFilter + "&" + "type_folder=" + typeFilter
  {
    var params := FolderQuery(statusFilter, typeFilter);
    if statusFilter != "" && typeFilter != "" {
      assert params == [("status", statusFilter)] + [("type_folder", typeFilter)];
      QueryStringConcat([("status", statusFilter)], [("type_folder", typeFilter)]);
    } else if statusFilter != "" {
      assert params == [("status", statusFilter)];
    } else if typeFilter != "" {
      assert params == [("type_folder", typeFilter)];
    } else {
      assert params == [];
    }
  }

  function Created(f: Folder): int { f.created }

  /** The ordering `fetchFolders` applies to the response: 'newest' gives
      non-increasing creation dates, any other value non-decreasing ones. */
  function SortFolders(folders: seq<Folder>, sort: string): (r: seq<Folder>)
    ensures multiset(r) == multiset(folders)
    ensures sort == "newest" ==> forall i, j :: 0 <= i < j < |r| ==> r[i].created >= r[j].created
    ensures sort != "newest" ==> forall i, j :: 0 <= i < j < |r| ==> r[i].created <= r[j].created
  {
    var r := SortBy(folders, Created, sort == "newest");
    assert forall i, j :: 0 <= i < j < |r| ==> InOrder(Created(r[i]), Created(r[j]), sort == "newest");
    r
  }

  // ---------------------------------------------------------------------
  // Admin actions and client tabs

  const ActionTargets: seq<FolderStatus> := [Pending, Validated, Rejected]

  /** The status buttons of a folder row: for an ADMIN, each of PENDING,
      VALIDATED and REJECTED that differs from the current status, in
      that order; nobody else gets buttons. */
  function OfferedTargets(role: string, current: FolderStatus): (r: seq<FolderStatus>)
    ensures forall t :: t in r <==> role == AdminRole && t in ActionTargets && t != current
    ensures role == AdminRole && current in ActionTargets ==> |r| == 2
    ensures role == AdminRole && current == InProgress ==> r == ActionTargets
  {
    if role != AdminRole then []
    else
      (if current != Pending then [Pending] else [])
      + (if current != Validated then [Validated] else [])
      + (if current != Rejected then [Rejected] else [])
  }

  /** Every offered target is a status the back end accepts. */
  lemma OfferedTargetsAccepted(role: string, current: FolderStatus, t: FolderStatus)
    requires t in OfferedTargets(role, current)
    ensures IsChoice(StatusChoices, StatusCode(t)) && t != current
  {
    StatusChoicesAreStatuses(StatusCode(t));
  }

  /** `getFoldersByStatus`: the folders of one client tab. */
  function FoldersByStatus(folders: seq<Folder>, status: FolderStatus): (r: seq<Folder>)
    ensures forall f :: f in r <==> f in folders && f.status == status
  {
    if folders == [] then []
    else
      assert folders == [folders[0]] + folders[1..];
      (if folders[0].status == status then [folders[0]] else []) + FoldersByStatus(folders[1..], status)
  }

  /** A tab holds every copy of a folder of its status and none of the
      others. */
  lemma {:induction false} FoldersByStatusCount(folders: seq<Folder>, status: FolderStatus, f: Folder)
    ensures multiset(FoldersByStatus(folders, status))[f] == if f.status == status then multiset(folders)[f] else 0
    decreases |folders|
  {
    if folders != [] {
      assert folders == [folders[0]] + folders[1..];
      FoldersByStatusCount(folders[1..], status, f);
    }
  }

  /** One step of the filter: the head is kept iff it matches. */
  lemma FoldersByStatusCons(x: Folder, rest: seq<Folder>, status: FolderStatus)
    ensures FoldersByStatus([x] + rest, status) == (if x.status == status then [x] else []) + FoldersByStatus(rest, status)
  {
    assert ([x] + rest)[1..] == rest;
  }

  /** A tab lists its folders in the order the list holds them. */
  lemma {:induction false} FoldersByStatusAppend(a: seq<Folder>, b: seq<Folder>, status: FolderStatus)
    ensures FoldersByStatus(a + b, status) == FoldersByStatus(a, status) + FoldersByStatus(b, status)
    decreases |a|
  {
    if a == [] {
      assert a + b == b;
    } else {
      var head := if a[0].status == status then [a[0]] else [];
      calc {
        FoldersByStatus(a + b, status);
        { assert a + b == [a[0]] + (a[1..] + b); }
        FoldersByStatus([a[0]] + (a[1..] + b), status);
        { FoldersByStatusCons(a[0], a[1..] + b, status); }
        head + FoldersByStatus(a[1..] + b, status);
        { FoldersByStatusAppend(a[1..], b, status); }
        head + (FoldersByStatus(a[1..], status) + FoldersByStatus(b, status));
        (head + FoldersByStatus(a[1..], status)) + FoldersByStatus(b, status);
        { FoldersByStatusCons(a[0], a[1..], status); assert a == [a[0]] + a[1..]; }
        FoldersByStatus(a, status) + FoldersByStatus(b, status);
      }
    }
  }

  /** The client tabs (`FOLDER_TABS`). */
  const ClientTabs: seq<FolderStatus> := [Pending, Validated, Rejected]

  /** Each folder appears under exactly the tab of its status, and an
      IN_PROGRESS folder under no tab at all. */
  lemma {:induction false} TabsOfFolder(folders: seq<Folder>, f: Folder)
    requires f in folders
    ensures forall t :: t in ClientTabs ==> (f in FoldersByStatus(folders, t) <==> f.status == t)
    ensures f.status == InProgress ==> forall t :: t in ClientTabs ==> f !in FoldersByStatus(folders, t)
  {
  }
}
