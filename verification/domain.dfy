/** The back end's data model: folders (rental or purchase requests),
    vehicles and users, with the enumerations declared as Django `choices`. */
module Domain {
  import opened Wrappers

  // ---------------------------------------------------------------------
  // Folder

  datatype FolderStatus = Pending | InProgress | Validated | Rejected
  datatype FolderType = Purchase | Rental

  /** `Folder.STATUS`: the (code, label) pairs, in declaration order. */
  const StatusChoices: seq<(string, string)> :=
    [("PENDING", "Pending"), ("IN_PROGRESS", "In progress"),
     ("VALIDATED", "Validated"), ("REJECTED", "Rejected")]

  /** `Folder.TYPE_FOLDER`. */
  const FolderTypeChoices: seq<(string, string)> :=
    [("PURCHASE", "Folder of purchase"), ("RENTAL", "Folder of rental")]

  /** `code in dict(choices)`: the code is the key of some pair. */
  predicate IsChoice(choices: seq<(string, string)>, code: string) {
    exists i :: 0 <= i < |choices| && choices[i].0 == code
  }

  function StatusCode(s: FolderStatus): string {
    match s
    case Pending => "PENDING"
    case InProgress => "IN_PROGRESS"
    case Validated => "VALIDATED"
    case Rejected => "REJECTED"
  }

  function FolderTypeCode(t: FolderType): string {
    match t
    case Purchase => "PURCHASE"
    case Rental => "RENTAL"
  }

  /** Reads a status code; `None` for every string that is no status. */
  function ParseStatus(code: string): (r: Option<FolderStatus>)
    ensures r.Some? ==> StatusCode(r.value) == code
    ensures r.None? ==> forall s :: StatusCode(s) != code
  {
    if code == "PENDING" then Some(Pending)
    else if code == "IN_PROGRESS" then Some(InProgress)
    else if code == "VALIDATED" then Some(Validated)
    else if code == "REJECTED" then Some(Rejected)
    else None
  }

  /** The declared choices are exactly the codes of the four statuses. */
  lemma StatusChoicesAreStatuses(code: string)
    ensures IsChoice(StatusChoices, code) <==> ParseStatus(code).Some?
  {
    if ParseStatus(code).Some? {
      var s := ParseStatus(code).value;
      var i := match s case Pending => 0 case InProgress => 1 case Validated => 2 case Rejected => 3;
      assert StatusChoices[i].0 == code;
    }
  }

  /** Reading a status code back gives the status it came from. */
  lemma ParseStatusCode(s: FolderStatus)
    ensures ParseStatus(StatusCode(s)) == Some(s)
  {
  }

  function ParseFolderType(code: string): (r: Option<FolderType>)
    ensures r.Some? ==> FolderTypeCode(r.value) == code
    ensures r.None? ==> forall t :: FolderTypeCode(t) != code
  {
    if code == "PURCHASE" then Some(Purchase)
    else if code == "RENTAL" then Some(Rental)
    else None
  }

  lemma FolderTypeChoicesAreTypes(code: string)
    ensures IsChoice(FolderTypeChoices, code) <==> ParseFolderType(code).Some?
  {
    if ParseFolderType(code).Some? {
      var i := if code == "PURCHASE" then 0 else 1;
      assert FolderTypeChoices[i].0 == code;
    }
  }

  /** `status` defaults to PENDING. */
  const DefaultStatus: FolderStatus := Pending

  datatype Folder = Folder(
    id: int,
    client: int,          // user id
    vehicle: int,         // vehicle id (a non-null foreign key)
    typeFolder: FolderType,
    status: FolderStatus,
    created: int,         // creation_date as a timestamp
    modified: int)        // modification_date as a timestamp

  /** `Folder.__str__`: "Folder {type_folder} - {client username}". */
  function FolderText(f: Folder, clientName: string): (r: string)
    ensures |r| > 10 && r[..7] == "Folder "
  {
    "Folder " + FolderTypeCode(f.typeFolder) + " - " + clientName
  }

  /** The string form determines the folder type and the client name. */
  lemma {:induction false} FolderTextInjective(f: Folder, a: string, g: Folder, b: string)
    requires FolderText(f, a) == FolderText(g, b)
    ensures f.typeFolder == g.typeFolder && a == b
  {
    // Index 7 holds the first letter of the code, 'P' or 'R', so the types
    // agree; past the common prefix the two names must then agree.
    var ra, rb := FolderText(f, a), FolderText(g, b);
    assert ra[7] == FolderTypeCode(f.typeFolder)[0];
    assert rb[7] == FolderTypeCode(g.typeFolder)[0];
    if f.typeFolder == g.typeFolder {
      var n := |"Folder " + FolderTypeCode(f.typeFolder) + " - "|;
      assert ra[n..] == a;
      assert rb[n..] == b;
    }
  }

  // ---------------------------------------------------------------------
  // Vehicle

  datatype OfferType = Sale | RentalOffer
  datatype VehicleState = Available | Reserved | Sold | Rented

  /** `Vehicle.TYPES` and `Vehicle.STATES`. */
  const OfferChoices: seq<(string, string)> :=
    [("SALE", "À vendre"), ("RENTAL", "À louer")]
  const StateChoices: seq<(string, string)> :=
    [("AVAILABLE", "Disponible"), ("RESERVED", "Réservé"),
     ("SOLD", "Vendu"), ("RENTED", "Loué")]

  function OfferCode(t: OfferType): string {
    match t
    case Sale => "SALE"
    case RentalOffer => "RENTAL"
  }

  function StateCode(s: VehicleState): string {
    match s
    case Available => "AVAILABLE"
    case Reserved => "RESERVED"
    case Sold => "SOLD"
    case Rented => "RENTED"
  }

  function ParseOffer(code: string): (r: Option<OfferType>)
    ensures r.Some? ==> OfferCode(r.value) == code
    ensures r.None? ==> forall t :: OfferCode(t) != code
  {
    if code == "SALE" then Some(Sale)
    else if code == "RENTAL" then Some(RentalOffer)
    else None
  }

  function ParseState(code: string): (r: Option<VehicleState>)
    ensures r.Some? ==> StateCode(r.value) == code
    ensures r.None? ==> forall s :: StateCode(s) != code
  {
    if code == "AVAILABLE" then Some(Available)
    else if code == "RESERVED" then Some(Reserved)
    else if code == "SOLD" then Some(Sold)
    else if code == "RENTED" then Some(Rented)
    else None
  }

  lemma OfferChoicesAreOffers(code: string)
    ensures IsChoice(OfferChoices, code) <==> ParseOffer(code).Some?
  {
    if ParseOffer(code).Some? {
      var i := if code == "SALE" then 0 else 1;
      assert OfferChoices[i].0 == code;
    }
  }

  lemma StateChoicesAreStates(code: string)
    ensures IsChoice(StateChoices, code) <==> ParseState(code).Some?
  {
    if ParseState(code).Some? {
      var s := ParseState(code).value;
      var i := match s case Available => 0 case Reserved => 1 case Sold => 2 case Rented => 3;
      assert StateChoices[i].0 == code;
    }
  }

  /** Prices are DecimalField(max_digits=10, decimal_places=2), kept here
      in cents; either may be null. */
  datatype Vehicle = Vehicle(
    id: int,
    brand: string,
    model: string,
    year: int,
    mileage: int,
    salePrice: Option<int>,
    rentalPrice: Option<int>,
    typeOffer: OfferType,
    state: VehicleState)

  /** `Vehicle.__str__`: "{brand} {model} ({type_offer})". */
  function VehicleText(v: Vehicle): (r: string)
    ensures |r| >= |OfferCode(v.typeOffer)| + 3
    ensures r[|r| - |OfferCode(v.typeOffer)| - 2..] == "(" + OfferCode(v.typeOffer) + ")"
  {
    v.brand + " " + v.model + " (" + OfferCode(v.typeOffer) + ")"
  }

  /** The offer type can be read back from the end of the string form. */
  lemma VehicleTextDeterminesOffer(v: Vehicle, w: Vehicle)
    requires VehicleText(v) == VehicleText(w)
    ensures v.typeOffer == w.typeOffer
  {
    // "...(SALE)" and "...(RENTAL)" differ in their next-to-last character.
    var r, cv, cw := VehicleText(v), OfferCode(v.typeOffer), OfferCode(w.typeOffer);
    assert r[|r| - 2] == cv[|cv| - 1];
    assert r[|r| - 2] == cw[|cw| - 1];
  }

  /** Brand and model are not recoverable: a space may sit in either. */
  lemma VehicleTextCollides()
    ensures exists v: Vehicle, w: Vehicle ::
      v.brand != w.brand && VehicleText(v) == VehicleText(w)
  {
    var v := Vehicle(1, "Land Rover", "Defender", 2020, 0, None, None, Sale, Available);
    var w := Vehicle(2, "Land", "Rover Defender", 2020, 0, None, None, Sale, Available);
    assert v.brand + " " + v.model == "Land Rover Defender" == w.brand + " " + w.model;
    assert VehicleText(v) == VehicleText(w);
  }

  // ---------------------------------------------------------------------
  // User

  /** `User.ROLES`; `role` is a CharField, so other strings can occur. */
  const ClientRole := "CLIENT"
  const GestionnaireRole := "GESTIONNAIRE"
  const AdminRole := "ADMIN"

  datatype User = User(id: int, username: string, role: string)

  /** Staff are the GESTIONNAIRE and ADMIN roles. */
  predicate IsStaffRole(role: string) {
    role in [GestionnaireRole, AdminRole]
  }
}
