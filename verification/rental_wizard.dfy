/** The rental folder wizard (FolderCreation page): dates, then three
    documents, then a confirmation step. */
module RentalWizard {
  import opened Wrappers
  import opened Domain
  import opened Wizard

  const Steps: seq<string> := ["Dates de location", "Documents requis", "Confirmation"]
  const Last: int := |Steps| - 1

  datatype RentalData = RentalData(
    startDate: Option<PickedDate>,
    endDate: Option<PickedDate>,
    idCard: Option<Doc>,
    drivingLicense: Option<Doc>,
    signedContract: Option<Doc>)

  datatype DocField = IdCard | DrivingLicense | SignedContract

  function DocOf(d: RentalData, f: DocField): Option<Doc> {
    match f
    case IdCard => d.idCard
    case DrivingLicense => d.drivingLicense
    case SignedContract => d.signedContract
  }

  /** Both dates picked (the guard tests presence only), and both valid. */
  predicate DatesSet(d: RentalData) { d.startDate.Some? && d.endDate.Some? }
  predicate DatesValid(d: RentalData) { DatesSet(d) && d.startDate.value.Valid? && d.endDate.value.Valid? }
  predicate DocsSet(d: RentalData) { forall f :: DocOf(d, f).Some? }

  datatype State = State(step: int, loading: bool, error: Option<string>, data: RentalData)

  const Initial := State(0, true, None, RentalData(None, None, None, None, None))

  const LoadError := "Erreur lors du chargement du véhicule"
  const SubmitError := "Erreur lors de la création du dossier"

  /** The negation of the primary button's `disabled` expression: dates at
      step 0, the three documents at step 1; presence only. */
  predicate PrimaryEnabled(s: State) {
    !((s.step == 0 && !DatesSet(s.data)) || (s.step == 1 && !DocsSet(s.data)))
  }

  /** The page shows the wizard unless it is loading before the last step. */
  predicate ShowsForm(s: State) { !(s.loading && s.step != Last) }

  /** `handleFileUpload`: sets the named document and nothing else. */
  function Choose(d: RentalData, field: DocField, file: Option<Doc>): (r: RentalData)
    ensures DocOf(r, field) == file
    ensures forall g :: g != field ==> DocOf(r, g) == DocOf(d, g)
    ensures r.startDate == d.startDate && r.endDate == d.endDate
  {
    match field
    case IdCard => d.(idCard := file)
    case DrivingLicense => d.(drivingLicense := file)
    case SignedContract => d.(signedContract := file)
  }

  /** The FormData `handleSubmit` builds and hands to `createFolder`, one
      field per appended key; it has no `type_folder` key. A file field
      holds `None` when the document is null. */
  datatype RentalForm = RentalForm(
    vehicle: string,
    startDate: string,
    endDate: string,
    idCard: Option<Doc>,
    drivingLicense: Option<Doc>,
    signedContract: Option<Doc>,
    status: string)

  /** The FormData for the vehicle `routeId`; `iso` formats a valid date
      as `toISOString` does. `None` when a date is null (reading
      `toISOString` of null throws) or invalid (`toISOString` throws a
      RangeError): nothing is sent. Each date is the day part of its ISO
      string. */
  function Payload(routeId: string, iso: int -> string, d: RentalData): (r: Option<RentalForm>)
    ensures r.Some? <==> DatesValid(d)
    ensures r.Some? ==>
      var start := iso(d.startDate.value.ms);
      var end := iso(d.endDate.value.ms);
      && r.value.vehicle == routeId
      && r.value.status == StatusCode(Pending)
      && r.value.startDate <= start && 'T' !in r.value.startDate
      && r.value.endDate <= end && 'T' !in r.value.endDate
      && (|r.value.startDate| < |start| ==> start[|r.value.startDate|] == 'T')
      && (|r.value.endDate| < |end| ==> end[|r.value.endDate|] == 'T')
      && r.value.idCard == d.idCard && r.value.drivingLicense == d.drivingLicense
      && r.value.signedContract == d.signedContract
  {
    if !DatesSet(d) then None
    else
      match (ToIso(iso, d.startDate.value), ToIso(iso, d.endDate.value))
      case (Some(start), Some(end)) =>
        Some(RentalForm(routeId, DatePart(start), DatePart(end),
                        d.idCard, d.drivingLicense, d.signedContract, "PENDING"))
      case _ => None
  }

  /** The entries `handleSubmit` appends, in order. */
  function FormEntries(form: RentalForm): FormData {
    [("vehicle", Text(form.vehicle)), ("start_date", Text(form.startDate)),
     ("end_date", Text(form.endDate)), ("id_card", DocEntry(form.idCard)),
     ("driving_license", DocEntry(form.drivingLicense)),
     ("signed_contract", DocEntry(form.signedContract)), ("status", Text(form.status))]
  }

  /** Through the corrected `createFolder`, the server receives the
      vehicle, both dates, the three documents and the PENDING status, and
      no folder type. */
  lemma PostedBodyCarriesForm(routeId: string, iso: int -> string, d: RentalData)
    requires DatesValid(d) && d.idCard.Some? && d.drivingLicense.Some? && d.signedContract.Some?
    ensures var body := CreateFolder(FormEntries(Payload(routeId, iso, d).value));
      && ("vehicle", Text(routeId)) in body
      && ("status", Text(StatusCode(Pending))) in body
      && ("id_card", Blob(d.idCard.value)) in body
      && ("driving_license", Blob(d.drivingLicense.value)) in body
      && ("signed_contract", Blob(d.signedContract.value)) in body
      && forall i :: 0 <= i < |body| ==> body[i].0 != "type_folder"
  {
    var form := Payload(routeId, iso, d).value;
    var body := CreateFolder(FormEntries(form));
    assert body == FormEntries(form);
    assert body[0] == ("vehicle", Text(routeId));
    assert body[6] == ("status", Text(StatusCode(Pending)));
    assert body[3] == ("id_card", Blob(d.idCard.value));
    assert body[4] == ("driving_license", Blob(d.drivingLicense.value));
    assert body[5] == ("signed_contract", Blob(d.signedContract.value));
    forall i | 0 <= i < |body| ensures body[i].0 != "type_folder" {
      assert |body[i].0| != |"type_folder"|;
    }
  }

  /** User and network events; `accepted` is the server's answer to the
      submit a press may trigger. Date pickers exist only at step 0 and
      file inputs only at step 1. */
  datatype Event =
    | VehicleFetched(ok: bool)
    | PickStart(date: Option<PickedDate>)
    | PickEnd(date: Option<PickedDate>)
    | ChooseFile(field: DocField, file: Option<Doc>)
    | Press(press: Wizard.Press, accepted: bool)

  /** One handler run: the next state and the body posted, if any. */
  function Step(s: State, e: Event, routeId: string, iso: int -> string): (r: (State, Option<RentalForm>))
    requires 0 <= s.step <= Last
    ensures 0 <= r.0.step <= Last
    ensures r.1.Some? ==> e.Press? && e.press == Primary && ShowsForm(s) && s.step == Last - 1
                          && DocsSet(s.data) && r.1 == Payload(routeId, iso, s.data)
    ensures e.Press? && ShowsForm(s) && s.step == Last - 1 && e.press == Primary && DocsSet(s.data) ==>
      (r.1.Some? <==> DatesValid(s.data))
      && r.0.step == (if e.accepted && DatesValid(s.data) then Last else s.step)
      && (!(e.accepted && DatesValid(s.data)) ==> r.0.error == Some(SubmitError))
  {
    match e
    case VehicleFetched(ok) =>
      (s.(loading := false, error := if ok then s.error else Some(LoadError)), None)
    case PickStart(date) =>
      if ShowsForm(s) && s.step == 0 then (s.(data := s.data.(startDate := date)), None) else (s, None)
    case PickEnd(date) =>
      if ShowsForm(s) && s.step == 0 then (s.(data := s.data.(endDate := date)), None) else (s, None)
    case ChooseFile(field, file) =>
      if ShowsForm(s) && s.step == 1 then (s.(data := Choose(s.data, field, file)), None) else (s, None)
    case Press(press, accepted) =>
      if !ShowsForm(s) then (s, None)
      else
        var m := Navigate(s.step, Last, press, PrimaryEnabled(s), accepted);
        if !m.submitted then (s.(step := m.step), None)
        else
          match Payload(routeId, iso, s.data)
          case None => (s.(error := Some(SubmitError), loading := false), None)
          case Some(form) =>
            if accepted then (s.(step := m.step, loading := false), Some(form))
            else (s.(error := Some(SubmitError), loading := false), Some(form))
  }

  /** Reachable states: the step is in range, dates are set from step 1 on,
      and documents at the confirmation step. */
  predicate Inv(s: State) {
    && 0 <= s.step <= Last
    && (s.step >= 1 ==> DatesSet(s.data))
    && (s.step == Last ==> DocsSet(s.data))
  }

  lemma {:induction false} StepKeepsInv(s: State, e: Event, routeId: string, iso: int -> string)
    requires Inv(s)
    ensures Inv(Step(s, e, routeId, iso).0)
  {
    if e.Press? && ShowsForm(s) {
      var m := Navigate(s.step, Last, e.press, PrimaryEnabled(s), e.accepted);
      assert m.step == s.step || m.step == s.step - 1 || PrimaryEnabled(s);
    }
  }

  function Run(s: State, events: seq<Event>, routeId: string, iso: int -> string): (r: State)
    requires 0 <= s.step <= Last
    ensures 0 <= r.step <= Last
    decreases |events|
  {
    if events == [] then s else Run(Step(s, events[0], routeId, iso).0, events[1..], routeId, iso)
  }

  /** From the initial state, every sequence of events keeps the step
      within 0..2; the date part of the wizard is done before documents are
      asked for, and the confirmation step is reached only with all three
      documents. */
  lemma {:induction false} RunKeepsInv(s: State, events: seq<Event>, routeId: string, iso: int -> string)
    requires Inv(s)
    ensures Inv(Run(s, events, routeId, iso))
    decreases |events|
  {
    if events != [] {
      StepKeepsInv(s, events[0], routeId, iso);
      RunKeepsInv(Step(s, events[0], routeId, iso).0, events[1..], routeId, iso);
    }
  }

  /** In a reachable state an enabled confirmation posts the form exactly
      when both dates are valid: the null-date failure of `handleSubmit`
      cannot happen, but an `Invalid Date` passes the presence guard and
      makes `toISOString` throw, which shows the error and stays. */
  lemma ReachableSubmitPosts(s: State, accepted: bool, routeId: string, iso: int -> string)
    requires Inv(s) && ShowsForm(s) && s.step == Last - 1 && PrimaryEnabled(s)
    ensures var r := Step(s, Press(Primary, accepted), routeId, iso);
      && (r.1.Some? <==> s.data.startDate.value.Valid? && s.data.endDate.value.Valid?)
      && (r.1.None? ==> r.0.error == Some(SubmitError) && r.0.step == s.step)
  {
  }

  /** The presence guard lets an invalid date through to the documents
      step. */
  lemma InvalidDatePassesGuard(s: State, end: PickedDate)
    requires ShowsForm(s) && s.step == 0
    ensures var t := s.(data := s.data.(startDate := Some(InvalidDate), endDate := Some(end)));
      PrimaryEnabled(t) && Step(t, Press(Primary, false), "", _ => "").0.step == 1
  {
  }

  lemma InitialIsReachable()
    ensures Inv(Initial) && !ShowsForm(Initial)
  {
  }
}
