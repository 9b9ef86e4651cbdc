/** The reservation wizard (VehicleReservation page): the same three steps
    as the rental folder wizard, posting a reservation, and an error screen
    that replaces the whole wizard. */
module ReservationWizard {
  import opened Wrappers
  import opened Wizard
  import RentalWizard

  const Steps: seq<string> := ["Dates de réservation", "Documents requis", "Confirmation"]
  const Last: int := |Steps| - 1

  /** The page keeps the same five fields as the rental folder wizard. */
  type ReservationData = RentalWizard.RentalData
  type DocField = RentalWizard.DocField

  datatype State = State(step: int, loading: bool, error: Option<string>, vehicleLoaded: bool,
                         data: ReservationData)

  const Initial := State(0, true, None, false, RentalWizard.RentalData(None, None, None, None, None))

  const LoadError := "Erreur lors du chargement du véhicule"
  const SubmitError := "Erreur lors de la création de la réservation"

  datatype Screen = Spinner | ErrorScreen | Form

  /** The spinner while loading; then the error screen when there is an
      error or no vehicle; the wizard otherwise. */
  function ScreenOf(s: State): (sc: Screen)
    ensures sc == Form <==> !s.loading && s.error.None? && s.vehicleLoaded
    ensures sc == ErrorScreen <==> !s.loading && (s.error.Some? || !s.vehicleLoaded)
  {
    if s.loading then Spinner
    else if s.error.Some? || !s.vehicleLoaded then ErrorScreen
    else Form
  }

  predicate PrimaryEnabled(s: State) {
    !((s.step == 0 && !RentalWizard.DatesSet(s.data)) || (s.step == 1 && !RentalWizard.DocsSet(s.data)))
  }

  /** The FormData `handleSubmit` posts with `createReservation`: full ISO
      strings for the dates, and no status. */
  datatype ReservationForm = ReservationForm(
    vehicle: string,
    startDate: string,
    endDate: string,
    idCard: Option<Doc>,
    drivingLicense: Option<Doc>,
    signedContract: Option<Doc>)

  function Payload(routeId: string, iso: int -> string, d: ReservationData): (r: Option<ReservationForm>)
    ensures r.Some? <==> RentalWizard.DatesValid(d)
    ensures r.Some? ==>
      && r.value.vehicle == routeId
      && r.value.startDate == iso(d.startDate.value.ms) && r.value.endDate == iso(d.endDate.value.ms)
      && r.value.idCard == d.idCard && r.value.drivingLicense == d.drivingLicense
      && r.value.signedContract == d.signedContract
  {
    if !RentalWizard.DatesSet(d) then None
    else
      match (ToIso(iso, d.startDate.value), ToIso(iso, d.endDate.value))
      case (Some(start), Some(end)) =>
        Some(ReservationForm(routeId, start, end, d.idCard, d.drivingLicense, d.signedContract))
      case _ => None
  }

  datatype Event =
    | VehicleFetched(ok: bool)
    | PickStart(date: Option<PickedDate>)
    | PickEnd(date: Option<PickedDate>)
    | ChooseFile(field: DocField, file: Option<Doc>)
    | Press(press: Wizard.Press, accepted: bool)

  function Step(s: State, e: Event, routeId: string, iso: int -> string): (r: (State, Option<ReservationForm>))
    requires 0 <= s.step <= Last
    ensures 0 <= r.0.step <= Last
    ensures r.1.Some? ==> e.Press? && e.press == Primary && ScreenOf(s) == Form && s.step == Last - 1
                          && RentalWizard.DocsSet(s.data)
    ensures r.1.Some? ==> r.1 == Payload(routeId, iso, s.data)
    ensures e.Press? && e.press == Primary && ScreenOf(s) == Form && s.step == Last - 1
            && RentalWizard.DocsSet(s.data) ==>
      (r.1.Some? <==> RentalWizard.DatesValid(s.data))
      && r.0.step == (if e.accepted && RentalWizard.DatesValid(s.data) then Last else s.step)
      && (!(e.accepted && RentalWizard.DatesValid(s.data)) ==>
            r.0.error == Some(SubmitError) && ScreenOf(r.0) == ErrorScreen)
    ensures !s.loading && s.error.Some? ==> r.0.error == s.error
    ensures !s.loading ==> !r.0.loading
  {
    match e
    case VehicleFetched(ok) =>
      // the vehicle is fetched once, on mount, while the page is loading
      if !s.loading then (s, None)
      else if ok then (s.(loading := false, vehicleLoaded := true), None)
      else (s.(loading := false, error := Some(LoadError)), None)
    case PickStart(date) =>
      if ScreenOf(s) == Form && s.step == 0 then (s.(data := s.data.(startDate := date)), None) else (s, None)
    case PickEnd(date) =>
      if ScreenOf(s) == Form && s.step == 0 then (s.(data := s.data.(endDate := date)), None) else (s, None)
    case ChooseFile(field, file) =>
      if ScreenOf(s) == Form && s.step == 1 then (s.(data := RentalWizard.Choose(s.data, field, file)), None)
      else (s, None)
    case Press(press, accepted) =>
      if ScreenOf(s) != Form then (s, None)
      else
        var m := Navigate(s.step, Last, press, PrimaryEnabled(s), accepted);
        if !m.submitted then (s.(step := m.step), None)
        else
          match Payload(routeId, iso, s.data)
          case None => (s.(error := Some(SubmitError), loading := false), None)
          case Some(form) =>
            if accepted then (s.(step := m.step, loading := false), Some(form))
            else (s.(error := Some(SubmitError), loading := false), Some(form))
  }

  /** The state after a sequence of events; once loading is over it never
      comes back, and an error set after loading stays. */
  function Run(s: State, events: seq<Event>, routeId: string, iso: int -> string): (r: State)
    requires 0 <= s.step <= Last
    ensures 0 <= r.step <= Last
    ensures !s.loading ==> !r.loading
    ensures !s.loading && s.error.Some? ==> r.error == s.error
    decreases |events|
  {
    if events == [] then s else Run(Step(s, events[0], routeId, iso).0, events[1..], routeId, iso)
  }

  /** Reachable states: dates are chosen before the documents step, and
      the confirmation step is reached only with all three documents. */
  predicate Inv(s: State) {
    && 0 <= s.step <= Last
    && (s.step >= 1 ==> RentalWizard.DatesSet(s.data))
    && (s.step == Last ==> RentalWizard.DocsSet(s.data))
  }

  lemma {:induction false} RunKeepsInv(s: State, events: seq<Event>, routeId: string, iso: int -> string)
    requires Inv(s)
    ensures Inv(Run(s, events, routeId, iso))
    decreases |events|
  {
    if events != [] {
      var e := events[0];
      if e.Press? && ScreenOf(s) == Form {
        var m := Navigate(s.step, Last, e.press, PrimaryEnabled(s), e.accepted);
        assert m.step == s.step || m.step == s.step - 1 || PrimaryEnabled(s);
      }
      RunKeepsInv(Step(s, e, routeId, iso).0, events[1..], routeId, iso);
    }
  }

  lemma InitialIsReachable()
    ensures Inv(Initial) && ScreenOf(Initial) == Spinner
  {
  }

  /** An error is final: once set after loading, every later event leaves
      the error screen in place, nothing more is posted, and the wizard's
      own error alert is therefore never on screen. */
  lemma ErrorIsFinal(s: State, events: seq<Event>, routeId: string, iso: int -> string)
    requires 0 <= s.step <= Last && !s.loading && s.error.Some?
    ensures Run(s, events, routeId, iso).error == s.error
    ensures ScreenOf(Run(s, events, routeId, iso)) == ErrorScreen
  {
  }

  /** Whenever the wizard is on screen there is no error to show. */
  lemma InlineAlertNeverShown(s: State)
    requires ScreenOf(s) == Form
    ensures s.error.None?
  {
  }
}
