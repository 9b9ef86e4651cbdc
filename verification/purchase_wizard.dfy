/** The purchase wizard (PurchaseCreation page): four documents, submitted
    from the first step, then a confirmation step. */
module PurchaseWizard {
  import opened Wrappers
  import opened Domain
  import opened Wizard

  const Steps: seq<string> := ["Documents requis", "Confirmation"]
  const Last: int := |Steps| - 1

  datatype PurchaseData = PurchaseData(
    idCard: Option<Doc>,
    proofAddress: Option<Doc>,
    incomeProof: Option<Doc>,
    signedContract: Option<Doc>)

  datatype DocField = IdCard | ProofAddress | IncomeProof | SignedContract

  function DocOf(d: PurchaseData, f: DocField): Option<Doc> {
    match f
    case IdCard => d.idCard
    case ProofAddress => d.proofAddress
    case IncomeProof => d.incomeProof
    case SignedContract => d.signedContract
  }

  predicate DocsSet(d: PurchaseData) { forall f :: DocOf(d, f).Some? }

  datatype State = State(step: int, loading: bool, error: Option<string>, data: PurchaseData)

  const Initial := State(0, true, None, PurchaseData(None, None, None, None))

  const LoadError := "Erreur lors du chargement du véhicule"
  const SubmitError := "Erreur lors de la création du dossier"

  /** At step 0 the button needs all four documents. */
  predicate PrimaryEnabled(s: State) {
    !(s.step == 0 && !DocsSet(s.data))
  }

  /** The loading screen replaces the form while loading before the
      confirmation step. */
  predicate ShowsForm(s: State) { !(s.loading && s.step != Last) }

  /** `handleFileUpload`: sets the named document and nothing else. */
  function Choose(d: PurchaseData, field: DocField, file: Option<Doc>): (r: PurchaseData)
    ensures DocOf(r, field) == file
    ensures forall g :: g != field ==> DocOf(r, g) == DocOf(d, g)
  {
    match field
    case IdCard => d.(idCard := file)
    case ProofAddress => d.(proofAddress := file)
    case IncomeProof => d.(incomeProof := file)
    case SignedContract => d.(signedContract := file)
  }

  /** The FormData `handleSubmit` builds and hands to `createFolder`. */
  datatype PurchaseForm = PurchaseForm(
    vehicle: string,
    typeFolder: string,
    idCard: Option<Doc>,
    proofAddress: Option<Doc>,
    incomeProof: Option<Doc>,
    signedContract: Option<Doc>,
    status: string)

  /** A purchase folder, PENDING, carrying the four documents as chosen. */
  function Payload(routeId: string, d: PurchaseData): (r: PurchaseForm)
    ensures r.vehicle == routeId
    ensures r.typeFolder == FolderTypeCode(Purchase) && r.status == StatusCode(Pending)
    ensures forall f :: DocOf(d, f) == [r.idCard, r.proofAddress, r.incomeProof, r.signedContract][
      match f case IdCard => 0 case ProofAddress => 1 case IncomeProof => 2 case SignedContract => 3]
  {
    PurchaseForm(routeId, "PURCHASE", d.idCard, d.proofAddress, d.incomeProof, d.signedContract, "PENDING")
  }

  /** The entries `handleSubmit` appends, in order. */
  function FormEntries(form: PurchaseForm): FormData {
    [("vehicle", Text(form.vehicle)), ("type_folder", Text(form.typeFolder)),
     ("id_card", DocEntry(form.idCard)), ("proof_address", DocEntry(form.proofAddress)),
     ("income_proof", DocEntry(form.incomeProof)), ("signed_contract", DocEntry(form.signedContract)),
     ("status", Text(form.status))]
  }

  /** Through the corrected `createFolder`, the server receives the
      vehicle, the PURCHASE type, the PENDING status and the four
      documents. */
  lemma PostedBodyCarriesForm(routeId: string, d: PurchaseData)
    requires DocsSet(d)
    ensures var body := CreateFolder(FormEntries(Payload(routeId, d)));
      && ("vehicle", Text(routeId)) in body
      && ("type_folder", Text(FolderTypeCode(Purchase))) in body
      && ("status", Text(StatusCode(Pending))) in body
      && ("id_card", Blob(DocOf(d, IdCard).value)) in body
      && ("proof_address", Blob(DocOf(d, ProofAddress).value)) in body
      && ("income_proof", Blob(DocOf(d, IncomeProof).value)) in body
      && ("signed_contract", Blob(DocOf(d, SignedContract).value)) in body
  {
    var body := CreateFolder(FormEntries(Payload(routeId, d)));
    assert body == FormEntries(Payload(routeId, d));
    assert body[0] == ("vehicle", Text(routeId));
    assert body[1] == ("type_folder", Text(FolderTypeCode(Purchase)));
    assert body[2] == ("id_card", Blob(DocOf(d, IdCard).value));
    assert body[3] == ("proof_address", Blob(DocOf(d, ProofAddress).value));
    assert body[4] == ("income_proof", Blob(DocOf(d, IncomeProof).value));
    assert body[5] == ("signed_contract", Blob(DocOf(d, SignedContract).value));
    assert body[6] == ("status", Text(StatusCode(Pending)));
  }

  datatype Event =
    | VehicleFetched(ok: bool)
    | ChooseFile(field: DocField, file: Option<Doc>)
    | Press(press: Wizard.Press, accepted: bool)

  function Step(s: State, e: Event, routeId: string): (r: (State, Option<PurchaseForm>))
    requires 0 <= s.step <= Last
    ensures 0 <= r.0.step <= Last
    ensures r.1.Some? ==> e.Press? && e.press == Primary && ShowsForm(s) && s.step == 0
                          && DocsSet(s.data) && r.1.value == Payload(routeId, s.data)
    ensures e.Press? && e.press == Primary && ShowsForm(s) && s.step == 0 && DocsSet(s.data) ==>
      r.1.Some? && r.0.step == (if e.accepted then 1 else 0)
      && (!e.accepted ==> r.0.error == Some(SubmitError))
    ensures e.Press? && e.press == Back ==> r.0.step == s.step
  {
    match e
    case VehicleFetched(ok) =>
      (s.(loading := false, error := if ok then s.error else Some(LoadError)), None)
    case ChooseFile(field, file) =>
      if ShowsForm(s) && s.step == 0 then (s.(data := Choose(s.data, field, file)), None) else (s, None)
    case Press(press, accepted) =>
      if !ShowsForm(s) then (s, None)
      else
        var m := Navigate(s.step, Last, press, PrimaryEnabled(s), accepted);
        if !m.submitted then (s.(step := m.step), None)
        else
          var form := Payload(routeId, s.data);
          if accepted then (s.(step := m.step, loading := false), Some(form))
          else (s.(error := Some(SubmitError), loading := false), Some(form))
  }

  /** Reachable states: step 0 or 1, and step 1 only with all documents. */
  predicate Inv(s: State) {
    0 <= s.step <= Last && (s.step == Last ==> DocsSet(s.data))
  }

  function Run(s: State, events: seq<Event>, routeId: string): (r: State)
    requires 0 <= s.step <= Last
    ensures 0 <= r.step <= Last
    decreases |events|
  {
    if events == [] then s else Run(Step(s, events[0], routeId).0, events[1..], routeId)
  }

  lemma {:induction false} RunKeepsInv(s: State, events: seq<Event>, routeId: string)
    requires Inv(s)
    ensures Inv(Run(s, events, routeId))
    decreases |events|
  {
    if events != [] {
      var e := events[0];
      var s' := Step(s, e, routeId).0;
      if e.Press? && ShowsForm(s) {
        var m := Navigate(s.step, Last, e.press, PrimaryEnabled(s), e.accepted);
        assert m.step == s.step || PrimaryEnabled(s);
      }
      assert Inv(s');
      RunKeepsInv(s', events[1..], routeId);
    }
  }
}
