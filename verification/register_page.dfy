/** The registration page: its form, the ordered validator, the call to the
    authentication context and the mapping of back-end errors to the
    message shown. */
module RegisterPage {
  import opened Wrappers
  import opened Json
  import AuthService

  datatype Form = Form(email: string, password: string, confirmPassword: string,
                       firstName: string, lastName: string, phone: string)

  datatype RegField = Email | Password | ConfirmPassword | FirstName | LastName | Phone

  function FieldOf(f: Form, k: RegField): string {
    match k
    case Email => f.email
    case Password => f.password
    case ConfirmPassword => f.confirmPassword
    case FirstName => f.firstName
    case LastName => f.lastName
    case Phone => f.phone
  }

  /** The page state; `error` holds whatever was passed to `setError`. */
  datatype Page = Page(form: Form, error: JsValue, loading: bool)

  const Initial := Page(Form("", "", "", "", "", ""), Str(""), false)

  const RequiredFieldsError := "Veuillez remplir tous les champs obligatoires"
  const MismatchError := "Les mots de passe ne correspondent pas"
  const LengthError := "Le mot de passe doit contenir au moins 8 caractères"
  const EmailTakenError := "Cette adresse email est déjà utilisée"
  const GenericError := "Une erreur est survenue lors de l'inscription"

  const MinPasswordLength := 8

  /** `handleChange`: the named field takes the new value and the error is
      cleared. */
  function Change(p: Page, k: RegField, value: string): (r: Page)
    ensures FieldOf(r.form, k) == value
    ensures forall j :: j != k ==> FieldOf(r.form, j) == FieldOf(p.form, j)
    ensures r.error == Str("") && r.loading == p.loading
  {
    var f := p.form;
    var g := match k
      case Email => f.(email := value)
      case Password => f.(password := value)
      case ConfirmPassword => f.(confirmPassword := value)
      case FirstName => f.(firstName := value)
      case LastName => f.(lastName := value)
      case Phone => f.(phone := value);
    p.(form := g, error := Str(""))
  }

  /** The five fields the validator requires; the confirmation is not one. */
  predicate RequiredFilled(f: Form) {
    f.email != "" && f.password != "" && f.firstName != "" && f.lastName != "" && f.phone != ""
  }

  /** `validateForm`: the message of the first rule that fails, in the
      order required fields, matching passwords, password length. */
  function Validate(f: Form): (r: Option<string>)
    ensures !RequiredFilled(f) ==> r == Some(RequiredFieldsError)
    ensures RequiredFilled(f) && f.password != f.confirmPassword ==> r == Some(MismatchError)
    ensures RequiredFilled(f) && f.password == f.confirmPassword && |f.password| < MinPasswordLength ==>
      r == Some(LengthError)
  {
    if f.email == "" || f.password == "" || f.firstName == "" || f.lastName == "" || f.phone == "" then
      Some(RequiredFieldsError)
    else if f.password != f.confirmPassword then Some(MismatchError)
    else if |f.password| < 8 then Some(LengthError)
    else None
  }

  /** The form is accepted exactly when every required field is filled,
      the two passwords agree and the password has at least eight
      characters. */
  lemma ValidIff(f: Form)
    ensures Validate(f).None? <==>
      RequiredFilled(f) && f.password == f.confirmPassword && |f.password| >= MinPasswordLength
  {
  }

  /** The data handed to the authentication context: the form without the
      confirmation. */
  function Registration(f: Form): (d: AuthService.Registration)
    ensures d.email == f.email && d.password == f.password && d.phone == f.phone
    ensures d.firstName == f.firstName && d.lastName == f.lastName
  {
    AuthService.Registration(f.email, f.password, f.firstName, f.lastName, f.phone)
  }

  /** Two forms that differ only in the confirmation hand over the same
      data. */
  lemma RegistrationDropsConfirmation(f: Form, c: string)
    ensures Registration(f.(confirmPassword := c)) == Registration(f)
  {
  }

  /** The message shown for a failed registration: an `email` entry in the
      reply means the address is taken; otherwise the reply's `detail`;
      otherwise, or without reply data, the generic message. */
  function RegisterError(failure: AuthService.Failure): (e: JsValue)
    ensures Truthy(e)
    ensures var d := AuthService.ResponseData(failure);
      && (Truthy(d) && Truthy(Get(d, "email")) ==> e == Str(EmailTakenError))
      && (Truthy(d) && !Truthy(Get(d, "email")) && Truthy(Get(d, "detail")) ==> e == Get(d, "detail"))
      && (!Truthy(d) || (!Truthy(Get(d, "email")) && !Truthy(Get(d, "detail"))) ==> e == Str(GenericError))
  {
    var d := AuthService.ResponseData(failure);
    if Truthy(d) then
      if Truthy(Get(d, "email")) then Str(EmailTakenError)
      else if Truthy(Get(d, "detail")) then Get(d, "detail")
      else Str(GenericError)
    else Str(GenericError)
  }

  datatype Submitted = Submitted(page: Page, call: Option<AuthService.Registration>, navigate: Option<string>)

  const LoginRoute := "/login"

  /** `handleSubmit`, given the outcome of the context's `register`. */
  function Submit(p: Page, outcome: AuthService.Outcome<AuthService.Session>): (r: Submitted)
    ensures Validate(p.form).Some? ==>
      r.call.None? && r.navigate.None? && r.page == p.(error := Str(Validate(p.form).value))
    ensures Validate(p.form).None? ==>
      && r.call == Some(Registration(p.form))
      && !r.page.loading && r.page.form == p.form
      && (outcome.Success? ==> r.navigate == Some(LoginRoute) && r.page.error == p.error)
      && (outcome.Failed? ==> r.navigate.None? && r.page.error == RegisterError(outcome.failure))
  {
    match Validate(p.form)
    case Some(msg) => Submitted(p.(error := Str(msg)), None, None)
    case None =>
      var call := Some(Registration(p.form));
      match outcome
      case Success(_) => Submitted(p.(loading := false), call, Some(LoginRoute))
      case Failed(f) => Submitted(p.(error := RegisterError(f), loading := false), call, None)
  }

  /** No registration call ever leaves an invalid form, and every call
      carries a password of at least eight characters, confirmed. */
  lemma {:induction false} CallsOnlyValidForms(p: Page, outcome: AuthService.Outcome<AuthService.Session>)
    ensures var r := Submit(p, outcome);
      r.call.Some? ==> RequiredFilled(p.form) && p.form.password == p.form.confirmPassword
                       && |r.call.value.password| >= MinPasswordLength
  {
    ValidIff(p.form);
  }

  /** A failed submission always leaves a message on screen. */
  lemma FailureShowsMessage(p: Page, outcome: AuthService.Outcome<AuthService.Session>)
    ensures var r := Submit(p, outcome);
      r.navigate.None? ==> Truthy(r.page.error)
  {
  }
}
