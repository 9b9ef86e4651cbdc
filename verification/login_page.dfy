/** The login page: `handleSubmit` and the message it shows on failure. */
module LoginPage {
  import opened Wrappers
  import opened Json
  import AuthService

  datatype Page = Page(login: string, password: string, error: JsValue)

  const BadCredentialsError := "Identifiants incorrects"
  const GenericError := "Une erreur est survenue"
  const DashboardRoute := "/dashboard"

  /** 401 always reads as bad credentials; any other failure shows the
      reply's `detail` when it has one, else the generic message. */
  function LoginError(f: AuthService.Failure): (e: JsValue)
    ensures Truthy(e)
    ensures f.Response? && f.status == 401 ==> e == Str(BadCredentialsError)
    ensures !(f.Response? && f.status == 401) ==>
      var detail := Get(AuthService.ResponseData(f), "detail");
      (Truthy(detail) ==> e == detail) && (!Truthy(detail) ==> e == Str(GenericError))
  {
    if f.Response? && f.status == 401 then Str(BadCredentialsError)
    else Or(Get(AuthService.ResponseData(f), "detail"), Str(GenericError))
  }

  datatype Submitted = Submitted(page: Page, call: (string, string), navigate: Option<string>)

  /** `handleSubmit`, given the outcome of the context's `login`: the error
      is cleared first, success goes to the dashboard, failure shows a
      message. */
  function Submit(p: Page, outcome: AuthService.Outcome<AuthService.Session>): (r: Submitted)
    ensures r.call == (p.login, p.password)
    ensures r.page.login == p.login && r.page.password == p.password
    ensures outcome.Success? ==> r.navigate == Some(DashboardRoute) && r.page.error == Str("")
    ensures outcome.Failed? ==> r.navigate.None? && r.page.error == LoginError(outcome.failure)
  {
    var cleared := p.(error := Str(""));
    match outcome
    case Success(_) => Submitted(cleared, (p.login, p.password), Some(DashboardRoute))
    case Failed(f) => Submitted(cleared.(error := LoginError(f)), (p.login, p.password), None)
  }

  /** The page's message never depends on an earlier attempt: two pages
      that differ only in their error end up identical after a submit. */
  lemma ErrorIsReset(p: Page, e: JsValue, outcome: AuthService.Outcome<AuthService.Session>)
    ensures Submit(p, outcome) == Submit(p.(error := e), outcome)
  {
  }

  /** A failed login never leaves the page without a message, and a 401
      never shows the server's own text. */
  lemma FailureShowsMessage(p: Page, f: AuthService.Failure)
    ensures Truthy(Submit(p, AuthService.Failed(f)).page.error)
    ensures f.Response? && f.status == 401 ==>
      Submit(p, AuthService.Failed(f)).page.error == Str(BadCredentialsError)
  {
  }
}
