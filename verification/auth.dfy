/** The authentication service of the front end: the token request, the
    session record kept in local storage, registration, logout and reading
    the current user back. HTTP replies are inputs. */
module AuthService {
  import opened Wrappers
  import opened Json

  /** A session is the user object built on login. */
  type Session = map<string, JsValue>

  /** Local storage; the service uses the one key `UserKey`. JSON text is
      not modelled: a stored session is the object as `JSON.stringify`
      writes it and `JSON.parse` reads it back. */
  type Storage = map<string, Session>

  const UserKey := "user"

  /** Why a request failed: an HTTP error reply, or an error raised
      without any reply. */
  datatype Failure = Response(status: int, data: JsValue) | NoResponse(message: string)

  datatype Outcome<T> = Success(value: T) | Failed(failure: Failure)

  const NoAccessToken := NoResponse("No access token received")

  /** `error.response?.data` */
  function ResponseData(f: Failure): (d: JsValue)
    ensures f.Response? ==> d == f.data
    ensures f.NoResponse? ==> d == Undefined
  {
    if f.Response? then f.data else Undefined
  }

  /** The requests the service sends, in order. */
  datatype Request =
    | TokenRequest(username: string, password: string)
    | MeRequest(bearer: JsValue)
    | RegisterRequest(payload: RegisterPayload)

  /** What `JSON.stringify` keeps of an object: keys whose value is
      `undefined` are dropped. */
  function Stored(o: Session): (r: Session)
    ensures forall k :: k in r <==> k in o && o[k] != Undefined
    ensures forall k :: k in r ==> r[k] == o[k]
  {
    map k | k in o && o[k] != Undefined :: o[k]
  }

  /** The spread `{...userData}` copies an object's own fields; other
      replies contribute nothing. */
  function Fields(v: JsValue): (m: map<string, JsValue>)
    ensures v.Obj? ==> m == v.fields
    ensures !v.Obj? ==> |m| == 0
  {
    if v.Obj? then v.fields else map[]
  }

  /** `{...userData, access, refresh}`: the token fields override same-named
      keys of the user data. */
  function MakeSession(userData: JsValue, tokenData: JsValue): (s: Session)
    ensures "access" in s && s["access"] == Get(tokenData, "access")
    ensures "refresh" in s && s["refresh"] == Get(tokenData, "refresh")
    ensures forall k :: k != "access" && k != "refresh" ==>
      (k in s <==> userData.Obj? && k in userData.fields)
    ensures forall k :: k in s && k != "access" && k != "refresh" ==> s[k] == userData.fields[k]
  {
    Fields(userData)["access" := Get(tokenData, "access")]["refresh" := Get(tokenData, "refresh")]
  }

  datatype LoginResult = LoginResult(requests: seq<Request>, storage: Storage, result: Outcome<Session>)

  /** `login(email, password)`, given the token reply and the reply of
      `/auth/users/me/` (read only when a token came back). */
  function Login(email: string, password: string, tokenReply: Outcome<JsValue>,
                 meReply: Outcome<JsValue>, storage: Storage): (r: LoginResult)
    ensures |r.requests| >= 1 && r.requests[0] == TokenRequest(email, password)
    ensures |r.requests| == 2 <==> tokenReply.Success? && Truthy(Get(tokenReply.value, "access"))
    ensures |r.requests| == 2 ==> r.requests[1] == MeRequest(Get(tokenReply.value, "access"))
    ensures |r.requests| <= 2
    ensures tokenReply.Success? && !Truthy(Get(tokenReply.value, "access")) ==>
      r.result == Failed(NoAccessToken)
    ensures r.result.Success? <==> |r.requests| == 2 && meReply.Success?
    ensures r.result.Success? ==>
      r.result.value == MakeSession(meReply.value, tokenReply.value)
      && r.storage == storage[UserKey := Stored(r.result.value)]
    ensures r.result.Failed? ==> r.storage == storage
    ensures tokenReply.Failed? ==> r.result == Failed(tokenReply.failure)
    ensures |r.requests| == 2 && meReply.Failed? ==> r.result == Failed(meReply.failure)
  {
    var first := TokenRequest(email, password);
    match tokenReply
    case Failed(f) => LoginResult([first], storage, Failed(f))
    case Success(tokenData) =>
      var access := Get(tokenData, "access");
      if !Truthy(access) then LoginResult([first], storage, Failed(NoAccessToken))
      else
        var requests := [first, MeRequest(access)];
        match meReply
        case Failed(f) => LoginResult(requests, storage, Failed(f))
        case Success(userData) =>
          var user := MakeSession(userData, tokenData);
          LoginResult(requests, storage[UserKey := Stored(user)], Success(user))
  }

  /** `logout`: removes the session and nothing else. */
  function Logout(storage: Storage): (r: Storage)
    ensures UserKey !in r
    ensures forall k :: k != UserKey ==> (k in r <==> k in storage)
    ensures forall k :: k in r ==> r[k] == storage[k]
  {
    storage - {UserKey}
  }

  /** `getCurrentUser`: the stored session, or null. */
  function CurrentUser(storage: Storage): (r: Option<Session>)
    ensures r.Some? <==> UserKey in storage
    ensures r.Some? ==> r.value == storage[UserKey]
  {
    if UserKey in storage then Some(storage[UserKey]) else None
  }

  /** After a successful login the current user is the session as stored;
      when every field of the session is defined it is the session itself.
      After logout there is no current user. */
  lemma LoginThenCurrentUser(email: string, password: string, tokenReply: Outcome<JsValue>,
                             meReply: Outcome<JsValue>, storage: Storage)
    ensures var r := Login(email, password, tokenReply, meReply, storage);
      r.result.Success? ==>
        && CurrentUser(r.storage) == Some(Stored(r.result.value))
        && ((forall k :: k in r.result.value ==> r.result.value[k] != Undefined) ==>
              CurrentUser(r.storage) == Some(r.result.value))
        && CurrentUser(Logout(r.storage)).None?
  {
    var r := Login(email, password, tokenReply, meReply, storage);
    if r.result.Success? {
      var u := r.result.value;
      if forall k :: k in u ==> u[k] != Undefined {
        assert Stored(u) == u;
      }
    }
  }

  /** A failed login leaves the current user as it was. */
  lemma FailedLoginKeepsCurrentUser(email: string, password: string, tokenReply: Outcome<JsValue>,
                                    meReply: Outcome<JsValue>, storage: Storage)
    ensures var r := Login(email, password, tokenReply, meReply, storage);
      r.result.Failed? ==> CurrentUser(r.storage) == CurrentUser(storage)
  {
  }

  /** The fields of the registration form the page hands over. */
  datatype Registration = Registration(email: string, password: string, firstName: string,
                                       lastName: string, phone: string)

  /** The body posted to `/auth/users/`, in the back end's field names. */
  datatype RegisterPayload = RegisterPayload(
    username: string, email: string, password: string,
    firstName: string, lastName: string, phone: string, role: string)

  const ClientRole := "CLIENT"

  /** Every registration is a client whose user name is the email; the
      other fields are copied unchanged. */
  function RegisterBody(d: Registration): (p: RegisterPayload)
    ensures p.username == d.email && p.email == d.email && p.role == ClientRole
    ensures p.password == d.password && p.phone == d.phone
    ensures p.firstName == d.firstName && p.lastName == d.lastName
  {
    RegisterPayload(d.email, d.email, d.password, d.firstName, d.lastName, d.phone, ClientRole)
  }

  /** `register(userData)`: posts the payload, then logs in with the same
      email and password. */
  function Register(d: Registration, registerReply: Outcome<JsValue>, tokenReply: Outcome<JsValue>,
                    meReply: Outcome<JsValue>, storage: Storage): (r: LoginResult)
    ensures |r.requests| >= 1 && r.requests[0] == RegisterRequest(RegisterBody(d))
    ensures registerReply.Failed? ==> r == LoginResult([RegisterRequest(RegisterBody(d))], storage, Failed(registerReply.failure))
    ensures registerReply.Success? ==>
      var l := Login(d.email, d.password, tokenReply, meReply, storage);
      r.requests == [RegisterRequest(RegisterBody(d))] + l.requests
      && r.storage == l.storage && r.result == l.result
  {
    var post := RegisterRequest(RegisterBody(d));
    match registerReply
    case Failed(f) => LoginResult([post], storage, Failed(f))
    case Success(_) =>
      var l := Login(d.email, d.password, tokenReply, meReply, storage);
      LoginResult([post] + l.requests, l.storage, l.result)
  }

  /** The login that follows a registration authenticates as the user just
      registered: the token request carries the registered user name and
      password. */
  lemma RegisterLogsInAsRegistered(d: Registration, registerReply: Outcome<JsValue>,
                                   tokenReply: Outcome<JsValue>, meReply: Outcome<JsValue>, storage: Storage)
    requires registerReply.Success?
    ensures var r := Register(d, registerReply, tokenReply, meReply, storage);
      |r.requests| >= 2 && r.requests[1].TokenRequest?
      && r.requests[1].username == r.requests[0].payload.username
      && r.requests[1].password == r.requests[0].payload.password
  {
  }
}
