/** The user thunks of the client: `login`, `logout`, `signup`, `listUsers`,
    `deleteUser`, `getUserDetails`, `updateUser` and `updateUserProfile`.
    Two copies of them exist: the current one, which prefixes every path
    with the configured API base URL and falls back from `userInfo.token` to
    `userInfo.access`, and an older one with relative paths that only reads
    `userInfo.token`. One model covers both, told apart by a `Flavour`.

    The network is a parameter: each thunk receives how its one request
    turned out. The session (`getState().userLogin.userInfo`) is a
    parameter too, since the reducers that maintain it are not part of this
    model. What a thunk does is recorded in three places: the actions it
    dispatches, the requests it issues and the `localStorage` entries it
    writes. */
module UserActions {
  import opened Wrappers
  import opened Json

  /** The action types of the user slice, by constant name (their string
      values live in the constants file, which is not part of this model). */
  datatype ActionType =
    | UserLoginRequest | UserLoginSuccess | UserLoginFail | UserLogout
    | UserSignupRequest | UserSignupSuccess | UserSignupFail
    | UserListRequest | UserListSuccess | UserListFail
    | UserDeleteRequest | UserDeleteSuccess | UserDeleteFail
    | UserUpdateRequest | UserUpdateSuccess | UserUpdateFail
    | UserDetailsRequest | UserDetailsSuccess | UserDetailsFail
    | UserUpdateProfileRequest | UserUpdateProfileSuccess | UserUpdateProfileFail

  /** A dispatched action: `{ type }` or `{ type, payload }`. */
  datatype Action = Action(kind: ActionType, payload: Option<Json>)

  /** Which copy of the thunks runs; the current one carries the value of
      `REACT_APP_API_URL` as it is interpolated. */
  datatype Flavour = Current(apiBaseUrl: string) | Legacy

  datatype Verb = GET | POST | PUT | DELETE

  datatype Header = Header(name: string, value: string)

  /** One axios call: verb, URL, headers in the order the config lists
      them, and the body. */
  datatype Request = Request(verb: Verb, url: string, headers: seq<Header>, body: Option<Json>)

  /** How the awaited call turned out: resolved with the response body, or
      rejected with an error whose `response.data` is given when a response
      arrived, and whose `message` is given always. */
  datatype CallResult = Resolved(data: Json) | Rejected(response: Option<Json>, message: string)

  /** A thunk and its arguments. Ids are whatever JavaScript value the
      screen passed (`None` for `undefined`). */
  datatype Call =
    | Login(email: string, password: string)
    | Signup(firstname: string, lastname: string, email: string, password: string)
    | ListUsers
    | DeleteUser(id: Option<Json>)
    | GetUserDetails(id: Option<Json>)
    | UpdateUser(user: Json)
    | UpdateUserProfile(user: Json)

  /** A `localStorage` side effect. */
  datatype StorageWrite = NoWrite | SetItem(key: string, value: string) | RemoveItem(key: string)

  /** Everything one run of a thunk does. */
  datatype Effect = Effect(actions: seq<Action>, request: Option<Request>, write: StorageWrite)

  function Apply(storage: map<string, string>, w: StorageWrite): map<string, string> {
    match w
    case NoWrite => storage
    case SetItem(k, v) => storage[k := v]
    case RemoveItem(k) => storage - {k}
  }

  function Issued(r: Option<Request>): seq<Request> {
    match r
    case None => []
    case Some(q) => [q]
  }

  // ---------------------------------------------------------------------
  // The action types of each thunk
  // ---------------------------------------------------------------------

  function RequestOf(c: Call): ActionType {
    match c
    case Login(_, _) => UserLoginRequest
    case Signup(_, _, _, _) => UserSignupRequest
    case ListUsers => UserListRequest
    case DeleteUser(_) => UserDeleteRequest
    case GetUserDetails(_) => UserDetailsRequest
    case UpdateUser(_) => UserUpdateRequest
    case UpdateUserProfile(_) => UserUpdateProfileRequest
  }

  function SuccessOf(c: Call): ActionType {
    match c
    case Login(_, _) => UserLoginSuccess
    case Signup(_, _, _, _) => UserSignupSuccess
    case ListUsers => UserListSuccess
    case DeleteUser(_) => UserDeleteSuccess
    case GetUserDetails(_) => UserDetailsSuccess
    case UpdateUser(_) => UserUpdateSuccess
    case UpdateUserProfile(_) => UserUpdateProfileSuccess
  }

  function FailOf(c: Call): ActionType {
    match c
    case Login(_, _) => UserLoginFail
    case Signup(_, _, _, _) => UserSignupFail
    case ListUsers => UserListFail
    case DeleteUser(_) => UserDeleteFail
    case GetUserDetails(_) => UserDetailsFail
    case UpdateUser(_) => UserUpdateFail
    case UpdateUserProfile(_) => UserUpdateProfileFail
  }

  /** The thunks that read the session before their request. */
  predicate Protected(c: Call) {
    !c.Login? && !c.Signup?
  }

  // ---------------------------------------------------------------------
  // Building the request
  // ---------------------------------------------------------------------

  /** The `TypeError` a property read on `null` throws. */
  function NullRead(key: string): string {
    "Cannot read properties of null (reading '" + key + "')"
  }

  /** `v.key`, which throws when `v` is `null`. */
  function Property(v: Json, key: string): (r: Result<Option<Json>>)
    ensures r.Err? <==> v.JNull?
  {
    if v.JNull? then Err(NullRead(key)) else Ok(Get(v, key))
  }

  /** The bearer token each copy sends: `userInfo.token || userInfo.access`
      in the current copy, `userInfo.token` in the older one. Both throw on
      a `null` session while reading `token`. */
  function BearerToken(fl: Flavour, userInfo: Json): (r: Result<string>)
  {
    match Property(userInfo, "token")
    case Err(m) => Err(m)
    case Ok(token) =>
      if fl.Current? then Ok(JsToString(Or(token, Get(userInfo, "access"))))
      else Ok(JsToString(token))
  }

  function AuthHeader(token: string): Header {
    Header("Authorization", "Bearer " + token)
  }

  const JsonContent: Header := Header("Content-Type", "application/json")

  /** The headers a protected call sends. The current copy always uses
      `getAuthConfig`; the older copy writes a config per thunk. */
  function ProtectedHeaders(fl: Flavour, c: Call, token: string): seq<Header>
    requires Protected(c)
  {
    if fl.Current? then [AuthHeader(token), JsonContent]
    else match c
      case ListUsers => [AuthHeader(token)]
      case DeleteUser(_) => [AuthHeader(token)]
      case GetUserDetails(_) => [Header("Content-type", "application/json"), AuthHeader(token)]
      case _ => [JsonContent, AuthHeader(token)]
  }

  /** The request path of each thunk; `updateUser` reads `user.id`, which
      throws when `user` is `null`. */
  function PathOf(c: Call): Result<string> {
    match c
    case Login(_, _) => Ok("/api/users/login/")
    case Signup(_, _, _, _) => Ok("/api/users/register/")
    case ListUsers => Ok("/api/users/getallusers/")
    case DeleteUser(id) => Ok("/api/users/delete/" + JsToString(id) + "/")
    case GetUserDetails(id) => Ok("/api/users/" + JsToString(id) + "/")
    case UpdateUser(user) =>
      (match Property(user, "id")
       case Err(m) => Err(m)
       case Ok(id) => Ok("/api/users/update/" + JsToString(id) + "/"))
    case UpdateUserProfile(_) => Ok("/api/users/profile/update/")
  }

  function Url(fl: Flavour, path: string): string {
    match fl
    case Current(base) => base + path
    case Legacy => path
  }

  function VerbOf(c: Call): Verb {
    match c
    case Login(_, _) => POST
    case Signup(_, _, _, _) => POST
    case ListUsers => GET
    case DeleteUser(_) => DELETE
    case GetUserDetails(_) => GET
    case UpdateUser(_) => PUT
    case UpdateUserProfile(_) => PUT
  }

  function BodyOf(c: Call): Option<Json> {
    match c
    case Login(email, password) =>
      Some(JObj([Member("username", JStr(email)), Member("password", JStr(password))]))
    case Signup(f, l, e, p) =>
      Some(JObj([Member("fname", JStr(f)), Member("lname", JStr(l)), Member("email", JStr(e)),
                 Member("password", JStr(p))]))
    case UpdateUser(user) => Some(user)
    case UpdateUserProfile(user) => Some(user)
    case _ => None
  }

  /** The request a thunk issues, or the message of what it throws before
      issuing one: the session is read first, then the path is built. */
  function Prepare(fl: Flavour, c: Call, userInfo: Json): Result<Request> {
    var token := if Protected(c) then BearerToken(fl, userInfo) else Ok("");
    if token.Err? then Err(token.message)
    else
      var path := PathOf(c);
      if path.Err? then Err(path.message)
      else
        var headers := if Protected(c) then ProtectedHeaders(fl, c, token.value) else [JsonContent];
        Ok(Request(VerbOf(c), Url(fl, path.value), headers, BodyOf(c)))
  }

  // ---------------------------------------------------------------------
  // The outcome
  // ---------------------------------------------------------------------

  /** The `_FAIL` payload `error.response?.data?.detail || error.message`. */
  function FailPayload(response: Option<Json>, message: string): Json {
    Or(GetOpt(response, "detail"), Some(JStr(message))).value
  }

  /** `getUserDetails` writes its payload as `error.response &&
      error.response.data.detail ? error.response.data.detail :
      error.message`, which itself throws when the response body is `null`:
      `None` then, and no `_FAIL` is dispatched. */
  function DetailsFailPayload(response: Option<Json>, message: string): Option<Json> {
    match response
    case None => Some(JStr(message))
    case Some(data) =>
      if data.JNull? then None
      else if Truthy(Get(data, "detail")) then Get(data, "detail")
      else Some(JStr(message))
  }

  /** The `catch` block: the `_FAIL` action, if the block gets that far. */
  function Caught(c: Call, response: Option<Json>, message: string): seq<Action> {
    if c.GetUserDetails? then
      match DetailsFailPayload(response, message)
      case None => []
      case Some(p) => [Action(FailOf(c), Some(p))]
    else [Action(FailOf(c), Some(FailPayload(response, message)))]
  }

  /** What the `try` block dispatches after a resolved call. */
  function Succeeded(c: Call, data: Json): seq<Action> {
    match c
    case DeleteUser(_) => [Action(UserDeleteSuccess, None)]
    case UpdateUser(_) => [Action(UserUpdateSuccess, None), Action(UserDetailsSuccess, Some(data))]
    case UpdateUserProfile(_) =>
      [Action(UserUpdateProfileSuccess, Some(data)), Action(UserLoginSuccess, Some(data))]
    case _ => [Action(SuccessOf(c), Some(data))]
  }

  /** `login` and `updateUserProfile` persist the payload they were given. */
  function SucceededWrite(c: Call, data: Json): StorageWrite {
    if c.Login? || c.UpdateUserProfile? then SetItem("userInfo", Stringify(data)) else NoWrite
  }

  /** One run of a thunk, as a whole. */
  function Run(fl: Flavour, c: Call, userInfo: Json, result: CallResult): Effect {
    var start := [Action(RequestOf(c), None)];
    match Prepare(fl, c, userInfo)
    case Err(m) => Effect(start + Caught(c, None, m), None, NoWrite)
    case Ok(req) =>
      match result
      case Resolved(data) => Effect(start + Succeeded(c, data), Some(req), SucceededWrite(c, data))
      case Rejected(response, m) => Effect(start + Caught(c, response, m), Some(req), NoWrite)
  }

  // ---------------------------------------------------------------------
  // Properties of the thunks
  // ---------------------------------------------------------------------

  /** Whether an action ends a thunk's run: its own `_SUCCESS` or `_FAIL`. */
  predicate Ends(c: Call, a: Action) {
    a.kind == SuccessOf(c) || a.kind == FailOf(c)
  }

  /** The one case where a run ends without its `_SUCCESS` or `_FAIL`:
      `getUserDetails` rejected with a `null` response body, whose `catch`
      block throws before dispatching. */
  predicate CatchThrows(fl: Flavour, c: Call, userInfo: Json, result: CallResult) {
    c.GetUserDetails? && Prepare(fl, c, userInfo).Ok? && result.Rejected? && result.response == Some(JNull)
  }

  /** Every run dispatches its `_REQUEST` first, and something after it
      unless `CatchThrows`. */
  lemma RequestFirst(fl: Flavour, c: Call, userInfo: Json, result: CallResult)
    ensures var e := Run(fl, c, userInfo, result);
      |e.actions| >= 1 && e.actions[0] == Action(RequestOf(c), None)
      && (CatchThrows(fl, c, userInfo, result) <==> |e.actions| == 1)
  {
    var p := Prepare(fl, c, userInfo);
    if p.Err? {
      CaughtShape(c, None, p.message);
    } else if result.Resolved? {
      SucceededShape(c, result.data);
    } else {
      CaughtShape(c, result.response, result.message);
    }
  }

  /** Right after the `_REQUEST` comes the thunk's own `_SUCCESS` or
      `_FAIL`, the success exactly when the request was issued and
      resolved. */
  lemma ThenEnd(fl: Flavour, c: Call, userInfo: Json, result: CallResult)
    ensures var e := Run(fl, c, userInfo, result);
      |e.actions| > 1 ==>
        Ends(c, e.actions[1]) && (e.actions[1].kind == SuccessOf(c) <==> e.request.Some? && result.Resolved?)
  {
    var p := Prepare(fl, c, userInfo);
    if p.Err? {
      CaughtShape(c, None, p.message);
    } else if result.Resolved? {
      SucceededShape(c, result.data);
    } else {
      CaughtShape(c, result.response, result.message);
    }
  }

  /** Nothing after that ends the run a second time: a run has at most one
      `_SUCCESS` or `_FAIL` of its own. */
  lemma EndsOnce(fl: Flavour, c: Call, userInfo: Json, result: CallResult)
    ensures var e := Run(fl, c, userInfo, result);
      forall j | 2 <= j < |e.actions| :: !Ends(c, e.actions[j])
  {
    var e := Run(fl, c, userInfo, result);
    var p := Prepare(fl, c, userInfo);
    var start := [Action(RequestOf(c), None)];
    if p.Err? {
      CaughtShape(c, None, p.message);
      assert |e.actions| <= 2;
    } else if result.Resolved? {
      SucceededShape(c, result.data);
      var rest := Succeeded(c, result.data);
      assert e.actions == start + rest;
      forall j | 2 <= j < |e.actions| ensures !Ends(c, e.actions[j]) {
        assert e.actions[j] == rest[j - 1];
      }
    } else {
      CaughtShape(c, result.response, result.message);
      assert |e.actions| <= 2;
    }
  }

  lemma CaughtShape(c: Call, response: Option<Json>, message: string)
    ensures var a := Caught(c, response, message);
      |a| <= 1 && (|a| == 0 <==> c.GetUserDetails? && response == Some(JNull))
      && (|a| == 1 ==> a[0].kind == FailOf(c) && a[0].kind != SuccessOf(c))
  {
  }

  lemma SucceededShape(c: Call, data: Json)
    ensures var a := Succeeded(c, data);
      |a| >= 1 && a[0].kind == SuccessOf(c) && a[0].kind != FailOf(c)
      && forall j | 1 <= j < |a| :: !Ends(c, a[j])
  {
  }

  /** A thunk that needs the session, run with no one logged in, throws on
      reading `token` before any request: `_REQUEST` then `_FAIL` with
      that error's message, and nothing else. */
  lemma NullSession(fl: Flavour, c: Call, result: CallResult)
    requires Protected(c)
    ensures Run(fl, c, JNull, result)
      == Effect([Action(RequestOf(c), None), Action(FailOf(c), Some(JStr(NullRead("token"))))], None, NoWrite)
  {
  }

  /** The `_FAIL` payload is the server's `detail` when it is truthy and
      the transport error's message otherwise. */
  lemma FailPayloadChoice(c: Call, fl: Flavour, userInfo: Json, data: Json, message: string)
    requires !c.GetUserDetails? && Prepare(fl, c, userInfo).Ok?
    ensures var e := Run(fl, c, userInfo, Rejected(Some(data), message));
      e.actions[1].kind == FailOf(c)
      && (Truthy(Get(data, "detail")) ==> e.actions[1].payload == Get(data, "detail"))
      && (!Truthy(Get(data, "detail")) ==> e.actions[1].payload == Some(JStr(message)))
  {
  }

  /** The bearer token: the current copy sends `userInfo.token` when it is
      truthy and `userInfo.access` otherwise; the older copy sends
      `userInfo.token` whatever it is. */
  lemma TokenChoice(userInfo: Json, base: string)
    requires !userInfo.JNull?
    ensures var token := Get(userInfo, "token");
      var access := Get(userInfo, "access");
      BearerToken(Legacy, userInfo) == Ok(JsToString(token))
      && (Truthy(token) ==> BearerToken(Current(base), userInfo) == Ok(JsToString(token)))
      && (!Truthy(token) ==> BearerToken(Current(base), userInfo) == Ok(JsToString(access)))
  {
  }

  /** Both copies request the same paths, the current one under its base
      URL, and the older one's paths are relative. */
  lemma SamePaths(c: Call, userInfo: Json, base: string)
    requires Prepare(Legacy, c, userInfo).Ok?
    ensures Prepare(Current(base), c, userInfo).Ok?
    ensures var rel := Prepare(Legacy, c, userInfo).value;
      var cur := Prepare(Current(base), c, userInfo).value;
      cur.url == base + rel.url && |rel.url| >= 5 && rel.url[..5] == "/api/"
      && cur.verb == rel.verb && cur.body == rel.body
  {
    ApiPath(c);
    if Protected(c) {
      assert BearerToken(Current(base), userInfo).Ok?;
    }
  }

  /** Every path a thunk builds lies under `/api/`. */
  lemma ApiPath(c: Call)
    requires PathOf(c).Ok?
    ensures |PathOf(c).value| >= 5 && PathOf(c).value[..5] == "/api/"
  {
    var p := PathOf(c).value;
    match c
    case DeleteUser(id) =>
      assert p == "/api/users/delete/" + (JsToString(id) + "/");
    case GetUserDetails(id) =>
      assert p == "/api/users/" + (JsToString(id) + "/");
    case UpdateUser(user) =>
      assert p == "/api/users/update/" + (JsToString(Property(user, "id").value) + "/");
    case _ =>
  }

  /** Given the same session and the same outcome, the two copies dispatch
      the same actions and write the same storage: they differ only in the
      request they send. */
  lemma FlavoursAgree(c: Call, userInfo: Json, result: CallResult, base: string)
    ensures var a := Run(Legacy, c, userInfo, result);
      var b := Run(Current(base), c, userInfo, result);
      a.actions == b.actions && a.write == b.write && (a.request.Some? <==> b.request.Some?)
  {
    if Protected(c) && !userInfo.JNull? {
      assert BearerToken(Legacy, userInfo).Ok? && BearerToken(Current(base), userInfo).Ok?;
    }
  }

  /** `login` writes storage only after its success, and writes exactly
      the payload it dispatched; a failed login leaves storage alone. */
  lemma LoginStorage(fl: Flavour, email: string, password: string, result: CallResult)
    ensures var e := Run(fl, Login(email, password), JNull, result);
      (result.Resolved? ==>
         e.write == SetItem("userInfo", Stringify(result.data))
         && e.actions[|e.actions| - 1] == Action(UserLoginSuccess, Some(result.data)))
      && (result.Rejected? ==> e.write == NoWrite)
  {
  }

  /** What `login` stores reads back with `JSON.parse` as the payload it
      dispatched. */
  lemma LoginRoundTrip(fl: Flavour, email: string, password: string, data: Json, storage: map<string, string>)
    requires Valid(data)
    ensures var e := Run(fl, Login(email, password), JNull, Resolved(data));
      var s := Apply(storage, e.write);
      "userInfo" in s && Parse(s["userInfo"]) == Some(data)
  {
    RoundTrip(data);
  }

  /** `signup`, whatever happens, never touches storage. */
  lemma SignupNeverStores(fl: Flavour, c: Call, userInfo: Json, result: CallResult)
    requires c.Signup?
    ensures Run(fl, c, userInfo, result).write == NoWrite
  {
  }

  /** The success sequences with two actions: `updateUserProfile` reports
      the profile and then the login with the same payload, and persists
      it; `updateUser` reports the update and then the details. */
  lemma TwoStepSuccesses(fl: Flavour, user: Json, userInfo: Json, data: Json)
    requires !userInfo.JNull?
    ensures var e := Run(fl, UpdateUserProfile(user), userInfo, Resolved(data));
      e.actions[1..] == [Action(UserUpdateProfileSuccess, Some(data)), Action(UserLoginSuccess, Some(data))]
      && e.write == SetItem("userInfo", Stringify(data))
    ensures !user.JNull? ==>
      var e := Run(fl, UpdateUser(user), userInfo, Resolved(data));
      e.actions[1..] == [Action(UserUpdateSuccess, None), Action(UserDetailsSuccess, Some(data))]
      && e.write == NoWrite
  {
  }

  // ---------------------------------------------------------------------
  // The thunks, step by step
  // ---------------------------------------------------------------------

  /** The dispatch log, the requests sent and `localStorage`, as one copy
      of the thunks changes them. */
  class Client {
    const flavour: Flavour
    var log: seq<Action>
    var requests: seq<Request>
    var storage: map<string, string>

    constructor (fl: Flavour, stored: map<string, string>)
      ensures flavour == fl && log == [] && requests == [] && storage == stored
    {
      flavour := fl;
      log := [];
      requests := [];
      storage := stored;
    }

    method Dispatch(a: Action)
      modifies this
      ensures log == old(log) + [a] && requests == old(requests) && storage == old(storage)
    {
      log := log + [a];
    }

    method Send(r: Request)
      modifies this
      ensures requests == old(requests) + [r] && log == old(log) && storage == old(storage)
    {
      requests := requests + [r];
    }

    /** `login`: no session is read; success dispatches the payload and
        then stores it. */
    method Login(email: string, password: string, result: CallResult)
      modifies this
      ensures var e := Run(flavour, Call.Login(email, password), JNull, result);
        log == old(log) + e.actions && requests == old(requests) + Issued(e.request)
        && storage == Apply(old(storage), e.write)
    {
      Dispatch(Action(UserLoginRequest, None));
      var body := JObj([Member("username", JStr(email)), Member("password", JStr(password))]);
      Send(Request(POST, Url(flavour, "/api/users/login/"), [JsonContent], Some(body)));
      match result
      case Resolved(data) =>
        Dispatch(Action(UserLoginSuccess, Some(data)));
        storage := storage["userInfo" := Stringify(data)];
      case Rejected(response, message) =>
        Dispatch(Action(UserLoginFail, Some(FailPayload(response, message))));
    }

    /** `logout`: removes the stored session, then dispatches one
        `USER_LOGOUT`; no request. */
    method Logout()
      modifies this
      ensures storage == old(storage) - {"userInfo"} && "userInfo" !in storage
      ensures log == old(log) + [Action(UserLogout, None)] && requests == old(requests)
    {
      storage := storage - {"userInfo"};
      Dispatch(Action(UserLogout, None));
    }

    method Signup(firstname: string, lastname: string, email: string, password: string, result: CallResult)
      modifies this
      ensures var e := Run(flavour, Call.Signup(firstname, lastname, email, password), JNull, result);
        log == old(log) + e.actions && requests == old(requests) + Issued(e.request)
        && storage == Apply(old(storage), e.write)
    {
      Dispatch(Action(UserSignupRequest, None));
      var body := JObj([Member("fname", JStr(firstname)), Member("lname", JStr(lastname)),
                        Member("email", JStr(email)), Member("password", JStr(password))]);
      Send(Request(POST, Url(flavour, "/api/users/register/"), [JsonContent], Some(body)));
      match result
      case Resolved(data) =>
        Dispatch(Action(UserSignupSuccess, Some(data)));
      case Rejected(response, message) =>
        Dispatch(Action(UserSignupFail, Some(FailPayload(response, message))));
    }

    /** The first step of every protected thunk: read the session's token,
        which throws on a `null` session. */
    method ReadToken(userInfo: Json) returns (token: Result<string>)
      ensures token == BearerToken(flavour, userInfo)
    {
      if userInfo.JNull? {
        return Err(NullRead("token"));
      }
      var t := Get(userInfo, "token");
      if flavour.Current? && !Truthy(t) {
        t := Get(userInfo, "access");
      }
      token := Ok(JsToString(t));
    }

    method ListUsers(userInfo: Json, result: CallResult)
      modifies this
      ensures var e := Run(flavour, Call.ListUsers, userInfo, result);
        log == old(log) + e.actions && requests == old(requests) + Issued(e.request)
        && storage == Apply(old(storage), e.write)
    {
      Dispatch(Action(UserListRequest, None));
      var token := ReadToken(userInfo);
      if token.Err? {
        Dispatch(Action(UserListFail, Some(FailPayload(None, token.message))));
        return;
      }
      Send(Request(GET, Url(flavour, "/api/users/getallusers/"), ProtectedHeaders(flavour, Call.ListUsers, token.value), None));
      match result
      case Resolved(data) =>
        Dispatch(Action(UserListSuccess, Some(data)));
      case Rejected(response, message) =>
        Dispatch(Action(UserListFail, Some(FailPayload(response, message))));
    }

    method DeleteUser(id: Option<Json>, userInfo: Json, result: CallResult)
      modifies this
      ensures var e := Run(flavour, Call.DeleteUser(id), userInfo, result);
        log == old(log) + e.actions && requests == old(requests) + Issued(e.request)
        && storage == Apply(old(storage), e.write)
    {
      ghost var e := Run(flavour, Call.DeleteUser(id), userInfo, result);
      var start := Action(UserDeleteRequest, None);
      Dispatch(start);
      var token := ReadToken(userInfo);
      if token.Err? {
        var fail := Action(UserDeleteFail, Some(FailPayload(None, token.message)));
        Dispatch(fail);
        assert e.actions == [start, fail];
        return;
      }
      var url := Url(flavour, "/api/users/delete/" + JsToString(id) + "/");
      Send(Request(DELETE, url, ProtectedHeaders(flavour, Call.DeleteUser(id), token.value), None));
      match result
      case Resolved(_) =>
        var success := Action(UserDeleteSuccess, None);
        Dispatch(success);
        assert e.actions == [start, success];
      case Rejected(response, message) =>
        var fail := Action(UserDeleteFail, Some(FailPayload(response, message)));
        Dispatch(fail);
        assert e.actions == [start, fail];
    }

    method GetUserDetails(id: Option<Json>, userInfo: Json, result: CallResult)
      modifies this
      ensures var e := Run(flavour, Call.GetUserDetails(id), userInfo, result);
        log == old(log) + e.actions && requests == old(requests) + Issued(e.request)
        && storage == Apply(old(storage), e.write)
    {
      ghost var e := Run(flavour, Call.GetUserDetails(id), userInfo, result);
      var start := Action(UserDetailsRequest, None);
      Dispatch(start);
      var token := ReadToken(userInfo);
      if token.Err? {
        var fail := Action(UserDetailsFail, Some(JStr(token.message)));
        Dispatch(fail);
        assert e.actions == [start, fail];
        return;
      }
      var url := Url(flavour, "/api/users/" + JsToString(id) + "/");
      Send(Request(GET, url, ProtectedHeaders(flavour, Call.GetUserDetails(id), token.value), None));
      match result
      case Resolved(data) =>
        var success := Action(UserDetailsSuccess, Some(data));
        Dispatch(success);
        assert e.actions == [start, success];
      case Rejected(response, message) =>
        if response.Some? && response.value.JNull? {
          // reading `detail` of a null body throws inside the catch block
          assert e.actions == [start];
          return;
        }
        var detail := if response.Some? then Get(response.value, "detail") else None;
        var fail := Action(UserDetailsFail, if Truthy(detail) then detail else Some(JStr(message)));
        Dispatch(fail);
        assert e.actions == [start, fail];
    }

    method UpdateUser(user: Json, userInfo: Json, result: CallResult)
      modifies this
      ensures var e := Run(flavour, Call.UpdateUser(user), userInfo, result);
        log == old(log) + e.actions && requests == old(requests) + Issued(e.request)
        && storage == Apply(old(storage), e.write)
    {
      ghost var e := Run(flavour, Call.UpdateUser(user), userInfo, result);
      var start := Action(UserUpdateRequest, None);
      Dispatch(start);
      var token := ReadToken(userInfo);
      if token.Err? {
        var fail := Action(UserUpdateFail, Some(FailPayload(None, token.message)));
        Dispatch(fail);
        assert e.actions == [start, fail];
        return;
      }
      if user.JNull? {
        var fail := Action(UserUpdateFail, Some(FailPayload(None, NullRead("id"))));
        Dispatch(fail);
        assert e.actions == [start, fail];
        return;
      }
      var url := Url(flavour, "/api/users/update/" + JsToString(Get(user, "id")) + "/");
      Send(Request(PUT, url, ProtectedHeaders(flavour, Call.UpdateUser(user), token.value), Some(user)));
      match result
      case Resolved(data) =>
        var success, details := Action(UserUpdateSuccess, None), Action(UserDetailsSuccess, Some(data));
        Dispatch(success);
        Dispatch(details);
        assert e.actions == [start, success, details];
      case Rejected(response, message) =>
        var fail := Action(UserUpdateFail, Some(FailPayload(response, message)));
        Dispatch(fail);
        assert e.actions == [start, fail];
    }

    method UpdateUserProfile(user: Json, userInfo: Json, result: CallResult)
      modifies this
      ensures var e := Run(flavour, Call.UpdateUserProfile(user), userInfo, result);
        log == old(log) + e.actions && requests == old(requests) + Issued(e.request)
        && storage == Apply(old(storage), e.write)
    {
      ghost var e := Run(flavour, Call.UpdateUserProfile(user), userInfo, result);
      var start := Action(UserUpdateProfileRequest, None);
      Dispatch(start);
      var token := ReadToken(userInfo);
      if token.Err? {
        var fail := Action(UserUpdateProfileFail, Some(FailPayload(None, token.message)));
        Dispatch(fail);
        assert e.actions == [start, fail];
        return;
      }
      var headers := ProtectedHeaders(flavour, Call.UpdateUserProfile(user), token.value);
      Send(Request(PUT, Url(flavour, "/api/users/profile/update/"), headers, Some(user)));
      match result
      case Resolved(data) =>
        var profile, login := Action(UserUpdateProfileSuccess, Some(data)), Action(UserLoginSuccess, Some(data));
        Dispatch(profile);
        Dispatch(login);
        storage := storage["userInfo" := Stringify(data)];
        assert e.actions == [start, profile, login];
      case Rejected(response, message) =>
        var fail := Action(UserUpdateProfileFail, Some(FailPayload(response, message)));
        Dispatch(fail);
        assert e.actions == [start, fail];
    }
  }
}
