/** The login page (src/user/pages/tharusha/LoginPage.js): normalising the
    login response, the session writes, role routing and the error text. */
module Login {
  import opened Js

  /** `data.user` in the response. `_id` is spelled `underscoreId`. */
  datatype UserInfo = UserInfo(role: Option<string>, underscoreId: Option<string>, id: Option<string>)

  /** The fields of the login response the page reads. */
  datatype LoginData = LoginData(
    token: Option<string>,
    accessToken: Option<string>,
    jwt: Option<string>,
    role: Option<string>,
    user: Option<UserInfo>,
    userId: Option<string>)

  /** `res?.data || {}`: a missing body reads as a record with every field absent. */
  function BodyOrEmpty(data: Option<LoginData>): LoginData
  {
    if data.Some? then data.value else LoginData(None, None, None, None, None, None)
  }

  /** What lines 29-31 extract. */
  datatype Credentials = Credentials(token: Option<string>, role: string, userId: Option<string>)

  function UserRole(d: LoginData): Option<string>
  {
    if d.user.Some? then d.user.value.role else None
  }

  function UserUnderscoreId(d: LoginData): Option<string>
  {
    if d.user.Some? then d.user.value.underscoreId else None
  }

  function UserPlainId(d: LoginData): Option<string>
  {
    if d.user.Some? then d.user.value.id else None
  }

  /** Lines 29-31: `token ?? accessToken ?? jwt`, the lower-cased
      `String(role ?? user.role ?? "")`, and `userId ?? user._id ?? user.id`. */
  function Normalize(data: Option<LoginData>): (c: Credentials)
    ensures c.role == ToLower(c.role)
  {
    var d := BodyOrEmpty(data);
    ToLowerIdempotent(OrEmpty(Coalesce(d.role, UserRole(d))));
    Credentials(
      Coalesce(d.token, Coalesce(d.accessToken, d.jwt)),
      ToLower(OrEmpty(Coalesce(d.role, UserRole(d)))),
      Coalesce(d.userId, Coalesce(UserUnderscoreId(d), UserPlainId(d))))
  }

  /** The token is the first of `token`, `accessToken`, `jwt` that is present,
      even when it is "" and a later one is not. */
  lemma TokenFallback(d: LoginData)
    ensures var t := Normalize(Some(d)).token;
      (d.token.Some? ==> t == d.token)
      && (d.token.None? && d.accessToken.Some? ==> t == d.accessToken)
      && (d.token.None? && d.accessToken.None? ==> t == d.jwt)
  {
  }

  /** The role is the top-level one if present, else the nested one, lower-cased; "" if neither. */
  lemma RoleFallback(d: LoginData)
    ensures var role := Normalize(Some(d)).role;
      (d.role.Some? ==> role == ToLower(d.role.value))
      && (d.role.None? && UserRole(d).Some? ==> role == ToLower(UserRole(d).value))
      && (d.role.None? && UserRole(d).None? ==> role == "")
  {
  }

  /** The user id is `userId`, else `user._id`, else `user.id`. */
  lemma UserIdFallback(d: LoginData)
    ensures var id := Normalize(Some(d)).userId;
      (d.userId.Some? ==> id == d.userId)
      && (d.userId.None? && UserUnderscoreId(d).Some? ==> id == UserUnderscoreId(d))
      && (d.userId.None? && UserUnderscoreId(d).None? ==> id == UserPlainId(d))
  {
  }

  /** Lines 42-48: where a successful login navigates. */
  function RouteFor(role: string): (route: string)
    ensures route == "/admindashboard" <==> role == "admin"
    ensures route == "/managers" <==> role == "restaurant_manager" || role == "manager"
    ensures route == "/" <==> role != "admin" && role != "restaurant_manager" && role != "manager"
  {
    if role == "admin" then "/admindashboard"
    else if role == "restaurant_manager" || role == "manager" then "/managers"
    else "/"
  }

  /** Case never changes the route, because the role is lower-cased before routing. */
  lemma RoutingIgnoresCase(d: LoginData)
    ensures var role := OrEmpty(Coalesce(d.role, UserRole(d)));
      Normalize(Some(d.(role := Some(ToLower(role)), user := None))).role == Normalize(Some(d)).role
  {
    ToLowerIdempotent(OrEmpty(Coalesce(d.role, UserRole(d))));
  }

  /** "ADMIN" routes to the admin dashboard. */
  lemma UpperCaseAdmin(d: LoginData)
    requires d.role == Some("ADMIN")
    ensures RouteFor(Normalize(Some(d)).role) == "/admindashboard"
  {
    assert ToLower("ADMIN") == "admin";
  }

  /** How the request failed, as far as the catch block reads it. */
  datatype ErrorInfo = ErrorInfo(serverMessage: Option<string>, code: Option<string>)

  /** Lines 56-61: the server's message if non-empty, else the timeout text for
      `ECONNABORTED`, else the invalid-credentials text. */
  function ErrorMessage(err: ErrorInfo): (msg: string)
    ensures Present(err.serverMessage) ==> msg == err.serverMessage.value
    ensures !Present(err.serverMessage) && err.code == Some("ECONNABORTED") ==> msg == "Request timed out. Please try again."
    ensures !Present(err.serverMessage) && err.code != Some("ECONNABORTED") ==> msg == "Invalid email or password. Please try again."
  {
    if Present(err.serverMessage) then err.serverMessage.value
    else if err.code == Some("ECONNABORTED") then "Request timed out. Please try again."
    else "Invalid email or password. Please try again."
  }

  /** How the login POST ends: a reply body (possibly absent), or a thrown error. */
  datatype PostOutcome = Replied(data: Option<LoginData>) | Rejected(err: ErrorInfo)

  datatype LoginResult = LoginFailed(message: string) | LoggedIn(writes: map<string, string>, route: string)

  /** Lines 35-37: `token` always, `role` only if non-empty, `userId` only if truthy. */
  function SessionWrites(token: string, c: Credentials): (w: map<string, string>)
    ensures "token" in w && w["token"] == token
    ensures "role" in w <==> c.role != ""
    ensures "role" in w ==> w["role"] == c.role
    ensures "userId" in w <==> Present(c.userId)
    ensures "userId" in w ==> w["userId"] == c.userId.value
    ensures w.Keys <= {"token", "role", "userId"}
  {
    var w := map["token" := token];
    var w := if c.role != "" then w["role" := c.role] else w;
    if Present(c.userId) then w["userId" := c.userId.value] else w
  }

  /** `handleSubmit` (lines 18-65) from the POST's outcome to the session
      writes and route, or to the error shown. A reply without a usable token
      throws inside the `try`, and that error carries neither a server message
      nor a code. */
  function Submit(outcome: PostOutcome): (r: LoginResult)
    ensures outcome.Rejected? ==> r == LoginFailed(ErrorMessage(outcome.err))
    ensures r.LoggedIn? <==> outcome.Replied? && Present(Normalize(outcome.data).token)
    ensures r.LoggedIn? ==> "token" in r.writes && r.writes["token"] != ""
    ensures r.LoggedIn? ==> r.route in {"/admindashboard", "/managers", "/"}
  {
    match outcome
    case Rejected(err) => LoginFailed(ErrorMessage(err))
    case Replied(data) =>
      var c := Normalize(data);
      if !Present(c.token) then LoginFailed(ErrorMessage(ErrorInfo(None, None)))
      else LoggedIn(SessionWrites(c.token.value, c), RouteFor(c.role))
  }

  /** A missing or empty token fails with the invalid-credentials text and writes nothing. */
  lemma NoTokenFails(data: Option<LoginData>)
    requires !Present(Normalize(data).token)
    ensures Submit(Replied(data)) == LoginFailed("Invalid email or password. Please try again.")
  {
  }

  /** A login succeeds exactly when the reply carries a non-empty token, and then
      it writes exactly the session keys (the token always, the role only when
      non-empty, the user id only when truthy) and routes by the normalised role. */
  lemma SuccessWritesSession(data: Option<LoginData>)
    ensures Submit(Replied(data)).LoggedIn? <==> Present(Normalize(data).token)
    ensures var c, r := Normalize(data), Submit(Replied(data));
      r.LoggedIn? ==> (r.writes == SessionWrites(c.token.value, c) && r.route == RouteFor(c.role))
  {
  }

  /** Writing the keys one after another, as lines 35-37 do, adds exactly `SessionWrites`. */
  lemma WritesInOrder(start: map<string, string>, token: string, c: Credentials)
    ensures var s1 := start["token" := token];
      var s2 := if c.role != "" then s1["role" := c.role] else s1;
      var s3 := if Present(c.userId) then s2["userId" := c.userId.value] else s2;
      s3 == start + SessionWrites(token, c)
  {
  }

  // ---------------------------------------------------------------------
  // The page's state

  /** The browser's persisted key/value storage. */
  class LocalStorage {
    var items: map<string, string>

    constructor (items: map<string, string>)
      ensures this.items == items
    {
      this.items := items;
    }

    /** `localStorage.setItem`. */
    method SetItem(key: string, value: string)
      modifies this
      ensures items == old(items)[key := value]
    {
      items := items[key := value];
    }
  }

  const SuccessText: string := "Login successful \U{2014} redirecting\U{2026}"

  class LoginPage {
    var formData: map<string, string>
    var error: string
    var success: string
    var isLoading: bool

    constructor ()
      ensures formData == map["email" := "", "pwd" := ""]
      ensures error == "" && success == "" && !isLoading
    {
      formData := map["email" := "", "pwd" := ""];
      error := "";
      success := "";
      isLoading := false;
    }

    /** `handleChange` (lines 13-16): sets the edited field and clears the error. */
    method HandleChange(name: string, value: string)
      modifies this
      ensures formData == old(formData)[name := value]
      ensures error == ""
      ensures success == old(success) && isLoading == old(isLoading)
    {
      formData := formData[name := value];
      error := "";
    }

    /** `handleSubmit` (lines 18-65) once the POST has settled with `outcome`:
        on success the session keys are written one by one and the route is
        returned; on failure the error text is set and storage is untouched. */
    method HandleSubmit(storage: LocalStorage, outcome: PostOutcome) returns (navigateTo: Option<string>)
      modifies this, storage
      ensures var r := Submit(outcome);
        match r
        case LoggedIn(writes, route) =>
          storage.items == old(storage.items) + writes && navigateTo == Some(route)
          && success == SuccessText && error == ""
        case LoginFailed(message) =>
          storage.items == old(storage.items) && navigateTo == None
          && error == message && success == ""
      ensures formData == old(formData) && !isLoading
    {
      isLoading := true;
      error := "";
      success := "";
      navigateTo := None;
      match outcome {
        case Rejected(err) =>
          error := ErrorMessage(err);
        case Replied(data) =>
          var c := Normalize(data);
          if !Present(c.token) {
            error := ErrorMessage(ErrorInfo(None, None));
          } else {
            WritesInOrder(storage.items, c.token.value, c);
            storage.SetItem("token", c.token.value);
            if c.role != "" {
              storage.SetItem("role", c.role);
            }
            if Present(c.userId) {
              storage.SetItem("userId", c.userId.value);
            }
            success := SuccessText;
            navigateTo := Some(RouteFor(c.role));
          }
      }
      isLoading := false;
    }
  }
}
