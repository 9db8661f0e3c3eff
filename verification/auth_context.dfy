/**
 * The authentication provider (contexts/auth-context.tsx): the signed-in
 * user, the loading flag and the two stored tokens, and how login,
 * registration, logout, profile update and start-up initialisation change
 * them. Each backend call is replaced by its outcome, given as a parameter.
 */
module AuthContext {
  import opened Common
  import opened Text
  import opened ApiClient

  datatype User = User(id: int, email: string, firstName: string, lastName: string)

  /** The body of a successful `/auth/login/` or `/auth/register/` answer. */
  datatype AuthResponse = AuthResponse(access: string, refresh: string, user: User)

  // -------------------------------------------------------------- useAuth

  const OutsideProvider := "useAuth must be used within an AuthProvider"

  /** `useAuth`: the context value, or the error thrown outside a provider. */
  function UseAuth<T>(context: Option<T>): (r: Result<T, string>)
    ensures r.Err? <==> context.None?
    ensures r.Err? ==> r.error == OutsideProvider
    ensures r.Ok? ==> r.value == context.value
  {
    match context
    case None => Err(OutsideProvider)
    case Some(c) => Ok(c)
  }

  // ------------------------------------------------------------ error texts

  const LoginFailed := "Login failed"
  const RegistrationFailed := "Registration failed"
  const ProfileUpdateFailed := "Profile update failed"

  /** `error.response?.data?.detail || fallback`: the server's detail when it is a non-empty
      string, otherwise the fallback. */
  function DetailOr(e: ApiError, fallback: string): (r: string)
    ensures e.response.Some? && Truthy(e.response.value.body.detail) ==> r == e.response.value.body.detail.value
    ensures !(e.response.Some? && Truthy(e.response.value.body.detail)) ==> r == fallback
    ensures fallback != [] ==> r != []
  {
    if e.response.Some? && Truthy(e.response.value.body.detail) then e.response.value.body.detail.value
    else fallback
  }

  /** The per-field error lists a failed registration may carry. */
  datatype RegisterErrorBody = RegisterErrorBody(
    email: Option<seq<string>>,
    password: Option<seq<string>>,
    password2: Option<seq<string>>,
    nonFieldErrors: Option<seq<string>>)

  /** `list[0]` as `new Error(...)` turns it into a message: an empty list gives the empty message. */
  function FirstOrEmpty(list: seq<string>): string {
    if list == [] then "" else list[0]
  }

  /** The message `register` throws: the first entry of the first field present, tried in the
      order email, password, password2, non_field_errors; "Registration failed" when the
      answer carries none of them. A present array counts even when it is empty. */
  function RegisterErrorMessage(body: Option<RegisterErrorBody>): string {
    if body.Some? && body.value.email.Some? then FirstOrEmpty(body.value.email.value)
    else if body.Some? && body.value.password.Some? then FirstOrEmpty(body.value.password.value)
    else if body.Some? && body.value.password2.Some? then FirstOrEmpty(body.value.password2.value)
    else if body.Some? && body.value.nonFieldErrors.Some? then FirstOrEmpty(body.value.nonFieldErrors.value)
    else RegistrationFailed
  }

  /** The fields of a register error body, in the order they are tried. */
  function FieldsInOrder(b: RegisterErrorBody): seq<Option<seq<string>>> {
    [b.email, b.password, b.password2, b.nonFieldErrors]
  }

  /** Reference definition: the first entry of the first present field in a list of fields. */
  function FirstPresent(fields: seq<Option<seq<string>>>): Option<string> {
    if fields == [] then None
    else if fields[0].Some? then Some(FirstOrEmpty(fields[0].value))
    else FirstPresent(fields[1..])
  }

  lemma RegisterErrorMessageSpec(body: Option<RegisterErrorBody>)
    ensures body.None? ==> RegisterErrorMessage(body) == RegistrationFailed
    ensures body.Some? ==>
      RegisterErrorMessage(body) == match FirstPresent(FieldsInOrder(body.value))
        case Some(m) => m
        case None => RegistrationFailed
  {
    if body.Some? {
      var b := body.value;
      var l4: seq<Option<seq<string>>> := [b.nonFieldErrors];
      assert l4[1..] == [];
      var l3 := [b.password2] + l4;
      assert l3[1..] == l4;
      var l2 := [b.password] + l3;
      assert l2[1..] == l3;
      var l1 := [b.email] + l2;
      assert l1[1..] == l2;
      assert FieldsInOrder(b) == l1;
      assert FirstPresent(l4) == if b.nonFieldErrors.Some? then Some(FirstOrEmpty(b.nonFieldErrors.value)) else None;
      assert FirstPresent(l3) == if b.password2.Some? then Some(FirstOrEmpty(b.password2.value)) else FirstPresent(l4);
      assert FirstPresent(l2) == if b.password.Some? then Some(FirstOrEmpty(b.password.value)) else FirstPresent(l3);
      assert FirstPresent(l1) == if b.email.Some? then Some(FirstOrEmpty(b.email.value)) else FirstPresent(l2);
    }
  }

  // ---------------------------------------------------------------- provider

  class AuthProvider {
    var user: Option<User>
    var loading: bool
    /** Where the router was last sent, if anywhere. */
    var route: Option<string>
    /** The `localStorage` token entries. */
    const store: TokenStore

    constructor (store: TokenStore)
      ensures this.store == store && user == None && loading && route == None
    {
      this.store := store;
      user := None;
      loading := true;
      route := None;
    }

    /** `isAuthenticated: !!user`. */
    predicate IsAuthenticated()
      reads this
    {
      user.Some?
    }

    /** `initializeAuth`. `profile` is what the first `getProfile` gives; `refreshed` and
        `profileAfter` are what the refresh call and the second `getProfile` give. */
    method InitializeAuth(profile: Result<User, ApiError>, refreshed: Result<string, ApiError>,
                          profileAfter: Result<User, ApiError>)
      modifies this`user, this`loading, store
      ensures !loading
      ensures route == old(route)
      ensures !Truthy(old(store.access)) ==>
                user == old(user) && store.access == old(store.access) && store.refresh == old(store.refresh)
      ensures Truthy(old(store.access)) && profile.Ok? ==>
                user == Some(profile.value) && store.access == old(store.access) && store.refresh == old(store.refresh)
      ensures Truthy(old(store.access)) && profile.Err? && !Truthy(old(store.refresh)) ==>
                user == old(user) && store.access == old(store.access) && store.refresh == old(store.refresh)
      ensures Truthy(old(store.access)) && profile.Err? && Truthy(old(store.refresh))
              && refreshed.Ok? && profileAfter.Ok? ==>
                user == Some(profileAfter.value) && store.access == old(store.access) && store.refresh == old(store.refresh)
      ensures Truthy(old(store.access)) && profile.Err? && Truthy(old(store.refresh))
              && (refreshed.Err? || profileAfter.Err?) ==>
                user == old(user) && store.access == None && store.refresh == None
    {
      var token := store.access;
      var refreshToken := store.refresh;
      if Truthy(token) {
        match profile
        case Ok(u) =>
          user := Some(u);
        case Err(_) =>
          if Truthy(refreshToken) {
            if refreshed.Ok? && profileAfter.Ok? {
              user := Some(profileAfter.value);
            } else {
              store.Clear();
            }
          }
      }
      loading := false;
    }

    /** `login`: on success both tokens are stored, the user is set and the router goes to the
        dashboard; on failure the detail-or-default message is thrown and nothing changes. */
    method Login(outcome: Result<AuthResponse, ApiError>) returns (thrown: Option<string>)
      modifies this`user, this`route, store
      ensures outcome.Ok? ==>
                thrown == None && IsAuthenticated() && user == Some(outcome.value.user)
                && store.access == Some(outcome.value.access) && store.refresh == Some(outcome.value.refresh)
                && route == Some("/dashboard")
      ensures outcome.Err? ==>
                thrown == Some(DetailOr(outcome.error, LoginFailed))
                && user == old(user) && route == old(route)
                && store.access == old(store.access) && store.refresh == old(store.refresh)
    {
      match outcome
      case Ok(response) =>
        store.access := Some(response.access);
        store.refresh := Some(response.refresh);
        user := Some(response.user);
        route := Some("/dashboard");
        thrown := None;
      case Err(e) =>
        thrown := Some(DetailOr(e, LoginFailed));
    }

    /** `register`: as `login` on success; on failure the field message is thrown. */
    method Register(outcome: Result<AuthResponse, Option<RegisterErrorBody>>) returns (thrown: Option<string>)
      modifies this`user, this`route, store
      ensures outcome.Ok? ==>
                thrown == None && IsAuthenticated() && user == Some(outcome.value.user)
                && store.access == Some(outcome.value.access) && store.refresh == Some(outcome.value.refresh)
                && route == Some("/dashboard")
      ensures outcome.Err? ==>
                thrown == Some(RegisterErrorMessage(outcome.error))
                && user == old(user) && route == old(route)
                && store.access == old(store.access) && store.refresh == old(store.refresh)
    {
      match outcome
      case Ok(response) =>
        store.access := Some(response.access);
        store.refresh := Some(response.refresh);
        user := Some(response.user);
        route := Some("/dashboard");
        thrown := None;
      case Err(body) =>
        thrown := Some(RegisterErrorMessage(body));
    }

    /** `logout`: the server is told only when a refresh token is stored, and whatever it
        answers, both tokens and the user are cleared and the router goes to the login page. */
    method Logout() returns (calledServer: bool)
      modifies this`user, this`route, store
      ensures calledServer == Truthy(old(store.refresh))
      ensures store.access == None && store.refresh == None
      ensures user == None && !IsAuthenticated() && route == Some("/login")
    {
      calledServer := Truthy(store.refresh);
      store.Clear();
      user := None;
      route := Some("/login");
    }

    /** `updateProfile`: the answer replaces the user; a failure throws detail-or-default. */
    method UpdateProfile(outcome: Result<User, ApiError>) returns (thrown: Option<string>)
      modifies this`user
      ensures outcome.Ok? ==> thrown == None && user == Some(outcome.value)
      ensures outcome.Err? ==> thrown == Some(DetailOr(outcome.error, ProfileUpdateFailed)) && user == old(user)
    {
      match outcome
      case Ok(u) =>
        user := Some(u);
        thrown := None;
      case Err(e) =>
        thrown := Some(DetailOr(e, ProfileUpdateFailed));
    }
  }
}
