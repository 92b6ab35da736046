/**
 * The session store: the bearer token, its durable copy under the `token`
 * key of local storage, the signed-in user, and the actions that move them.
 * Each action runs to completion within the call; the forced logout started
 * by a failed profile fetch is taken to finish before that fetch returns.
 */
module Session {
  import opened Wrappers
  import opened Http
  import opened Lifecycle

  /** The signed-in user as `/auth/me` reports it. */
  datatype User = User(id: string, name: string, email: string, profilePhoto: Option<string>, role: string)

  /** The store's state; `storage` is the durable `token` entry. */
  datatype AuthState = AuthState(
    user: Option<User>,
    token: Option<string>,
    storage: Option<string>,
    isLoading: bool,
    error: Option<string>)

  const LoginFallback := "Error al iniciar sesión"
  const RegisterFallback := "Error al registrarse"
  const ProfileFallback := "Error al obtener perfil"
  const UpdateProfileFallback := "Error al actualizar perfil"
  const UpdatePhotoFallback := "Error al actualizar foto de perfil"

  /** `!!state.token`: a missing or empty token does not count. */
  predicate HasToken(s: AuthState) {
    Truthy(s.token)
  }

  /** The `isAuthenticated` getter: a usable token and a user. In a whole
      session the token alone decides. */
  function IsAuthenticated(s: AuthState): (b: bool)
    ensures b ==> HasToken(s) && s.user.Some?
    ensures !HasToken(s) ==> !b
    ensures Whole(s) ==> (b <==> HasToken(s))
  {
    HasToken(s) && s.user.Some?
  }

  /** The `userRole` getter: the signed-in user's role, `null` without a
      user, and always present once authenticated. */
  function UserRole(s: AuthState): (role: Option<string>)
    ensures role.Some? <==> s.user.Some?
    ensures role.Some? ==> role.value == s.user.value.role
    ensures IsAuthenticated(s) ==> role.Some?
  {
    if s.user.Some? then Some(s.user.value.role) else None
  }

  /** No user, no token, nothing stored. */
  ghost predicate Anonymous(s: AuthState) {
    s.user.None? && s.token.None? && s.storage.None?
  }

  /** The session is never half-authenticated: a usable token always comes
      with a user. */
  ghost predicate Whole(s: AuthState) {
    HasToken(s) ==> s.user.Some?
  }

  /** The durable copy agrees with the token in memory. */
  ghost predicate InSync(s: AuthState) {
    s.storage == s.token
  }

  /** The store as created at startup: the token is read back from storage
      and the user is not known yet. */
  function Hydrate(stored: Option<string>): (s: AuthState)
    ensures s.token == stored && s.storage == stored && s.user.None?
    ensures !IsAuthenticated(s)
    ensures InSync(s)
    ensures !s.isLoading && s.error.None?
  {
    AuthState(None, stored, stored, false, None)
  }

  /** `localStorage.setItem` stores the string form of its value, so a
      missing token is stored as the text "undefined". */
  function StoredText(token: Option<string>): string {
    match token
    case Some(t) => t
    case None => "undefined"
  }

  /** `logout`: the backend is told only when a token is held; whatever it
      answers, user, token and the stored copy are cleared. The value is
      whether the backend is called. */
  function Logout(s: AuthState): (r: Step<AuthState, bool>)
    ensures r.value <==> HasToken(s)
    ensures Anonymous(r.state) && !r.state.isLoading
    ensures r.state.error == s.error
  {
    var started := s.(isLoading := true);
    Step(started.(user := None, token := None, storage := None, isLoading := false), HasToken(s))
  }

  /** `getUserProfile`: without a token nothing happens at all; otherwise the
      user is installed, or the message is recorded and the session is torn
      down. */
  function GetUserProfile(s: AuthState, resp: Response<User>): (r: Step<AuthState, Option<User>>)
    ensures !HasToken(s) ==> r.state == s && r.value.None?
    ensures HasToken(s) && Succeeded(resp) ==>
      && r.value == Some(resp.payload) && r.state.user == r.value
      && r.state.token == s.token && r.state.storage == s.storage
    ensures HasToken(s) && !Succeeded(resp) ==> r.value.None? && Anonymous(r.state)
    ensures HasToken(s) ==> SettledOn(r.state.isLoading, r.state.error, resp, ProfileFallback)
    ensures Whole(r.state)
  {
    if !HasToken(s) then Step(s, None)
    else
      var started := s.(isLoading := true, error := None);
      if Succeeded(resp) then
        Step(started.(user := Some(resp.payload), isLoading := false), Some(resp.payload))
      else
        var failed := started.(error := Some(ErrorMessage(resp, ProfileFallback)));
        Step(Logout(failed).state.(isLoading := false), None)
  }

  /** `login`: on success the token goes into memory and storage, the
      profile is fetched with it, and the result is `true` whatever that
      fetch does. On failure the session is left as it was. */
  function Login(s: AuthState, resp: Response<Option<string>>, profile: Response<User>): (r: Step<AuthState, bool>)
    ensures !r.state.isLoading
    ensures r.value <==> Succeeded(resp)
    ensures !Succeeded(resp) ==>
      && r.state.user == s.user && r.state.token == s.token && r.state.storage == s.storage
      && r.state.error == Some(ErrorMessage(resp, LoginFallback))
    ensures Succeeded(resp) && Truthy(resp.payload) && Succeeded(profile) ==>
      && IsAuthenticated(r.state) && r.state.user == Some(profile.payload)
      && r.state.token == resp.payload && r.state.storage == resp.payload
      && r.state.error.None?
    ensures Succeeded(resp) && Truthy(resp.payload) && !Succeeded(profile) ==>
      Anonymous(r.state) && r.state.error == Some(ErrorMessage(profile, ProfileFallback))
    ensures Succeeded(resp) && !Truthy(resp.payload) ==>
      && r.state.user == s.user && r.state.token == resp.payload
      && r.state.storage == Some(StoredText(resp.payload)) && r.state.error.None?
  {
    var started := s.(isLoading := true, error := None);
    if Succeeded(resp) then
      var withToken := started.(token := resp.payload, storage := Some(StoredText(resp.payload)));
      var fetched := GetUserProfile(withToken, profile).state;
      Step(fetched.(isLoading := false), true)
    else
      Step(started.(error := Some(ErrorMessage(resp, LoginFallback)), isLoading := false), false)
  }

  /** `register`: submits the form and reports success; it never signs the
      user in. The form itself is `FormData.Build`. */
  function Register(s: AuthState, resp: Response<()>): (r: Step<AuthState, bool>)
    ensures r.value <==> Succeeded(resp)
    ensures r.state.user == s.user && r.state.token == s.token && r.state.storage == s.storage
    ensures SettledOn(r.state.isLoading, r.state.error, resp, RegisterFallback)
  {
    var started := s.(isLoading := true, error := None);
    Step(started.(error := ErrorAfter(resp, RegisterFallback), isLoading := false), Succeeded(resp))
  }

  /** `updateProfile`: the user becomes the backend's copy on success and is
      untouched on failure. */
  function UpdateProfile(s: AuthState, resp: Response<User>): (r: Step<AuthState, bool>)
    ensures r.value <==> Succeeded(resp)
    ensures Succeeded(resp) ==> r.state.user == Some(resp.payload)
    ensures !Succeeded(resp) ==> r.state.user == s.user
    ensures r.state.token == s.token && r.state.storage == s.storage
    ensures SettledOn(r.state.isLoading, r.state.error, resp, UpdateProfileFallback)
  {
    var started := s.(isLoading := true, error := None);
    if Succeeded(resp) then
      Step(started.(user := Some(resp.payload), isLoading := false), true)
    else
      Step(started.(error := Some(ErrorMessage(resp, UpdateProfileFallback)), isLoading := false), false)
  }

  /** `updateProfilePhoto`: on success only the photo of an existing user
      changes, and the result is `true` even when there is no user. */
  function UpdateProfilePhoto(s: AuthState, resp: Response<Option<string>>): (r: Step<AuthState, bool>)
    ensures r.value <==> Succeeded(resp)
    ensures r.state.user.Some? <==> s.user.Some?
    ensures r.state.user.Some? ==>
      && r.state.user.value.id == s.user.value.id
      && r.state.user.value.name == s.user.value.name
      && r.state.user.value.email == s.user.value.email
      && r.state.user.value.role == s.user.value.role
    ensures r.state.user.Some? ==>
      r.state.user.value.profilePhoto == (if Succeeded(resp) then resp.payload else s.user.value.profilePhoto)
    ensures r.state.token == s.token && r.state.storage == s.storage
    ensures SettledOn(r.state.isLoading, r.state.error, resp, UpdatePhotoFallback)
  {
    var started := s.(isLoading := true, error := None);
    if Succeeded(resp) then
      var user := if s.user.Some? then Some(s.user.value.(profilePhoto := resp.payload)) else None;
      Step(started.(user := user, isLoading := false), true)
    else
      Step(started.(error := Some(ErrorMessage(resp, UpdatePhotoFallback)), isLoading := false), false)
  }

  /** Logging out twice ends where logging out once does, and the second
      call does not reach the backend. */
  lemma LogoutIdempotent(s: AuthState)
    ensures Logout(Logout(s).state).state == Logout(s).state
    ensures !Logout(Logout(s).state).value
  {
  }

  /** One user-visible session action with the responses it meets. */
  datatype Action =
    | SignIn(resp: Response<Option<string>>, profile: Response<User>)
    | SignUp(reply: Response<()>)
    | FetchProfile(me: Response<User>)
    | SignOut
    | EditProfile(update: Response<User>)
    | ChangePhoto(photo: Response<Option<string>>)

  function Apply(s: AuthState, a: Action): (r: AuthState)
    ensures Whole(s) ==> Whole(r)
    ensures InSync(s) && (a.SignIn? && Succeeded(a.resp) ==> a.resp.payload.Some?) ==> InSync(r)
    ensures !s.isLoading ==> !r.isLoading
  {
    match a
    case SignIn(resp, profile) => Login(s, resp, profile).state
    case SignUp(reply) => Register(s, reply).state
    case FetchProfile(me) => GetUserProfile(s, me).state
    case SignOut => Logout(s).state
    case EditProfile(update) => UpdateProfile(s, update).state
    case ChangePhoto(photo) => UpdateProfilePhoto(s, photo).state
  }

  /** The session after the actions, in order. */
  function Run(s: AuthState, actions: seq<Action>): AuthState
    decreases |actions|
  {
    if |actions| == 0 then s else Run(Apply(s, actions[0]), actions[1..])
  }

  /** Once whole, the session stays whole through any sequence of actions:
      no completed action leaves a usable token without a user. */
  lemma {:induction false} RunKeepsSessionWhole(s: AuthState, actions: seq<Action>)
    requires Whole(s)
    ensures Whole(Run(s, actions))
    decreases |actions|
  {
    if |actions| > 0 {
      RunKeepsSessionWhole(Apply(s, actions[0]), actions[1..]);
    }
  }

  /** A session hydrated from storage becomes whole after its first profile
      fetch, whatever that fetch returns, and stays whole afterwards. */
  lemma HydratedSessionBecomesWhole(stored: Option<string>, me: Response<User>, actions: seq<Action>)
    ensures Whole(Run(Hydrate(stored), [FetchProfile(me)] + actions))
  {
    var s := Apply(Hydrate(stored), FetchProfile(me));
    assert ([FetchProfile(me)] + actions)[1..] == actions;
    RunKeepsSessionWhole(s, actions);
  }

  /** Storage and memory agree through any sequence of actions whose
      successful logins carry a token. */
  lemma {:induction false} RunKeepsStorageInSync(s: AuthState, actions: seq<Action>)
    requires InSync(s)
    requires forall i :: 0 <= i < |actions| && actions[i].SignIn? && Succeeded(actions[i].resp) ==>
      actions[i].resp.payload.Some?
    ensures InSync(Run(s, actions))
    decreases |actions|
  {
    if |actions| > 0 {
      var rest := actions[1..];
      assert forall i :: 0 <= i < |rest| ==> rest[i] == actions[i + 1];
      RunKeepsStorageInSync(Apply(s, actions[0]), rest);
    }
  }

  /** A successful login answer without a token leaves the text "undefined"
      in storage while memory holds no token, so the two disagree; on the
      next start that text comes back as a usable token. */
  lemma MissingTokenDesyncsStorage(s: AuthState, profile: Response<User>)
    ensures Login(s, Ok(true, None, None), profile).state.storage == Some("undefined")
    ensures Login(s, Ok(true, None, None), profile).state.token.None?
    ensures !InSync(Login(s, Ok(true, None, None), profile).state)
    ensures Login(s, Ok(true, None, None), profile).value
    ensures HasToken(Hydrate(Login(s, Ok(true, None, None), profile).state.storage))
  {
  }
}
