/** The session store (`src/store/authStore.ts`): `{user, token,
    isAuthenticated, isLoading}` mirrored into the `token` and `user`
    storage keys. Each action is one transition from the old session and
    storage, given the settled outcome of its remote call. */
module AuthStore {
  import opened Types
  import AuthService

  type Storage = AuthService.Storage

  datatype Session = Session(user: Option<User>, token: Option<string>, isAuthenticated: bool, isLoading: bool)

  /** The remote calls an action makes. */
  datatype AuthCall =
    | SignupCall(name: string, email: string, password: string)
    | LoginCall(email: string, password: string)
    | GetMeCall(authorization: string)

  /** The session and storage after an action, the calls it made, and
      whether its rejection reached the caller. */
  datatype Transition = Transition(session: Session, storage: Storage, calls: seq<AuthCall>, rejected: bool)

  /** All three identity fields cleared together. */
  predicate SignedOut(s: Session) {
    s.user.None? && s.token.None? && !s.isAuthenticated
  }

  /** The store's initial value, read from storage at module load. */
  function Init(st: Storage): (s: Session)
    ensures s.token == st.token && s.user == st.user
    ensures s.isAuthenticated <==> st.token.Some? && st.token.value != ""
    ensures !s.isLoading
  {
    Session(st.user, st.token, Truthy(st.token), false)
  }

  /** `register`: a successful signup does not sign in; it clears both
      keys and the identity fields. */
  function Register(s: Session, st: Storage, name: string, email: string, password: string,
                    outcome: Outcome<AuthService.AuthResponse>): (r: Transition)
    ensures r.calls == [SignupCall(name, email, password)]
    ensures !r.session.isLoading
    ensures outcome.Ok? ==> SignedOut(r.session) && r.storage == AuthService.EmptyStorage && !r.rejected
    ensures outcome.Failed? ==> r.session == s.(isLoading := false) && r.storage == st && r.rejected
  {
    var call := AuthService.Signup(st, outcome);
    var calls := [SignupCall(name, email, password)];
    match call.result
    case Failed => Transition(s.(isLoading := false), call.storage, calls, true)
    case Ok(_) =>
      var cleared := call.storage.(token := None).(user := None);
      Transition(s.(user := None, token := None, isAuthenticated := false, isLoading := false), cleared, calls, false)
  }

  /** `login`: on success both keys and all identity fields are set. */
  function Login(s: Session, st: Storage, email: string, password: string,
                 outcome: Outcome<AuthService.AuthResponse>): (r: Transition)
    ensures r.calls == [LoginCall(email, password)]
    ensures !r.session.isLoading
    ensures outcome.Ok? ==>
              && r.session == Session(Some(outcome.value.user), Some(outcome.value.token), true, false)
              && r.storage == AuthService.Storage(Some(outcome.value.token), Some(outcome.value.user))
              && !r.rejected
    ensures outcome.Failed? ==> r.session == s.(isLoading := false) && r.storage == st && r.rejected
  {
    var call := AuthService.Login(st, outcome);
    var calls := [LoginCall(email, password)];
    match call.result
    case Failed => Transition(s.(isLoading := false), call.storage, calls, true)
    case Ok(data) =>
      var written := call.storage.(token := Some(data.token)).(user := Some(data.user));
      Transition(Session(Some(data.user), Some(data.token), true, false), written, calls, false)
  }

  /** `logout`: local only, no remote call, `isLoading` untouched. */
  function Logout(s: Session, st: Storage): (r: Transition)
    ensures SignedOut(r.session) && r.session.isLoading == s.isLoading
    ensures r.storage == AuthService.EmptyStorage
    ensures r.calls == [] && !r.rejected
  {
    Transition(s.(user := None, token := None, isAuthenticated := false), AuthService.EmptyStorage, [], false)
  }

  /** The user `checkAuth` keeps: `response.user || response`. */
  function MeUser(resp: AuthService.MeResponse): (u: User)
    ensures resp.nested.Some? ==> u == resp.nested.value
    ensures resp.nested.None? ==> u == resp.bare
  {
    resp.nested.GetOr(resp.bare)
  }

  /** `checkAuth`: without a truthy stored token, settle signed out without
      a call; otherwise ask `/me` and keep or drop the session. */
  function CheckAuth(s: Session, st: Storage, outcome: Outcome<AuthService.MeResponse>): (r: Transition)
    ensures !r.session.isLoading && !r.rejected
    ensures !Truthy(st.token) ==> SignedOut(r.session) && r.storage == st && r.calls == []
    ensures Truthy(st.token) ==> r.calls == [GetMeCall("Bearer " + st.token.value)]
    ensures Truthy(st.token) && outcome.Ok? ==>
              && r.session == Session(Some(MeUser(outcome.value)), st.token, true, false)
              && r.storage == st.(user := Some(MeUser(outcome.value)))
    ensures Truthy(st.token) && outcome.Failed? ==>
              SignedOut(r.session) && r.storage == AuthService.EmptyStorage
  {
    var token := AuthService.GetToken(st);
    if !Truthy(token) then
      Transition(Session(None, None, false, false), st, [], false)
    else
      var calls := [GetMeCall(AuthService.MeAuthorization(st))];
      match outcome
      case Ok(resp) =>
        var userData := MeUser(resp);
        Transition(Session(Some(userData), token, true, false), st.(user := Some(userData)), calls, false)
      case Failed =>
        Transition(Session(None, None, false, false), AuthService.EmptyStorage, calls, false)
  }

  /** A stored token always comes with a stored user. */
  predicate StorageConsistent(st: Storage) {
    Truthy(st.token) ==> st.user.Some?
  }

  /** The session invariant the store keeps: settled, and signed in only
      with a token and a user that are exactly the stored ones. */
  predicate Consistent(s: Session, st: Storage) {
    && !s.isLoading
    && StorageConsistent(st)
    && (s.isAuthenticated ==> s.token.Some? && s.user.Some? && s.token == st.token && s.user == st.user)
  }

  datatype Action =
    | RegisterAction(name: string, email: string, password: string, signupOutcome: Outcome<AuthService.AuthResponse>)
    | LoginAction(email: string, password: string, loginOutcome: Outcome<AuthService.AuthResponse>)
    | LogoutAction
    | CheckAuthAction(meOutcome: Outcome<AuthService.MeResponse>)

  function Apply(s: Session, st: Storage, a: Action): Transition {
    match a
    case RegisterAction(n, e, p, o) => Register(s, st, n, e, p, o)
    case LoginAction(e, p, o) => Login(s, st, e, p, o)
    case LogoutAction => Logout(s, st)
    case CheckAuthAction(o) => CheckAuth(s, st, o)
  }

  /** The session and storage after a sequence of actions. */
  function Run(s: Session, st: Storage, actions: seq<Action>): (Session, Storage)
    decreases |actions|
  {
    if actions == [] then (s, st)
    else
      var t := Apply(s, st, actions[0]);
      Run(t.session, t.storage, actions[1..])
  }

  lemma InitConsistent(st: Storage)
    requires StorageConsistent(st)
    ensures Consistent(Init(st), st)
  {
  }

  lemma ApplyKeepsConsistent(s: Session, st: Storage, a: Action)
    requires Consistent(s, st)
    ensures var t := Apply(s, st, a); Consistent(t.session, t.storage)
  {
  }

  /** From storage the store itself could have written, every sequence of
      actions keeps the session consistent with storage. */
  lemma {:induction false} RunKeepsConsistent(s: Session, st: Storage, actions: seq<Action>)
    requires Consistent(s, st)
    ensures var (s', st') := Run(s, st, actions); Consistent(s', st')
    decreases |actions|
  {
    if actions != [] {
      ApplyKeepsConsistent(s, st, actions[0]);
      var t := Apply(s, st, actions[0]);
      RunKeepsConsistent(t.session, t.storage, actions[1..]);
    }
  }

  /** A rejected login is invisible: the identity fields and storage are
      what they were, and the store is no longer loading. */
  lemma FailedLoginChangesNothing(s: Session, st: Storage, email: string, password: string)
    ensures var t := Login(s, st, email, password, Failed);
            && t.session.user == s.user && t.session.token == s.token
            && t.session.isAuthenticated == s.isAuthenticated
            && !t.session.isLoading && t.storage == st && t.rejected
  {
  }

  /** Register never signs in, whatever the server returns. */
  lemma RegisterNeverSignsIn(s: Session, st: Storage, name: string, email: string, password: string,
                             outcome: Outcome<AuthService.AuthResponse>)
    requires !s.isAuthenticated
    ensures !Register(s, st, name, email, password, outcome).session.isAuthenticated
  {
  }

  /** The store's initial flag is the service's `isAuthenticated`. */
  lemma InitAgreesWithService(st: Storage)
    ensures Init(st).isAuthenticated == AuthService.IsAuthenticated(st)
    ensures Init(st).token == AuthService.GetToken(st)
  {
  }

  /** The service's `logout` removes only the token, so a store initialised
      from what it leaves is signed out but still holds the stored user:
      a user without a token. */
  lemma ServiceLogoutLeavesUser(st: Storage, outcome: Outcome<()>)
    requires st.user.Some?
    ensures var s := Init(AuthService.Logout(st, outcome).storage);
            && !s.isAuthenticated && s.token.None? && s.user == st.user
            && !SignedOut(s)
  {
  }

  /** A stored token without a stored user gives an initial session that
      is authenticated with no user; only a successful `checkAuth` fills
      the user in, after which the session is consistent with storage. */
  lemma StoredTokenWithoutUser(t: string, resp: AuthService.MeResponse)
    requires t != ""
    ensures var st := AuthService.Storage(Some(t), None);
            && Init(st).isAuthenticated && Init(st).user.None?
            && !StorageConsistent(st)
    ensures var st := AuthService.Storage(Some(t), None);
            var r := CheckAuth(Init(st), st, Ok(resp));
            && r.session.user == Some(MeUser(resp)) && r.session.isAuthenticated
            && r.storage.user == Some(MeUser(resp))
            && Consistent(r.session, r.storage)
  {
  }

  /** A stored empty token is read as signed out but is not cleared: the
      session holds a token while `isAuthenticated` is false, until a
      `checkAuth` clears the token field. */
  lemma EmptyStoredToken(u: Option<User>)
    ensures var st := AuthService.Storage(Some(""), u);
            && Init(st).token == Some("") && !Init(st).isAuthenticated
            && SignedOut(CheckAuth(Init(st), st, Failed).session)
            && CheckAuth(Init(st), st, Failed).storage == st
  {
  }
}
