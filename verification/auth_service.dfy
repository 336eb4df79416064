/** The storage side effects of the authentication service
    (`src/services/authService.ts`) and the media service's header helper.
    `localStorage` is reduced to its two keys; the user stored under
    `user` is kept as a value (its JSON encoding is taken as faithful). */
module AuthService {
  import opened Types
  import opened Text

  /** The `token` and `user` keys of `localStorage`; `None` is an absent key. */
  datatype Storage = Storage(token: Option<string>, user: Option<User>)

  const EmptyStorage: Storage := Storage(None, None)

  /** The body of `/signup` and `/login`. */
  datatype AuthResponse = AuthResponse(token: string, user: User)

  /** The body of `/me`: either `{ user: {...} }` or the bare user fields. */
  datatype MeResponse = MeResponse(nested: Option<User>, bare: User)

  /** The storage after a service call, and what the call resolves to
      (a rejection propagates to the caller). */
  datatype Call<T> = Call(storage: Storage, result: Outcome<T>)

  /** `signup`: on success, store the returned token when it is truthy. */
  function Signup(st: Storage, outcome: Outcome<AuthResponse>): (r: Call<AuthResponse>)
    ensures r.result == outcome
    ensures r.storage.user == st.user
    ensures r.storage.token != st.token ==> outcome.Ok? && outcome.value.token != ""
    ensures outcome.Ok? && outcome.value.token != "" ==> r.storage.token == Some(outcome.value.token)
  {
    match outcome
    case Failed => Call(st, outcome)
    case Ok(data) =>
      if data.token != "" then Call(st.(token := Some(data.token)), outcome) else Call(st, outcome)
  }

  /** `login`: the same storage rule as `signup`. */
  function Login(st: Storage, outcome: Outcome<AuthResponse>): (r: Call<AuthResponse>)
    ensures r.result == outcome
    ensures r.storage.user == st.user
    ensures r.storage.token != st.token ==> outcome.Ok? && outcome.value.token != ""
    ensures outcome.Ok? && outcome.value.token != "" ==> r.storage.token == Some(outcome.value.token)
  {
    match outcome
    case Failed => Call(st, outcome)
    case Ok(data) =>
      if data.token != "" then Call(st.(token := Some(data.token)), outcome) else Call(st, outcome)
  }

  /** `logout`: the token is removed in `finally`, so also when the POST
      fails; the failure still reaches the caller. */
  function Logout(st: Storage, outcome: Outcome<()>): (r: Call<()>)
    ensures r.storage == st.(token := None)
    ensures r.result == outcome
  {
    Call(st.(token := None), outcome)
  }

  /** `getToken`: whatever is under the `token` key, absent included. */
  function GetToken(st: Storage): (t: Option<string>)
    ensures t.None? <==> st.token.None?
    ensures t.Some? ==> t.value == st.token.value
  {
    st.token
  }

  /** `isAuthenticated`: `!!getToken()`, so a stored empty token does not
      count. */
  predicate IsAuthenticated(st: Storage): (b: bool)
    ensures b <==> st.token.Some? && st.token.value != ""
  {
    Truthy(GetToken(st))
  }

  /** The `Authorization` header `getMe` sends: the stored token is
      interpolated as is, so an absent one is written as `null`. */
  function MeAuthorization(st: Storage): (h: string)
    ensures StartsWith(h, "Bearer ")
    ensures st.token.Some? ==> h[7..] == st.token.value
    ensures st.token.None? ==> h == "Bearer null"
  {
    var shown := if st.token.Some? then st.token.value else "null";
    assert ("Bearer " + shown)[..7] == "Bearer ";
    "Bearer " + shown
  }

  /** The `Authorization` header the media service attaches: empty when
      there is no truthy token. */
  function MediaAuthorization(st: Storage): (h: string)
    ensures h == "" <==> !IsAuthenticated(st)
    ensures IsAuthenticated(st) ==> h == MeAuthorization(st)
  {
    if Truthy(st.token) then "Bearer " + st.token.value else ""
  }

  /** The two header builders differ exactly when no truthy token is
      stored, and then `getMe` still sends a bearer header. */
  /** After `logout` nothing is authenticated any more, whether the POST
      succeeded or not: the media header is empty and `getMe` would send
      `Bearer null`. The stored user is left behind. */
  lemma LogoutDropsCredentials(st: Storage, outcome: Outcome<()>)
    ensures var after := Logout(st, outcome).storage;
            && !IsAuthenticated(after) && GetToken(after).None?
            && MediaAuthorization(after) == ""
            && MeAuthorization(after) == "Bearer null"
            && after.user == st.user
  {
  }

  lemma HeadersDisagreeOnlyWithoutToken(st: Storage)
    ensures MediaAuthorization(st) == MeAuthorization(st) <==> IsAuthenticated(st)
  {
    if !IsAuthenticated(st) {
      assert |MeAuthorization(st)| >= 7;
    }
  }
}
