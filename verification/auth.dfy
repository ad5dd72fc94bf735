/**
 * The session context (app/context/AuthContext.tsx): a current user plus the
 * browser's string-to-string local storage, where the session is persisted
 * under the keys "user" (the serialised user) and "jwt" (the bearer token).
 *
 * JSON serialisation is a parameter (`Codec`); the lemmas that need it to
 * round-trip say so with `Faithful`.
 */
module Auth {
  import opened Common

  /** The browser's local storage. */
  type Store = map<string, string>

  const UserKey: string := "user"
  const JwtKey: string := "jwt"
  const LoginPath: string := "/login"

  datatype User = User(id: int, username: string, email: string)

  /**
   * `JSON.stringify` and `JSON.parse` on users; `decode` returns `None` where
   * `JSON.parse` would throw.
   */
  datatype Codec = Codec(encode: User -> string, decode: string -> Option<User>)

  /** Decoding undoes encoding, and an encoded user is never the empty (falsy) string. */
  ghost predicate Faithful(codec: Codec) {
    forall u :: codec.decode(codec.encode(u)) == Some(u) && codec.encode(u) != ""
  }

  /** `localStorage.getItem(key)`: `None` stands for `null`. */
  function GetItem(store: Store, key: string): (v: Option<string>)
    ensures v.Some? <==> key in store
    ensures v.Some? ==> v.value == store[key]
  {
    if key in store then Some(store[key]) else None
  }

  /** What reading the stored user yields: nothing stored, a user, or a parse failure (the reader throws). */
  datatype StoredUser = NoUser | Stored(user: User) | Unparsable

  /** `const s = localStorage.getItem("user"); if (s) … JSON.parse(s)`. */
  function ReadStoredUser(store: Store, codec: Codec): (r: StoredUser)
    ensures r.NoUser? <==> !Truthy(GetItem(store, UserKey))
    ensures r.Stored? ==> UserKey in store && codec.decode(store[UserKey]) == Some(r.user)
    ensures r.Unparsable? ==> UserKey in store && codec.decode(store[UserKey]).None?
  {
    var item := GetItem(store, UserKey);
    if !Truthy(item) then NoUser
    else match codec.decode(item.value)
      case None => Unparsable
      case Some(u) => Stored(u)
  }

  /** The provider's state: the current user and the storage it persists to. */
  datatype AuthState = AuthState(user: Option<User>, store: Store)

  /** A freshly mounted provider starts with no user, whatever is stored. */
  function Initial(store: Store): (st: AuthState)
    ensures st.user.None? && st.store == store
  {
    AuthState(None, store)
  }

  /**
   * The mount effect: a stored user becomes the current user; with nothing
   * stored the state is left as it is; an unparsable entry makes the effect
   * throw. Storage is only read.
   */
  function Hydrate(st: AuthState, codec: Codec): (r: Result<AuthState>)
    ensures r.Ok? ==> r.value.store == st.store
    ensures r.Ok? && !Truthy(GetItem(st.store, UserKey)) ==> r.value == st
    ensures r.Ok? && Truthy(GetItem(st.store, UserKey))
            ==> r.value.user == codec.decode(st.store[UserKey])
    ensures r.Error? <==> ReadStoredUser(st.store, codec).Unparsable?
  {
    match ReadStoredUser(st.store, codec)
    case NoUser => Ok(st)
    case Stored(u) => Ok(st.(user := Some(u)))
    case Unparsable => Error("JSON.parse failed")
  }

  /**
   * `login(user, token)`: the user becomes current and both session keys are
   * written together; every other key keeps its value.
   */
  function Login(st: AuthState, codec: Codec, u: User, token: string): (r: AuthState)
    ensures r.user == Some(u)
    ensures UserKey in r.store && r.store[UserKey] == codec.encode(u)
    ensures JwtKey in r.store && r.store[JwtKey] == token
    ensures r.store.Keys == st.store.Keys + {UserKey, JwtKey}
    ensures forall k :: k in st.store && k != UserKey && k != JwtKey ==> r.store[k] == st.store[k]
  {
    AuthState(Some(u), st.store[UserKey := codec.encode(u)][JwtKey := token])
  }

  /** The state after `logout()` and the page it navigates to. */
  datatype LoggedOut = LoggedOut(state: AuthState, redirect: string)

  /**
   * `logout()`: no current user, both session keys removed together, every
   * other key untouched, then a navigation to the login page.
   */
  function Logout(st: AuthState): (r: LoggedOut)
    ensures r.state.user.None?
    ensures UserKey !in r.state.store && JwtKey !in r.state.store
    ensures r.state.store.Keys == st.store.Keys - {UserKey, JwtKey}
    ensures forall k :: k in r.state.store ==> r.state.store[k] == st.store[k]
    ensures r.redirect == LoginPath
  {
    LoggedOut(AuthState(None, st.store - {UserKey, JwtKey}), LoginPath)
  }

  /** A session logged in and then reloaded (a fresh provider hydrating) has the same user again. */
  lemma LoginSurvivesReload(st: AuthState, codec: Codec, u: User, token: string)
    requires Faithful(codec)
    ensures var stored := Login(st, codec, u, token).store;
            Hydrate(Initial(stored), codec) == Ok(AuthState(Some(u), stored))
  {
  }

  /** After a logout a reload finds nobody logged in. */
  lemma LogoutSurvivesReload(st: AuthState, codec: Codec)
    ensures var stored := Logout(st).state.store;
            Hydrate(Initial(stored), codec) == Ok(Initial(stored))
  {
  }

  /** Logging out after logging in leaves storage as it was apart from the session keys. */
  lemma LogoutUndoesLogin(st: AuthState, codec: Codec, u: User, token: string)
    ensures Logout(Login(st, codec, u, token)).state == Logout(st).state
  {
  }

  /** What `useContext(AuthContext)` finds: the provider's state, or nothing outside a provider. */
  datatype ContextValue = ContextValue(state: AuthState)

  /** `useAuth()`: outside a provider it throws. */
  function UseAuth(ctx: Option<ContextValue>): (r: Result<ContextValue>)
    ensures r.Error? <==> ctx.None?
    ensures r.Error? ==> r.message == "useAuth must be used within an AuthProvider"
    ensures r.Ok? ==> Some(r.value) == ctx
  {
    match ctx
    case None => Error("useAuth must be used within an AuthProvider")
    case Some(c) => Ok(c)
  }
}
