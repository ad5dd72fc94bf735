/**
 * The sign-up form's submit handler (app/components/clients/register.tsx,
 * `handleRegister`): password confirmation, the registration request, the
 * session written straight to local storage on success, and the choice of
 * error message on failure. The HTTP call is an input: its reply is given.
 */
module Register {
  import opened Common
  import opened Auth

  const MismatchMessage: string := "Passwords do not match. Please check again."
  const TakenMessage: string := "This email is already registered. Please Log In."
  const ShortPasswordMessage: string := "Password must be at least 6 characters long."
  const GenericMessage: string := "Registration failed. Please try again or check your connection."
  /** The backend's wording for a duplicate account. */
  const TakenServerMessage: string := "Email or Username are already taken"
  const MinPasswordLength: nat := 6
  const HomePath: string := "/"

  datatype Form = Form(username: string, email: string, password: string, confirmPassword: string)

  /** The body posted to the registration endpoint. */
  datatype Request = Request(username: string, email: string, password: string)

  /**
   * The backend's reply: a token and user, or a failure carrying
   * `err.response?.data?.error?.message` (absent for a network failure).
   */
  datatype Reply = Registered(jwt: string, user: User) | Rejected(serverMessage: Option<string>)

  /** The observable result of one submit. */
  datatype Outcome = Outcome(
    error: string,
    loading: bool,
    request: Option<Request>,
    store: Store,
    redirect: Option<string>)

  /** The message shown after a failed request. */
  function FailureMessage(form: Form, serverMessage: Option<string>): (msg: string)
    ensures serverMessage == Some(TakenServerMessage) ==> msg == TakenMessage
    ensures serverMessage != Some(TakenServerMessage) && Utf16Length(form.password) < MinPasswordLength
            ==> msg == ShortPasswordMessage
    ensures serverMessage != Some(TakenServerMessage) && Utf16Length(form.password) >= MinPasswordLength
            ==> msg == GenericMessage
  {
    if serverMessage == Some(TakenServerMessage) then TakenMessage
    else if Utf16Length(form.password) < MinPasswordLength then ShortPasswordMessage
    else GenericMessage
  }

  /**
   * One submit. The previous error is cleared first, so the outcome never
   * depends on it; a mismatch stops before any request; success writes both
   * session keys and goes home; loading is off on every path.
   */
  function HandleRegister(form: Form, store: Store, codec: Codec, reply: Reply): (r: Outcome)
    ensures !r.loading
    ensures form.password != form.confirmPassword
            ==> r.error == MismatchMessage && r.request.None? && r.store == store && r.redirect.None?
    ensures form.password == form.confirmPassword
            ==> r.request == Some(Request(form.username, form.email, form.password))
    ensures r.redirect.Some? <==> form.password == form.confirmPassword && reply.Registered?
    ensures r.redirect.Some?
            ==> && r.redirect.value == HomePath && r.error == ""
                && r.store == store[JwtKey := reply.jwt][UserKey := codec.encode(reply.user)]
    ensures form.password == form.confirmPassword && reply.Rejected?
            ==> r.store == store && r.error == FailureMessage(form, reply.serverMessage)
  {
    if form.password != form.confirmPassword then
      Outcome(MismatchMessage, false, None, store, None)
    else
      var request := Some(Request(form.username, form.email, form.password));
      match reply
      case Registered(jwt, user) =>
        Outcome("", false, request, store[JwtKey := jwt][UserKey := codec.encode(user)], Some(HomePath))
      case Rejected(serverMessage) =>
        Outcome(FailureMessage(form, serverMessage), false, request, store, None)
  }

  /**
   * The password-length message is never chosen before asking the server: a
   * short password with matching confirmation is still sent, and a successful
   * reply is accepted.
   */
  lemma ShortPasswordStillSent(form: Form, store: Store, codec: Codec, jwt: string, user: User)
    requires form.password == form.confirmPassword && Utf16Length(form.password) < MinPasswordLength
    ensures var r := HandleRegister(form, store, codec, Registered(jwt, user));
            r.request.Some? && r.error == "" && r.redirect == Some(HomePath)
  {
  }

  /**
   * A successful registration writes storage exactly as a login with the same
   * user and token would, but it does not make the user current in the
   * session context: only a reload (hydration) picks the user up.
   */
  lemma RegisterStoresLikeLogin(form: Form, st: AuthState, codec: Codec, jwt: string, user: User)
    requires form.password == form.confirmPassword
    requires Faithful(codec)
    ensures var r := HandleRegister(form, st.store, codec, Registered(jwt, user));
            && r.store == Login(st, codec, user, jwt).store
            && Hydrate(Initial(r.store), codec) == Ok(AuthState(Some(user), r.store))
  {
  }

  /** The UTF-16 length matters: a two-character password of astral symbols is four units long. */
  lemma LengthCountsUtf16Units()
    ensures Utf16Length("\U{1F600}\U{1F600}") == 4
    ensures |"\U{1F600}\U{1F600}"| == 2
  {
  }
}
