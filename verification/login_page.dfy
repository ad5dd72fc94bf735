/**
 * The login form's submit handler (app/login/page.tsx, `handleLogin`): the
 * credentials are posted, a success logs the user into the session context,
 * and a failure is classified by its HTTP status. The HTTP call is an input.
 */
module LoginPage {
  import opened Common
  import opened Auth

  const BadCredentialsMessage: string := "Incorrect email or password. Please try again."
  const ConnectionMessage: string := "Server connection failed. Is Strapi running?"
  const HomePath: string := "/"

  /** The body posted to the login endpoint: the email is sent as the identifier. */
  datatype Request = Request(identifier: string, password: string)

  /** The backend's reply; a failure carries `err.response?.status`, absent when no response arrived. */
  datatype Reply = LoggedIn(jwt: string, user: User) | Failed(status: Option<int>)

  datatype Outcome = Outcome(
    session: AuthState,
    error: string,
    loading: bool,
    request: Request,
    redirect: Option<string>)

  /** 400 and 401 mean wrong credentials; every other failure, including no response, is a connection problem. */
  function FailureMessage(status: Option<int>): (msg: string)
    ensures msg == BadCredentialsMessage <==> status == Some(400) || status == Some(401)
    ensures msg == ConnectionMessage <==> !(status == Some(400) || status == Some(401))
  {
    if status == Some(400) || status == Some(401) then BadCredentialsMessage else ConnectionMessage
  }

  /**
   * One submit: the request is always sent; success calls `login(user, jwt)`
   * with the reply's values and goes home with no error; failure leaves the
   * session untouched. Loading is off on every path and the previous error
   * plays no part.
   */
  function HandleLogin(session: AuthState, codec: Codec, email: string, password: string, reply: Reply)
    : (r: Outcome)
    ensures !r.loading
    ensures r.request == Request(email, password)
    ensures reply.LoggedIn?
            ==> r.session == Login(session, codec, reply.user, reply.jwt)
                && r.error == "" && r.redirect == Some(HomePath)
    ensures reply.Failed?
            ==> r.session == session && r.error == FailureMessage(reply.status) && r.redirect.None?
  {
    match reply
    case LoggedIn(jwt, user) =>
      Outcome(Login(session, codec, user, jwt), "", false, Request(email, password), Some(HomePath))
    case Failed(status) =>
      Outcome(session, FailureMessage(status), false, Request(email, password), None)
  }

  /** A successful login makes the reply's user current and persists both session keys. */
  lemma SuccessPersistsSession(session: AuthState, codec: Codec, email: string, password: string,
                               jwt: string, user: User)
    requires Faithful(codec)
    ensures var r := HandleLogin(session, codec, email, password, LoggedIn(jwt, user));
            && r.session.user == Some(user)
            && JwtKey in r.session.store && r.session.store[JwtKey] == jwt
            && Hydrate(Initial(r.session.store), codec) == Ok(r.session)
  {
  }

  /** Every failure shows exactly one of the two messages, and never an empty one. */
  lemma FailureIsReported(session: AuthState, codec: Codec, email: string, password: string,
                          status: Option<int>)
    ensures var r := HandleLogin(session, codec, email, password, Failed(status));
            r.error in {BadCredentialsMessage, ConnectionMessage} && r.error != ""
  {
  }
}
