/**
 * The two mock server endpoints: the credential check behind `POST /api/auth/login` and the
 * bearer-header check behind `GET /api/auth/user`, and how the login action uses the first.
 */
module MockApi {
  import opened Wrappers
  import opened Text
  import opened Auth

  /** An error the handler throws: a status code and a message. */
  datatype HttpError = HttpError(statusCode: int, message: string)

  datatype LoginBody = LoginBody(email: string, password: string)

  const DemoEmail: string := "thale@gartland.dev"
  const DemoPassword: string := "demo"
  const MockToken: string := "mock-jwt-token"
  const BearerPrefix: string := "Bearer "

  /** The one user both endpoints return. */
  const DemoUser: User := User("1", "demo@example.com", Athlete, "Demo User", None, None, None, None)

  /** `POST /api/auth/login`. */
  function HandleLogin(body: LoginBody): (r: Result<LoginData, HttpError>)
    ensures r.Success? <==> body.email == DemoEmail && body.password == DemoPassword
    ensures r.Success? ==> r.value == LoginData(MockToken, DemoUser)
    ensures r.Failure? ==> r.error == HttpError(401, "Invalid credentials")
  {
    if body.email == DemoEmail && body.password == DemoPassword then
      Success(LoginData(MockToken, DemoUser))
    else
      Failure(HttpError(401, "Invalid credentials"))
  }

  /** `GET /api/auth/user`, given the `authorization` header if there is one. */
  function HandleCurrentUser(authorization: Option<string>): (r: Result<User, HttpError>)
    ensures r.Success? <==> authorization.Some? && StartsWith(authorization.value, BearerPrefix)
    ensures r.Success? ==> r.value == DemoUser
    ensures r.Failure? ==> r.error == HttpError(401, "Unauthorized")
  {
    if authorization.Some? && StartsWith(authorization.value, BearerPrefix) then
      Success(DemoUser)
    else
      Failure(HttpError(401, "Unauthorized"))
  }

  /** The successful login returns an athlete whose email differs from the one used to sign in. */
  lemma DemoUserShape()
    ensures DemoUser.id == "1" && DemoUser.role == Athlete
    ensures DemoUser.email != DemoEmail
  {
  }

  /** The login result depends only on whether both fields match. */
  lemma LoginDependsOnlyOnMatch(a: LoginBody, b: LoginBody)
    requires (a.email == DemoEmail && a.password == DemoPassword) == (b.email == DemoEmail && b.password == DemoPassword)
    ensures HandleLogin(a) == HandleLogin(b)
  {
  }

  /** The token after the prefix is never inspected: any, even empty, gives the demo user. */
  lemma BearerTokenIgnored(token: string)
    ensures HandleCurrentUser(Some(BearerPrefix + token)) == Success(DemoUser)
  {
    PrefixConcat(BearerPrefix, token);
  }

  /** The prefix is case-sensitive and includes the space. */
  lemma MalformedHeadersRejected(token: string)
    ensures HandleCurrentUser(None).Failure?
    ensures HandleCurrentUser(Some("bearer " + token)).Failure?
    ensures HandleCurrentUser(Some("Bearer")).Failure?
  {
    var h := "bearer " + token;
    assert h[0] != BearerPrefix[0];
  }

  /** Both endpoints describe the same user. */
  lemma EndpointsAgreeOnUser(body: LoginBody, authorization: Option<string>)
    requires HandleLogin(body).Success? && HandleCurrentUser(authorization).Success?
    ensures HandleLogin(body).value.user == HandleCurrentUser(authorization).value
  {
  }

  /** How `fetch` presents a handler result to the login action; an error's body is never read. */
  function ReplyOf(r: Result<LoginData, HttpError>, errorBody: Body): (reply: Reply)
    ensures reply.Response? && (reply.ok <==> r.Success?)
  {
    match r
    case Success(data) => Response(true, Parsed(data))
    case Failure(_) => Response(false, errorBody)
  }

  /**
   * Signing in against the mock endpoint: the demo credentials authenticate the store as the
   * demo athlete with the mock token; anything else fails with "Invalid credentials" and
   * leaves the store as it was.
   */
  lemma LoginAgainstMock(v: StoreView, isClient: bool, stringify: User -> string, body: LoginBody, errorBody: Body)
    ensures var reply := ReplyOf(HandleLogin(body), errorBody);
      var after := AfterLogin(v, isClient, stringify, reply);
      && (LoginOutcome(reply).Success? <==> body.email == DemoEmail && body.password == DemoPassword)
      && (LoginOutcome(reply).Success? ==>
            after.state == AuthState(Some(DemoUser), Some(MockToken), true)
            && IsAuthenticated(after.state) && IsAthlete(after.state) && !IsCoach(after.state))
      && (LoginOutcome(reply).Failure? ==>
            LoginOutcome(reply) == Failure("Invalid credentials") && after == v)
  {
  }
}
