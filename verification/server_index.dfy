/** The server-rendered index page (`src/app/page.tsx`): two guards, a
    client that can be constructed and a signed-in user, then the user's
    dashboard; and its sign-out server action. `redirect` ends the request,
    so each request yields the calls it made and one outcome. */
module ServerIndex {
  import opened Supabase

  const LoginPath: string := "/login"

  /** Whether `createServerClient(cookieStore)` returns or throws. */
  datatype ClientConstruction = Constructed | ConstructorThrew

  /** The user `auth.getUser()` reports. */
  datatype User = User(id: string, email: string)

  /** The identity-provider calls a request makes. */
  datatype ServerCall = GetUser | SignOut

  datatype Outcome = Redirect(path: string) | RenderDashboard(email: string)

  datatype Response = Response(calls: seq<ServerCall>, outcome: Outcome)

  /** `canInitSupabaseClient`: the try/catch around client construction. */
  function CanInitSupabaseClient(construction: ClientConstruction): (ok: bool)
    ensures ok <==> construction != ConstructorThrew
  {
    match construction
    case Constructed => true
    case ConstructorThrew => false
  }

  /** `Index`, given the construction outcome and the user `getUser` would report. */
  function Index(construction: ClientConstruction, user: Option<User>): (r: Response)
    // no client: to the login page before any user lookup
    ensures !CanInitSupabaseClient(construction) ==> r.calls == [] && r.outcome == Redirect(LoginPath)
    ensures CanInitSupabaseClient(construction) ==> r.calls == [GetUser]
    // the dashboard is rendered exactly when both guards pass, for that user
    ensures r.outcome.RenderDashboard? <==> CanInitSupabaseClient(construction) && user.Some?
    ensures r.outcome.RenderDashboard? ==> r.outcome.email == user.value.email
    ensures r.outcome.Redirect? ==> r.outcome.path == LoginPath
  {
    if !CanInitSupabaseClient(construction) then Response([], Redirect(LoginPath))
    else if user.None? then Response([GetUser], Redirect(LoginPath))
    else Response([GetUser], RenderDashboard(user.value.email))
  }

  /** The sign-out server action, given whether `signOut` reported an error:
      the error is not inspected, so it always signs out, then redirects to login. */
  function SignOutAction(signOutFailed: bool): (r: Response)
    ensures r.calls == [SignOut]
    ensures r.outcome == Redirect(LoginPath)
  {
    Response([SignOut], Redirect(LoginPath))
  }
}
