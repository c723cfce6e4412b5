# Session gate and team bootstrap of the SEO tool, in Dafny

This project models the client-side session gate of a Next.js + Supabase
application, along with the route decisions around it:

- **Dashboard layout** (`app/dashboard/layout.tsx`). On mount it probes the
  session and fetches the visitor's team memberships. Every failure (no
  session, a rejected probe, a failed team query) sends the visitor to
  `/login`, and so does the sign-out button. A once-settable latch
  (`redirected`) makes sure that at most one of those navigations happens per
  layout instance.
- **Login page** (`app/login/page.tsx`). It has:
  - a one-shot probe that sends a signed-in visitor to `/dashboard`;
  - an auth-state listener that does the same on `SIGNED_IN` while it is
    subscribed;
  - the `redirectTo` URL it hands to the sign-in widget.

  The page has no latch.
- **Dashboard page** (`app/dashboard/page.tsx`). It fetches the teams and
  shows either the team cards or a "not a member" prompt. It never navigates.
- **Route decisions**:
  - the root page's session routing (`app/page.tsx`);
  - the server index page's guards and its sign-out action
    (`src/app/page.tsx`);
  - the sign-up action's redirects, callback URL and message banner
    (`src/app/signup/page.tsx`);
  - the Google button's redirect fallback and label
    (`src/components/GoogleAuthButton.tsx`).

Every Supabase call appears only through its outcome, which is a parameter
of the step that awaits it (`Supabase.SessionProbe`, `Supabase.TeamQuery`, a
user, an error flag). Navigation is a path appended to a log. A server-side
`redirect` ends the request, so it is the request's result.

The three client components that update state are modelled in two layers:

- A value-level state (`Layout`, `Login`, `Page`) with one step function per
  handler resumption. `Run` applies a list of steps in any chosen order. The
  properties are proved about these functions.
- A class with the component's state as fields and its handlers as methods.
  Each method makes its updates one by one, as the source does, and promises
  `State() == Step(old(State()), …)`.

A handler resumption is one atomic step, so every interleaving of the probe,
the listener and clicks is one sequence of steps.

## Model

| member | source | states |
|---|---|---|
| `Supabase.TeamsOf` | app/dashboard/layout.tsx:55 | The projection of membership rows to their joined teams has the rows' length, and element i is row i's team (same order). |
| `DashboardLayout.Mounted` | app/dashboard/layout.tsx:19-22 | A mounted layout has no teams, no role, `loading` true and the latch clear, with nothing pushed; the layout invariant holds. |
| `DashboardLayout.RedirectOnce` | app/dashboard/layout.tsx:30-33 | The check-and-set always leaves the latch set. It appends a push to `/login` exactly when the latch was clear, leaves the display state alone and keeps the invariant. |
| `DashboardLayout.AfterFetch` | app/dashboard/layout.tsx:25-66 | The latch is set afterwards iff it was set before or the fetch failed (no session, rejected probe, failed query). It never resets. The team query for the session's user is issued iff a session exists, and before any push. At most one push, to `/login`, happens only on failure with the latch clear. `loading` is cleared iff the rows arrived. Failures leave teams and role alone. Non-empty rows give the rows' teams in order and the first row's role. Null or empty rows leave teams and role untouched. |
| `DashboardLayout.AfterSignOut` | app/dashboard/layout.tsx:72-78 | The provider's sign-out is logged first. A push to `/login` follows only if the latch was clear. The latch ends set, the display state is unchanged and the invariant is kept. |
| `DashboardLayout.RunKeepsConsistent` | app/dashboard/layout.tsx:22-78 | For any sequence of fetch outcomes and sign-out clicks, the invariant "the pushes are exactly `[/login]` when latched and none otherwise" is preserved. |
| `DashboardLayout.LatchedSignalPushesNothing` | app/dashboard/layout.tsx:30-31 | Once latched, any signal still runs its query or sign-out, but it pushes nothing and the latch stays set. |
| `DashboardLayout.LatchNeverResets` | app/dashboard/layout.tsx:22-78 | After any signal sequence the latch is set iff it was set before or some signal took a navigating path. Once set, no further push happens. |
| `DashboardLayout.AtMostOneNavigation` | app/dashboard/layout.tsx:24-78 | From mount, in any order, the layout's pushes are exactly `[/login]` if some signal took a navigating path and none otherwise: at most one navigation, and only to `/login`. |
| `DashboardLayout.RepeatedSignOut` | app/dashboard/layout.tsx:72-78 | A second sign-out adds no navigation. |
| `DashboardLayout.DashboardLayoutView.constructor` | app/dashboard/layout.tsx:19-22 | The component's fields start as the mounted state, invariant included. |
| `DashboardLayout.DashboardLayoutView.FetchUserData` | app/dashboard/layout.tsx:25-66 | The try/catch handler, update by update, leaves exactly the state `AfterFetch` describes and keeps the invariant. |
| `DashboardLayout.DashboardLayoutView.HandleSignOut` | app/dashboard/layout.tsx:72-78 | The handler leaves exactly the state `AfterSignOut` describes and keeps the invariant. |
| `LoginPage.Mounted` | app/login/page.tsx:14-15 | A mounted login page is loading, has an empty `redirectTo`, no subscription and no pushes. |
| `LoginPage.AfterCheckSession` | app/login/page.tsx:18-36 | Loading ends on every path. There is exactly one push, to `/dashboard`, iff the probe resolved without error and with a session. An error, no session or a rejection pushes nothing. |
| `LoginPage.AfterSubscribe` | app/login/page.tsx:42-48 | Setting up the listener subscribes it and changes nothing else. |
| `LoginPage.AfterCleanup` | app/login/page.tsx:50-58 | Cleanup releases the subscription and changes nothing else. |
| `LoginPage.AfterAuthEvent` | app/login/page.tsx:43-47 | An event pushes `/dashboard` iff the listener is subscribed and the event is `SIGNED_IN`. Every other event (`SIGNED_OUT`, `INITIAL_SESSION`, …), and every event after release, leaves the page unchanged. |
| `LoginPage.BaseUrl` | app/login/page.tsx:63 | The base is the window's origin when there is a window, and empty otherwise. |
| `LoginPage.RedirectTarget` | app/login/page.tsx:64 | The URL is the base followed by `redirectedFrom` when that is present and non-empty, and by `/dashboard` otherwise. It is never empty. |
| `LoginPage.AfterSearchParams` | app/login/page.tsx:61-65 | Computing `redirectTo` makes it non-empty and changes nothing else. |
| `LoginPage.OnlyDashboard` | app/login/page.tsx:17-59 | Over any sequence of probes, subscriptions, events and parameter changes, every path the page pushes is `/dashboard`, and pushes are never removed. |
| `LoginPage.ReleasedListenerIsSilent` | app/login/page.tsx:50-58 | Once the subscription is released, any sequence of auth events, `SIGNED_IN` included, leaves the page unchanged. |
| `LoginPage.RedirectToStaysNonEmpty` | app/login/page.tsx:61-65 | Once computed, `redirectTo` stays non-empty whatever happens next. |
| `LoginPage.WidgetShownAfterProbeAndParams` | app/login/page.tsx:67-88 | After the probe and the `redirectTo` computation, in either order, the sign-in widget is shown. |
| `LoginPage.ProbeAndListenerBothPush` | app/login/page.tsx:26-47 | There is no latch: a signed-in probe followed by `SIGNED_IN` pushes `/dashboard` twice. |
| `LoginPage.LoginPageView.constructor` | app/login/page.tsx:14-15 | The component's fields start as the mounted state. |
| `LoginPage.LoginPageView.CheckSession` | app/login/page.tsx:18-36 | The handler, with its early returns and its `finally`, leaves exactly the state `AfterCheckSession` describes. |
| `LoginPage.LoginPageView.SetupAuthListener` | app/login/page.tsx:42-48 | Leaves exactly the state `AfterSubscribe` describes. |
| `LoginPage.LoginPageView.Cleanup` | app/login/page.tsx:50-58 | Leaves exactly the state `AfterCleanup` describes. |
| `LoginPage.LoginPageView.OnAuthStateChange` | app/login/page.tsx:43-47 | Leaves exactly the state `AfterAuthEvent` describes. |
| `LoginPage.LoginPageView.ComputeRedirectTo` | app/login/page.tsx:61-65 | Leaves exactly the state `AfterSearchParams` describes. |
| `DashboardPage.Mounted` | app/dashboard/page.tsx:13-14 | A mounted page has no teams, is loading and has queried nothing. |
| `DashboardPage.AfterFetchTeams` | app/dashboard/page.tsx:17-45 | Loading is false after every outcome. One query, for the session user's id, is issued iff a session exists. Returned rows (even none) replace the list with their teams in order. No session, a rejected probe, a failed query or null data leave the list unchanged. The page state has no navigation at all. |
| `DashboardPage.View` | app/dashboard/page.tsx:50-91 | The loading screen shows iff loading. The "not a member" prompt shows iff loading is over and the list is empty. Otherwise the cards show the list. |
| `DashboardPage.NoSessionShowsPrompt` | app/dashboard/page.tsx:19-20 | Without a session the page queries nothing and ends on the "not a member" prompt. |
| `DashboardPage.DashboardPageView.constructor` | app/dashboard/page.tsx:13-14 | The component's fields start as the mounted state. |
| `DashboardPage.DashboardPageView.FetchTeams` | app/dashboard/page.tsx:17-45 | The try/catch/finally handler leaves exactly the state `AfterFetchTeams` describes. |
| `DashboardPage.DashboardPageView.OnCreateTeam` | app/dashboard/page.tsx:67-68 | The Create button's handler changes nothing. |
| `HomePage.CheckSession` | app/page.tsx:12-19 | A resolved probe gives exactly one push: `/dashboard` iff there is a session and `/login` iff there is none. A rejected probe gives none. |
| `HomePage.OnlyPresenceMatters` | app/page.tsx:13-14 | The route depends only on whether a session exists, not on its contents or on the error flag. |
| `ServerIndex.CanInitSupabaseClient` | src/app/page.tsx:8-17 | True iff client construction does not throw. |
| `ServerIndex.Index` | src/app/page.tsx:19-58 | Without a client: redirect to `/login` with no user lookup. With one: exactly one lookup. The dashboard renders iff both guards pass, and it shows that user's email. Every redirect goes to `/login`. |
| `ServerIndex.SignOutAction` | src/app/page.tsx:40-46 | The action signs out and then always redirects to `/login`, whatever sign-out reported. |
| `SignupPage.OriginText` | src/app/signup/page.tsx:16 | The interpolated origin is the header's value, or the text `null` when the header is absent. |
| `SignupPage.CallbackUrl` | src/app/signup/page.tsx:26 | The callback URL is the origin's text followed by `/api/auth/callback`. |
| `SignupPage.SignUp` | src/app/signup/page.tsx:13-35 | Email and password are forwarded unchanged, with `emailRedirectTo` set to the callback URL. The redirect is the "Could not create account" URL iff sign-up failed, and the "Check email" URL iff it did not, so exactly one of the two. |
| `SignupPage.ShowsMessageBanner` | src/app/signup/page.tsx:108-114 | The banner shows iff a message is present and non-empty. |
| `SignupPage.GoogleButtonTargetAsWritten` | src/app/signup/page.tsx:101-104 | As written, the page's Google button always targets the page's callback URL; the button's own fallback never applies. |
| `SignupPage.MissingOriginDefeatsFallback` | src/app/signup/page.tsx:101-104 | Without an origin header, that target is `null/api/auth/callback`, not the window origin's callback. |
| `SignupPage.GoogleButtonRedirectTo` | src/app/signup/page.tsx:101-104 | Corrected prop: the request origin's callback when the header is present, and no prop otherwise. |
| `SignupPage.GoogleButtonTargetIsOnAnOrigin` | src/app/signup/page.tsx:101-104 | With the corrected prop, the button targets `/api/auth/callback` on the request's origin, or on the window's origin when there is no header. |
| `GoogleAuthButton.OAuthTarget` | src/components/GoogleAuthButton.tsx:18 | A present, non-empty `redirectTo` is the target. An absent or empty one falls back to the window origin followed by `/api/auth/callback`. The target is never empty. |
| `GoogleAuthButton.HandleGoogleAuth` | src/components/GoogleAuthButton.tsx:14-21 | The provider is always `google`, and the redirect is the `OAuthTarget`. |
| `GoogleAuthButton.Label` | src/components/GoogleAuthButton.tsx:36 | The label is "Sign in with Google" iff the mode is sign-in, and "Sign up with Google" iff it is sign-up. |

## Design versus code

Where the system's design description and the code disagree, the model
follows the code:

- **Fetch errors in the dashboard layout.** The design says the layout should
  not navigate on them. The layout's `catch` navigates to `/login`
  (app/dashboard/layout.tsx:60-65), and `AfterFetch` models that.
- **Latch and listener.** The design gives every gate a latch and a
  `SIGNED_OUT` listener. The login page has no latch
  (`ProbeAndListenerBothPush`), and the dashboard layout has no auth
  listener.
- **Teardown.** The design says teardown must stop all navigation. On the
  login page, teardown releases only the listener. A probe that resolves
  after cleanup still pushes: `AfterCheckSession` does not depend on
  `subscribed`.
- **Team provisioning.** The two-step team provisioning in the design does
  not exist. The Create button's handler is empty
  (app/dashboard/page.tsx:68, `OnCreateTeam`).
- **Query errors on the dashboard page.** The dashboard page only logs them
  and keeps the current list (app/dashboard/page.tsx:40-41).

## Left out

- The Supabase client and every network call: `createClient`, `getSession`,
  `getUser`, `signUp`, `signInWithOAuth`, `signOut` and the `team_members`
  select. Only their outcomes are modelled, as inputs.
- Next.js plumbing (`router.push`, `redirect`, `headers()`, `cookies()`).
  Navigation is a path in a log, and a redirect is the request's result.
- React scheduling (effect dependency arrays, StrictMode double mounting, real
  async interleaving). Each handler resumption is one atomic step, and the
  lemmas quantify over every order of steps.
- `DashboardLayout.AfterSignOut`: the model assumes `signOut()` always
  completes. If its promise rejected, `handleSignOut` would stop before the
  latch check and push nothing.
- Thrown server-side calls end the request with an error page:
  `getUser` and the second `createServerClient` call in `Index`, client
  construction in the sign-out action, and a rejected `signUp`. These paths
  are not modelled.
- `SignupPage.SignUp`: `formData.get` can return `null` or a file. The model
  takes the two fields as strings, which is what the form's `required` text
  inputs send.
- Presentation: JSX markup, styling, spinners, the SVG logo and the Auth UI
  widget's own behaviour. Also the layout's render gate and its team/role
  header (app/dashboard/layout.tsx:80-100). Because the sign-out button only
  exists once `loading` is false, `HandleSignOut` is allowed in every state,
  which covers more cases than the page can reach.
- Session fields other than the user id and email (expiry, tokens).
- Locale date formatting of `created_at` (app/dashboard/page.tsx:85) and
  console logging.
- Team creation, which is not implemented in the code.

## Findings

| source | as written | input that shows it | evidently intended | confidence | as-written member | corrected member |
|---|---|---|---|---|---|---|
| src/app/signup/page.tsx:101-104 | The page renders the Google button with `redirectTo` set to `` `${headers().get('origin')}/api/auth/callback` ``. | A page request that carries no `Origin` header, as ordinary GET page loads usually do. The prop becomes `null/api/auth/callback`. That string is truthy, so the button's window-origin fallback never runs. | The OAuth callback on the site's own origin: the request's origin when known, the window's otherwise. | medium; not executed | `SignupPage.GoogleButtonTargetAsWritten`, `SignupPage.MissingOriginDefeatsFallback` | `SignupPage.GoogleButtonRedirectTo`, `SignupPage.GoogleButtonTargetIsOnAnOrigin` |
