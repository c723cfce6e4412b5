/** The login page (`app/login/page.tsx`): a one-shot session probe that
    sends an already signed-in visitor to the dashboard, an auth-state
    listener that does the same on `SIGNED_IN` for as long as it is
    subscribed, and the `redirectTo` URL handed to the sign-in widget. The
    page has no latch: the probe and the listener may each push. */
module LoginPage {
  import opened Supabase

  const DashboardPath: string := "/dashboard"

  /** The event kinds the listener receives; only `SIGNED_IN` is acted upon. */
  datatype AuthEvent = SignedIn | SignedOut | InitialSession | OtherEvent(name: string)

  /** `isLoading`, `redirectTo`, whether the listener is subscribed, and the
      pushed paths in order. */
  datatype Login = Login(isLoading: bool, redirectTo: string, subscribed: bool, pushes: seq<string>)

  function Mounted(): (s: Login)
    ensures s.isLoading && s.redirectTo == "" && !s.subscribed && s.pushes == []
  {
    Login(true, "", false, [])
  }

  /** The probe's only navigating outcome: no error and a session. */
  predicate AlreadySignedIn(probe: SessionProbe)
  {
    probe.Resolved? && !probe.error && probe.session.Some?
  }

  /** `checkSession` resumed with the probe's outcome. */
  function AfterCheckSession(s: Login, probe: SessionProbe): (r: Login)
    // the finally block: loading ends on every path
    ensures !r.isLoading
    // exactly one push, to the dashboard, when a session exists and no error was reported
    ensures r.pushes == s.pushes + (if AlreadySignedIn(probe) then [DashboardPath] else [])
    // an error, no session or a rejection navigates nowhere
    ensures (probe.Rejected? || probe.error || probe.session.None?) ==> r.pushes == s.pushes
    ensures r.redirectTo == s.redirectTo && r.subscribed == s.subscribed
  {
    var pushes := if AlreadySignedIn(probe) then s.pushes + [DashboardPath] else s.pushes;
    s.(isLoading := false, pushes := pushes)
  }

  /** `setupAuthListener`: the subscription is acquired. */
  function AfterSubscribe(s: Login): (r: Login)
    ensures r.subscribed
    ensures r.isLoading == s.isLoading && r.redirectTo == s.redirectTo && r.pushes == s.pushes
  {
    s.(subscribed := true)
  }

  /** The effect's cleanup: the subscription is released. */
  function AfterCleanup(s: Login): (r: Login)
    ensures !r.subscribed
    ensures r.isLoading == s.isLoading && r.redirectTo == s.redirectTo && r.pushes == s.pushes
  {
    s.(subscribed := false)
  }

  /** An auth event delivered to the page: it reaches the callback only while
      subscribed, and the callback pushes only on `SIGNED_IN`. */
  function AfterAuthEvent(s: Login, event: AuthEvent): (r: Login)
    ensures r.pushes == s.pushes + (if s.subscribed && event == SignedIn then [DashboardPath] else [])
    ensures event != SignedIn ==> r == s
    ensures !s.subscribed ==> r == s
    ensures r.isLoading == s.isLoading && r.redirectTo == s.redirectTo && r.subscribed == s.subscribed
  {
    if s.subscribed && event == SignedIn then s.(pushes := s.pushes + [DashboardPath]) else s
  }

  /** `typeof window !== 'undefined' ? window.location.origin : ''`. */
  function BaseUrl(windowOrigin: Option<string>): (url: string)
    ensures windowOrigin.Some? ==> url == windowOrigin.value
    ensures windowOrigin.None? ==> url == ""
  {
    if windowOrigin.Some? then windowOrigin.value else ""
  }

  /** `${baseUrl}${redirectFrom || '/dashboard'}`: a missing or empty
      `redirectedFrom` falls back to the dashboard, so the URL is never empty. */
  function RedirectTarget(baseUrl: string, redirectedFrom: Option<string>): (url: string)
    ensures |url| > 0
    ensures |url| >= |baseUrl| && url[..|baseUrl|] == baseUrl
    ensures redirectedFrom.Some? && redirectedFrom.value != "" ==> url[|baseUrl|..] == redirectedFrom.value
    ensures redirectedFrom.None? || redirectedFrom.value == "" ==> url[|baseUrl|..] == DashboardPath
  {
    var path := if redirectedFrom.Some? && redirectedFrom.value != "" then redirectedFrom.value else DashboardPath;
    assert (baseUrl + path)[..|baseUrl|] == baseUrl;
    assert (baseUrl + path)[|baseUrl|..] == path;
    baseUrl + path
  }

  /** The effect on `searchParams`: `redirectTo` is (re)computed. */
  function AfterSearchParams(s: Login, windowOrigin: Option<string>, redirectedFrom: Option<string>): (r: Login)
    ensures r.redirectTo != ""
    ensures r.isLoading == s.isLoading && r.subscribed == s.subscribed && r.pushes == s.pushes
  {
    s.(redirectTo := RedirectTarget(BaseUrl(windowOrigin), redirectedFrom))
  }

  /** The sign-in widget is rendered once loading is over and `redirectTo` is non-empty. */
  predicate ShowsAuthWidget(s: Login)
  {
    !s.isLoading && s.redirectTo != ""
  }

  /** Everything that can happen to the page, one atomic step each. */
  datatype Step =
    | CheckSession(probe: SessionProbe)
    | Subscribe
    | Cleanup
    | Deliver(event: AuthEvent)
    | SearchParams(windowOrigin: Option<string>, redirectedFrom: Option<string>)

  function Apply(s: Login, step: Step): Login
  {
    match step
    case CheckSession(probe) => AfterCheckSession(s, probe)
    case Subscribe => AfterSubscribe(s)
    case Cleanup => AfterCleanup(s)
    case Deliver(event) => AfterAuthEvent(s, event)
    case SearchParams(origin, from) => AfterSearchParams(s, origin, from)
  }

  function Run(s: Login, steps: seq<Step>): Login
    decreases |steps|
  {
    if steps == [] then s else Run(Apply(s, steps[0]), steps[1..])
  }

  /** The only destination the page ever navigates to is the dashboard. */
  lemma {:induction false} OnlyDashboard(s: Login, steps: seq<Step>)
    requires forall i :: 0 <= i < |s.pushes| ==> s.pushes[i] == DashboardPath
    ensures forall i :: 0 <= i < |Run(s, steps).pushes| ==> Run(s, steps).pushes[i] == DashboardPath
    ensures |Run(s, steps).pushes| >= |s.pushes|
    decreases |steps|
  {
    if steps != [] {
      OnlyDashboard(Apply(s, steps[0]), steps[1..]);
    }
  }

  /** After cleanup, auth events -- `SIGNED_IN` included -- change nothing
      until the page subscribes again. */
  lemma {:induction false} ReleasedListenerIsSilent(s: Login, events: seq<AuthEvent>)
    requires !s.subscribed
    ensures Run(s, seq(|events|, i requires 0 <= i < |events| => Deliver(events[i]))) == s
    decreases |events|
  {
    if events != [] {
      var steps := seq(|events|, i requires 0 <= i < |events| => Deliver(events[i]));
      var rest := seq(|events| - 1, i requires 0 <= i < |events| - 1 => Deliver(events[1..][i]));
      assert steps[1..] == rest;
      ReleasedListenerIsSilent(s, events[1..]);
    }
  }

  /** Once computed, `redirectTo` stays non-empty whatever happens next. */
  lemma {:induction false} RedirectToStaysNonEmpty(s: Login, steps: seq<Step>)
    requires s.redirectTo != ""
    ensures Run(s, steps).redirectTo != ""
    decreases |steps|
  {
    if steps != [] {
      RedirectToStaysNonEmpty(Apply(s, steps[0]), steps[1..]);
    }
  }

  /** Once the probe has returned and `redirectTo` has been computed, the
      sign-in widget is on screen, whatever the probe found. */
  lemma WidgetShownAfterProbeAndParams(s: Login, probe: SessionProbe, windowOrigin: Option<string>, redirectedFrom: Option<string>)
    ensures ShowsAuthWidget(AfterCheckSession(AfterSearchParams(s, windowOrigin, redirectedFrom), probe))
    ensures ShowsAuthWidget(AfterSearchParams(AfterCheckSession(s, probe), windowOrigin, redirectedFrom))
  {
  }

  /** No latch: a signed-in probe and a later `SIGNED_IN` event both push. */
  lemma ProbeAndListenerBothPush(session: Session)
    ensures Run(Mounted(), [Subscribe, CheckSession(Resolved(Some(session), false)), Deliver(SignedIn)]).pushes
            == [DashboardPath, DashboardPath]
  {
    var s1 := AfterSubscribe(Mounted());
    var s2 := AfterCheckSession(s1, Resolved(Some(session), false));
    var steps := [Subscribe, CheckSession(Resolved(Some(session), false)), Deliver(SignedIn)];
    assert Run(Mounted(), steps) == Run(s1, steps[1..]);
    assert Run(s1, steps[1..]) == Run(s2, steps[2..]);
    var s3 := AfterAuthEvent(s2, SignedIn);
    assert Run(s2, steps[2..]) == Run(s3, steps[3..]) && steps[3..] == [];
    assert s2.pushes == [DashboardPath];
  }

  /** The login page component: its state and subscription as fields. */
  class LoginPageView {
    var isLoading: bool
    var redirectTo: string
    var subscribed: bool
    var pushes: seq<string>

    function State(): Login
      reads this
    {
      Login(isLoading, redirectTo, subscribed, pushes)
    }

    constructor ()
      ensures State() == Mounted()
    {
      isLoading := true;
      redirectTo := "";
      subscribed := false;
      pushes := [];
    }

    /** `checkSession`, with its early returns and its `finally`. */
    method CheckSession(probe: SessionProbe)
      modifies this
      ensures State() == AfterCheckSession(old(State()), probe)
    {
      if probe.Resolved? {
        if probe.error {
          isLoading := false;
          return;
        }
        if probe.session.Some? {
          pushes := pushes + [DashboardPath];
          isLoading := false;
          return;
        }
      }
      isLoading := false;
    }

    method SetupAuthListener()
      modifies this
      ensures State() == AfterSubscribe(old(State()))
    {
      subscribed := true;
    }

    method Cleanup()
      modifies this
      ensures State() == AfterCleanup(old(State()))
    {
      subscribed := false;
    }

    /** The `onAuthStateChange` callback, reached only while subscribed. */
    method OnAuthStateChange(event: AuthEvent)
      modifies this
      ensures State() == AfterAuthEvent(old(State()), event)
    {
      if subscribed && event == SignedIn {
        pushes := pushes + [DashboardPath];
      }
    }

    method ComputeRedirectTo(windowOrigin: Option<string>, redirectedFrom: Option<string>)
      modifies this
      ensures State() == AfterSearchParams(old(State()), windowOrigin, redirectedFrom)
    {
      var baseUrl := if windowOrigin.Some? then windowOrigin.value else "";
      var redirectFrom := if redirectedFrom.Some? && redirectedFrom.value != "" then redirectedFrom.value else DashboardPath;
      redirectTo := baseUrl + redirectFrom;
    }
  }
}
