/** The dashboard layout (`app/dashboard/layout.tsx`): on mount it probes the
    session and fetches the user's teams; a missing session, a failed probe or
    a failed query sends the visitor to the login page, and so does the
    sign-out button. A once-settable latch (`redirected`) makes sure that at
    most one of these navigations is ever pushed per layout instance. */
module DashboardLayout {
  import opened Supabase

  const LoginPath: string := "/login"

  /** The externally visible effects of the layout, in the order they happen. */
  datatype Effect =
    | QueryTeams(userId: string)  // the `team_members` select, filtered by user id
    | ProviderSignOut             // `supabase.auth.signOut()`
    | Push(path: string)          // `router.push(path)`

  function PushOf(e: Effect): seq<string>
  {
    if e.Push? then [e.path] else []
  }

  /** The navigation targets in an effect log, in order. */
  function Pushes(effects: seq<Effect>): (paths: seq<string>)
    ensures |paths| <= |effects|
  {
    if effects == [] then []
    else
      var init := effects[..|effects| - 1];
      assert effects == init + [effects[|effects| - 1]];
      Pushes(init) + PushOf(effects[|effects| - 1])
  }

  lemma PushesSnoc(effects: seq<Effect>, e: Effect)
    ensures Pushes(effects + [e]) == Pushes(effects) + PushOf(e)
  {
    assert (effects + [e])[..|effects|] == effects;
  }

  /** The layout's display state, its latch and its effect log. */
  datatype Layout = Layout(
    userTeams: seq<Team>,
    userRole: Option<Role>,
    loading: bool,
    redirected: bool,
    effects: seq<Effect>)

  /** The layout's invariant: the latch is set exactly when the single push,
      to the login page, has happened. */
  ghost predicate Consistent(s: Layout)
  {
    Pushes(s.effects) == if s.redirected then [LoginPath] else []
  }

  /** The state right after mounting: no teams, no role, loading, latch clear. */
  function Mounted(): (s: Layout)
    ensures Consistent(s) && !s.redirected && s.loading
    ensures s.userTeams == [] && s.userRole == None && s.effects == []
  {
    Layout([], None, true, false, [])
  }

  /** The check-and-set used by every navigating path: push `/login` unless
      the latch is already set, then set it. */
  function RedirectOnce(s: Layout): (r: Layout)
    ensures r.redirected
    ensures r.userTeams == s.userTeams && r.userRole == s.userRole && r.loading == s.loading
    ensures r.effects == s.effects + (if s.redirected then [] else [Push(LoginPath)])
    ensures Consistent(s) ==> Consistent(r)
  {
    if s.redirected then s
    else
      PushesSnoc(s.effects, Push(LoginPath));
      s.(redirected := true, effects := s.effects + [Push(LoginPath)])
  }

  /** The only outcome of `fetchUserData` that does not reach a navigating path:
      a session was found and the team query answered. */
  predicate FetchSucceeds(probe: SessionProbe, query: TeamQuery)
  {
    HasSession(probe) && query.Rows?
  }

  /** The team query `fetchUserData` issues: one, for the session's user, and
      only when a session was found. */
  function QueryOf(probe: SessionProbe): seq<Effect>
  {
    if HasSession(probe) then [QueryTeams(probe.session.value.userId)] else []
  }

  /** `fetchUserData` resumed with the session probe's and the team query's
      outcomes (the query's outcome is not consulted when no query is issued). */
  function AfterFetch(s: Layout, probe: SessionProbe, query: TeamQuery): (r: Layout)
    ensures Consistent(s) ==> Consistent(r)
    // the latch only goes from false to true, and does so on every failure path
    ensures r.redirected == (s.redirected || !FetchSucceeds(probe, query))
    // the query (if any) comes first; a push to /login follows only on failure with the latch clear
    ensures r.effects == s.effects + QueryOf(probe)
              + (if s.redirected || FetchSucceeds(probe, query) then [] else [Push(LoginPath)])
    // loading is cleared exactly when the rows arrived
    ensures r.loading == (s.loading && !FetchSucceeds(probe, query))
    // failures leave the display state alone
    ensures !FetchSucceeds(probe, query) ==> r.userTeams == s.userTeams && r.userRole == s.userRole
    // non-empty rows: the teams in row order, and the first row's role
    ensures FetchSucceeds(probe, query) && query.data.Some? && query.data.value != [] ==>
              r.userTeams == TeamsOf(query.data.value) && r.userRole == Some(query.data.value[0].role)
    // null or empty rows: teams and role are not touched
    ensures FetchSucceeds(probe, query) && (query.data.None? || query.data.value == []) ==>
              r.userTeams == s.userTeams && r.userRole == s.userRole
  {
    if !HasSession(probe) then RedirectOnce(s)
    else
      var queried := s.(effects := s.effects + QueryOf(probe));
      match query
      case QueryFailed => RedirectOnce(queried)
      case Rows(data) =>
        PushesSnoc(s.effects, QueryTeams(probe.session.value.userId));
        if data.Some? && |data.value| > 0 then
          queried.(userTeams := TeamsOf(data.value), userRole := Some(data.value[0].role), loading := false)
        else
          queried.(loading := false)
  }

  /** `handleSignOut`: the provider's sign-out, then the latched push. */
  function AfterSignOut(s: Layout): (r: Layout)
    ensures Consistent(s) ==> Consistent(r)
    ensures r.redirected
    ensures r.effects == s.effects + [ProviderSignOut] + (if s.redirected then [] else [Push(LoginPath)])
    ensures r.userTeams == s.userTeams && r.userRole == s.userRole && r.loading == s.loading
  {
    PushesSnoc(s.effects, ProviderSignOut);
    RedirectOnce(s.(effects := s.effects + [ProviderSignOut]))
  }

  /** The three signals that reach the layout, each one atomic handler resumption. */
  datatype Signal = FetchUserData(probe: SessionProbe, query: TeamQuery) | SignOutClicked

  function Apply(s: Layout, signal: Signal): Layout
  {
    match signal
    case FetchUserData(probe, query) => AfterFetch(s, probe, query)
    case SignOutClicked => AfterSignOut(s)
  }

  /** The signals applied in the order they are listed. */
  function Run(s: Layout, signals: seq<Signal>): Layout
    decreases |signals|
  {
    if signals == [] then s else Run(Apply(s, signals[0]), signals[1..])
  }

  /** A signal that reaches one of the three navigating paths. */
  predicate WantsLogin(signal: Signal)
  {
    signal.SignOutClicked? || !FetchSucceeds(signal.probe, signal.query)
  }

  /** Some signal in the list takes a navigating path. */
  predicate AnyWantsLogin(signals: seq<Signal>)
    decreases |signals|
  {
    signals != [] && (WantsLogin(signals[0]) || AnyWantsLogin(signals[1..]))
  }

  lemma {:induction false} RunKeepsConsistent(s: Layout, signals: seq<Signal>)
    requires Consistent(s)
    ensures Consistent(Run(s, signals))
    decreases |signals|
  {
    if signals != [] {
      RunKeepsConsistent(Apply(s, signals[0]), signals[1..]);
    }
  }

  /** Once latched, a signal still runs (queries, sign-out) but pushes nothing. */
  lemma LatchedSignalPushesNothing(s: Layout, signal: Signal)
    requires s.redirected
    ensures Apply(s, signal).redirected
    ensures Pushes(Apply(s, signal).effects) == Pushes(s.effects)
  {
    match signal
    case FetchUserData(probe, query) =>
      if HasSession(probe) {
        PushesSnoc(s.effects, QueryTeams(probe.session.value.userId));
      } else {
        assert Apply(s, signal).effects == s.effects;
      }
    case SignOutClicked =>
      PushesSnoc(s.effects, ProviderSignOut);
  }

  /** The latch is never reset: after any signals it is set exactly when it was
      set before or some signal took a navigating path; once set, no signal
      pushes anything. */
  lemma {:induction false} LatchNeverResets(s: Layout, signals: seq<Signal>)
    ensures Run(s, signals).redirected == (s.redirected || AnyWantsLogin(signals))
    ensures s.redirected ==> Pushes(Run(s, signals).effects) == Pushes(s.effects)
    decreases |signals|
  {
    if signals != [] {
      var next := Apply(s, signals[0]);
      assert next.redirected == (s.redirected || WantsLogin(signals[0]));
      if s.redirected {
        LatchedSignalPushesNothing(s, signals[0]);
      }
      LatchNeverResets(next, signals[1..]);
    }
  }

  /** In any order of probe outcomes and sign-out clicks, a freshly mounted
      layout pushes at most once, only to `/login`, and does push exactly when
      some signal took a navigating path. */
  lemma AtMostOneNavigation(signals: seq<Signal>)
    ensures Pushes(Run(Mounted(), signals).effects) == if AnyWantsLogin(signals) then [LoginPath] else []
  {
    RunKeepsConsistent(Mounted(), signals);
    LatchNeverResets(Mounted(), signals);
  }

  /** A second sign-out calls the provider again but adds no navigation. */
  lemma RepeatedSignOut(s: Layout)
    ensures Pushes(AfterSignOut(AfterSignOut(s)).effects) == Pushes(AfterSignOut(s).effects)
  {
    var once := AfterSignOut(s);
    assert once.redirected;
    PushesSnoc(once.effects, ProviderSignOut);
  }

  /** The layout component: its React state and `redirected` ref as fields,
      its two handlers as methods. */
  class DashboardLayoutView {
    var userTeams: seq<Team>
    var userRole: Option<Role>
    var loading: bool
    var redirected: bool
    var effects: seq<Effect>

    function State(): Layout
      reads this
    {
      Layout(userTeams, userRole, loading, redirected, effects)
    }

    ghost predicate Valid()
      reads this
    {
      Consistent(State())
    }

    constructor ()
      ensures Valid() && State() == Mounted()
    {
      userTeams := [];
      userRole := None;
      loading := true;
      redirected := false;
      effects := [];
    }

    /** `fetchUserData`, its try block and its catch block. */
    method FetchUserData(probe: SessionProbe, query: TeamQuery)
      requires Valid()
      modifies this
      ensures Valid()
      ensures State() == AfterFetch(old(State()), probe, query)
    {
      ghost var before := State();
      if probe.Resolved? {
        var session := probe.session;
        if session.None? {
          if !redirected {
            redirected := true;
            effects := effects + [Push(LoginPath)];
          }
          assert State() == RedirectOnce(before) == AfterFetch(before, probe, query);
          return;
        }
        effects := effects + [QueryTeams(session.value.userId)];
        ghost var queried := State();
        assert queried == before.(effects := before.effects + QueryOf(probe));
        if query.Rows? {
          var teamMembers := query.data;
          if teamMembers.Some? && |teamMembers.value| > 0 {
            userTeams := TeamsOf(teamMembers.value);
            userRole := Some(teamMembers.value[0].role);
            loading := false;
            assert State() == queried.(userTeams := TeamsOf(teamMembers.value),
                                      userRole := Some(teamMembers.value[0].role), loading := false);
          } else {
            loading := false;
            assert State() == queried.(loading := false);
          }
          assert State() == AfterFetch(before, probe, query);
          return;
        }
        if !redirected {
          redirected := true;
          effects := effects + [Push(LoginPath)];
        }
        assert State() == RedirectOnce(queried) == AfterFetch(before, probe, query);
        return;
      }
      // the catch block: the probe rejected
      if !redirected {
        redirected := true;
        effects := effects + [Push(LoginPath)];
      }
      assert State() == RedirectOnce(before) == AfterFetch(before, probe, query);
    }

    /** `handleSignOut`. */
    method HandleSignOut()
      requires Valid()
      modifies this
      ensures Valid()
      ensures State() == AfterSignOut(old(State()))
    {
      effects := effects + [ProviderSignOut];
      if !redirected {
        redirected := true;
        effects := effects + [Push(LoginPath)];
      }
    }
  }
}
