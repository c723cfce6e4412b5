/** The dashboard page (`app/dashboard/page.tsx`): it fetches the user's
    teams once, clears its loading flag on every path, and shows either the
    team cards or a "not a member of any teams" prompt whose Create button
    does nothing. It holds no router, so it never navigates. */
module DashboardPage {
  import opened Supabase

  /** `teams`, `loading`, and the user ids the page queried `team_members` for. */
  datatype Page = Page(teams: seq<Team>, loading: bool, queries: seq<string>)

  function Mounted(): (p: Page)
    ensures p.teams == [] && p.loading && p.queries == []
  {
    Page([], true, [])
  }

  /** The query answered with rows: the only outcome that replaces `teams`. */
  predicate RowsArrived(probe: SessionProbe, query: TeamQuery)
  {
    HasSession(probe) && query.Rows? && query.data.Some?
  }

  /** `fetchTeams` resumed with the session probe's and the query's outcomes. */
  function AfterFetchTeams(p: Page, probe: SessionProbe, query: TeamQuery): (r: Page)
    // the finally block: loading ends after every outcome
    ensures !r.loading
    // one query, for the session's user, exactly when a session exists
    ensures r.queries == p.queries + (if HasSession(probe) then [probe.session.value.userId] else [])
    // rows (even none) replace the list, in row order
    ensures RowsArrived(probe, query) ==> r.teams == TeamsOf(query.data.value)
    // no session, a rejected probe, a failed query or null data leave the list as it was
    ensures !RowsArrived(probe, query) ==> r.teams == p.teams
  {
    if !HasSession(probe) then p.(loading := false)
    else
      var queried := p.(queries := p.queries + [probe.session.value.userId]);
      if query.Rows? && query.data.Some? then
        queried.(teams := TeamsOf(query.data.value), loading := false)
      else
        queried.(loading := false)
  }

  /** What the page renders. */
  datatype PageView = LoadingScreen | NotAMemberPrompt | TeamCards(teams: seq<Team>)

  function View(p: Page): (v: PageView)
    ensures v.LoadingScreen? <==> p.loading
    ensures v.NotAMemberPrompt? <==> !p.loading && p.teams == []
    ensures v.TeamCards? ==> v.teams == p.teams && v.teams != []
  {
    if p.loading then LoadingScreen
    else if |p.teams| == 0 then NotAMemberPrompt
    else TeamCards(p.teams)
  }

  /** A freshly mounted page with no session queries nothing and, once the
      probe returns, offers the "not a member" prompt. */
  lemma NoSessionShowsPrompt(error: bool, query: TeamQuery)
    ensures AfterFetchTeams(Mounted(), Resolved(None, error), query).queries == []
    ensures View(AfterFetchTeams(Mounted(), Resolved(None, error), query)) == NotAMemberPrompt
  {
  }

  /** The page component: its React state as fields. */
  class DashboardPageView {
    var teams: seq<Team>
    var loading: bool
    var queries: seq<string>

    function State(): Page
      reads this
    {
      Page(teams, loading, queries)
    }

    constructor ()
      ensures State() == Mounted()
    {
      teams := [];
      loading := true;
      queries := [];
    }

    /** `fetchTeams`: try, catch (which only logs) and finally. */
    method FetchTeams(probe: SessionProbe, query: TeamQuery)
      modifies this
      ensures State() == AfterFetchTeams(old(State()), probe, query)
    {
      if probe.Resolved? && probe.session.Some? {
        queries := queries + [probe.session.value.userId];
        if query.Rows? {
          var teamMembers := query.data;
          if teamMembers.Some? {
            teams := TeamsOf(teamMembers.value);
          }
        }
      }
      loading := false;
    }

    /** The Create a Team button's handler: an empty body, so nothing changes. */
    method OnCreateTeam()
      ensures unchanged(this)
    {
    }
  }
}
