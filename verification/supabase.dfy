/** The database row types of `lib/supabase.ts` and the outcomes of the
    Supabase calls the pages make. The client itself is not modelled: every
    call's outcome is an input to the operation that awaits it. */
module Supabase {

  datatype Option<+T> = None | Some(value: T)

  /** The closed role of a membership row. */
  datatype Role = Admin | Member

  /** A row of the `teams` table. */
  datatype Team = Team(id: string, name: string, createdAt: string, updatedAt: string)

  /** A row of the `team_members` table. */
  datatype TeamMember = TeamMember(
    id: string, teamId: string, userId: string, role: Role,
    createdAt: string, updatedAt: string)

  /** A `team_members` row as the pages select it: its role and the joined `teams` record. */
  datatype MemberRow = MemberRow(role: Role, team: Team)

  /** The parts of an authenticated session the pages read. */
  datatype Session = Session(userId: string, email: string)

  /** What awaiting `auth.getSession()` gives: a session or null together
      with an error flag, or a rejected promise. */
  datatype SessionProbe = Resolved(session: Option<Session>, error: bool) | Rejected

  /** What awaiting the `team_members` select gives: its `data` (possibly
      null), or a failure -- an `error` in the response, which the pages
      rethrow, or a rejected promise; both land in the same `catch`. */
  datatype TeamQuery = Rows(data: Option<seq<MemberRow>>) | QueryFailed

  /** The probe yielded a session object; the pages that only destructure
      `session` ignore the error flag. */
  predicate HasSession(probe: SessionProbe)
  {
    probe.Resolved? && probe.session.Some?
  }

  /** `rows.map(tm => tm.teams)`: the joined teams, same length and order. */
  function TeamsOf(rows: seq<MemberRow>): (teams: seq<Team>)
    ensures |teams| == |rows|
    ensures forall i :: 0 <= i < |rows| ==> teams[i] == rows[i].team
  {
    if rows == [] then [] else [rows[0].team] + TeamsOf(rows[1..])
  }
}
