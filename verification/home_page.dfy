/** The root page (`app/page.tsx`): one session probe, then one push, to the
    dashboard when a session exists and to the login page otherwise. */
module HomePage {
  import opened Supabase

  /** `checkSession`, as the list of paths it pushes. The function has no
      catch, so a rejected probe ends it before any push. */
  function CheckSession(probe: SessionProbe): (pushes: seq<string>)
    ensures probe.Rejected? ==> pushes == []
    // the two branches are exclusive: exactly one push per resolved probe
    ensures probe.Resolved? ==> |pushes| == 1
    ensures probe.Resolved? ==> (pushes[0] == "/dashboard" <==> probe.session.Some?)
    ensures probe.Resolved? ==> (pushes[0] == "/login" <==> probe.session.None?)
  {
    match probe
    case Rejected => []
    case Resolved(session, _) => if session.Some? then ["/dashboard"] else ["/login"]
  }

  /** The route depends only on whether there is a session, not on its
      contents nor on the probe's error flag. */
  lemma OnlyPresenceMatters(a: Session, b: Session, errorA: bool, errorB: bool)
    ensures CheckSession(Resolved(Some(a), errorA)) == CheckSession(Resolved(Some(b), errorB))
    ensures CheckSession(Resolved(None, errorA)) == CheckSession(Resolved(None, errorB))
  {
  }
}
