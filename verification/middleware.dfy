/** The request-time guard that runs before a page is served
    (`src/middleware.js`). The session and the `profiles` lookup made for it
    are inputs; the guard only decides. */
module Middleware {
  import opened Options
  import opened Identity

  datatype Decision = Next | Redirect(target: string)

  const LoginPath: string := "/login"
  const AdminPath: string := "/admin"
  const ChatPath: string := "/chat"
  const RootPath: string := "/"

  predicate StartsWith(s: string, prefix: string) {
    prefix <= s
  }

  /** The route constants are pairwise unrelated by prefix, except that every
      path starts with the root. */
  lemma PathsDistinct()
    ensures !StartsWith(LoginPath, AdminPath) && !StartsWith(LoginPath, ChatPath)
    ensures !StartsWith(ChatPath, AdminPath) && !StartsWith(AdminPath, ChatPath)
    ensures !StartsWith(RootPath, AdminPath) && !StartsWith(RootPath, ChatPath)
    ensures StartsWith(AdminPath, AdminPath) && StartsWith(ChatPath, ChatPath)
    ensures LoginPath != RootPath && AdminPath != RootPath && ChatPath != RootPath
    ensures AdminPath != LoginPath && ChatPath != LoginPath
  {
    assert LoginPath[1] != AdminPath[1] && LoginPath[1] != ChatPath[1];
    assert ChatPath[1] != AdminPath[1];
    assert |RootPath| < |AdminPath| && |RootPath| < |ChatPath|;
  }

  /** The dashboard a signed-in identity is sent to: `/admin` for an
      administrator, `/chat` for everyone else, a missing row included. */
  function DashboardFor(profile: Option<Profile>): (target: string)
    ensures target == AdminPath <==> IsAdmin(profile)
    ensures target == AdminPath || target == ChatPath
  {
    if IsAdmin(profile) then AdminPath else ChatPath
  }

  /** The guard's decision for `pathname`. `profile` is what the directory
      lookup for the session's user returned; it is only consulted when a
      session exists. */
  function Decide(session: Option<Session>, profile: Option<Profile>, pathname: string): (d: Decision)
    // a signed-in identity on the login page is sent to its dashboard
    ensures session.Some? && pathname == LoginPath ==> d == Redirect(DashboardFor(profile))
    // administration pages: no session → login, non-administrator → chat, administrator → through
    ensures StartsWith(pathname, AdminPath) && session.None? ==> d == Redirect(LoginPath)
    ensures StartsWith(pathname, AdminPath) && session.Some? && !IsAdmin(profile) ==> d == Redirect(ChatPath)
    ensures StartsWith(pathname, AdminPath) && session.Some? && IsAdmin(profile) ==> d == Next
    // chat pages: only a session is needed, whatever the role
    ensures StartsWith(pathname, ChatPath) ==> (d == Next <==> session.Some?)
    ensures StartsWith(pathname, ChatPath) && session.None? ==> d == Redirect(LoginPath)
    // the root goes to the dashboard or to login
    ensures pathname == RootPath ==> d == Redirect(if session.Some? then DashboardFor(profile) else LoginPath)
    // the login page without a session, and every other path, pass through
    ensures pathname == LoginPath && session.None? ==> d == Next
    ensures (pathname != LoginPath && pathname != RootPath && !StartsWith(pathname, AdminPath)
             && !StartsWith(pathname, ChatPath)) ==> d == Next
  {
    PathsDistinct();
    if session.Some? && pathname == LoginPath then
      Redirect(DashboardFor(profile))
    else if StartsWith(pathname, AdminPath) && session.None? then
      Redirect(LoginPath)
    else if StartsWith(pathname, AdminPath) && !IsAdmin(profile) then
      Redirect(ChatPath)
    else if StartsWith(pathname, ChatPath) && session.None? then
      Redirect(LoginPath)
    else if pathname == RootPath then
      if session.Some? then Redirect(DashboardFor(profile)) else Redirect(LoginPath)
    else
      Next
  }

  /** The paths `config.matcher` hands to the guard: `/`, `/login`,
      `/admin/:path*` and `/chat/:path*` (a `:path*` parameter may be empty). */
  predicate Matched(pathname: string) {
    || pathname == RootPath || pathname == LoginPath
    || pathname == AdminPath || StartsWith(pathname, AdminPath + "/")
    || pathname == ChatPath || StartsWith(pathname, ChatPath + "/")
  }

  /** What a request experiences: the guard's decision on matched paths,
      no interference elsewhere. */
  function Guard(session: Option<Session>, profile: Option<Profile>, pathname: string): (d: Decision)
    ensures !Matched(pathname) ==> d == Next
    ensures Matched(pathname) ==> d == Decide(session, profile, pathname)
  {
    if Matched(pathname) then Decide(session, profile, pathname) else Next
  }

  /** Every redirect lands on the login page or a dashboard. */
  lemma RedirectTargets(session: Option<Session>, profile: Option<Profile>, pathname: string)
    ensures var d := Decide(session, profile, pathname);
            d.Redirect? ==> d.target in {LoginPath, AdminPath, ChatPath}
  {
    PathsDistinct();
  }

  /** No self-loop: a redirect never points back at the requested path. */
  lemma NoSelfRedirect(session: Option<Session>, profile: Option<Profile>, pathname: string)
    ensures var d := Decide(session, profile, pathname);
            d.Redirect? ==> d.target != pathname
  {
    PathsDistinct();
  }

  /** No redirect chain either: with the same session and directory row, the
      target of a redirect is itself let through, so one hop settles. */
  lemma RedirectSettles(session: Option<Session>, profile: Option<Profile>, pathname: string)
    ensures var d := Decide(session, profile, pathname);
            d.Redirect? ==> Decide(session, profile, d.target) == Next
  {
    PathsDistinct();
  }

  /** Safety of the administration area: whatever the path under `/admin`,
      the request is served only to a session whose row says administrator. */
  lemma AdminAreaOnlyForAdmins(session: Option<Session>, profile: Option<Profile>, pathname: string)
    requires Matched(pathname) && StartsWith(pathname, AdminPath)
    ensures Guard(session, profile, pathname) == Next <==> session.Some? && IsAdmin(profile)
  {
    PathsDistinct();
  }

  /** Safety of the chat area: served to any session and to nobody without one. */
  lemma ChatAreaOnlyForSessions(session: Option<Session>, profile: Option<Profile>, pathname: string)
    requires Matched(pathname) && StartsWith(pathname, ChatPath)
    ensures Guard(session, profile, pathname) == Next <==> session.Some?
  {
    PathsDistinct();
  }
}
