/** The client-side gate of the administration area (`src/app/admin/layout.js`),
    fed by the profile in the root layout's context. */
module AdminGate {
  import opened Options
  import opened Identity
  import Middleware

  datatype Screen = AccessDenied | AdminPanel

  /** The gate's effect (a redirect, if any) and what it renders. */
  datatype View = View(redirect: Option<string>, screen: Screen)

  function Gate(profile: Option<Profile>): (v: View)
    // the panel with its children is rendered iff the profile says administrator
    ensures v.screen == AdminPanel <==> IsAdmin(profile)
    // a profile with another role is sent to the chat; nothing else is redirected
    ensures v.redirect.Some? <==> profile.Some? && profile.value.role != AdminRole
    ensures v.redirect.Some? ==> v.redirect.value == Middleware.ChatPath
    // no profile yet: "Access Denied", and no navigation
    ensures profile.None? ==> v == View(None, AccessDenied)
  {
    var redirect := if profile.Some? && profile.value.role != AdminRole then Some(Middleware.ChatPath) else None;
    var screen := if IsAdmin(profile) then AdminPanel else AccessDenied;
    View(redirect, screen)
  }

  /** An administrator is never redirected away. */
  lemma AdminNeverRedirected(profile: Option<Profile>)
    requires IsAdmin(profile)
    ensures Gate(profile).redirect == None
  {
  }

  /** With a session, the client gate and the request guard agree on every
      `/admin` path: the panel renders exactly when the guard lets it through. */
  lemma AgreesWithGuard(session: Session, profile: Option<Profile>, pathname: string)
    requires Middleware.StartsWith(pathname, Middleware.AdminPath)
    ensures Middleware.Decide(Some(session), profile, pathname) == Middleware.Next
            <==> Gate(profile).screen == AdminPanel
  {
  }
}
