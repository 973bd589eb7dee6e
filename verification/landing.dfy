/** The landing page's redirect (`src/app/page.js`): once the profile from
    the root layout is known, choose the one surface to navigate to. */
module Landing {
  import opened Options
  import opened Identity
  import Middleware

  const SuperAdminPath: string := "/super-admin"

  /** The navigation the landing effect performs, if any. Super-administrator
      takes precedence over the role, then `admin`, then `user`; any other
      role, like a missing profile, stays on the landing page. */
  function Target(profile: Option<Profile>): (t: Option<string>)
    ensures profile.None? ==> t.None?
    ensures t == Some(SuperAdminPath) <==> profile.Some? && profile.value.isSuperAdmin
    ensures t == Some(Middleware.AdminPath) <==>
              profile.Some? && !profile.value.isSuperAdmin && profile.value.role == AdminRole
    ensures t == Some(Middleware.ChatPath) <==>
              profile.Some? && !profile.value.isSuperAdmin && profile.value.role == UserRole
    ensures t.None? <==>
              profile.None? || (!profile.value.isSuperAdmin && profile.value.role != AdminRole
                                && profile.value.role != UserRole)
  {
    match profile
    case None => None
    case Some(p) =>
      if p.isSuperAdmin then Some(SuperAdminPath)
      else if p.role == AdminRole then Some(Middleware.AdminPath)
      else if p.role == UserRole then Some(Middleware.ChatPath)
      else None
  }

  /** For an ordinary administrator or user the landing page and the
      request guard's handling of `/` agree on the dashboard. */
  lemma AgreesWithGuardOnRoot(session: Session, profile: Profile)
    requires !profile.isSuperAdmin
    requires profile.role == AdminRole || profile.role == UserRole
    ensures Middleware.Decide(Some(session), Some(profile), Middleware.RootPath)
            == Middleware.Redirect(Target(Some(profile)).value)
  {
  }

  /** The super-administrator flag is honoured only here: the request guard
      sends the same identity to its role's dashboard instead. */
  lemma GuardIgnoresSuperAdmin(session: Session, profile: Profile)
    requires profile.isSuperAdmin
    ensures Target(Some(profile)) == Some(SuperAdminPath)
    ensures Middleware.Decide(Some(session), Some(profile), Middleware.RootPath)
            == Middleware.Redirect(if profile.role == AdminRole then Middleware.AdminPath else Middleware.ChatPath)
  {
  }
}
