/** The root layout's context provider (`src/app/layout.js`), whose profile
    the landing page and the administration gate read. Unlike the
    fail-closed provider it keeps the previous profile when a lookup fails. */
module RootLayout {
  import opened Options
  import opened Identity
  import opened SessionState
  import AuthContext

  /** The `{ data, error }` pair the lookup resolves with. */
  datatype Lookup = Lookup(data: Option<Profile>, failed: bool)

  /** `if (!error && data) setProfile(data)`. */
  function Resolve(v: AuthView, res: Lookup): (r: AuthView)
    ensures !res.failed && res.data.Some? ==> r.profile == res.data
    ensures res.failed || res.data.None? ==> r.profile == v.profile
    ensures r.user == v.user && r.loading == v.loading
  {
    if !res.failed && res.data.Some? then v.(profile := res.data) else v
  }

  datatype Screen = LoadingScreen | Provide(user: Option<User>, profile: Option<Profile>)

  /** While loading only a placeholder renders; afterwards the children get
      `{ user, profile }`. */
  function Render(v: AuthView): (s: Screen)
    ensures s.LoadingScreen? <==> v.loading
    ensures !v.loading ==> s == Provide(v.user, v.profile)
  {
    if v.loading then LoadingScreen else Provide(v.user, v.profile)
  }

  /** The two providers agree whenever the lookup returns a row. */
  lemma AgreesOnSuccess(v: AuthView, p: Profile)
    ensures Resolve(v, Lookup(Some(p), false)).profile
            == AuthContext.Resolve(v, AuthContext.Resolved(Some(p))).profile
  {
  }

  /** They disagree on failure: after a failed lookup this provider still
      holds an administrator profile that the fail-closed one has dropped. */
  lemma RetainsWhereOtherFailsClosed(v: AuthView, error: bool)
    requires IsAdmin(v.profile)
    ensures IsAdmin(Resolve(v, Lookup(None, error)).profile)
    ensures !IsAdmin(AuthContext.Resolve(v, AuthContext.Rejected).profile)
  {
  }

  /** The retained profile is not tied to the current user: when the session
      switches straight to another user and that user's lookup fails, the
      previous user's profile is still the one in context. */
  lemma RetainedProfileMayBelongToPreviousUser(v: AuthView, other: User)
    requires v.user.Some? && v.profile.Some? && v.profile.value.id == v.user.value.id
    requires other.id != v.user.value.id
    ensures var r := Resolve(OnUserChange(ObserveSession(v, Some(Session(other)))), Lookup(None, true));
            r.user == Some(other) && r.profile == v.profile && r.profile.value.id != other.id
  {
  }
}
