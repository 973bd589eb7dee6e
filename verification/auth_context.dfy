/** The context provider that resolves the profile fail-closed
    (`src/components/AuthContextProvider.js`). */
module AuthContext {
  import opened Options
  import opened Identity
  import opened SessionState

  /** How the `profiles` lookup promise settled. A query error resolves
      with `data == None`; `Rejected` is a thrown error. */
  datatype Lookup = Resolved(data: Option<Profile>) | Rejected

  /** `.then(({data}) => setProfile(data || null)).catch(() => setProfile(null))`. */
  function Resolve(v: AuthView, res: Lookup): (r: AuthView)
    ensures res.Resolved? ==> r.profile == res.data
    ensures res.Rejected? ==> r.profile.None?
    ensures r.user == v.user && r.loading == v.loading
  {
    match res
    case Resolved(data) => v.(profile := data)
    case Rejected => v.(profile := None)
  }

  /** Fail-closed: a lookup that does not produce a row leaves no profile,
      whatever profile was held before. */
  lemma FailClosed(v: AuthView, res: Lookup)
    requires res.Rejected? || res.data.None?
    ensures Resolve(v, res).profile.None?
  {
  }

  /** A sign-out followed by its effect leaves neither user nor profile. */
  lemma SignOutClears(v: AuthView)
    ensures var r := OnUserChange(ObserveSession(v, None));
            r.user.None? && r.profile.None? && !r.loading
  {
  }
}
