/** The user / profile / loading triple kept by both context providers
    (`src/components/AuthContextProvider.js` and `src/app/layout.js`), and
    the session observation they share. */
module SessionState {
  import opened Options
  import opened Identity

  datatype AuthView = AuthView(user: Option<User>, profile: Option<Profile>, loading: bool)

  const Initial: AuthView := AuthView(None, None, true)

  /** The initial `getSession` result and every change notification are
      handled alike: the user mirrors the session and loading ends. */
  function ObserveSession(v: AuthView, session: Option<Session>): (r: AuthView)
    ensures r.user == UserOf(session)
    ensures !r.loading
    ensures r.profile == v.profile
  {
    v.(user := UserOf(session), loading := false)
  }

  /** Observing a run of sessions. */
  function ObserveAll(v: AuthView, sessions: seq<Option<Session>>): AuthView
    decreases |sessions|
  {
    if sessions == [] then v else ObserveAll(ObserveSession(v, sessions[0]), sessions[1..])
  }

  /** Loading is over after the first observation and never comes back;
      the user is always that of the latest session. */
  lemma {:induction false} ObservedLast(v: AuthView, sessions: seq<Option<Session>>)
    requires |sessions| > 0
    ensures var r := ObserveAll(v, sessions);
            !r.loading && r.user == UserOf(sessions[|sessions| - 1]) && r.profile == v.profile
    decreases |sessions|
  {
    if |sessions| > 1 {
      ObservedLast(ObserveSession(v, sessions[0]), sessions[1..]);
    }
  }

  /** The lookup the `[user]` effect issues: by the user's id, or none. */
  function LookupKey(v: AuthView): (key: Option<UserId>)
    ensures key.Some? <==> v.user.Some?
    ensures v.user.Some? ==> key.value == v.user.value.id
  {
    match v.user
    case Some(u) => Some(u.id)
    case None => None
  }

  /** The synchronous half of the `[user]` effect: with no user the profile
      is dropped at once; with one, it waits for the lookup. */
  function OnUserChange(v: AuthView): (r: AuthView)
    ensures v.user.None? ==> r.profile.None?
    ensures v.user.Some? ==> r.profile == v.profile
    ensures r.user == v.user && r.loading == v.loading
  {
    if v.user.None? then v.(profile := None) else v
  }
}
