/** The component feeding the Redux slice from the identity service
    (`src/components/AuthProvider.js`). The user and the directory row looked
    up for it are inputs. */
module AuthProvider {
  import opened Options
  import opened Identity
  import opened AuthSlice

  /** Notifications from the identity service's change listener. */
  datatype AuthEvent = SignedIn | TokenRefreshed | SignedOut | OtherEvent(name: string)

  /** The initial load: a signed-in user's row (or `null` when there is
      none), else a clear. */
  function InitialAction(user: Option<User>, record: Option<Profile>): (a: Action)
    ensures user.Some? ==> a == SetProfile(record)
    ensures user.None? ==> a == ClearProfile
  {
    if user.Some? then SetProfile(record) else ClearProfile
  }

  /** The action the change listener dispatches, if any; `record` is the
      row looked up for the session's user on a sign-in or refresh. */
  function EventAction(e: AuthEvent, record: Option<Profile>): (a: Option<Action>)
    ensures (e.SignedIn? || e.TokenRefreshed?) ==> a == Some(SetProfile(record))
    ensures e.SignedOut? ==> a == Some(ClearProfile)
    ensures e.OtherEvent? ==> a.None?
  {
    match e
    case SignedIn => Some(SetProfile(record))
    case TokenRefreshed => Some(SetProfile(record))
    case SignedOut => Some(ClearProfile)
    case OtherEvent(_) => None
  }

  /** The store after the listener handles `e`. */
  function OnEvent(s: AuthState, e: AuthEvent, record: Option<Profile>): (r: AuthState)
    ensures e.OtherEvent? ==> r == s
    ensures e.SignedOut? ==> r == AuthState(None, false)
    ensures (e.SignedIn? || e.TokenRefreshed?) ==> r == AuthState(record, false)
  {
    match EventAction(e, record)
    case Some(a) => Reduce(s, a)
    case None => s
  }

  /** Fail-closed: starting from a store without a profile, when no
      directory row exists neither the initial load nor any event puts a
      profile there. (An unrecognised event keeps whatever the store held,
      so the empty start is needed.) */
  lemma MissingRecordFailsClosed(s: AuthState, user: Option<User>, e: AuthEvent)
    requires s.profile.None?
    ensures Reduce(s, InitialAction(user, None)).profile.None?
    ensures OnEvent(s, e, None).profile.None?
  {
  }

  /** After the initial load the store is no longer loading, and it holds a
      profile only if a user is signed in and a row exists for them. */
  lemma InitialLoadSettles(user: Option<User>, record: Option<Profile>)
    ensures var r := Reduce(Initial, InitialAction(user, record));
            !r.loading && (r.profile.Some? <==> user.Some? && record.Some?)
  {
  }
}
