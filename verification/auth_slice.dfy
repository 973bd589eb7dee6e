/** The Redux slice holding the signed-in profile (`src/store/authSlice.js`). */
module AuthSlice {
  import opened Options
  import opened Identity

  datatype AuthState = AuthState(profile: Option<Profile>, loading: bool)

  /** The slice's three actions; `SetProfile`'s payload may be `null`. */
  datatype Action = SetProfile(payload: Option<Profile>) | ClearProfile | SetLoading(flag: bool)

  /** No profile, still loading. */
  const Initial: AuthState := AuthState(None, true)

  function Reduce(s: AuthState, a: Action): (r: AuthState)
    ensures a.SetProfile? ==> r.profile == a.payload && !r.loading
    ensures a.ClearProfile? ==> r.profile.None? && !r.loading
    ensures a.SetLoading? ==> r.loading == a.flag && r.profile == s.profile
  {
    match a
    case SetProfile(p) => AuthState(p, false)
    case ClearProfile => AuthState(None, false)
    case SetLoading(b) => s.(loading := b)
  }

  /** Clearing twice is clearing once. */
  lemma ClearIdempotent(s: AuthState)
    ensures Reduce(Reduce(s, ClearProfile), ClearProfile) == Reduce(s, ClearProfile)
  {
  }

  /** The store after dispatching `actions` in order. */
  function ReduceAll(s: AuthState, actions: seq<Action>): AuthState
    decreases |actions|
  {
    if actions == [] then s else ReduceAll(Reduce(s, actions[0]), actions[1..])
  }

  /** The profile an action leaves, when it is one that sets it. */
  function ProfileOf(a: Action): Option<Profile>
    requires !a.SetLoading?
  {
    if a.SetProfile? then a.payload else None
  }

  /** Reference reading of the store's profile: the payload of the last
      action that sets or clears it, or the starting profile if there is none. */
  function LastProfile(start: Option<Profile>, actions: seq<Action>): Option<Profile>
    decreases |actions|
  {
    if actions == [] then start
    else
      var a := actions[|actions| - 1];
      if a.SetLoading? then LastProfile(start, actions[..|actions| - 1]) else ProfileOf(a)
  }

  lemma {:induction false} ReduceAllSnoc(s: AuthState, actions: seq<Action>, a: Action)
    ensures ReduceAll(s, actions + [a]) == Reduce(ReduceAll(s, actions), a)
    decreases |actions|
  {
    if actions == [] {
      assert [] + [a] == [a];
      assert [a][1..] == [];
    } else {
      assert (actions + [a])[1..] == actions[1..] + [a];
      ReduceAllSnoc(Reduce(s, actions[0]), actions[1..], a);
    }
  }

  /** Only `setProfile` and `clearProfile` decide the profile, the last of
      them wins, and `setLoading` never touches it. */
  lemma {:induction false} ProfileIsLastWritten(s: AuthState, actions: seq<Action>)
    ensures ReduceAll(s, actions).profile == LastProfile(s.profile, actions)
    decreases |actions|
  {
    if actions != [] {
      var init := actions[..|actions| - 1];
      var a := actions[|actions| - 1];
      assert actions == init + [a];
      ReduceAllSnoc(s, init, a);
      ProfileIsLastWritten(s, init);
    }
  }
}
