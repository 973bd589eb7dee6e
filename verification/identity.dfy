/** The identity values every screen reads: the signed-in user, the session
    carrying it, and the `profiles` directory row. */
module Identity {
  import opened Options

  type UserId = string

  datatype User = User(id: UserId)

  datatype Session = Session(user: User)

  /** A `profiles` row. `role` is free text in the table; only `"admin"`
      and `"user"` are given meaning by the screens. */
  datatype Profile = Profile(
    id: UserId,
    fullName: Option<string>,
    role: string,
    companyId: Option<string>,
    isSuperAdmin: bool)

  const AdminRole: string := "admin"
  const UserRole: string := "user"

  /** `profile?.role === 'admin'`: a missing row is never an administrator. */
  predicate IsAdmin(profile: Option<Profile>) {
    profile.Some? && profile.value.role == AdminRole
  }

  /** `session?.user ?? null`. */
  function UserOf(session: Option<Session>): (u: Option<User>)
    ensures u.Some? <==> session.Some?
    ensures session.Some? ==> u.value == session.value.user
  {
    match session
    case Some(s) => Some(s.user)
    case None => None
  }
}
