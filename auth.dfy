/** The session snapshot that the auth provider hands to every consumer
    (`useAuth()`): who is signed in, with which role and preferences, and
    whether the session is still being resolved. */
module Auth {
  import opened Wrappers

  /** The privileged role that unlocks the admin routes and navigation. */
  const SuperAdminRole := "super-admin"

  datatype Preferences = Preferences(menuLayout: Option<string>)

  datatype User = User(id: string, role: string, preferences: Option<Preferences>)

  datatype AuthState = AuthState(user: Option<User>, isAuthenticated: bool, isLoading: bool)

  /** `user?.role === 'super-admin'`: false when there is no user. */
  predicate IsSuperAdmin(user: Option<User>)
    ensures IsSuperAdmin(user) ==> user.Some?
  {
    user.Some? && user.value.role == SuperAdminRole
  }
}
