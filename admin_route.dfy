/** The guard around the admin pages: a loading screen until the session is
    initialized, then the page for an administrator, and for anyone else
    nothing plus a redirect to the room list. */
module AdminRoute {
  import opened Common
  import opened AuthSlice

  const AdminRole := "ADMIN"
  const NotAdminRedirect := "/chat/rooms"

  predicate IsAdmin(u: Option<User>) {
    u.Some? && u.value.role == AdminRole
  }

  datatype Gate = LoadingScreen | Children | Nothing

  /** What the guard renders. */
  function View(s: AuthState): (g: Gate)
    ensures g.LoadingScreen? <==> !s.isInitialized
    ensures g.Children? <==> s.isInitialized && IsAdmin(s.currentUser)
    ensures g.Nothing? <==> s.isInitialized && !IsAdmin(s.currentUser)
  {
    if !s.isInitialized then LoadingScreen
    else if !IsAdmin(s.currentUser) then Nothing
    else Children
  }

  /** Where the guard's effect navigates, if anywhere. */
  function Redirect(s: AuthState): (r: Option<string>)
    ensures r.Some? <==> s.isInitialized && !IsAdmin(s.currentUser)
    ensures r.Some? ==> r.value == NotAdminRedirect
  {
    if s.isInitialized && (s.currentUser.None? || s.currentUser.value.role != AdminRole)
    then Some(NotAdminRedirect) else None
  }

  /** The admin content is never shown to someone being sent away, and a
      visitor who is not being sent away and is past the loading screen sees
      the admin content. */
  lemma ContentOnlyForAdmins(s: AuthState)
    ensures View(s).Children? ==> Redirect(s).None?
    ensures View(s).Nothing? <==> Redirect(s).Some?
    ensures Redirect(s).None? && !View(s).LoadingScreen? ==> View(s).Children?
  {
  }

  /** Signing out an administrator after start-up turns the content into a
      redirect. */
  lemma ClearAuthLocksOut(s: AuthState)
    requires s.isInitialized
    ensures View(Reduce(s, ClearAuth)).Nothing?
    ensures Redirect(Reduce(s, ClearAuth)) == Some(NotAdminRedirect)
  {
  }
}
