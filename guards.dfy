/** The two route guards. Each shows its children, or a placeholder, and
    sends the browser to the login page once the auth state is known and
    does not allow the page. */
module Guards {
  import opened Wrappers
  import opened Records
  import Auth

  datatype GuardView = Children | Placeholder(text: string)

  const LoginRoute := "/login"

  /** `ProtectedRoute`'s render. */
  function ProtectedView(loading: bool, user: Option<AuthUser>): (v: GuardView)
    ensures v.Children? <==> !loading && user.Some?
    ensures v.Placeholder? ==> v.text == "Carregando..."
  {
    if loading || user.None? then Placeholder("Carregando...") else Children
  }

  /** `ProtectedRoute`'s effect: the route it pushes, if any. */
  function ProtectedRedirect(loading: bool, user: Option<AuthUser>): (r: Option<string>)
    ensures r.Some? <==> !loading && user.None?
    ensures r.Some? ==> r.value == LoginRoute
  {
    if loading then None
    else if user.None? then Some(LoginRoute)
    else None
  }

  /** `AdminProtectedRoute`'s render. */
  function AdminView(loading: bool, user: Option<AuthUser>, isAdmin: bool): (v: GuardView)
    ensures v.Children? <==> !loading && user.Some? && isAdmin
    ensures v.Placeholder? ==> v.text == "Verificando permissões..."
  {
    if loading || user.None? || !isAdmin then Placeholder("Verificando permissões...") else Children
  }

  /** `AdminProtectedRoute`'s effect. */
  function AdminRedirect(loading: bool, user: Option<AuthUser>, isAdmin: bool): (r: Option<string>)
    ensures r.Some? <==> !loading && (user.None? || !isAdmin)
    ensures r.Some? ==> r.value == LoginRoute
  {
    if !loading && (user.None? || !isAdmin) then Some(LoginRoute) else None
  }

  /** Neither guard redirects while the auth state is loading; once it is
      known, each either shows its children or redirects, never both. */
  lemma GuardsRenderOrRedirect(loading: bool, user: Option<AuthUser>, isAdmin: bool)
    ensures loading ==> ProtectedRedirect(loading, user).None? && AdminRedirect(loading, user, isAdmin).None?
    ensures !loading ==> (ProtectedView(loading, user).Children? <==> ProtectedRedirect(loading, user).None?)
    ensures !loading ==>
      (AdminView(loading, user, isAdmin).Children? <==> AdminRedirect(loading, user, isAdmin).None?)
    ensures ProtectedView(loading, user).Children? ==> ProtectedRedirect(loading, user).None?
    ensures AdminView(loading, user, isAdmin).Children? ==> AdminRedirect(loading, user, isAdmin).None?
  {
  }

  /** Whatever the admin guard lets through, the plain guard lets through, and
      whenever the plain guard redirects, so does the admin guard. */
  lemma AdminGuardStricter(loading: bool, user: Option<AuthUser>, isAdmin: bool)
    ensures AdminView(loading, user, isAdmin).Children? ==> ProtectedView(loading, user).Children?
    ensures ProtectedRedirect(loading, user).Some? ==> AdminRedirect(loading, user, isAdmin).Some?
  {
  }

  /** After the auth listener reports a user, the admin pages open exactly for
      a user whose stored role is "admin"; everyone else is sent to login. */
  lemma AdminPagesOpenOnlyForStoredAdmins(users: map<string, UserDoc>, u: AuthUser, readOk: bool)
    ensures var r := Auth.ResolveRole(users, Some(u), readOk);
      (AdminView(false, Some(u), r.isAdmin).Children? <==>
        readOk && u.uid in users && users[u.uid].role == Some("admin"))
      && (AdminRedirect(false, Some(u), r.isAdmin).Some? <==>
        !(readOk && u.uid in users && users[u.uid].role == Some("admin")))
  {
    Auth.AdminIffStoredAdminRole(users, Some(u), readOk);
  }
}
