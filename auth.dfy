/** The authentication context: the signed-in user, whether the auth state
    is still loading, and the user's role read from the `users` collection. */
module Auth {
  import opened Wrappers
  import opened Text
  import opened Records

  /** `isAdmin` and `userRole` together. */
  datatype RoleState = RoleState(isAdmin: bool, userRole: Option<string>)

  /** The role decision of the `onAuthStateChanged` callback; `readOk` says
      whether reading the user document succeeds. */
  function ResolveRole(users: map<string, UserDoc>, currentUser: Option<AuthUser>, readOk: bool): (r: RoleState)
    ensures currentUser.None? ==> r == RoleState(false, None)
    ensures currentUser.Some? && (!readOk || currentUser.value.uid !in users) ==> r == RoleState(false, Some("user"))
    ensures currentUser.Some? && readOk && currentUser.value.uid in users ==>
      var role := users[currentUser.value.uid].role;
      (role == Some("admin") ==> r == RoleState(true, Some("admin")))
      && (role != Some("admin") ==> r == RoleState(false, Some(OrElse(role, "user"))))
  {
    if currentUser.None? then RoleState(false, None)
    else if !readOk || currentUser.value.uid !in users then RoleState(false, Some("user"))
    else
      var role := users[currentUser.value.uid].role;
      if role == Some("admin") then RoleState(true, Some("admin"))
      else RoleState(false, Some(OrElse(role, "user")))
  }

  /** Only a stored role "admin" makes a user an administrator. */
  lemma AdminIffStoredAdminRole(users: map<string, UserDoc>, currentUser: Option<AuthUser>, readOk: bool)
    ensures ResolveRole(users, currentUser, readOk).isAdmin <==>
      currentUser.Some? && readOk && currentUser.value.uid in users
      && users[currentUser.value.uid].role == Some("admin")
  {
  }

  /** The two outputs agree: administrator exactly when the role is "admin";
      a role, never empty, exactly when someone is signed in. */
  lemma RoleStateConsistent(users: map<string, UserDoc>, currentUser: Option<AuthUser>, readOk: bool)
    ensures var r := ResolveRole(users, currentUser, readOk);
      (r.isAdmin <==> r.userRole == Some("admin"))
      && (r.userRole.Some? <==> currentUser.Some?)
      && (r.userRole.Some? ==> r.userRole.value != "")
  {
  }

  /** The fields `updateProfile` may change. */
  datatype ProfileUpdate = ProfileUpdate(displayName: Option<string>, photoURL: Option<string>)

  function ApplyProfileUpdate(u: AuthUser, p: ProfileUpdate): (r: AuthUser)
    ensures r.uid == u.uid && r.email == u.email
    ensures r.displayName == if p.displayName.Some? then p.displayName else u.displayName
    ensures r.photoURL == if p.photoURL.Some? then p.photoURL else u.photoURL
  {
    u.(displayName := if p.displayName.Some? then p.displayName else u.displayName,
       photoURL := if p.photoURL.Some? then p.photoURL else u.photoURL)
  }

  datatype AuthError = NoCurrentUser(message: string) | ProviderError

  const NoCurrentUserMessage := "Nenhum usuário logado para atualizar o perfil"

  class AuthProvider {
    var user: Option<AuthUser>
    var loading: bool
    var isAdmin: bool
    var userRole: Option<string>
    /** Whether the auth-state listener is registered. */
    var subscribed: bool

    constructor()
      ensures user == None && loading && !isAdmin && userRole == None && !subscribed
    {
      user := None;
      loading := true;
      isAdmin := false;
      userRole := None;
      subscribed := false;
    }

    /** Children are rendered only once the auth state is known. */
    predicate RendersChildren()
      reads this
    {
      !loading
    }

    /** The mount effect: without auth or the database the provider stops
        loading and listens to nothing. */
    method Mount(authAvailable: bool, dbAvailable: bool)
      modifies this
      ensures !(authAvailable && dbAvailable) ==> !loading && subscribed == old(subscribed)
      ensures authAvailable && dbAvailable ==> subscribed && loading == old(loading)
      ensures user == old(user) && isAdmin == old(isAdmin) && userRole == old(userRole)
    {
      if !authAvailable || !dbAvailable {
        loading := false;
        return;
      }
      subscribed := true;
    }

    /** The `onAuthStateChanged` callback. */
    method OnAuthStateChanged(db: Firestore, currentUser: Option<AuthUser>, readOk: bool)
      requires subscribed
      modifies this
      ensures user == currentUser
      ensures RoleState(isAdmin, userRole) == ResolveRole(db.users, currentUser, readOk)
      ensures !loading && RendersChildren()
      ensures subscribed
    {
      user := currentUser;
      var r := ResolveRole(db.users, currentUser, readOk);
      isAdmin := r.isAdmin;
      userRole := r.userRole;
      loading := false;
    }

    /** `signInWithGoogle`. The popup's outcome is reported by the listener, so
        here a failed popup (`popupOk` false), like a good one, leaves
        `loading` set: the error is only logged. */
    method SignInWithGoogle(authAvailable: bool, popupOk: bool)
      modifies this
      ensures loading == authAvailable
      ensures user == old(user) && isAdmin == old(isAdmin) && userRole == old(userRole)
      ensures subscribed == old(subscribed)
    {
      loading := true;
      if !authAvailable {
        loading := false;
        return;
      }
    }

    /** `signOut`: a failure clears `loading`; a success waits for the listener. */
    method SignOut(authAvailable: bool, signOutOk: bool)
      modifies this
      ensures loading == (authAvailable && signOutOk)
      ensures user == old(user) && isAdmin == old(isAdmin) && userRole == old(userRole)
      ensures subscribed == old(subscribed)
    {
      loading := true;
      if !authAvailable {
        loading := false;
        return;
      }
      if !signOutOk {
        loading := false;
      }
    }

    /** `updateUserProfile`: `currentUser` is `auth.currentUser`. Without one it
        throws; otherwise the provider's user becomes the updated user. */
    method UpdateUserProfile(currentUser: Option<AuthUser>, p: ProfileUpdate, updateOk: bool)
      returns (r: Result<AuthUser, AuthError>)
      modifies this
      ensures currentUser.None? ==> r == Failure(NoCurrentUser(NoCurrentUserMessage)) && user == old(user)
      ensures currentUser.Some? && !updateOk ==> r == Failure(ProviderError) && user == old(user)
      ensures currentUser.Some? && updateOk ==>
        r == Success(ApplyProfileUpdate(currentUser.value, p)) && user == Some(r.value)
      ensures loading == old(loading) && isAdmin == old(isAdmin) && userRole == old(userRole)
      ensures subscribed == old(subscribed)
    {
      if currentUser.None? {
        return Failure(NoCurrentUser(NoCurrentUserMessage));
      }
      if !updateOk {
        return Failure(ProviderError);
      }
      var updated := ApplyProfileUpdate(currentUser.value, p);
      user := Some(updated);
      r := Success(updated);
    }
  }

  /** Signing out and the listener's report together leave nobody signed in,
      no role, and the children rendered. */
  method SignOutThenListener(provider: AuthProvider, db: Firestore)
    requires provider.subscribed
    modifies provider
    ensures provider.user == None && !provider.isAdmin && provider.userRole == None
    ensures provider.RendersChildren()
  {
    provider.SignOut(true, true);
    provider.OnAuthStateChanged(db, None, true);
  }
}
