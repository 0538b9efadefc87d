/**
 * The application shell's simulated authentication: the check that
 * decides whether the main page is shown, the protected route built on
 * it, and the logout route.
 */
module App {
  import opened Wrappers
  import opened Storage

  const AuthKey: string := "app:auth"
  const AuthUserKey: string := "app:auth_user"

  /**
   * `isAuthenticated()`: `app:auth` reads exactly "true", or `app:auth_user`
   * reads as a non-empty string; false when reading the store throws.
   */
  function IsAuthenticated(view: Option<Items>): (b: bool)
    ensures view.None? ==> !b
    ensures view.Some? && AuthKey in view.value && IsTrueText(view.value[AuthKey]) ==> b
    ensures view.Some? && AuthUserKey in view.value && IsTruthy(view.value[AuthUserKey]) ==> b
    ensures (view.Some? && (AuthKey !in view.value || !IsTrueText(view.value[AuthKey]))
             && (AuthUserKey !in view.value || view.value[AuthUserKey] == Text(""))) ==> !b
  {
    match view
    case None => false
    case Some(items) =>
      (AuthKey in items && IsTrueText(items[AuthKey]))
      || (AuthUserKey in items && IsTruthy(items[AuthUserKey]))
  }

  datatype Route = Children | RedirectToLogin

  /** `ProtectedRoute`: the page itself when signed in, else a redirect to `/login`. */
  function ProtectedRoute(view: Option<Items>): (r: Route)
    ensures r == Children <==> IsAuthenticated(view)
    ensures r == RedirectToLogin <==> !IsAuthenticated(view)
  {
    if IsAuthenticated(view) then Children else RedirectToLogin
  }

  /** `Logout`: both auth keys are removed (a store that throws is left alone) and the user is sent to `/login`. */
  method Logout(store: Store) returns (r: Route)
    modifies store
    ensures store.items == if store.enabled then old(store.items) - {AuthKey, AuthUserKey} else old(store.items)
    ensures !IsAuthenticated(store.View())
    ensures r == RedirectToLogin
  {
    var ok := store.RemoveItem(AuthKey);
    if ok {
      ok := store.RemoveItem(AuthUserKey);
      assert store.items == old(store.items) - {AuthKey, AuthUserKey};
    }
    r := RedirectToLogin;
  }
}
