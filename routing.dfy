/** The two route guards: private pages need a signed-in user with a token,
    guest pages (sign-in, sign-up, ...) send such a user to the dashboard. */
module Routing {
  import opened JsValues
  import opened UserSlice

  datatype Route = Outlet | Redirect(to: string)

  /** `currentUser && currentUser.token`. */
  predicate HasToken(currentUser: Option<Session>) {
    currentUser.Some? && Truthy(currentUser.value.token)
  }

  /** `PrivateRoute`, with the ternary the guard has already decided. */
  function PrivateRoute(currentUser: Option<Session>): (r: Route)
    ensures r == Outlet <==> HasToken(currentUser)
    ensures r != Outlet ==> r == Redirect("/login")
  {
    if !HasToken(currentUser) then Redirect("/login")
    else if HasToken(currentUser) then Outlet
    else Redirect("/login")
  }

  /** `GuestRoute`. */
  function GuestRoute(currentUser: Option<Session>): (r: Route)
    ensures r == Redirect("/dashboard") <==> HasToken(currentUser)
    ensures r != Outlet ==> r == Redirect("/dashboard")
  {
    if HasToken(currentUser) then Redirect("/dashboard") else Outlet
  }

  /** The guards are complementary: for every state exactly one of them renders
      its outlet, and the guest outlet shows exactly when the private guard
      redirects to the sign-in page. */
  lemma GuardsComplementary(currentUser: Option<Session>)
    ensures GuestRoute(currentUser) == Outlet <==> PrivateRoute(currentUser) == Redirect("/login")
    ensures (GuestRoute(currentUser) == Outlet) != (PrivateRoute(currentUser) == Outlet)
  {
  }

  /** After sign-out or account deletion the private pages redirect, whatever
      the state was before. */
  lemma SignedOutIsRedirected(s: UserState, decode: Decoder)
    ensures PrivateRoute(Reduce(s, SignOutUserSuccess, decode).currentUser) == Redirect("/login")
    ensures PrivateRoute(Reduce(s, DeleteUserFailure, decode).currentUser) == Redirect("/login")
    ensures GuestRoute(Reduce(s, ResetState, decode).currentUser) == Outlet
  {
  }
}
