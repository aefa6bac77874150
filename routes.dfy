/**
 * The app's views as route values, and the role check each role view runs
 * when it mounts. Navigation is modelled as the route an operation returns.
 */
module Routes {
  import opened Types

  datatype Route = Home | KitchenView | WaiterView | AdminView

  /** The path each view is mounted at; only the landing page sits at the root. */
  function Path(route: Route): (r: string)
    ensures |r| > 0 && r[0] == '/'
    ensures r == "/" <==> route == Home
  {
    match route
    case Home => "/"
    case KitchenView => "/cocina"
    case WaiterView => "/camarero"
    case AdminView => "/admin"
  }

  /** The role a view is meant for; the landing page is open to everyone. */
  function ViewRole(r: Route): Option<UserRole> {
    match r
    case Home => None
    case KitchenView => Some(Kitchen)
    case WaiterView => Some(Waiter)
    case AdminView => Some(Admin)
  }

  /**
   * Where a role view sends its visitor: back home when someone is signed
   * in with another role. Nobody signed in is not sent anywhere.
   */
  function Redirect(user: Option<User>, required: UserRole): (r: Option<Route>)
    ensures r.Some? ==> r.value == Home
    ensures user.None? ==> r.None?
    ensures user.Some? ==> (r.None? <==> user.value.role == required)
  {
    if user.Some? && user.value.role != required then Some(Home) else None
  }

  /** A signed-in user may stay on exactly one of the three role views: the one for their role. */
  lemma {:induction false} ExactlyOneViewAdmits(u: User, view: Route)
    requires ViewRole(view).Some?
    ensures Redirect(Some(u), ViewRole(view).value).None? <==> view == RouteOfRole(u.role)
  {
  }

  /** The role view meant for each role. */
  function RouteOfRole(role: UserRole): (r: Route)
    ensures ViewRole(r) == Some(role)
  {
    match role
    case Admin => AdminView
    case Waiter => WaiterView
    case Kitchen => KitchenView
  }

  /** Distinct views live at distinct paths. */
  lemma PathsDistinct(a: Route, b: Route)
    ensures a != b ==> Path(a) != Path(b)
  {
  }
}
