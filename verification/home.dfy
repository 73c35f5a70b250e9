/**
 * The landing page (`frontend/src/pages/Home.jsx`): the auto-redirect
 * effect and which view is rendered, as functions of the wallet connection
 * and of the `useRole` state. Card styling and click handlers are not
 * modelled.
 */
module Home {
  import opened JsValues
  import opened JsNumbers
  import opened Constants
  import opened UseRole
  import opened AppRoutes
  import opened FrontendHelpers

  /** `roleRoutes`: the dashboard for role codes 0..3. */
  const RoleRoutes: seq<string> := [ProducerDashboard, DistributorDashboard, RetailerDashboard, RegulatorDashboard]

  /** The path the redirect effect navigates to, if it navigates at all. */
  function Redirect(isConnected: bool, st: RoleState): (target: Option<string>)
    ensures target.Some? ==>
              isConnected && !st.isLoading && st.role != Null
              && !StrictEquals(st.role, Int(RoleCode(Consumer)))
    ensures target.Some? ==> IsStaticRoute(target.value) && target.value != ConsumerDashboard
  {
    if isConnected && !st.isLoading && !StrictEquals(st.role, Null)
       && !StrictEquals(st.role, Int(RoleCode(Consumer))) then
      // every route string is non-empty, so `if (roleRoutes[role])` only tests that the key exists
      match IndexKey(st.role, |RoleRoutes|)
      case Some(k) => Some(RoleRoutes[k])
      case None => None
    else None
  }

  const SelectPrompt := "Select your dashboard to get started"
  const LoggedInPrefix := "You are logged in as a "

  /** The welcome line: `roleName && role !== ROLES.CONSUMER ? … : …`. */
  function Welcome(st: RoleState): (message: string)
    ensures message != SelectPrompt <==>
              st.roleName.Some? && st.roleName.value != "" && !StrictEquals(st.role, Int(RoleCode(Consumer)))
    ensures message != SelectPrompt ==> message == LoggedInPrefix + st.roleName.value
  {
    if st.roleName.Some? && st.roleName.value != "" && !StrictEquals(st.role, Int(RoleCode(Consumer))) then
      var m := LoggedInPrefix + st.roleName.value;
      assert m[0] != SelectPrompt[0];
      m
    else SelectPrompt
  }

  datatype HomeView =
    | Hero
    | LoadingRole
    /** The dashboard cards under a welcome line and, when an account is set, its formatted address. */
    | Dashboard(welcome: string, account: Option<string>)

  /** What the page renders; the connection is checked before the loading flag. */
  function View(account: Option<string>, isConnected: bool, st: RoleState): (v: HomeView)
    ensures v.Hero? <==> !isConnected
    ensures v.LoadingRole? <==> isConnected && st.isLoading
    ensures v.Dashboard? ==> v.welcome == Welcome(st)
    ensures v.Dashboard? ==> (v.account.Some? <==> account.Some? && account.value != "")
  {
    if !isConnected then Hero
    else if st.isLoading then LoadingRole
    else
      Dashboard(Welcome(st),
                if account.Some? && account.value != "" then Some(FormatAddress(account.value)) else None)
  }

  /** Roles 0..3 are sent to their own dashboard. */
  lemma {:induction false} RedirectTargets(name: Option<string>)
    ensures Redirect(true, RoleState(Int(0), name, false)) == Some("/producer")
    ensures Redirect(true, RoleState(Int(1), name, false)) == Some("/distributor")
    ensures Redirect(true, RoleState(Int(2), name, false)) == Some("/retailer")
    ensures Redirect(true, RoleState(Int(3), name, false)) == Some("/regulator")
  {
    IndexKeyOfInt(0, 4);
    IndexKeyOfInt(1, 4);
    IndexKeyOfInt(2, 4);
    IndexKeyOfInt(3, 4);
  }

  /** Consumers, and codes with no entry in the route table, stay on the page. */
  lemma NoRedirectWithoutRoute(code: int, name: Option<string>)
    requires code < 0 || code > 3
    ensures Redirect(true, RoleState(Int(code), name, false)) == None
  {
  }

  /** Nothing navigates while the role is loading, before it is known, or with no wallet connected. */
  lemma NoRedirectUntilRoleKnown(isConnected: bool, st: RoleState)
    requires !isConnected || st.isLoading || st.role == Null
    ensures Redirect(isConnected, st) == None
  {
  }

  /**
   * With the role lookup still unimplemented the hook reports an `undefined`
   * role named `UNKNOWN`: the page does not redirect and greets the user as
   * "a UNKNOWN".
   */
  lemma {:induction false} HomeWithUnimplementedLookup(account: string)
    requires account != ""
    ensures var st := FetchRole(Str(account), Resolved(Undefined)).state;
            Redirect(true, st) == None
            && View(Some(account), true, st) == Dashboard(LoggedInPrefix + "UNKNOWN", Some(account))
  {
    FetchRoleWithUnimplementedLookup(Str(account));
  }

  /** Before the first fetch the hook is not loading, so a connected user briefly sees the dashboard prompt. */
  lemma InitialStateShowsPrompt(account: Option<string>)
    ensures Redirect(true, InitialRoleState) == None
    ensures View(account, true, InitialRoleState).Dashboard?
    ensures View(account, true, InitialRoleState).welcome == SelectPrompt
  {
  }
}
