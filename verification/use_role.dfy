/**
 * The `useRole` hook (`frontend/src/hooks/useRole.js`): what one run of
 * `fetchRole` leaves in the hook's state, as a function of the connected
 * account and of how the role lookup settled. React scheduling and the
 * effect that re-runs the fetch when the account changes are not modelled.
 */
module UseRole {
  import opened JsValues
  import opened JsStrings
  import opened JsNumbers
  import opened Constants

  /** The hook's `{ role, roleName, isLoading }`; a `null` name is `None`. */
  datatype RoleState = RoleState(role: NonStringValue, roleName: Option<string>, isLoading: bool)

  /** The `useState` initial values. */
  const InitialRoleState := RoleState(Null, None, false)

  /** The positional name list inside `fetchRole`. */
  const RoleNameList: seq<string> := ["PRODUCER", "DISTRIBUTOR", "RETAILER", "REGULATOR", "CONSUMER"]

  const UnknownRoleName := "UNKNOWN"

  /**
   * How `contractService.getUserRole(account)` settled. It is documented to
   * resolve to a role number; a string result is not part of this model.
   */
  datatype Lookup = Resolved(roleNumber: NonStringValue) | Rejected

  /** The state `fetchRole` leaves, and the account it looked up (`None`: no lookup was made). */
  datatype Fetched = Fetched(state: RoleState, queried: Option<JsValue>)

  /**
   * `roleNames[roleNumber] || 'UNKNOWN'`: every entry of the list is a
   * non-empty string, so the fallback applies exactly when the key selects
   * no entry.
   */
  function NameOfRoleNumber(roleNumber: NonStringValue): string
  {
    match IndexKey(roleNumber, |RoleNameList|)
    case Some(k) => RoleNameList[k]
    case None => UnknownRoleName
  }

  /** `fetchRole()` */
  function FetchRole(account: JsValue, lookup: Lookup): (r: Fetched)
    ensures !Truthy(account) ==> r == Fetched(InitialRoleState, None)
    ensures Truthy(account) ==> r.queried == Some(account)
    ensures !r.state.isLoading
    ensures Truthy(account) && lookup.Rejected? ==> r.state.role == Null && r.state.roleName == None
    ensures Truthy(account) && lookup.Resolved? ==>
              r.state.role == lookup.roleNumber
              && r.state.roleName.Some?
              && (r.state.roleName.value in RoleNameList || r.state.roleName.value == UnknownRoleName)
  {
    if !Truthy(account) then Fetched(RoleState(Null, None, false), None)
    else
      match lookup
      case Rejected => Fetched(RoleState(Null, None, false), Some(account))
      case Resolved(roleNumber) =>
        Fetched(RoleState(roleNumber, Some(NameOfRoleNumber(roleNumber)), false), Some(account))
  }

  /** The name list is in the order of the `ROLES` codes: entry `code` is the upper-cased `ROLE_NAMES` entry. */
  lemma NameListMatchesRoleCodes(r: Role)
    ensures RoleNameList[RoleCode(r)] == Upper(RoleDisplayName(r))
  {
    var name := RoleDisplayName(r);
    assert Upper(name) == seq(|name|, i requires 0 <= i < |name| => UpperChar(name[i]));
  }

  /** A looked-up code 0..4 is named by its role; the raw code is kept as the role. */
  lemma {:induction false} FetchRoleNamesKnownCodes(account: JsValue, r: Role)
    requires Truthy(account)
    ensures FetchRole(account, Resolved(Int(RoleCode(r)))).state
            == RoleState(Int(RoleCode(r)), Some(Upper(RoleDisplayName(r))), false)
  {
    IndexKeyOfInt(RoleCode(r), |RoleNameList|);
    NameListMatchesRoleCodes(r);
  }

  /** Any other code is named `UNKNOWN` while the role keeps the raw code. */
  lemma FetchRoleUnknownCode(account: JsValue, code: int)
    requires Truthy(account) && (code < 0 || code > 4)
    ensures FetchRole(account, Resolved(Int(code))).state == RoleState(Int(code), Some(UnknownRoleName), false)
  {
  }

  /**
   * `getUserRole` in the frontend contract gateway still has an empty body,
   * so its promise resolves to `undefined`: the hook then reports role
   * `undefined` named `UNKNOWN`.
   */
  lemma FetchRoleWithUnimplementedLookup(account: JsValue)
    requires Truthy(account)
    ensures FetchRole(account, Resolved(Undefined)).state == RoleState(Undefined, Some(UnknownRoleName), false)
  {
  }
}
