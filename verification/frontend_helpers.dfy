/**
 * The browser-side helpers (`frontend/src/utils/helpers.js`) as currently
 * written: the two validators repeat the backend ones, while
 * `formatAddress`, `getRoleName` and `getStatusName` are unfinished and
 * return a fixed answer.
 */
module FrontendHelpers {
  import opened JsValues
  import opened AddressPattern
  import opened Constants
  import BackendHelpers

  /** The frontend's own copy of `^0x[a-fA-F0-9]{40}$`. */
  const FrontendAddressRegex :=
    [Repeat(Literal('0'), 1), Repeat(Literal('x'), 1), Repeat(Ranges([('a', 'f'), ('A', 'F'), ('0', '9')]), 40)]

  function IsValidAddress(address: string): bool
  {
    FullMatch(FrontendAddressRegex, address)
  }

  function IsValidProductId(productId: JsValue): bool
  {
    match productId
    case Num(Finite(r)) => IsIntegral(r) && r > 0.0
    case _ => false
  }

  /** `formatAddress(address)`: returns its argument; the documented shortening is not implemented. */
  function FormatAddress(address: string): string
  {
    address
  }

  /** The shortening the doc comment promises: first 6 and last 4 characters around `...`. */
  function DocumentedShortForm(address: string): string
    requires |address| >= 10
  {
    address[..6] + "..." + address[|address| - 4..]
  }

  /** `getRoleName(role)`: the lookup into `ROLE_NAMES` is still a TODO. */
  function GetRoleName(role: JsValue): string
  {
    "Unknown"
  }

  /** `getStatusName(status)`: the lookup into `STATUS_NAMES` is still a TODO. */
  function GetStatusName(status: JsValue): string
  {
    "Unknown"
  }

  /** The frontend address check agrees with the backend one on every input. */
  lemma AddressValidatorsAgree(address: string)
    ensures IsValidAddress(address) <==> BackendHelpers.IsValidAddress(address)
    ensures IsValidAddress(address) <==> HasAddressShape(address)
  {
    assert FrontendAddressRegex == AddressRegex;
  }

  /** The frontend product-id check agrees with the backend one on every input. */
  lemma ProductIdValidatorsAgree(productId: JsValue)
    ensures IsValidProductId(productId) <==> BackendHelpers.IsValidProductId(productId)
  {
  }

  /** A valid address is shown whole: never in the documented shortened form, and still a valid address. */
  lemma FormatAddressDoesNotShorten(address: string)
    requires HasAddressShape(address)
    ensures FormatAddress(address) != DocumentedShortForm(address)
    ensures |FormatAddress(address)| == 42 && BackendHelpers.IsValidAddress(FormatAddress(address))
  {
    assert |DocumentedShortForm(address)| == 13;
  }

  /** For every role code, `getRoleName` disagrees with the `ROLE_NAMES` table. */
  lemma GetRoleNameIgnoresTable(r: Role)
    ensures GetRoleName(Int(RoleCode(r))) != RoleDisplayName(r)
    ensures GetRoleName(Int(RoleCode(r))) == GetRoleName(Undefined)
  {
  }

  /** For every status code, `getStatusName` disagrees with the `STATUS_NAMES` table. */
  lemma GetStatusNameIgnoresTable(s: ProductStatus)
    ensures GetStatusName(Int(StatusCode(s))) != StatusDisplayName(s)
    ensures GetStatusName(Int(StatusCode(s))) == GetStatusName(Undefined)
  {
  }
}
