/**
 * The role and product-status enumerations shared with the contracts, and
 * their display names (`ROLES`, `ROLE_NAMES`, `PRODUCT_STATUS`,
 * `STATUS_NAMES`).
 */
module Constants {
  import opened JsValues

  datatype Role = Producer | Distributor | Retailer | Regulator | Consumer

  const AllRoles: seq<Role> := [Producer, Distributor, Retailer, Regulator, Consumer]

  /** `ROLES.<ROLE>`: the contract's numeric code. */
  function RoleCode(r: Role): (code: nat)
    ensures code <= 4
    ensures AllRoles[code] == r
  {
    match r
    case Producer => 0
    case Distributor => 1
    case Retailer => 2
    case Regulator => 3
    case Consumer => 4
  }

  /** The role a numeric code stands for, if any. */
  function RoleFromCode(code: int): (r: Option<Role>)
    ensures r.Some? <==> 0 <= code <= 4
    ensures r.Some? ==> RoleCode(r.value) == code
  {
    if 0 <= code < |AllRoles| then Some(AllRoles[code]) else None
  }

  /** `ROLE_NAMES[ROLES.<ROLE>]` */
  function RoleDisplayName(r: Role): string
  {
    match r
    case Producer => "Producer"
    case Distributor => "Distributor"
    case Retailer => "Retailer"
    case Regulator => "Regulator"
    case Consumer => "Consumer"
  }

  datatype ProductStatus = Created | Shipped | Received | Stored | Delivered

  const AllStatuses: seq<ProductStatus> := [Created, Shipped, Received, Stored, Delivered]

  /** `PRODUCT_STATUS.<STATUS>` */
  function StatusCode(s: ProductStatus): (code: nat)
    ensures code <= 4
    ensures AllStatuses[code] == s
  {
    match s
    case Created => 0
    case Shipped => 1
    case Received => 2
    case Stored => 3
    case Delivered => 4
  }

  function StatusFromCode(code: int): (s: Option<ProductStatus>)
    ensures s.Some? <==> 0 <= code <= 4
    ensures s.Some? ==> StatusCode(s.value) == code
  {
    if 0 <= code < |AllStatuses| then Some(AllStatuses[code]) else None
  }

  /** `STATUS_NAMES[PRODUCT_STATUS.<STATUS>]` */
  function StatusDisplayName(s: ProductStatus): string
  {
    match s
    case Created => "Created"
    case Shipped => "Shipped"
    case Received => "Received"
    case Stored => "Stored"
    case Delivered => "Delivered"
  }

  /** The role codes are exactly 0..4, one per role, and Consumer holds the largest. */
  lemma RoleCodesAreZeroToFour()
    ensures forall a: Role, b: Role :: RoleCode(a) == RoleCode(b) ==> a == b
    ensures forall r: Role :: r in AllRoles
    ensures (set r | r in AllRoles :: RoleCode(r)) == {0, 1, 2, 3, 4}
    ensures forall r: Role :: RoleCode(r) <= RoleCode(Consumer) && RoleCode(Consumer) == 4
  {
    forall r: Role
      ensures r in AllRoles
    {
      assert AllRoles[RoleCode(r)] == r;
    }
    var codes := set r | r in AllRoles :: RoleCode(r);
    assert RoleCode(AllRoles[0]) in codes && RoleCode(AllRoles[1]) in codes && RoleCode(AllRoles[2]) in codes;
    assert RoleCode(AllRoles[3]) in codes && RoleCode(AllRoles[4]) in codes;
  }

  /** Every role has a display name and no two roles share one. */
  lemma RoleNamesDistinct()
    ensures forall a: Role, b: Role :: RoleDisplayName(a) == RoleDisplayName(b) ==> a == b
    ensures forall r: Role :: RoleDisplayName(r) != ""
  {
  }

  /** The status codes are exactly 0..4, one per status, starting with Created. */
  lemma StatusCodesAreZeroToFour()
    ensures forall a: ProductStatus, b: ProductStatus :: StatusCode(a) == StatusCode(b) ==> a == b
    ensures forall s: ProductStatus :: s in AllStatuses
    ensures (set s | s in AllStatuses :: StatusCode(s)) == {0, 1, 2, 3, 4}
    ensures StatusCode(Created) == 0
  {
    forall s: ProductStatus
      ensures s in AllStatuses
    {
      assert AllStatuses[StatusCode(s)] == s;
    }
    var codes := set s | s in AllStatuses :: StatusCode(s);
    assert StatusCode(AllStatuses[0]) in codes && StatusCode(AllStatuses[1]) in codes && StatusCode(AllStatuses[2]) in codes;
    assert StatusCode(AllStatuses[3]) in codes && StatusCode(AllStatuses[4]) in codes;
  }

  /** Every status has a display name and no two statuses share one. */
  lemma StatusNamesDistinct()
    ensures forall a: ProductStatus, b: ProductStatus :: StatusDisplayName(a) == StatusDisplayName(b) ==> a == b
    ensures forall s: ProductStatus :: StatusDisplayName(s) != ""
  {
  }
}
