/**
 * The backend input validators (`backend/utils/helpers.js`). The two
 * configuration loaders in that file read the deployment files from disk
 * and are not part of this model.
 */
module BackendHelpers {
  import opened JsValues
  import opened JsNumbers
  import opened AddressPattern

  /** `isValidAddress(address)`: `/^0x[a-fA-F0-9]{40}$/.test(address)`; no checksum is computed. */
  function IsValidAddress(address: string): (ok: bool)
    ensures ok <==> HasAddressShape(address)
  {
    AddressRegexMatchesShape(address);
    FullMatch(AddressRegex, address)
  }

  /** `Number.isInteger(productId) && productId > 0` */
  function IsValidProductId(productId: JsValue): (ok: bool)
    ensures ok <==> exists k: nat :: k >= 1 && productId == Int(k)
  {
    match productId
    case Num(Finite(r)) =>
      if IsIntegral(r) && r > 0.0 then
        assert productId == Int(r.Floor);
        true
      else false
    case _ => false
  }

  /** Only the hex digits are case-insensitive: an upper-case `0X` prefix is refused. */
  lemma UpperCasePrefixRejected(address: string)
    requires |address| >= 2 && address[0] == '0' && address[1] == 'X'
    ensures !IsValidAddress(address)
  {
  }

  /** The pattern is anchored at both ends: any length other than 42 is refused. */
  lemma WrongLengthRejected(address: string)
    requires |address| != 42
    ensures !IsValidAddress(address)
  {
  }

  /** Mixed-case digits pass: `0x` followed by 40 hex digits of any case is accepted. */
  lemma MixedCaseAccepted(digits: string)
    requires |digits| == 40 && forall i :: 0 <= i < 40 ==> IsHexDigit(digits[i])
    ensures IsValidAddress("0x" + digits)
  {
    var a := "0x" + digits;
    assert forall i :: 2 <= i < 42 ==> a[i] == digits[i - 2];
  }

  /** Whole numbers are valid ids exactly when positive. */
  lemma ProductIdIsPositiveWhole(k: int)
    ensures IsValidProductId(Int(k)) <==> k > 0
  {
  }

  /** Fractions, NaN (what `parseInt` returns for junk), infinities and non-numbers are all refused. */
  lemma ProductIdRejectsNonIntegers(r: real, s: string)
    requires !IsIntegral(r)
    ensures !IsValidProductId(Num(Finite(r)))
    ensures !IsValidProductId(Num(ParseInt("abc")))
    ensures !IsValidProductId(Num(NaN)) && !IsValidProductId(Num(PosInf)) && !IsValidProductId(Num(NegInf))
    ensures !IsValidProductId(Str(s)) && !IsValidProductId(Undefined) && !IsValidProductId(Null)
  {
    assert "abc"[0] == 'a';
    ParseIntWithoutDigits("abc");
  }
}
