/**
 * The QR payload built by `generateQRData` in
 * `frontend/src/components/Common/QRCodeDisplay.jsx`, and how the link it
 * holds is read back by the `/verify/:productId` route. The page origin
 * (`window.location.origin`) is a parameter; the payload's JSON
 * serialisation and the QR image are not modelled.
 */
module QRCodeDisplay {
  import opened JsValues
  import opened JsNumbers
  import opened AppRoutes
  import BackendHelpers

  /** `{ productId, verifyUrl }` */
  datatype QRData = QRData(productId: int, verifyUrl: string)

  /** `generateQRData()` for an integer product id. */
  function GenerateQRData(productId: int, baseUrl: string): (q: QRData)
    ensures q.productId == productId
    ensures |baseUrl| < |q.verifyUrl| && q.verifyUrl[..|baseUrl|] == baseUrl
    ensures VerifyParam(q.verifyUrl[|baseUrl|..]) == Some(IntToDecimal(productId))
  {
    var segment := IntToDecimal(productId);
    var path := VerifyPrefix + segment;
    SegmentHasNoSlash(productId);
    VerifyParamOfSegment(segment);
    assert (baseUrl + path)[|baseUrl|..] == path;
    QRData(productId, baseUrl + path)
  }

  /** The rendered id is one non-empty path segment. */
  lemma SegmentHasNoSlash(productId: int)
    ensures IntToDecimal(productId) != "" && '/' !in IntToDecimal(productId)
  {
    DecimalEnds(productId);
    var s := IntToDecimal(productId);
    if productId < 0 {
      assert s == "-" + NatToDecimal(-productId);
    }
  }

  /**
   * The round trip with the router: the segment the `/verify/:productId`
   * route captures from the link parses back to the id.
   */
  lemma {:induction false} ScannedLinkReadsBackId(productId: int, baseUrl: string)
    ensures var q := GenerateQRData(productId, baseUrl);
            var param := VerifyParam(q.verifyUrl[|baseUrl|..]);
            param.Some? && ParseInt(param.value) == Finite(productId as real)
  {
    ParseIntOfDecimal(productId);
  }

  /** The id read back from a link passes the backend's product-id check exactly when the id is positive. */
  lemma {:induction false} ScannedIdValidExactlyWhenPositive(productId: int, baseUrl: string)
    ensures var q := GenerateQRData(productId, baseUrl);
            var param := VerifyParam(q.verifyUrl[|baseUrl|..]);
            param.Some? && (BackendHelpers.IsValidProductId(Num(ParseInt(param.value))) <==> productId > 0)
  {
    ScannedLinkReadsBackId(productId, baseUrl);
    BackendHelpers.ProductIdIsPositiveWhole(productId);
  }

  /** Distinct ids give distinct links under the same origin. */
  lemma {:induction false} VerifyUrlInjective(a: int, b: int, baseUrl: string)
    requires GenerateQRData(a, baseUrl).verifyUrl == GenerateQRData(b, baseUrl).verifyUrl
    ensures a == b
  {
    ScannedLinkReadsBackId(a, baseUrl);
    ScannedLinkReadsBackId(b, baseUrl);
  }
}
