/**
 * The browser router's route table (`frontend/src/App.jsx`) and how a
 * location path selects the `/verify/:productId` route.
 *
 * Matching is modelled on the exact lower-case spelling of the static part
 * and a single non-empty segment for the parameter; the router's
 * case-insensitive matching, trailing-slash tolerance and percent-decoding
 * only widen what matches and are not modelled.
 */
module AppRoutes {
  import opened JsValues

  const Landing := "/"
  const ProducerDashboard := "/producer"
  const DistributorDashboard := "/distributor"
  const RetailerDashboard := "/retailer"
  const RegulatorDashboard := "/regulator"
  const ConsumerDashboard := "/consumer"
  const VerifyPrefix := "/verify/"
  const VerifyProduct := "/verify/:productId"
  const Verify := "/verify"
  const Transfer := "/transfer"

  /** The `<Route path=…>` entries, in declaration order. */
  const DeclaredPaths: seq<string> :=
    [Landing, ProducerDashboard, DistributorDashboard, RetailerDashboard, RegulatorDashboard,
     ConsumerDashboard, VerifyProduct, Verify, Transfer]

  /** A path is served by a static route when it equals a declared path without parameters. */
  predicate IsStaticRoute(path: string)
  {
    path in DeclaredPaths && path != VerifyProduct
  }

  /** The `:productId` parameter when `path` matches `/verify/:productId`. */
  function VerifyParam(path: string): (param: Option<string>)
    ensures param.Some? ==> path == VerifyPrefix + param.value
    ensures param.Some? ==> param.value != "" && '/' !in param.value
  {
    if |path| > |VerifyPrefix| && path[..|VerifyPrefix|] == VerifyPrefix && '/' !in path[|VerifyPrefix|..] then
      assert path == path[..|VerifyPrefix|] + path[|VerifyPrefix|..];
      Some(path[|VerifyPrefix|..])
    else None
  }

  /** A single non-empty segment after `/verify/` is exactly what the route captures. */
  lemma VerifyParamOfSegment(segment: string)
    requires segment != "" && '/' !in segment
    ensures VerifyParam(VerifyPrefix + segment) == Some(segment)
  {
    var path := VerifyPrefix + segment;
    assert path[..|VerifyPrefix|] == VerifyPrefix;
    assert path[|VerifyPrefix|..] == segment;
  }
}
