# SafeBite decision logic in Dafny

SafeBite is a food supply-chain tracker: an Express backend in front of
smart contracts, and a React frontend for producers, distributors,
retailers, regulators and consumers. Most of the repository is still
scaffolding. The contract gateways are TODOs and the controllers answer
with placeholders. This project models the parts that do contain logic,
as pure functions over immutable values:

- the address and product-id validators, in their backend and frontend copies;
- the error envelope `formatError`;
- the role and product-status enumerations;
- the `useRole` hook's outcome and the landing page's redirect and view choice;
- the product list's query parameters, search filter, title and count;
- the regulator's compliance form submission;
- the four verification handlers;
- the QR payload and its round trip through the `/verify/:productId` route.

JavaScript semantics the code relies on are modelled explicitly:

- `js_values.dfy`: primitives, truthiness, strict equality and thrown values;
- `js_strings.dfy`: `trim`, `toLowerCase` and `includes`;
- `js_numbers.dfy`: decimal rendering, `parseInt`, ToNumber for `>=`, and array index keys.

`null`/`undefined` props are `Option`. A throw is a `Completion` or an
explicit fault parameter. The page origin, the role lookup's result and the
outcome of HTTP requests are parameters.

Three things the code does not do, which the model follows:

- No file implements certificate-hash merging or journey formatting.
- No verification handler validates its input. Each handler's only error status is 500 (`backend/controllers/verificationController.js:36`, `:68`, `:100`, `:128`).
- `getRoleName`'s doc comment (`frontend/src/utils/helpers.js:38-43`) promises a role name, yet the function returns `'Unknown'` for every input.

## Model

| member | source | states |
|---|---|---|
| AddressPattern.AddressRegexMatchesShape | backend/utils/helpers.js:46 | The anchored pattern accepts exactly the strings of length 42 that start with `0x` and continue with 40 hex digits of either case. |
| BackendHelpers.IsValidAddress | backend/utils/helpers.js:45-47 | The validator holds exactly for strings of the address shape; no checksum is involved. |
| BackendHelpers.UpperCasePrefixRejected | backend/utils/helpers.js:46 | A `0X` prefix is refused: only the hex digits are case-insensitive. |
| BackendHelpers.WrongLengthRejected | backend/utils/helpers.js:46 | Any string that is not 42 characters long is refused, because the pattern is anchored at both ends. |
| BackendHelpers.MixedCaseAccepted | backend/utils/helpers.js:46 | `0x` followed by any 40 hex digits, in any mix of cases, is accepted. |
| BackendHelpers.IsValidProductId | backend/utils/helpers.js:55-57 | An id is valid exactly when it is the number of some whole k >= 1. |
| BackendHelpers.ProductIdIsPositiveWhole | backend/utils/helpers.js:56 | For a whole number k the check holds exactly when k > 0, so 0 and negatives are refused. |
| BackendHelpers.ProductIdRejectsNonIntegers | backend/utils/helpers.js:56 | Fractions, the NaN that `parseInt("abc")` gives, `Infinity`, `-Infinity`, strings, `null` and `undefined` are refused. |
| FrontendHelpers.AddressValidatorsAgree | frontend/src/utils/helpers.js:68-70 | The frontend address check agrees with the backend one on every string. |
| FrontendHelpers.ProductIdValidatorsAgree | frontend/src/utils/helpers.js:78-80 | The frontend id check agrees with the backend one on every value. |
| FrontendHelpers.FormatAddressDoesNotShorten | frontend/src/utils/helpers.js:13-20 | A valid address comes back whole and still valid, never in the documented `0x1234...5678` form. |
| FrontendHelpers.GetRoleNameIgnoresTable | frontend/src/utils/helpers.js:44-48 | For every role code the answer differs from its `ROLE_NAMES` entry and equals the answer for `undefined`. |
| FrontendHelpers.GetStatusNameIgnoresTable | frontend/src/utils/helpers.js:56-60 | For every status code the answer differs from its `STATUS_NAMES` entry and equals the answer for `undefined`. |
| Errors.FormatError | backend/utils/errors.js:18-31 | The call throws exactly when the error is `undefined` or `null`. Otherwise `error` is true and message and code are always truthy. A truthy message or code is kept, and a falsy one becomes the default text. Context becomes `'Unknown'` only when it is omitted. |
| Errors.FalsyMessageFallsBack | backend/utils/errors.js:27 | A falsy message (`''`, `0`, `null`, missing) becomes `An error occurred`, whatever the code. |
| Errors.FalsyCodeFallsBack | backend/utils/errors.js:29 | A falsy code becomes `UNKNOWN_ERROR`, whatever the message. |
| Errors.PrimitiveThrowUsesDefaults | backend/utils/errors.js:25-30 | A thrown string, number or boolean yields the envelope of defaults. |
| Errors.FormatErrorIsIdempotent | backend/utils/errors.js:25-30 | Formatting an envelope's own message, code and context again yields the same envelope. |
| Constants.RoleCode | frontend/src/utils/constants.js:7-13 | Every role has a code in 0..4, and it is its position in the role list. |
| Constants.RoleFromCode | frontend/src/utils/constants.js:7-13 | A code names a role exactly when it is in 0..4, and that role's code is the code. |
| Constants.RoleCodesAreZeroToFour | frontend/src/utils/constants.js:7-13 | The role codes are distinct and are exactly {0,...,4}. CONSUMER has the largest code, 4. |
| Constants.RoleNamesDistinct | frontend/src/utils/constants.js:16-22 | Every role has a non-empty name and no two roles share one. |
| Constants.StatusCode | frontend/src/utils/constants.js:25-31 | Every status has a code in 0..4, and it is its position in the status list. |
| Constants.StatusFromCode | frontend/src/utils/constants.js:25-31 | A code names a status exactly when it is in 0..4, and that status's code is the code. |
| Constants.StatusCodesAreZeroToFour | frontend/src/utils/constants.js:25-31 | The status codes are distinct and are exactly {0,...,4}, with CREATED = 0. |
| Constants.StatusNamesDistinct | frontend/src/utils/constants.js:34-40 | Every status has a non-empty name and no two statuses share one. |
| UseRole.FetchRole | frontend/src/hooks/useRole.js:37-60 | With no account, the hook resets to null/null/not loading and makes no lookup. A failed lookup gives null role and null name. A resolved lookup keeps the raw role number and picks a name from the list or `UNKNOWN`. Loading is off afterwards. |
| UseRole.NameListMatchesRoleCodes | frontend/src/hooks/useRole.js:48 | Entry `code` of the hook's name list is the upper-cased `ROLE_NAMES` entry of the role with that code. |
| UseRole.FetchRoleNamesKnownCodes | frontend/src/hooks/useRole.js:47-52 | A looked-up code 0..4 is named after its role. |
| UseRole.FetchRoleUnknownCode | frontend/src/hooks/useRole.js:49-52 | Any other code is named `UNKNOWN` while the role keeps the raw code. |
| UseRole.FetchRoleWithUnimplementedLookup | frontend/src/hooks/useRole.js:47-52 | A lookup that resolves to `undefined` leaves the role `undefined`, named `UNKNOWN`. |
| Home.Redirect | frontend/src/pages/Home.jsx:28-41 | Navigation happens only when connected, not loading, and the role is neither null nor CONSUMER. Its target is a route the router declares, never `/consumer`. |
| Home.RedirectTargets | frontend/src/pages/Home.jsx:30-38 | Codes 0, 1, 2 and 3 go to `/producer`, `/distributor`, `/retailer` and `/regulator`. |
| Home.NoRedirectWithoutRoute | frontend/src/pages/Home.jsx:37-39 | A code with no route entry, such as 4, 5 or -1, does not navigate. |
| Home.NoRedirectUntilRoleKnown | frontend/src/pages/Home.jsx:29 | Nothing navigates while disconnected, while loading, or while the role is null. |
| Home.Welcome | frontend/src/pages/Home.jsx:76-78 | The greeting is "You are logged in as a {roleName}" exactly when the name is truthy and the role is not CONSUMER. Otherwise it is the select-dashboard prompt. |
| Home.View | frontend/src/pages/Home.jsx:43-84 | The hero shows exactly when disconnected. The loading view shows exactly when connected and loading. Otherwise the dashboard shows with the welcome line, and the account line only for a non-empty account. |
| Home.HomeWithUnimplementedLookup | frontend/src/pages/Home.jsx:29-78 | When the role lookup yields `undefined`, a connected user stays on the page and is greeted as "a UNKNOWN". |
| Home.InitialStateShowsPrompt | frontend/src/pages/Home.jsx:59-78 | Before the first fetch, a connected user sees the dashboard prompt, with no redirect. |
| AppRoutes.VerifyParam | frontend/src/App.jsx:42 | A captured parameter is one non-empty segment without `/`, and the path is `/verify/` followed by it. |
| ProductList.QueryParams | frontend/src/components/Products/ProductList.jsx:47-52 | The producer filter wins whenever a producer is given. Otherwise the owner filter applies when an owner is given, otherwise no filter. The refresh at lines 103-108 builds the same object. |
| ProductList.KeepMatchingIsExact | frontend/src/components/Products/ProductList.jsx:83-90 | The filter keeps exactly the matching products, as a subsequence of the input in the same order. |
| ProductList.KeepMatchingCounts | frontend/src/components/Products/ProductList.jsx:83-90 | Each matching product is kept as many times as it occurs in the input; a product that does not match is not kept at all. |
| ProductList.FilterProductsSpec | frontend/src/components/Products/ProductList.jsx:76-93 | An all-whitespace term shows the full list. Otherwise a product is shown exactly when it matches the lower-cased term, as often as it occurs in the input, and the order is kept. |
| ProductList.AbsentFieldsNeverMatch | frontend/src/components/Products/ProductList.jsx:85-88 | A product with no name, batch, origin or id never matches a non-blank term. |
| ProductList.SurroundingSpacesTakePart | frontend/src/components/Products/ProductList.jsx:77-82 | The term is not trimmed for matching: " apple" does not find "Apple". |
| ProductList.SearchIgnoresLetterCase | frontend/src/components/Products/ProductList.jsx:82-85 | Both sides are lower-cased: "APP" finds "Apple". |
| ProductList.TitleMatchesParams | frontend/src/components/Products/ProductList.jsx:147 | The title is "My Products" exactly when the list is fetched with an owner or producer filter, and "All Products" otherwise. |
| ProductList.CountLabelReadsBack | frontend/src/components/Products/ProductList.jsx:149 | The count label begins with the count: `parseInt` of the label gives it back. |
| ProductList.CountLabelNoun | frontend/src/components/Products/ProductList.jsx:149 | The singular "product" is used exactly for a count of one. |
| JsStrings.TrimEmptyIffAllSpace | frontend/src/components/Products/ProductList.jsx:77 | `term.trim()` is empty exactly when the term is all whitespace. |
| JsStrings.IncludesIffOccurs | frontend/src/components/Products/ProductList.jsx:85-88 | `includes` holds exactly when the needle occurs at some offset. |
| JsStrings.TrimIdempotent | frontend/src/components/Verification/ComplianceCheck.jsx:45 | Trimming an already trimmed hash changes nothing. |
| JsNumbers.ParseIntOfDecimal | backend/controllers/verificationController.js:116 | `parseInt` of an integer's decimal rendering gives the integer back. |
| JsNumbers.StringToNumberOfDecimal | backend/controllers/verificationController.js:64 | A decimal string converts to its value when compared with a number. |
| ComplianceCheck.HandleSubmit | frontend/src/components/Verification/ComplianceCheck.jsx:34-75 | The request carries the trimmed hash and the current flag, and submitting is off afterwards. On success: the message is set, the form resets to compliant, empty hash and empty notes, and the callback gets the id and the submitted flag. Otherwise the form keeps its fields, a truthy error is set and the callback is not called. |
| ComplianceCheck.SuccessMessage | frontend/src/components/Verification/ComplianceCheck.jsx:49-54 | The message starts with "Product marked as " and then the submitted flag's word. It runs past the `!` exactly when the response has both `autoVerified` and `isAuthentic` truthy, and what follows the `!` is then the authenticity note. |
| ComplianceCheck.SuccessMessageNamesFlag | frontend/src/components/Verification/ComplianceCheck.jsx:49 | Equal success messages come from the same submitted flag. |
| ComplianceCheck.MessageAgreesWithBackend | frontend/src/components/Verification/ComplianceCheck.jsx:49 | The frontend message is the backend's compliance message for the same flag, with `!` added. |
| ComplianceCheck.SuccessResetsForm | frontend/src/components/Verification/ComplianceCheck.jsx:59-61 | After a success every field except the success message is back at its initial value. |
| ComplianceCheck.SentHashIsTrimmed | frontend/src/components/Verification/ComplianceCheck.jsx:45 | The hash sent has no whitespace at either end. Resubmitting with that hash sends the same request. |
| ComplianceCheck.FailureMessage | frontend/src/components/Verification/ComplianceCheck.jsx:67-71 | The error is always truthy. For an unsuccessful response it is the response's message, or "Compliance check failed" when there is none. For a rejected request the server's message wins over the transport error's message, which wins over "Failed to perform compliance check". |
| ComplianceCheck.ResubmitAfterSuccess | frontend/src/components/Verification/ComplianceCheck.jsx:41-61 | Submitting again after a success sends `compliant: true` with an empty hash. |
| VerificationController.Notes | backend/controllers/verificationController.js:23 | A missing `notes` becomes `''`; any value that was sent, `null` included, is kept. |
| VerificationController.CertificateHash | backend/controllers/verificationController.js:86 | A missing hash becomes `''`; any value that was sent, `null` included, is kept. |
| VerificationController.Respond | backend/controllers/verificationController.js:35-37 | Status 200 exactly when nothing threw, with the handler's payload. Otherwise status 500 with an envelope naming the handler, or no response when the error is `undefined`/`null`. |
| VerificationController.VerifyAuthenticity | backend/controllers/verificationController.js:21-38 | A normal answer is a success with `isValid` false, a null transaction hash and the fixed message. A fault answers with the error named `verifyAuthenticity`. |
| VerificationController.PerformQualityCheck | backend/controllers/verificationController.js:52-70 | A normal answer is a success with a null transaction hash and the fixed message, and `passed` holds exactly when the score converts to a number of at least 50. A fault names `performQualityCheck`. |
| VerificationController.QualityPassesFromFifty | backend/controllers/verificationController.js:64 | A finite numeric score x, whole or fractional, passes exactly when x >= 50. |
| VerificationController.QualityOfNonFiniteScores | backend/controllers/verificationController.js:64 | `Infinity` passes; `-Infinity` and `NaN` fail. |
| VerificationController.QualityScoreAsText | backend/controllers/verificationController.js:64 | A score sent as decimal text k passes exactly when k >= 50. |
| VerificationController.QualityFailsWithoutScore | backend/controllers/verificationController.js:64 | A missing score, `null`, `''`, `false` or `true` never passes. |
| VerificationController.CheckCompliance | backend/controllers/verificationController.js:84-102 | A normal answer echoes `compliant` unchanged. Its message says compliant exactly when the flag is truthy and non-compliant exactly when it is falsy. A fault names `checkCompliance`. |
| VerificationController.StringFalseReadsCompliant | backend/controllers/verificationController.js:97 | The text `"false"` is truthy, so it is reported as compliant. |
| VerificationController.GetVerificationHistory | backend/controllers/verificationController.js:114-130 | A normal answer is a success with an empty list. A fault names `getVerificationHistory`. |
| VerificationController.HistoryReadsDecimalId | backend/controllers/verificationController.js:116 | A path parameter written as an integer's decimal text parses back to that integer. |
| VerificationController.ThrownErrorsGive500 | backend/controllers/verificationController.js:36 | In each of the four handlers, a thrown error object answers 500 with `formatError(error, <handler name>)` (lines 36, 68, 100 and 128). |
| QRCodeDisplay.GenerateQRData | frontend/src/components/Common/QRCodeDisplay.jsx:37-43 | The payload keeps the id. The link starts with the origin, and the path after it is captured by the `/verify/:productId` route as the id's decimal text. |
| QRCodeDisplay.ScannedLinkReadsBackId | frontend/src/components/Common/QRCodeDisplay.jsx:41 | The segment the route captures from the link parses back to the id. |
| QRCodeDisplay.ScannedIdValidExactlyWhenPositive | frontend/src/components/Common/QRCodeDisplay.jsx:41 | The id read back from a link passes the backend id check exactly when the id is positive. |
| QRCodeDisplay.VerifyUrlInjective | frontend/src/components/Common/QRCodeDisplay.jsx:41 | Different ids give different links under the same origin. |

## Left out

- Contract gateways (`backend/services/contractService.js`, `frontend/src/services/contracts.js`): every body is a TODO. The role lookup's result is a parameter of `UseRole.FetchRole`.
- Certificate-hash merging, hash generation and journey formatting: no code implements them.
- The product, transfer and role controllers, the Express routes and the server wiring: they are wiring and placeholder handlers.
- QR image generation (`backend/services/qrService.js`) and the `JSON.stringify` of the QR payload: these are library calls.
- The wallet layer and the axios client: these are browser and network I/O.
- `formatDate`: it depends on `Date` and the locale.
- `parseContractError` and the two configuration loaders: empty bodies and file I/O.
- React scheduling, effects, rendering and loading/error screens: only the state after each modelled handler finishes is modelled.
- Numbers are exact reals. IEEE rounding, `-0`, precision above 2^53, and exponent notation at 10^21 and beyond are not modelled.
- `toLowerCase`/`toUpperCase` are ASCII-only. Unicode case mapping is not modelled.
- Request fields that are objects or arrays (the extended URL-encoded parser can produce them) are not modelled. Fields are primitives.
- The router's case-insensitive matching, trailing-slash tolerance and percent-decoding are not modelled.
- UseRole.FetchRole: a lookup that resolves to a string is not modelled. `getUserRole` is documented to resolve to a role number (`frontend/src/services/contracts.js:42`), and a string key such as `"length"` would name an inherited array property.
- Home.Redirect: a string role is not modelled, for the same reason; a key such as `"constructor"` would name an inherited object property.
- The `ProductVerification` page that reads the `/verify/:productId` parameter is not part of this model.
- ComplianceCheck.HandleSubmit: the completion callback is assumed not to throw, and a request rejected with `undefined` or `null` is not modelled (the HTTP client always rejects with an error object).
- ProductList.IdMatches: product ids are integers; an id delivered as a string is not modelled.
- QRCodeDisplay.GenerateQRData: the `productId` prop is an integer, as documented; other prop types are not modelled.
- VerificationController.Respond: a fault is an external parameter standing for whatever throws inside a handler, such as sending the response. Its cause is not modelled.
