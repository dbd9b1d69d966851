# Product manager for the Fake Store API — a Dafny model

The program is a command-line client for the Fake Store REST API. It is run as
`node index.js <METHOD> <resource> [params…]`. Its usage text and its code say
that each command becomes one HTTP call or an error message:

| command | intended call |
|---|---|
| `GET products` | list every product (`GET /products`) |
| `GET <x>/<id>` | fetch one product (`GET /products/<id>`) |
| `POST products <title> <price> <category>` | create a product (`POST /products` with a JSON body) |
| `DELETE <x>/<id>` | delete one product (`DELETE /products/<id>`) |

As written, the two id rows never reach the network. `GET <x>/<id>` throws a
ReferenceError (index.js:137) and every `DELETE` throws a TypeError
(index.js:161); see "## Findings". The model keeps both readings: `Router.Parse`
is the intended router, `AsWritten.ParseAsWritten` the router as written.

This project models the program's decision logic. It covers:

- the command router;
- the id check (`isNaN`) and the price check (`parseFloat` and `> 0`);
- the draft product the program builds;
- the endpoint URLs, methods and request bodies it would send.

It then proves properties of that logic. The model has no I/O. Routing yields a
`Request` or an `Error`, and each `Request` is turned into a `Descriptor`: the
method, the URL and the optional body that `fetch` would be given.

Modules, one per file:

- `Results` (results.dfy): `Option` and `Result`.
- `Text` (text.dfy):
  - ASCII `toUpperCase` and case-insensitive equality;
  - `String.prototype.split` on one character, with `Join` as its inverse.
- `JsNumbers` (js_numbers.dfy): the ECMAScript string-to-number conversions the checks rely on.
  - `ParseFloat`, the global `parseFloat`: skip leading white space, then take the longest prefix that is a decimal literal (or `Infinity`).
  - `ToNumber`, the conversion behind the global `isNaN`:
    - trim white space at both ends;
    - blank text reads as 0;
    - otherwise the whole text must be one literal, where decimal, `Infinity`, `0x`, `0o` and `0b` forms are allowed.
  - Values are exact reals.
- `Json` (json.dfy):
  - `JSON.stringify` of a flat object whose values are strings and whose keys are distinct and not array indices (such as the draft's), including the escaping of control characters, quotes and backslashes;
  - a reader for that text, used to state what the receiver gets.
- `Requests` (requests.dfy):
  - the base URL, the products path, the draft built for a create, the four request kinds;
  - their HTTP description, and its inverse `Recover`.
- `Validators` (validators.dfy): the id check, the price check and the presence of the three create parameters.
- `Router` (router.dfy):
  - `Parse` is the `switch` of `processCommand` with the evident intent of the code. It has one error per message the program prints.
  - `Command` reads `process.argv`.
  - `Accepts` is an order-free reference definition of which command asks for which request.
- `AsWritten` (as_written.dfy): the router exactly as the code is written, including the exceptions it throws (see Findings).
- `Scenarios` (scenarios.dfy): worked commands from the usage text and a few edge cases.

A missing argument is `undefined` in the program. It is modelled as the empty string, because the program only ever tests it for truthiness, and both are falsy.

## Model

| member | source | states |
|---|---|---|
| Validators.ValidId | index.js:28-31 | The id check of `getProductById` and `deleteProduct` (also index.js:78-81): `isNaN(id)` is false, i.e. `JsNumbers.ToNumber` of the id is not NaN; characterised by `DigitIdsValid`, `WordIdsInvalid` and `GetProductEmptyId` |
| Validators.ValidPrice | index.js:48-52 | The price check of `createProduct`: `parseFloat(price)` is a number above 0 (positive `Infinity` included); characterised by `WholePriceValid`, `LeadingDigitsPrice`, `NegatedPriceInvalid` and `WordPriceInvalid` |
| Validators.ParamsPresent | index.js:148-152 | The presence check of the POST branch: there are three parameters and none of title, price, category is empty (falsy); its use is characterised by `PostErrors` and `ExtraParamsIgnored` |
| Requests.NewDraft | index.js:54-60 | The record `createProduct` sends: the three tokens, `Producto <title> creado` and the placeholder image; characterised by `NewDraftFields` |
| Requests.Path | index.js:21 | The endpoint per request: `/products` for list and create (index.js:21, 71), `/products/<id>` for get-by-id and delete (index.js:39, 89); joined to the base URL by `Describe`, whose URLs `ItemUrl` and `RecoverDescribe` characterise |
| Requests.Body | index.js:68 | `JSON.stringify` of the draft's five members in record order; `CreateCall` proves it decodes back to them |
| Text.Upper | index.js:131 | `toUpperCase` on ASCII: same length, each letter upper-cased, no lower-case letter left; `UpperEqualsIff` relates it to case-insensitive equality |
| JsNumbers.ParseFloat | index.js:48 | `parseFloat`: skip leading white space and read the longest decimal literal, NaN when there is none; characterised by `ParseFloatDigitsThen`, `ParseFloatSign`, `NoLiteralStart` and `NatRoundTrip` |
| JsNumbers.ToNumber | index.js:28 | The string-to-number conversion behind `isNaN`: trimmed, blank is 0, otherwise the whole text must be a decimal, `Infinity` or `0x`/`0o`/`0b` literal; characterised by `ToNumberOfDigits`, `NoLiteralStart` and `NatRoundTrip` |
| JsNumbers.IsNaN | index.js:78 | The global `isNaN` on a string: its conversion is NaN |
| Json.EncodeObject | index.js:68 | `JSON.stringify` of a flat object of strings whose keys are distinct and not array indices (such as the draft's), without indentation; `DecodeEncode` proves the reader inverts it |
| AsWritten.ParseAsWritten | index.js:125-176 | `processCommand` as the code spells it: GET with a `/` throws a ReferenceError, every DELETE a TypeError, the other branches run as written; characterised by `AsWrittenAgrees`, `AsWrittenThrowsIff` and `AsWrittenNeverSendsItemRequests` |
| AsWritten.CreateProductAsWritten | index.js:45-60 | `createProduct` as written: the price check, then the draft |
| AsWritten.DeleteProductAsWritten | index.js:77-89 | `deleteProduct` as written: the id check, then a ReferenceError on `productID`; characterised by `DeleteProductDiscrepancy` |
| Router.Parse | index.js:125-176 | A refused command is the usage error when the method or resource is missing; every built request is well formed: a valid single-segment id, or a draft from non-empty parameters with a valid price and the derived description and image |
| Router.Command | index.js:1 | Fewer than two user arguments is the usage error; otherwise the method, resource and remaining parameters are routed |
| Router.ParseAccepts | index.js:125-176 | The router builds request `r` exactly when the order-free reference definition accepts it (sound and complete) |
| Router.ParseAcceptsGet | index.js:134-143 | The GET branch builds exactly the list or get-by-id requests the reference accepts |
| Router.ParseAcceptsDelete | index.js:160-167 | The DELETE branch builds exactly the delete requests the reference accepts |
| Router.UsageErrorIff | index.js:126-129 | The usage error happens exactly when the method or the resource is missing |
| Router.UnsupportedMethodIff | index.js:170-173 | A present method that upper-cases to none of GET, POST, DELETE, and only such a method, is refused, reported in upper case |
| Router.GetErrors | index.js:134-143 | A GET fails with the list-resource error exactly when there is no `/` and the resource is not `products`, and with the id error exactly when the id segment fails the id check; no other GET error exists |
| Router.PostErrors | index.js:146-157 | A POST fails on the resource first, then on missing parameters, then on the price, each exactly under its condition; no other POST error exists |
| Router.DeleteErrors | index.js:160-167 | A DELETE fails with the id-required error exactly when there is no `/`, and with the id error exactly when the segment is not a number |
| Router.MethodCaseIgnored | index.js:131 | Two methods equal up to letter case route identically |
| Router.PrefixNotChecked | index.js:135-136 | Text before the first `/` is never looked at: `x/15` routes like `products/15` |
| Router.SameIdSegmentSameRoute | index.js:135-136 | Resources with the same id segment route identically under every method |
| Router.LaterSegmentsIgnored | index.js:136 | Segments after the id are dropped: `products/15/x` routes like `products/15` |
| Router.ExtraParamsIgnored | index.js:148 | Parameters after the third never change the outcome |
| Router.IdSegmentNames | index.js:136 | The id segment is exactly the text between the first `/` and the next `/` or the end |
| Router.ItemCall | index.js:85-89 | A get-by-id or delete goes to `https://fakestoreapi.com/products/<id segment>` without a body, with GET exactly when the command's method was GET |
| Router.ItemUrl | index.js:35-39 | The item URL is the base URL, `/products/` and the id; GET for a fetch and DELETE for a delete; no body |
| Router.CreateCall | index.js:54-71 | A create POSTs to `/products` a body that decodes to exactly title, price and category as typed, the derived description and the placeholder image, in that order |
| Text.UpperEqualsIff | index.js:131 | Upper-casing gives an upper-case word exactly when the two agree up to letter case |
| Text.Split | index.js:136 | The pieces contain no separator, there are at least two exactly when the separator occurs, and joining them gives back the text |
| Text.SplitJoin | index.js:136 | Splitting the join of separator-free pieces gives back the pieces |
| Validators.DigitIdsValid | index.js:28-31 | Every non-empty run of decimal digits passes the id check |
| Validators.WordIdsInvalid | index.js:78-81 | Text whose first non-blank character cannot open a number fails the id check |
| Validators.WholePriceValid | index.js:48-52 | A price written as the decimal numeral of n passes exactly when n > 0 |
| Validators.LeadingDigitsPrice | index.js:48-52 | A price that starts with digits followed by anything that cannot continue a literal is judged by the digits alone (`12abc` passes, `0kg` does not) |
| Validators.NegatedPriceInvalid | index.js:49 | A minus sign in front of any valid price makes it fail: the value is negated, or, when the price starts with a blank or a sign, no number is read at all |
| Validators.NegativeDigitsPriceInvalid | index.js:49 | `-` followed by digits never passes, `-0` included |
| Validators.WordPriceInvalid | index.js:48-52 | A price whose first non-blank character cannot open a number fails |
| JsNumbers.ToNumberOfDigits | index.js:28 | A decimal numeral converts to its value and is not NaN |
| JsNumbers.ParseFloatDigitsThen | index.js:48 | `parseFloat` of digits followed by a non-literal character is the digits' value |
| JsNumbers.ParseFloatSign | index.js:48 | When the rest starts with neither a blank nor a sign, a leading `-` negates what `parseFloat` reads and a leading `+` leaves it unchanged |
| JsNumbers.NoLiteralStart | index.js:28-31 | Text that cannot start a literal gives NaN from `parseFloat`, and from `isNaN` unless it is blank |
| JsNumbers.NatRoundTrip | index.js:48 | The decimal numeral of n reads back as n under both conversions |
| JsNumbers.NatToString | index.js:48 | The numeral of n is non-empty, all digits, and has value n |
| Requests.NewDraftFields | index.js:54-60 | The draft keeps title, price and category verbatim, uses the placeholder image, and its description names the title recoverably |
| Requests.Describe | index.js:62-71 | Only a create has a body; GET exactly for list and get-by-id, DELETE exactly for delete; every URL is under `https://fakestoreapi.com/products` |
| Requests.RecoverDescribe | index.js:3-7 | The request is recovered from the arguments handed to `fetch`: nothing is lost in the URL string, method and body |
| Requests.DescribeInjective | index.js:7 | Different requests never hand `fetch` the same arguments (method, URL string, body) |
| Json.ReadEscape | index.js:68 | The reader returns exactly the string the writer escaped and leaves the text after the closing quote |
| Json.DecodeEncode | index.js:68 | Decoding the encoded object gives back the same keys and values, in order |
| AsWritten.AsWrittenAgrees | index.js:125-176 | Where the code as written completes, it agrees with the corrected router |
| AsWritten.AsWrittenThrowsIff | index.js:134-168 | The code as written throws exactly on a GET with a `/` and on every DELETE |
| AsWritten.AsWrittenNeverSendsItemRequests | index.js:135-163 | As written, no get-by-id or delete request is ever built |
| AsWritten.GetByIdDiscrepancy | index.js:136-137 | For `GET products/<id>` with a valid id, the code as written throws a ReferenceError; the corrected router fetches the product |
| AsWritten.DeleteDiscrepancy | index.js:161 | For `DELETE products/<id>` with a valid id, the code as written throws a TypeError; the corrected router deletes the product |
| AsWritten.DeleteProductDiscrepancy | index.js:89 | Past the id check, `deleteProduct` as written throws for every valid id; the corrected call goes to the item URL |
| Scenarios.GetProduct15 | index.js:110 | `GET products/15` asks for product 15 |
| Scenarios.Product15Call | index.js:39 | Product 15 is fetched from `https://fakestoreapi.com/products/15` with GET |
| Scenarios.GetProductAbc | index.js:28-31 | `GET products/abc` is refused by the id check |
| Scenarios.GetProductEmptyId | index.js:28 | `GET products/` passes the id check with an empty id, since `isNaN("")` is false |
| Scenarios.GetCapitalisedResource | index.js:138-142 | The resource name is case-sensitive: `get Products` is an invalid list resource |
| Scenarios.PatchUnsupported | index.js:170-171 | `patch` is refused as the unsupported method `PATCH` |
| Scenarios.CreateRemera | index.js:146-153 | `POST products Remera 300 remeras` builds the draft with price `"300"`, description `Producto Remera creado` and the placeholder image |
| Scenarios.CreateNegativePrice | index.js:49-51 | `POST products Remera -5 remeras` is refused by the price check |
| Scenarios.DeleteWithoutId | index.js:164-166 | `DELETE products` is refused for want of an id |
| Scenarios.NoArguments | index.js:126-129 | A run without arguments is the usage error |

## Left out

- Network I/O: the model stops at the description of the call (`fetchAPI`, index.js:5-16), so the HTTP status check, JSON parsing of the reply and the caught error are not modelled.
- URL parsing inside `fetch`: the WHATWG URL parser strips leading and trailing control characters and spaces and removes tabs and newlines. Ids that differ only there, such as `7 ` and `7` (both pass the id check, since `isNaN` trims), give different URL strings but reach the server as the same request. `Requests.RecoverDescribe` and `Requests.DescribeInjective` are about the arguments handed to `fetch`, not about the request the server receives.
- Console output: the messages, `showHelp` (index.js:95-123) and the pretty-printing of results (`JSON.stringify(x, null, 2)`). Each error message is one `Router.Error` constructor.
- `process.exit(1)`: it is the end of the run, so each error path returns its `Error` instead.
- The `Headers` property of the POST options (index.js:64-67): `fetch` does not read that capitalised property, so no header is modelled.
- The progress messages at index.js:33 and 83 are single-quoted and so print `${productID}` literally; they are output only.
- Asynchrony: each command makes at most one awaited call and nothing runs concurrently.
- Text.Upper: upper-cases ASCII letters only. `toUpperCase` also maps non-ASCII letters, so a method spelled with one of them (`ſ`, `ﬆ`) is not covered.
- Validators.ValidPrice: works on exact reals. The rounding of `parseFloat` to an IEEE double is left out. It changes the `> 0` verdict only for a value that underflows to 0, such as `1e-400`, which the model accepts and the program refuses.
- JsNumbers.ToNumber: values are also exact reals. Overflow to `Infinity` (e.g. `1e400`) is left out; it cannot change whether the value is NaN.
- Json.EncodeObject: writes the members in the order given. `JSON.stringify` writes array-index keys (such as `"1"`) first, in ascending order, and a JS object cannot hold a key twice. The model leaves both out, so it is exact only for distinct, non-index keys. The draft at index.js:54-60, the only object the program stringifies, has such keys.
- The usage text describes a fifth parameter (an image URL); the code never reads it, and neither does the model.
- Where the program's documentation and its code differ, the model follows the code:
  - an id is anything `isNaN` accepts, so the empty segment, `1.5`, ` 7 `, `0x1F` and `Infinity` pass;
  - the body's `price` is the typed text, not a number;
  - POST accepts and ignores parameters beyond the third;
  - GET and DELETE never check the text before the `/`;
  - the usage text lists `GET users` (index.js:105), but the code refuses every list resource except `products` (index.js:138-142), and so does the model (`InvalidListResource`).

## Findings

| source | as written | input that shows it | evidently intended | confidence | as-written member | corrected member |
|---|---|---|---|---|---|---|
| index.js:136-137 | binds `productID` but calls `getProductById(productId)`; `productId` is not declared in that scope, so a ReferenceError is thrown | `GET products/15` | fetch product 15 after the id check | high (not executed) | AsWritten.GetByIdDiscrepancy | Router.Parse |
| index.js:161 | calls `resource.include('/')`; strings have no `include` method, so a TypeError is thrown for every DELETE (line 163 repeats the `productId` mistake) | `DELETE products/7` | `resource.includes('/')`, then delete product 7 after the id check | high (not executed) | AsWritten.DeleteDiscrepancy | Router.Parse |
| index.js:89 | `deleteProduct` builds its path from the undeclared `productID` instead of its parameter `productId`, so it throws after the id check | `deleteProduct("7")` | `DELETE /products/7` | high (not executed) | AsWritten.DeleteProductDiscrepancy | Requests.Describe |
