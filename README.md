# Solebox checkout client, modelled in Dafny

This project models `SoleboxClient`, the checkout client of a bot that buys
sneakers on solebox.com. The client runs three steps in order on one
cookie-backed HTTP session:

1. `login` posts the customer's credentials. It succeeds when the returned
   page contains the dashboard marker `dashboardLogout`.
2. `getProductDetails` fetches the product page. It reads the hidden `anid`
   and `cnid` inputs and builds a size map from the `a.selectSize` anchors:
   label → `{inStock, id}`. A size is in stock when its parent's class string
   does not contain `inactive`. It stores the result in `_fetched.product`.
3. `addToCart` checks that the stored details are usable and the size is in
   stock. Only then does it post the cart form. It succeeds on a 302 whose
   `Location` is the product's detail URL.

`buyProduct` drives the three steps and logs the first error.

Files:

- `wrappers.dfy` (`Wrappers`): `Option`, `Result` and `Outcome`.
- `js_string.dfy` (`JsString`): substring search shaped like
  `String.prototype.indexOf`, and substring containment. Both success markers
  are `indexOf(...) == -1` tests, and that comparison is what the model states.
- `transport.dfy` (`Transport`): the request-building part of `_makeRequest`.
  This covers the options and settings objects, form values, the default
  method, and the header-merge loop.
- `product_page.dfy` (`ProductPage`): the parsed product page and the anchor
  loop that fills the size map and counts in-stock sizes.
- `solebox_client.dfy` (`Solebox`): the gates, the forms, the redirect check,
  and the class `SoleboxClient` with its fields and step methods.

The network is an oracle. Each step method takes the reply the HTTP client
would give: `Delivered(value)` or `Rejected(reason)`. Every request that
reaches the HTTP client is appended to the ghost field `sent`, which
records the transport's traffic and is not state of the client itself. So "`addToCart`
throws before any request" is stated as `sent == old(sent)`.

The HTML parse is replaced by its output, a `Page`:

- the `anid` and `cnid` input values, each possibly absent;
- the anchors in document order, each with an optional `id`, the size label
  (as the property key it becomes), and the parent's optional `class`
  attribute.

Where the code and the design description of the system disagree, the model
follows the code:

- `getProductDetails` never checks for missing `anid`/`cnid`. It stores
  whatever it read. The problem only shows up at the first gate of
  `addToCart` (`MissingIdsSurfaceAtCart`).
- The stock test is a substring test on the class string, not a class-token
  test. `"notinactive"` also counts as out of stock.
- The size map has one entry per distinct label. When labels repeat, the last
  anchor wins. The logged in-stock counter counts anchors, not keys.
- There is no error taxonomy. Each throw is a plain `Error` with a message. The
  model tags it with the check that fired (`ClientError`), and `Message` gives
  the text; `OutOfStockMessageNamesSize` shows the stock error names the size.
- An anchor whose parent has no `class` attribute makes `.indexOf` throw a
  TypeError. The step then fails and `_fetched.product` keeps its old value.
- Steps may be called again; nothing makes a transition run at most once.

## Model

| member | source | states |
|---|---|---|
| JsString.IndexOf | lib/solebox-client/index.js:66 | `indexOf` is -1 exactly when the search string does not occur; otherwise it is the first index (in code points) where it occurs |
| Transport.DefaultMethod | lib/solebox-client/index.js:156 | the method sent is never empty: an absent or empty method becomes `GET`, and any other method is kept |
| Transport.BaseHeaders | lib/solebox-client/index.js:158-163 | every request starts from exactly the four identity headers, with `User-Agent` set to the client's user agent |
| Transport.MergedHeaders | lib/solebox-client/index.js:158-172 | the merged headers hold every base key and every caller key; caller values win; base values stay where the caller says nothing; no caller headers means the base set |
| Transport.MergeHeaders | lib/solebox-client/index.js:165-172 | the key-by-key copy loop produces exactly the merged header map |
| ProductPage.ParentActive | lib/solebox-client/index.js:98 | an anchor is in stock exactly when its parent's class string does not contain `inactive` |
| ProductPage.ExtractSizes | lib/solebox-client/index.js:93-104 | the anchor loop succeeds exactly when every parent has a class; it then yields the size map and the in-stock count of the anchors; otherwise it stops at the first anchor without a parent class |
| ProductPage.SizeMapKeys | lib/solebox-client/index.js:95-103 | a label is a key of the size map exactly when some anchor carries it |
| ProductPage.SizeMapLastWins | lib/solebox-client/index.js:100-103 | the entry for a label is the `{inStock, id}` of the last anchor with that label; its `inStock` is the absence of `inactive` in that anchor's parent class |
| ProductPage.SizeMapCardinality | lib/solebox-client/index.js:93-104 | the map has at most one entry per anchor, and exactly one per anchor when no label repeats |
| ProductPage.CountInStockCountsAnchors | lib/solebox-client/index.js:94-99 | the logged counter equals the number of in-stock anchors, repeated labels included |
| ProductPage.RepeatedLabelCountedTwice | lib/solebox-client/index.js:94-103 | two in-stock anchors labelled "42" give one map entry (the second anchor's id) and a count of two |
| Solebox.OutOfStockMessageNamesSize | lib/solebox-client/index.js:124 | the out-of-stock error's message contains the configured size |
| Solebox.LoginAccepted | lib/solebox-client/index.js:66 | the login page is accepted exactly when it contains `dashboardLogout` |
| Solebox.LoginForm | lib/solebox-client/index.js:46-60 | the login form has distinct keys and carries the email as `lgn_usr`, the password as `lgn_pwd`, and `fnc=login_noredirect` |
| Solebox.LoginOutcome | lib/solebox-client/index.js:63-72 | `login` passes exactly when the page was delivered and contains the marker; a missing marker is a login failure; a transport failure propagates |
| Solebox.ProductOutcome | lib/solebox-client/index.js:83-115 | `getProductDetails` succeeds exactly when the page was delivered and every anchor's parent has a class; it stores the page's `anid` and `cnid` unchecked |
| Solebox.FetchedSizesFollowAnchors | lib/solebox-client/index.js:95-115 | the stored size map's keys are exactly the page's labels, and each entry comes from the last anchor carrying its label |
| Solebox.SelectVariant | lib/solebox-client/index.js:119-124 | the cart gates pass exactly when details are stored, `cnid` and `anid` are non-empty, the size key is present and in stock; missing state gives the details error, a present but out-of-stock size gives the stock error naming the size |
| Solebox.MissingIdsSurfaceAtCart | lib/solebox-client/index.js:88-121 | a page without usable `anid`/`cnid` is stored without error, and `addToCart` then fails its first gate |
| Solebox.CartForm | lib/solebox-client/index.js:127-142 | the cart form has distinct keys; `aid` is the selected variant's id; `anid` and `parentid` are the fetched `anid`; `cnid` is the fetched `cnid`; `fnc` is `tobasket` |
| Solebox.CartOutcome | lib/solebox-client/index.js:147-151 | `addToCart` passes exactly when the status is 302 and `Location` is the detail URL built from `cnid` and `anid`; any other delivered response is a cart failure |
| Solebox.RedirectIdentifiesProduct | lib/solebox-client/index.js:151 | when `cnid` has no `&`, two detail URLs are equal exactly when their `cnid` and `anid` are, so an accepted redirect names the fetched product |
| Solebox.OneSizePageFetched | lib/solebox-client/index.js:83-124 | a page with `anid` A1, `cnid` C1 and one active anchor for size 42 is stored as `{A1, C1, {42: {true, id}}}` and passes both cart gates |
| Solebox.OneSizeCartAdded | lib/solebox-client/index.js:127-151 | for that product the form carries `aid` = anchor id and `anid` = `parentid` = A1; status 302 with the C1/A1 detail URL passes, and status 200 fails |
| Solebox.SoleboxClient.constructor | lib/solebox-client/index.js:11-27 | the client keeps the configured customer, product and proxy, uses the fixed mobile user agent, and starts with no fetched product and no requests sent |
| Solebox.SoleboxClient.MakeRequest | lib/solebox-client/index.js:154-188 | `_makeRequest` sends exactly one request: the defaulted method, the merged headers and the client's own proxy, with the caller's URI, form and flags |
| Solebox.SoleboxClient.Login | lib/solebox-client/index.js:44-73 | `login` sends the login request once and ends as the login outcome of the reply |
| Solebox.SoleboxClient.GetProductDetails | lib/solebox-client/index.js:75-116 | `getProductDetails` sends one GET to the product URL; on success it stores and returns the same product record and reports the in-stock count; on failure the stored product is unchanged |
| Solebox.SoleboxClient.AddToCart | lib/solebox-client/index.js:118-152 | when a gate fails, `addToCart` throws its error and sends nothing; otherwise it sends the cart request once and ends as the redirect check decides |
| Solebox.SoleboxClient.BuyProduct | lib/solebox-client/index.js:29-42 | the steps run in order; the first failure stops the later steps (their requests are never sent) and is the single logged error; nothing is logged when all three pass |

## Left out

- HTTP transport: `request-promise`, the cookie jar and proxy networking are not modelled. Each reply is an input to its step. A transport failure, or a non-2xx status while `simple` is left on, is a `Rejected` reply.
- HTML parsing with `cheerio` is not modelled. A parsed `Page` is the input instead. `data('size-us')` number conversion and the string coercion of property keys are folded into the label string.
- Logging and debug output are not modelled. The only parts kept are the error that `buyProduct` logs (its result) and the logged in-stock count (an out-parameter of `GetProductDetails`).
- `async`/`await` is not modelled. The steps are ordinary sequential methods.
- lib/cli/index.js is not part of this model. It only parses arguments, loads the config file and calls `buyProduct`.
- Solebox.SelectVariant: JavaScript object semantics are not modelled. The size map is a plain map, so a size key such as `constructor` that is an inherited `Object.prototype` property is treated as missing. In the code it passes the first gate and fails the stock gate. An anchor label `__proto__`, which does not create an own key, is treated as a key.
- Solebox.SoleboxClient.MakeRequest: the `json` option is left out, because no step sets it. Header names are compared case-sensitively, as JavaScript object keys are. Header order is not kept. Writing the defaulted method back into the caller's options object is not modelled, because no step reuses its options object.
- Transport.MergeHeaders: the loop visits caller keys in arbitrary order, not in `Object.keys` order. Keys are distinct, so the result is the same.
- JsString.IndexOf: indices count code points, not the UTF-16 code units JavaScript counts, so for text with characters outside the Basic Multilingual Plane a returned index can differ; the client only compares the result with -1, where both agree.
- Solebox.Message: the text for the TypeError on a missing parent class depends on the JavaScript engine.
