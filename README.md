# Product-list cache worker, modelled in Dafny

The backend of the shop is a Cloudflare Worker (`backend/src/index.js`) that
serves the shop's product list as JSON. It is a read-through cache over the
Square catalog:

- On every request it reads one KV key, `"product_list_cache"`, holding a
  `{data, timestamp}` record. If the record exists and its age in minutes is
  strictly below `CACHE_EXPIRATION_MINUTES` (`parseInt` of the environment
  variable, `"10"` when unset or empty), the cached `data` is returned as is.
- Otherwise it lists the catalog's items (`catalog/list?types=ITEM`),
  batch-retrieves them with their related objects, maps every item to a
  product (id, name, price, description, image URLs, payment URL), writes
  `{data, timestamp}` back under the same key and returns `data`.

The model has four modules:

- `Wrappers` (`wrappers.dfy`): `Option` and `Result`.
- `Config` (`config.dfy`): `parseInt` on decimal text and the cache lifetime
  setting with its default.
- `Catalog` (`catalog.dfy`): the Square objects the worker reads, the product
  it serves, the image filter, the `tmp_payment_link` scan (an imperative
  loop that leaves at the first match, where the source has `break`), the item-to-product map and the two
  Square calls of `fetchFromSquareAPI`.
- `Cache` (`cache.dfy`): the freshness test, `Serve` (one request as a
  function from the old KV contents and the inputs to the response and the
  new KV contents), lemmas about it, and the class `ProductCache` whose `kv`
  map field is the KV namespace and whose `Handle` and `FetchFromSquareApi`
  methods read and overwrite it step by step: `Handle` is proved equal to
  `Serve`, and `FetchFromSquareApi` to `Refresh`.

Inputs that the worker gets from outside are parameters, gathered in
`Cache.Request`: the clock (read twice by the source: once for the cache age,
once for the new record's timestamp, so `nowAtCheck` and `nowAtStore`), the
environment setting, the two Square replies (`None` for a reply whose HTTP
status is not OK), and whether the KV `get` and `put` succeed (a rejected KV
call fails the request; a rejected `put` means the fetched data is not
returned).

The following JSON fields, which the code dereferences without a guard, are
`Option`s; when one is missing the JavaScript throws, and the model returns a
`Failure` that aborts the request before the KV write: the catalog's `objects`, the batch's
`related_objects` (read once per item, so only needed when there are items),
an item's `image_ids` (only dereferenced when some related object is an
IMAGE) and the first variation's `price_money`. An item's `variations` is a
sequence, and an absent `variations` is represented as `[]`: reading the first
variation of either throws, and the model fails with `NoVariation`.

The model distinguishes four cases of the text stored under the cache key
(`Cache.StoredValue`), by what lines 126-131 of `index.js` do with it:

- a `{data, timestamp}` record, served when fresh and refetched when stale;
- the empty string, which is falsy and so handled like a missing key;
- JSON other than `null` whose `timestamp` is undefined (a number, a string,
  a boolean, an array, an object without the field): the age is NaN, the
  comparison is false, and the record is refetched;
- text on which `JSON.parse` throws, or `null` (reading `timestamp` of
  `null` throws): there is no `try`, so the request fails and Square is not
  asked.

## Model

| member | source | states |
|---|---|---|
| `Config.ParseInt` | backend/src/index.js:13 | on decimal text, a number is read exactly when the text starts with a digit or with a sign and a digit, and it has the text's sign; otherwise NaN |
| `Config.ParseIntReadsLeadingNumber` | backend/src/index.js:13 | `parseInt` reads back the decimal text of a number, with or without a minus sign, and stops at the first non-digit (a `0x` prefix excluded) |
| `Config.ParseIntWithoutDigits` | backend/src/index.js:13 | text starting with a visible ASCII character other than a digit or a sign is NaN |
| `Config.ExpirationMinutes` | backend/src/index.js:13 | an unset or empty `CACHE_EXPIRATION_MINUTES` gives a lifetime of 10 minutes; any other setting is passed to `parseInt` |
| `Config.ExpirationMinutesFromSetting` | backend/src/index.js:13 | a setting written as a natural number in decimal gives that many minutes |
| `Catalog.ImageUrls` | backend/src/index.js:95-97 | the filter yields no more URLs than there are related objects, each the URL of a related IMAGE listed in the item's `image_ids` |
| `Catalog.ImageUrlsSelectsInOrder` | backend/src/index.js:95-97 | an item's images are exactly the `image_data.url`s of the related objects of type IMAGE whose id is in the item's `image_ids`, each once, in the order of `related_objects` |
| `Catalog.ItemImages` | backend/src/index.js:93-97 | the image filter fails exactly when `image_ids` is undefined and some related object is an IMAGE; with `image_ids` undefined and no IMAGE it yields no images |
| `Catalog.PaymentUrl` | backend/src/index.js:100-108 | the payment URL is `"#"` or the `string_value` of an attribute named `tmp_payment_link`, and `"#"` when no attribute has that name |
| `Catalog.PaymentUrlIsFirstMatch` | backend/src/index.js:100-108 | the payment URL is the `string_value` of the first custom attribute named `tmp_payment_link`, and `"#"` when there is none (also when there are no attributes) |
| `Catalog.ScanPaymentLink` | backend/src/index.js:100-108 | the `for...in` loop with `break` returns the first `tmp_payment_link` value, or `"#"` when no attribute has that name |
| `Catalog.MapItem` | backend/src/index.js:92-119 | an item's mapping fails exactly when the image filter throws, there is no variation, or the first variation has no price, with the error of the first of these |
| `Catalog.MapItemFields` | backend/src/index.js:111-117 | a product keeps its item's id, name and description; its price times 100 is the first variation's amount; its images are the item's image selection and its payment URL the attribute scan's |
| `Catalog.MapItems` | backend/src/index.js:92-120 | no items map to an empty list whatever `related_objects` is; a successful map has one product per item, in order, each the map of its item, and with items it needs `related_objects` |
| `Catalog.ProductListMirrorsCatalog` | backend/src/index.js:92-119 | the product list has the catalog's length and order, with each item's id, name, description, payment URL and price (`price * 100 == amount`) |
| `Catalog.MapItemsFailsAtFirstError` | backend/src/index.js:92-120 | the map fails exactly when some item fails, and then with the error of the first failing item |
| `Catalog.ExampleItem` | backend/src/index.js:92-119 | an item priced 1050 with one of two related images and a `tmp_payment_link` attribute maps to price 10.5, that one image and that link |
| `Catalog.FetchProducts` | backend/src/index.js:58-97 | a failed catalog list fails with its endpoint; a list without `objects` fails with `ObjectsMissing`; a failed batch-retrieve after a list with objects fails with its endpoint; when both replies are OK the result is exactly the map of the listed items over the batch's `related_objects` (so on success there is one product per catalog item, with its id, in order) |
| `Cache.IsFresh` | backend/src/index.js:128-131 | the record is fresh exactly when `now - timestamp < minutes * 60000`; an age equal to the lifetime is stale, and a NaN lifetime is never fresh |
| `Cache.Refresh` | backend/src/index.js:58-77 | the data is returned exactly when the fetch and the KV write succeed, and then `{data, timestamp: nowAtStore}` is stored under the cache key; on any failure nothing changes |
| `Cache.Serve` | backend/src/index.js:123-147 | a failed KV read fails the request; no key other than `"product_list_cache"` is added or changed; a failed request changes nothing; a successful one changes nothing or stores a record of exactly the data returned |
| `Cache.ServeFreshRecord` | backend/src/index.js:125-135 | when the KV read succeeds, a fresh record is served exactly as stored, whatever Square would answer, and the KV namespace is unchanged |
| `Cache.ServeMissingOrStale` | backend/src/index.js:125-147 | when the KV read succeeds and there is no record, an empty value, a value without a timestamp, or a stale record, the request returns the fetched data when the fetch and write succeed, storing it with the write-time clock, and otherwise changes nothing |
| `Cache.ServeCorruptCache` | backend/src/index.js:125-127 | a stored value on which `JSON.parse` throws, or `null`, fails the request before any Square call, with the KV namespace unchanged |
| `Cache.ServeNaNLifetime` | backend/src/index.js:128-131 | with a lifetime setting that `parseInt` reads as NaN, every request whose KV read succeeds and whose stored value is not one on which `JSON.parse` throws (or `null`) refetches |
| `Cache.RefreshedDataMirrorsCatalog` | backend/src/index.js:58-77 | the data a successful refetch returns and stores has one product per listed catalog item, in order, with the item's id, name, description and payment URL and `price * 100 ==` its first variation's amount |
| `Cache.SecondRequestHitsCache` | backend/src/index.js:123-147 | over a strongly consistent KV namespace: after a successful refetch, a second request with the same lifetime setting, whose KV read succeeds and whose clock is within the lifetime of the write, returns the same data from the cache and writes nothing |
| `Cache.ProductCache.FetchFromSquareApi` | backend/src/index.js:58-77 | returns and writes what `Refresh` does: the record is written only after both calls and the transform succeed, and the data is returned only when the write succeeds |
| `Cache.ProductCache.Handle` | backend/src/index.js:123-147 | the handler's response and new KV contents are those of `Serve`: a fresh record is returned with no write, and a failure leaves the KV unchanged |

## Left out

- The HTTP transport of `apiRequest` (URL, headers, body, `fetch`, `response.json()`): each Square call is an input that is either a parsed reply or a failure; the request bodies, including the item ids sent to batch-retrieve, are not modelled.
- The status text carried by a failed request's error message is not modelled; the error records only the endpoint.
- `logDebug`: console output that does not affect control flow.
- `JSON.stringify` and `JSON.parse` of the record and of the response body: a record is taken to round-trip; other stored text is one of the cases of `Cache.StoredValue`.
- A stored record with a numeric `timestamp` whose `data` is missing or is not a product list is not modelled: `Cache.Parsed` always holds a product list. The source serves such a record, when fresh, as `JSON.stringify` of whatever `data` is (an empty body when it is missing).
- A `timestamp` stored as a non-number (a string such as "5", which `-` coerces to a number) is not modelled.
- Floating point: the cache age and the price are computed exactly over the reals, not in IEEE doubles.
- Config.ParseInt: models `parseInt` on decimal text only; leading whitespace (which JavaScript skips, so " 10" gives 10) and the `0x`/`0X` hexadecimal prefix (so "0x1E" gives 30) are not modelled, nor are non-string environment values.
- Fields that the code dereferences and that throw when missing, but that are not modelled: `item_data` (line 93), an image's `image_data` (line 97) and a variation's `item_variation_data` (line 114); the model takes these to be present.
- Fields whose absence does not throw (an item's name or description, a custom attribute's `string_value`, a variation's `price_money.amount`): they are plain strings and integers here, so an `undefined` in the output, or a NaN price (`undefined / 100`, which `JSON.stringify` writes as `null`), is not modelled.
- The KV namespace is taken to be strongly consistent: a `get` returns the last `put`. Reads that lag behind a write, as Cloudflare KV allows for up to about a minute at other locations (which then see the old record, or none, and refetch), are not modelled.
- Concurrency between worker invocations and async suspension: each request is one sequential step over the KV contents.
- The response headers (`Content-Type: application/json`).
- `frontend/static/js/sendPayment.js`: DOM event wiring with no logic to model.
