# Ordinals proxy and its forms, modelled in Dafny

This project models a small Express proxy in front of the OKX NFT marketplace
API for Fractal Bitcoin ordinals, and two of the React forms that call it.

Each of the proxy's three routes follows the same steps:
- It stamps the call with a seconds-precision timestamp.
- It builds a query string (GET `/api/ordinals`) or a sparse JSON body (POST
  `/api/inscriptions`, POST `/api/trade-history`). Omitted fields get
  defaults, and falsy optional fields are left out.
- It renders the canonical pre-hash message `timestamp + method + path + body`,
  signs it with the account secret and attaches the `OK-ACCESS-*` headers.
- It forwards the call. Then it relays the exchange's body, or translates the
  failure into a fixed error shape.

The two forms are "Retrieve Valid Inscriptions" and "Trade History". The
model covers the state they keep, their input checks, the parameter objects
they post, and the paging guard.

Modules:
- `JsValues` (`js_values.dfy`): JavaScript values and truthiness, `||`, `??`
  and conditional spread. Objects are ordered property lists, and a missing
  property reads as `undefined`.
- `JsText` (`js_text.dfy`): the white-space set of `trim`, `trim`, decimal
  `parseInt`, and the decimal text of an integer.
- `Json` (`json.dfy`): `JSON.stringify` of the flat request objects.
  Properties holding `undefined` are dropped.
- `Signing` (`signing.dfy`): timestamp truncation, `preHash` and the header
  set. `sign` is the keyed-signature primitive itself, a parameter.
- `Proxy` (`proxy.dfy`): the three route handlers as pure functions.
  - Input: the request, the clock reading, the credentials, the HMAC
    primitive, and the exchange (a function from the call sent to its
    outcome).
  - Output: an `Exchange` value, holding the call sent and the reply.
  - `Authentic` is the exchange's own check. It recomputes the pre-hash from
    what arrived (the timestamp header, the method, the URL after the host
    and the body) and compares the signature header with it. Every handler
    is proved to send only calls that pass this check.
- `Service` (`service.dfy`): what a form sees of a service call. That is a
  response, or a thrown value (an `Error` with a message, or anything else).
- `RetrieveInscriptions` (`retrieve_inscriptions.dfy`) and `TradeHistory`
  (`trade_history.dfy`): each form's state is a class whose methods update
  its fields as the component's `setX` calls do. The service is a method
  parameter.
- `ClientServer` (`client_server.dfy`): what happens to each form's parameter
  object inside the proxy.

Behaviours of the code worth noting:
- The trade-history route always answers a failure with status 500, even
  when the exchange answered with another status. Its fallback `code` is the
  number `50026`. The inscriptions route mirrors the exchange's status, and
  its fallback code is the string `"50026"`.
- The collections route answers every failure with `{error: "Failed to fetch
  ordinals data"}`. It is not a `{code, msg, data}` envelope.
- The inscriptions route's fallback `msg` is the transport error's own
  message. The underlying cause therefore does reach the response body.

## Model

| member | source | states |
|---|---|---|
| Signing.Timestamp | ordinals-server.cjs:49 | the timestamp is the clock text without its last five characters, plus `Z`; it always ends in `Z` |
| Signing.TimestampHasSecondsPrecision | ordinals-server.cjs:82 | an ISO reading `YYYY-MM-DDTHH:mm:ss.sssZ` becomes a 20-character `YYYY-MM-DDTHH:mm:ssZ` that keeps the first 19 characters |
| Signing.BodyText | ordinals-server.cjs:31 | the body part of the message is empty exactly when the call has no body; otherwise it is the serialised body |
| Signing.PreHash | ordinals-server.cjs:29-35 | the message is exactly timestamp, method, path and the serialised body (or nothing when there is no body), one after another |
| Signing.PreHashDeterminedByParts | ordinals-server.cjs:31-32 | with the same timestamp, method and path, two messages are equal exactly when the bodies serialise alike |
| Signing.AuthHeaders | ordinals-server.cjs:60-66 | the headers are the five names in order, carrying the content type, key, signature, timestamp and passphrase |
| Json.Stringify | ordinals-server.cjs:31 | a serialised body is always a braced, non-empty text |
| Json.Wire | ordinals-server.cjs:31 | serialisation keeps no `undefined` property and never lengthens the object; a body without them is written whole |
| Json.WireKeepsDefined | ordinals-server.cjs:31 | a property appears on the wire if and only if the object has it and it is not `undefined` |
| JsText.Trim | src/components/RetrieveInscriptions.tsx:37 | `trim` leaves no white space at either end, and its result is empty exactly when the input is all white space |
| JsText.TrimIsSubstring | src/components/RetrieveInscriptions.tsx:37 | what `trim` keeps is a substring of its input |
| JsText.TrimStartIsSuffix | src/components/RetrieveInscriptions.tsx:47 | `parseInt`'s leading trim only removes characters: its result is a suffix of the input |
| JsText.ParseInt | src/components/RetrieveInscriptions.tsx:47 | `parseInt` of an empty or all-white-space text is `NaN` |
| JsText.ParseIntOfNatText | src/components/RetrieveInscriptions.tsx:47 | `parseInt` reads back the decimal text of every natural number |
| JsValues.Or | ordinals-server.cjs:90 | JavaScript's logical or of `v` and `d` is `v` when `v` is truthy and `d` otherwise, so it is truthy exactly when one of them is |
| JsValues.Coalesce | ordinals-server.cjs:91 | `v ?? d` is `v` unless `v` is `null` or `undefined`, then `d`; it is nullish exactly when both are |
| JsValues.SpreadIfTruthyReadsBack | ordinals-server.cjs:92 | spreading `v && {key: v}` adds `key` exactly when `v` is truthy; the key then reads back as `v`, otherwise as `undefined` |
| JsValues.SpreadTruthy | ordinals-server.cjs:92-93 | conditional spreads add exactly the keys whose values are truthy, in order, each with its value copied from the request |
| Proxy.SignedCall | ordinals-server.cjs:97-106 | the call sent passes the exchange's signature check, and its URL, method, body and timestamp header are the ones that were signed; the same signing steps appear at ordinals-server.cjs lines 56-66 (collections) and 163-172 (trade history) |
| Proxy.SlugParam | ordinals-server.cjs:52 | the slug is the query's `slug` value, or empty when the query has none |
| Proxy.CollectionsQuery | ordinals-server.cjs:52 | the query is `?limit=20&slug=`, then the slug, then `&isBrc20=false` |
| Proxy.HandleCollections | ordinals-server.cjs:46-76 | sends an authentic GET with no body to the base URL plus the path and query; relays the exchange's body, or answers 500 `{error: "Failed to fetch ordinals data"}` |
| Proxy.CollectionsReadOnlySlug | ordinals-server.cjs:52 | the caller's `limit` and `isBrc20` affect neither the call nor the reply; only the slug does |
| Proxy.InscriptionsBody | ordinals-server.cjs:87-94 | the keys are `slug`, `walletAddress`, `limit`, `isBrc20`, then `cursor` and `sort` only when truthy; `limit` is `"10"` when the request's limit is falsy; `isBrc20` defaults to `false` only when nullish |
| Proxy.InscriptionsWireKeys | ordinals-server.cjs:87-97 | the signed body carries `slug` and `walletAddress` unless the request left them undefined, `limit` and `isBrc20` always, then each optional key the request gave truthy; an optional key is absent, never null |
| Proxy.CursorAddsOneMember | ordinals-server.cjs:92 | adding a page cursor to a request changes the signed message only by inserting one comma and the `cursor` member |
| Proxy.MessageGainsOneMember | ordinals-server.cjs:29-35 | inserting a defined property after a non-empty part of a body inserts a comma and that member into the pre-hash, and changes nothing else |
| Proxy.CursorBodies | ordinals-server.cjs:92 | a truthy cursor added to a request without one appears in the body right after the four base properties |
| Proxy.ErrorEnvelope | ordinals-server.cjs:137-141 | the error body has the keys `code`, `msg` and `data`, and `data` is null |
| Proxy.UpstreamCode | ordinals-server.cjs:138 | `error.response?.data?.code` is the exchange's code when it answered, and `undefined` when no answer arrived |
| Proxy.UpstreamMsg | ordinals-server.cjs:139 | `error.response?.data?.msg` is the exchange's message when it answered, and `undefined` when no answer arrived |
| Proxy.InscriptionsFailureReply | ordinals-server.cjs:137-141 | the status is the exchange's, or 500 when it is absent or 0; `code` is the exchange's when truthy, else the string `"50026"`; `msg` is the exchange's when truthy, else the error's message |
| Proxy.HandleInscriptions | ordinals-server.cjs:79-143 | sends an authentic POST whose signed and sent body is the built body; relays the exchange's body, or answers with the failure reply |
| Proxy.TradeHistoryBody | ordinals-server.cjs:152-161 | the keys are `slug`, `limit`, `sort`, `isBrc20`, then `cursor`, `tradeWalletAddress`, `type` and `orderSource` only when truthy; `limit` defaults to `"10"` and `sort` to `"desc"`; `isBrc20` defaults to `true` only when nullish |
| Proxy.TradeHistoryFailureReply | ordinals-server.cjs:176-183 | the status is always 500; `code` is the exchange's when truthy, else the number 50026; `msg` is the exchange's when truthy, else `"Failed to fetch trade history"` |
| Proxy.HandleTradeHistory | ordinals-server.cjs:145-184 | sends an authentic POST whose signed and sent body is the built body; relays the exchange's body, or answers with the failure reply |
| Proxy.FailureRepliesDiverge | ordinals-server.cjs:137-138 | (with the trade-history reply at ordinals-server.cjs lines 178-179) for the same failure with a status other than 0 and 500, the inscriptions route mirrors the status and falls back to the string `"50026"`, while the trade-history route answers 500 with the number 50026 |
| RetrieveInscriptions.LimitInRange | src/components/RetrieveInscriptions.tsx:47-48 | a blank limit never passes the range check (`parseInt` gives `NaN`) |
| RetrieveInscriptions.ValidationError | src/components/RetrieveInscriptions.tsx:36-51 | a failed validation reports one of the three messages: slug required, wallet address required, limit out of range |
| RetrieveInscriptions.ValidationOrder | src/components/RetrieveInscriptions.tsx:36-54 | the checks run in order and the first failure wins: a blank slug, then a blank wallet address, then a limit out of range; the form is valid exactly when all three pass |
| RetrieveInscriptions.DecimalLimitAccepted | src/components/RetrieveInscriptions.tsx:47-48 | a decimal limit passes exactly when it is between 1 and 100 |
| RetrieveInscriptions.InscriptionParams | src/components/RetrieveInscriptions.tsx:63-70 | the parameters always have `slug`, `walletAddress`, `limit` and `isBrc20`, then `cursor` and `sort` only when non-empty; every property is the one a reader finds |
| RetrieveInscriptions.InscriptionParamsReadFixed | src/components/RetrieveInscriptions.tsx:64-67 | the four fixed parameters read back as the form's inputs |
| RetrieveInscriptions.InscriptionParamsReadOptional | src/components/RetrieveInscriptions.tsx:68-69 | `cursor` and `sort` read back as given, or as `undefined` when empty |
| RetrieveInscriptions.NextCursor | src/components/RetrieveInscriptions.tsx:87 | `result?.data?.cursor` is that data's cursor whenever there is a result with data, and empty otherwise |
| RetrieveInscriptions.InscriptionsForm.constructor | src/components/RetrieveInscriptions.tsx:24-34 | the form starts with the default slug, wallet address and limit `"20"`, an empty cursor and sort, and no result, error or loading |
| RetrieveInscriptions.InscriptionsForm.ValidateInputs | src/components/RetrieveInscriptions.tsx:36-54 | returns true exactly when validation finds no error; a failure sets that error text, and success leaves the error alone |
| RetrieveInscriptions.InscriptionsForm.FetchValidInscriptions | src/components/RetrieveInscriptions.tsx:56-84 | an invalid form sets the error and returns before loading or calling the service; otherwise it posts the parameter object, records the response (clearing the error) or the thrown error's text, and ends not loading |
| Service.ErrorText | src/components/RetrieveInscriptions.tsx:77-79 | a thrown `Error` is shown by its message, any other thrown value by the fixed fallback text |
| RetrieveInscriptions.InscriptionsForm.RecordOutcome | src/components/RetrieveInscriptions.tsx:73-80 | a response becomes the result; a thrown `Error` sets its message as the error text, and any other thrown value sets the fixed text |
| RetrieveInscriptions.InscriptionsForm.HandleNextPage | src/components/RetrieveInscriptions.tsx:86-91 | pages on exactly when the last result carries a non-empty cursor, storing that cursor; otherwise the cursor is left as it was |
| TradeHistory.SortText | src/components/TradeHistory.tsx:106-108 | the sort order is posted as `"desc"` or `"asc"`, and as `"desc"` exactly for the latest-first option |
| TradeHistory.Head | src/components/TradeHistory.tsx:46 | `slice(0, 6)` is the first six characters, or the whole address when it is shorter |
| TradeHistory.Tail | src/components/TradeHistory.tsx:46 | `slice(-6)` is the last six characters, or the whole address when it is shorter |
| TradeHistory.FormatAddress | src/components/TradeHistory.tsx:45-47 | the short form is the head of the address, `...`, and its tail |
| TradeHistory.FormatAddressOfLong | src/components/TradeHistory.tsx:45-47 | an address of at least six characters is shown as 15 characters: its first six, `...`, its last six |
| TradeHistory.FormatAddressHidesMiddle | src/components/TradeHistory.tsx:45-47 | from twelve characters on, the address is the shown head, the hidden middle and the shown tail |
| TradeHistory.FormatAddressOfShort | src/components/TradeHistory.tsx:45-47 | an address shorter than six characters is shown whole on both sides of `...` |
| TradeHistory.TradeParams | src/components/TradeHistory.tsx:59-66 | the parameters always have `slug`, `limit`, `sort` and `isBrc20`, then `tradeWalletAddress` and `type` only when non-empty |
| TradeHistory.TradeParamsReadFixed | src/components/TradeHistory.tsx:60-63 | the fixed parameters read back as the form's inputs, and `sort` is always `"desc"` or `"asc"` |
| TradeHistory.TradeParamsReadOptional | src/components/TradeHistory.tsx:64-65 | the wallet address and the type read back as given, or as `undefined` when empty |
| TradeHistory.TradeHistoryForm.constructor | src/components/TradeHistory.tsx:31-39 | the form starts with slug `fractal-pepe-1`, limit `"10"`, sort `desc`, type `SALE`, and no result, error or loading |
| TradeHistory.TradeHistoryForm.FetchTradeHistory | src/components/TradeHistory.tsx:49-75 | a blank slug sets "Slug is required" and returns before loading or calling the service; otherwise it posts the parameter object, records the response (clearing the error) or the thrown error's text, and ends not loading |
| TradeHistory.TradeHistoryForm.RecordOutcome | src/components/TradeHistory.tsx:68-70 | a response becomes the result; a thrown `Error` sets its message as the error text, and any other thrown value sets the fixed text |
| ClientServer.InscriptionParamsSentAsIs | ordinals-server.cjs:87-94 | with a non-empty limit, the proxy's inscriptions body is the form's parameter object itself |
| ClientServer.ValidatedParamsSentAsIs | src/components/RetrieveInscriptions.tsx:57-70 | a parameter object that passed the form's checks reaches the exchange exactly as the form built it |
| ClientServer.TradeParamsLackCursor | src/components/TradeHistory.tsx:59-66 | the trade-history form never sends `cursor` or `orderSource` |
| ClientServer.TradeOptionalSpread | ordinals-server.cjs:157-160 | from an object without `cursor` or `orderSource`, the proxy's optional trade-history properties are the wallet address and the type, when non-empty |
| ClientServer.TradeParamsSent | ordinals-server.cjs:152-161 | the proxy's trade-history body is the form's parameter object, with an empty limit read as `"10"` |

## Left out

- HMAC-SHA256 and Base64 (crypto-js) are not implemented. The primitive is a function parameter `hmacB64`, and `sign` (ordinals-server.cjs:37-43) is that parameter applied to the message and the secret. Its logging of the message and of the secret's first five characters is not modelled. Signing is proved deterministic in it, but nothing is proved about its cryptographic strength.
- `JSON.stringify` string escaping is not modelled: strings are written between quotes as they are. The model's values are `undefined`, `null`, booleans, integers, strings and integer arrays only. `express.json()` accepts any JSON, so a request whose properties hold floating-point numbers, nested objects or other arrays is outside the model.
- Json.Stringify, JsText.IntText: Dafny integers are unbounded, while JavaScript numbers are double-precision floats. Integers beyond 2^53 are not exact in JavaScript, and from magnitude 1e21 on `JSON.stringify` writes exponent form (`1e+21`) where the model writes every digit. For a request carrying such a number the model's pre-hash message is not the program's.
- `parseInt` is modelled for decimal input only: leading white space, an optional sign, then the longest digit run. Hexadecimal prefixes, radix detection, and digits past `Number.MAX_SAFE_INTEGER` are not modelled.
- The clock is an input string (the `toISOString` reading). The credentials are one `Credentials` value, and a missing environment variable (`undefined`) is not modelled.
- The exchange call (axios) is the `upstream` parameter, and the status, code and message it fails with are inputs. Express routing, CORS, dotenv, `app.listen` and all console logging are not modelled.
- The collections route reads `req.query.slug` as a single string. Repeated query keys (arrays) are not modelled, and the slug is inserted without URL encoding, as the code does.
- The browser-side service (`src/services/okxService.ts`) is the `service` parameter of the fetch methods. Its `code !== 0` check that throws an `Error` is part of that parameter.
- RetrieveInscriptions.InscriptionsForm.HandleNextPage: models the guard and the stored cursor. It does not model the fetch it starts. That fetch runs in a stale closure, and React's state-update timing decides which cursor it posts, which is outside this model.
- React state is updated at once in the model. Batched re-rendering and the `useCallback` dependency lists are not modelled.
- The form inputs' `onChange` setters are plain field updates and have no members. The sort select can only hold `SortOrder` values.
- TradeHistory.Head, TradeHistory.Tail, TradeHistory.FormatAddress: count characters (Unicode scalar values). JavaScript's `slice` and `length` count UTF-16 code units, so for an address holding characters outside the Basic Multilingual Plane the cut points and the 15-character length differ.
- Proxy.HandleCollections, Proxy.SignedCall: the URL string is assumed to reach the exchange unchanged. axios parses the URL, percent-encodes spaces, quotes and non-ASCII characters, and cuts the query at `#`. For a slug holding such characters the path the exchange recomputes can differ from the signed one, and `Authentic` says nothing about that.
- `formatTimestamp` in `src/components/TradeHistory.tsx` depends on the locale and the `Date` API, and is not modelled.
- `src/components/OrdinalsFetcher.tsx` (floating-point formatting) and `src/App.tsx` (a tab switch) are not part of this model.
- Response payloads are relayed unchanged and are generic in the model. The `TradeActivity` and `InscriptionInfo` records are carried but never inspected.
