# picnic-api client: request construction and session, in Dafny

This project models the part of the `PicnicClient` HTTP client that has
logic of its own: the session a client holds, `login`, and how every
endpoint wrapper turns its arguments into the request that goes to the
Picnic storefront API. The transport (axios) is left out. Its effect is
modelled as the request descriptor it receives and as the outcome it
reports, which is given as a parameter.

The repository has two hand-written clients, and each one is modelled in
its own module:

- `PicnicClient` (picnic_client.dfy) is the current client, src/index.ts.
  It builds the whole header map in `sendRequest`. It also has a URL
  option, a `depth` parameter on lists and device headers for four
  endpoints.
- `LegacyPicnicClient` (legacy_picnic_client.dfy) is the older ES-module
  client, index.js. Its axios instance has fixed default headers and a
  request interceptor that adds the auth key. Its `sendRequest` sets only
  the method, the path and the body.

Shared pieces:

- `JsValues` (js_values.dfy) holds `Option`, a JSON value type, and
  JavaScript truthiness. Truthiness decides the defaults (`x || "NL"`) and
  whether an optional part of a request is included.
- `Strings` (strings.dfy) holds `toLowerCase` on ASCII, `split(sep)[0]`,
  the decimal text of a number in a template literal with its round trip,
  and character counting.
- `Picnic` (picnic.dfy) holds the constructor options, the storefront URL,
  the header names, the request descriptor, the transport outcome and the
  way a failed login is reported.
- `ClientVersions` (client_versions.dfy) states where the two clients
  differ for the same input.

Each client is a `class` with the four session fields (`countryCode`,
`apiVersion`, `authKey`, `url`). The axios instance the constructor also
assigns (`httpInstance`) is left out with the transport. Its constructor is proved
equal to a pure `Configure` function. `Login` overwrites `authKey` on
success and leaves it unchanged on failure. `SendRequest` changes no field.
The endpoint wrappers are a pure function `Invocation` from a `Call` value
to the arguments of `sendRequest`. `BuildRequest` composes it with the
header and body assembly.

Foreign functions are parameters:

- the hex MD5 digest of the password (`md5Hex`);
- ECMAScript `encodeURIComponent`;
- the base64 encoder of `getImageAsDataUri`.

Behaviour of the code worth knowing:

- A 2xx login response without an `x-picnic-auth` header resolves, and
  the client's key becomes absent.
- In the current client, the key is taken from the login response before
  its body is read. A `null` body then throws a `TypeError`, and the
  promise is rejected with it, but the new key stays set.
- `sendRequest` passes a failed request's error on unchanged, in both
  clients.
- A parameter with a default takes the default only when the argument is
  left out. A falsy argument such as `0` or `false` is kept.
- In index.js the doc comment on line 33 says the default API version is
  15, but line 38 uses "1000". The model uses "1000".

## Model

| member | source | states |
|---|---|---|
| `PicnicClient.Configure` | src/index.ts:25-30 | A missing or empty country code, version or auth key takes its default ("NL", "17", null). An auth key, when kept, is exactly the option. A non-empty `url` option is used verbatim; otherwise the URL is the storefront URL of the country and version. |
| `PicnicClient.DefaultSettings` | src/index.ts:26-30 | Without options the session is NL, version 17, no key, `https://storefront-prod.nl.picnicinternational.com/api/17`. |
| `PicnicClient.ConfiguredFieldsNonEmpty` | src/index.ts:26-30 | After construction no field is empty, and a present auth key is never "". |
| `PicnicClient.Client.constructor` | src/index.ts:25-35 | The four fields equal `Configure(options)`. |
| `PicnicClient.Client.Login` | src/index.ts:42-67 | It posts `{key, secret: md5Hex(password), client_id: 1}` to `/user/login` with no client headers. On a 2xx answer `authKey` becomes the `x-picnic-auth` response header. With a body, the result carries that same key and the body's two fields. With a `null` body, the key is still overwritten and the promise is rejected with the `TypeError` (`NullBodyRead`). On failure `authKey` is unchanged and the rejection is `LoginRejection` of the error. |
| `Picnic.LoginRejection` | src/index.ts:60-66 | The rejection is a formatted message iff the error envelope has a truthy `error.message`. The message starts with "Login failed: " and the rest is exactly the envelope message. Otherwise the error is passed through unchanged. |
| `Picnic.LoginRejectionInjective` | src/index.ts:61-62 | Two failed logins with the same rejection message had the same envelope message: the formatting loses nothing. |
| `Picnic.InvalidCredentialsMessage` | test/index.test.ts:39 | The vendor message "Invalid credentials." becomes "Login failed: Invalid credentials.". |
| `PicnicClient.Headers` | src/index.ts:321-326 | `User-Agent: okhttp/3.12.2` and the JSON `Content-Type` are always present. `x-picnic-auth` is present iff the auth key is truthy, and it equals the key. `x-picnic-agent` and `x-picnic-did` are present iff `includePicnicHeaders`, with their fixed values. No other header is set. |
| `PicnicClient.RequestOptions` | src/index.ts:318-329 | Method and URL are the arguments, and the headers are `Headers`. The body is present iff `data` is truthy, and then it equals `data`. `responseType` is "arraybuffer" iff `isImageRequest`. |
| `PicnicClient.Client.SendRequest` | src/index.ts:316-338 | The request is `RequestOptions(authKey, args)`. The transport's body is resolved, or its error is rejected, unchanged. No field changes. |
| `PicnicClient.Invocation` | src/index.ts:73-306 | `includePicnicHeaders` is set for exactly getDeliveryPosition, getDeliveryScenario, getMessages and getReminders. `isImageRequest` is set for exactly getImage. Methods are GET, POST or PUT, and a GET never has a body. Every path except the image path starts with "/", and `search` and `getSuggestions` paths start with `/search?search_term=` and `/suggest?search_term=`. A left-out argument takes its default (depth 0, count 1, filter `[]`, general `false`); see `LeftOutDepth`, `LeftOutCount`, `LeftOutFilter` and `LeftOutGeneral`. |
| `PicnicClient.LeftOutDepth` | src/index.ts:129-268 | With `depth` left out, `getCategories` asks for `/my_store?depth=0`, `getLists` for `/lists?depth=0` and `getList(id)` for `/lists/<id>?depth=0`. |
| `PicnicClient.LeftOutCount` | src/index.ts:145-161 | With `count` left out, `addProductToShoppingCart` and `removeProductFromShoppingCart` post a count of 1. |
| `PicnicClient.LeftOutFilter` | src/index.ts:184-186 | With `filter` left out, `getDeliveries` POSTs `[]` to `/deliveries/summary`, and the empty array is still sent. |
| `PicnicClient.LeftOutGeneral` | src/index.ts:282-284 | With `general` left out, the consent page is `/consents/settings-page`. |
| `PicnicClient.BuildRequest` | src/index.ts:316-329 | A wrapper's request has the headers of `Headers(authKey, device flag)`, where the flag is set for exactly the four device wrappers. It has a response type iff it comes from `getImage`. A GET has no body. Every URL except the image URL starts with "/". |
| `PicnicClient.ListPath` | src/index.ts:259-268 | The path starts with `/lists/<id>`. With a sub list, `?sublist=<sub>&depth=` follows. Without one, the path is `/lists/<id>?depth=<depth>`. |
| `PicnicClient.ImagePath` | src/index.ts:106-110 | The image URL starts with the part of the base URL before "/api/", which is itself a prefix of the base URL. The rest is `/static/images/<id>/<size>.png`. |
| `PicnicClient.BuildListPath` | src/index.ts:259-268 | The path built with successive `+=` equals the closed form `ListPath`. |
| `PicnicClient.ListPathEndsInDepth` | src/index.ts:266 | Every `getList` path ends with `depth=<depth>`. |
| `PicnicClient.ListPathQuery` | src/index.ts:259-268 | When the ids hold no '?' or '=', a `getList` path has exactly one '?'. It has two '=' with a sub list and one without. It ends with `depth=<depth>`. |
| `PicnicClient.StorefrontImagePath` | src/index.ts:107-109 | On a storefront URL, the image path is the storefront host followed by `/static/images/<id>/<size>.png`. |
| `PicnicClient.ImageFromStorefrontHost` | src/index.ts:106-110 | For a client on a storefront URL, the image URL is `https://storefront-prod.<cc>.picnicinternational.com/static/images/<id>/<size>.png`, with the arraybuffer response type and no body. |
| `Picnic.StorefrontHost` | src/index.ts:30 | The storefront host is `https://storefront-prod.`, then the country code lower-cased, then `.picnicinternational.com`, as in the URL template; index.js:41 uses the same template. |
| `Picnic.StorefrontUrl` | src/index.ts:30 | The storefront URL is the host, then `/api/`, then exactly the API version. |
| `Picnic.StorefrontHostNL` | src/index.ts:26-30 | The Dutch storefront host is `https://storefront-prod.nl.picnicinternational.com`. |
| `Picnic.StorefrontUrlNL` | index.js:37-41 | The Dutch storefront URL of a version is `https://storefront-prod.nl.picnicinternational.com/api/<version>`. |
| `Picnic.LoginBody` | src/index.ts:47-51 | The login body is the object `{key: username, secret, client_id: 1}`, in that order; it is truthy, so it is always sent. index.js:81-85 posts the same body. |
| `Picnic.StorefrontUrlHead` | src/index.ts:107 | Splitting a storefront URL on "/api/" gives back the storefront host, for every version and every country code without '/'. |
| `PicnicClient.DeviceHeadersOnlyWhereNeeded` | src/index.ts:200-305 | A built request has the two device headers iff it comes from one of the four wrappers that pass `true`. |
| `PicnicClient.ConfiguredKeyOnEveryRequest` | src/index.ts:324 | An auth key given to the constructor is attached verbatim to every wrapper's request, with no login. |
| `PicnicClient.ConsentSettingsPaths` | src/index.ts:282-284 | The path is `/consents/general/settings-page` iff `general`, else `/consents/settings-page`. |
| `PicnicClient.ImageDataUri` | src/index.ts:117-123 | The data URI starts with `data:image/png;base64,` and the rest is the base64 text of the image. |
| `Strings.Lower` | src/index.ts:30 | `toLowerCase` keeps the length and lower-cases each ASCII letter. |
| `Strings.SplitHead` | src/index.ts:107 | `split(sep)[0]` is a prefix of the string. It is the whole string iff `sep` does not occur. Otherwise `sep` occurs right after it and nowhere earlier. |
| `Strings.IntToStringRoundTrip` | src/index.ts:266 | The decimal text of `depth` in a path reads back as the same number. |
| `Strings.IntToString` | src/index.ts:130 | The text of a number in a template literal is non-empty and holds only digits and '-'. |
| `Strings.IntToStringZero` | src/index.ts:129-130 | The default depth 0 is written "0". |
| `JsValues.Truthy` | src/index.ts:324-327 | Arrays and objects, even empty ones, are truthy. `null` is falsy. A string is truthy iff it is non-empty, and a number iff it is non-zero. |
| `JsValues.OrElse` | src/index.ts:26-27 | A logical-or default is the option's string when that string is non-empty, else the fallback. With a non-empty fallback, the result is never empty. |
| `JsValues.OrDefault` | src/index.ts:129 | A default parameter `p = d` takes `d` only for a left-out (`undefined`) argument. A passed argument is kept, even a falsy one such as `0` or `false`. The same rule serves src/index.ts:145, 154, 184, 249, 259 and 282, and index.js:133, 149, 158, 189 and 269. |
| `JsValues.OrNull` | src/index.ts:28 | A logical-or with `null` keeps a non-empty string and turns `undefined`, `null` and "" into `null`. |
| `LegacyPicnicClient.Configure` | index.js:36-41 | A missing or empty country code, version or auth key takes its default ("NL", "1000", null). The URL is always the storefront URL of the country and version, whatever the options hold. |
| `LegacyPicnicClient.DefaultSettings` | index.js:37-41 | Without options the session is NL, version 1000, no key, `https://storefront-prod.nl.picnicinternational.com/api/1000`. |
| `LegacyPicnicClient.Client.constructor` | index.js:36-44 | The four fields equal `Configure(options)`. |
| `LegacyPicnicClient.InstanceHeaders` | index.js:51-57 | The instance's default headers are exactly `User-Agent: okhttp/3.9.0` and the JSON `Content-Type`. |
| `LegacyPicnicClient.WithAuth` | index.js:60-65 | The interceptor sets `x-picnic-auth` to the key iff the key is truthy. Every other header keeps its presence and value. |
| `LegacyPicnicClient.RequestConfig.constructor` | index.js:60-63 | The request configuration the interceptor receives holds the given header map; `Intercept` then edits that map in place. |
| `LegacyPicnicClient.Client.Intercept` | index.js:60-68 | The config's headers, changed in place, become `WithAuth(authKey, old headers)`. |
| `LegacyPicnicClient.RequestHeaders` | index.js:49-69 | Every request has the instance's `User-Agent` and `Content-Type`. It has `x-picnic-auth` iff the key is truthy, equal to the key. It has nothing else. |
| `LegacyPicnicClient.Client.Dispatch` | index.js:51-68 | A request sent through the instance, with default headers and then the interceptor, is `Outgoing(authKey, options)`. |
| `LegacyPicnicClient.Client.Login` | index.js:77-96 | It posts the login body through the instance, with the headers and any old key. On success `authKey` becomes the `x-picnic-auth` header and the promise resolves with no value. On failure `authKey` is unchanged and the rejection is `LoginRejection` of the error. |
| `LegacyPicnicClient.OptionsFor` | index.js:287-296 | The options hold exactly the method and `url: path`, plus `data` iff the data is truthy. |
| `LegacyPicnicClient.BuildOptions` | index.js:289-296 | Building the options and then adding `data` conditionally yields `OptionsFor(args)`. |
| `LegacyPicnicClient.Client.SendRequest` | index.js:287-304 | The request is `Outgoing(authKey, OptionsFor(args))`. The transport's body or error is passed on unchanged. No field changes. |
| `LegacyPicnicClient.Invocation` | index.js:101-279 | Methods are get, post or put, and a get never has a body. Every path starts with "/". `setConsentSettings` is a PUT whose body is the wrapped declarations. `search` and `getSuggestions` paths start with `/search?search_term=` and `/suggest?search_term=`. A left-out argument takes its default (depth 0, count 1, summary `false`, filter `[]`, general `false`); see `LeftOutArguments`. |
| `LegacyPicnicClient.LeftOutArguments` | index.js:133-271 | With its arguments left out, `getCategories` asks for `/my_store?depth=0` and the cart calls post a count of 1. `getDeliveries()` POSTs `[]` to `/deliveries`, and the consent page is `/consents/settings-page`. |
| `LegacyPicnicClient.BuildRequest` | index.js:287-296 | A wrapper's request carries the instance's headers with the interceptor's key, and no response type. A get has no body. Every URL starts with "/". |
| `LegacyPicnicClient.Outgoing` | index.js:49-68 | A request leaves the instance with the options' method, URL and body unchanged. Its headers are the instance's default headers after the interceptor. No response type is set. |
| `LegacyPicnicClient.ListPath` | index.js:254-256 | The path is `/lists/<id>?sublist=<sub>` when a sub list is given, else `/lists/<id>`. |
| `LegacyPicnicClient.ConsentBody` | index.js:277-279 | The body is the one-field object `{consent_declarations: input}`. It is always truthy, so it is always sent. |
| `LegacyPicnicClient.DeliveriesRequest` | index.js:189-191 | `getDeliveries` is a POST to `/deliveries/summary` iff `summary`, else to `/deliveries`. The filter array is the body, even when it is empty. |
| `LegacyPicnicClient.ListPathQuery` | index.js:254-256 | When the ids hold no '?' or '=', a legacy `getList` path has one '?' and one '=' with a sub list, and none without. There is never a `depth` parameter. |
| `LegacyPicnicClient.ConsentSettingsPaths` | index.js:269-271 | The path is `/consents/general/settings-page` iff `general`, else `/consents/settings-page`. |
| `LegacyPicnicClient.ConfiguredKeyOnEveryRequest` | index.js:60-63 | An auth key given to the constructor is attached verbatim to every wrapper's request. |
| `ClientVersions.DefaultVersionsDiffer` | index.js:36-41 | Without options both clients use NL and no key. The current client uses version 17 and the legacy one 1000, so their URLs differ. |
| `ClientVersions.UrlOverride` | src/index.ts:30 | Given the same explicit `apiVersion`, the current client's URL is the `url` option when given, and otherwise the URL the legacy client builds. The legacy client always builds the storefront URL. |
| `ClientVersions.ListQueriesDiffer` | index.js:254-256 | The current `getList` path has one more '=' (the `depth` parameter) than the legacy one. Without a sub list, only the current path has a query. |
| `ClientVersions.DeliveriesPathsDiffer` | index.js:189-191 | The current `getDeliveries` always posts to `/deliveries/summary`. The legacy one without `summary` posts to `/deliveries`. Both send the filter array. |
| `ClientVersions.ConsentBodiesDiffer` | index.js:277-279 | The current client PUTs its input as is, and only when it is truthy. The legacy client always PUTs `{consent_declarations: input}`. |
| `ClientVersions.UserAgentsDiffer` | index.js:54 | The current client sends `okhttp/3.12.2` and the legacy one `okhttp/3.9.0`. |

## Left out

- The axios transport, promises and `async` plumbing. A call's outcome is
  a parameter (`Response<T>`). Interceptor registration is modelled only
  by its effect (`Intercept`).
- Password hashing with crypto-js MD5 is a foreign call. It is the
  parameter `md5Hex`, and its result is placed in `secret`.
- `encodeURIComponent` in `search` and `getSuggestions` is the ECMAScript
  function of that name. It is a parameter, so only the fixed path
  prefixes are determined.
- The Node `Buffer` base64 conversion of `getImageAsDataUri` is a
  parameter. Fetching the image that feeds it is left out.
- `getKnownApiRoutes` returns a constant string of route annotations
  (routes.js). It has no logic.
- lib/index.js is the compiled output of src/index.ts and is not part of
  this model. So are its deprecated `getProduct` and the type declarations
  under src/types and lib/types.
- Response bodies are opaque: the types under src/types are not modelled,
  and every wrapper passes the vendor's answer through as it comes.
- Strings.Lower: models `toLowerCase` for ASCII letters only. Unicode case
  mapping is not modelled. Country codes are "NL" or "DE".
- LegacyPicnicClient.Invocation: index.js has no types, but the model
  types its arguments. A `depth` or `count` that is not an integer is not
  modelled. Neither is a `summary` or `general` that is not a boolean, nor
  a `subListId` that is not a string. Such values include `null`, which a
  default does not replace and which becomes the text "null". index.js:190,
  :255 and :270 test `summary`, `subListId` and `general` for truthiness,
  so calls such as `getDeliveries("yes")` or `getList(id, 5)` are not
  modelled. The TypeScript client's types forbid such arguments there.
- Strings.IntToString: models `${n}` for integers only. JavaScript numbers
  are doubles, and fractions, exponents, `NaN` and infinities are not
  modelled.
- Response headers are read as plain strings. A header that axios
  delivers as an array is not modelled.
- Concurrent `login` calls racing on `authKey` are not modelled. Each
  method runs alone.
