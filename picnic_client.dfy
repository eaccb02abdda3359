/** The current client, `PicnicClient` of src/index.ts: the session it holds,
    `login`, `sendRequest` and the endpoint wrappers, each of which turns its
    arguments into the arguments of one `sendRequest` call. */
module PicnicClient {
  import opened JsValues
  import opened Strings
  import opened Picnic

  const DefaultCountryCode := "NL"
  const DefaultApiVersion := "17"
  const UserAgent := "okhttp/3.12.2"
  const PicnicAgent := "30100;1.15.77-10293"
  const PicnicDeviceId := "3C417201548B2E3B"
  const ArrayBuffer := "arraybuffer"
  const DataUriPrefix := "data:image/png;base64,"

  /** Default of the `depth` parameter of `getCategories`, `getLists` and `getList`. */
  const DefaultDepth := 0
  /** Default of the `count` parameter of the shopping cart calls. */
  const DefaultCount := 1
  /** Default of the `filter` parameter of `getDeliveries`. */
  const NoFilter := JArr([])
  /** Default of the `general` parameter of `getConsentSettings`. */
  const DefaultGeneral := false

  // ---------------------------------------------------------------------
  // Session

  /** The four fields a client holds. */
  datatype Settings = Settings(countryCode: string, apiVersion: string, authKey: Option<string>, url: string)

  /** What the constructor makes of its options: each missing or empty
      option takes its default, and the URL is built from the country and
      version unless one is given. */
  function Configure(options: ApiConfig): (s: Settings)
    ensures Present(options.countryCode) ==> s.countryCode == options.countryCode.value
    ensures !Present(options.countryCode) ==> s.countryCode == DefaultCountryCode
    ensures Present(options.apiVersion) ==> s.apiVersion == options.apiVersion.value
    ensures !Present(options.apiVersion) ==> s.apiVersion == DefaultApiVersion
    ensures s.authKey.Some? <==> Present(options.authKey)
    ensures s.authKey.Some? ==> s.authKey == options.authKey
    ensures Present(options.url) ==> s.url == options.url.value
    ensures !Present(options.url) ==> s.url == StorefrontUrl(s.countryCode, s.apiVersion)
  {
    var countryCode := OrElse(options.countryCode, DefaultCountryCode);
    var apiVersion := OrElse(options.apiVersion, DefaultApiVersion);
    Settings(countryCode, apiVersion, OrNull(options.authKey), OrElse(options.url, StorefrontUrl(countryCode, apiVersion)))
  }

  /** A client built without options talks to the Dutch storefront, API
      version 17, and is not logged in. */
  lemma DefaultSettings()
    ensures Configure(NoOptions) == Settings("NL", "17", None, "https://storefront-prod.nl.picnicinternational.com/api/17")
  {
    var s := Configure(NoOptions);
    assert s.url == StorefrontUrl("NL", "17");
    StorefrontUrlNL("17");
  }

  /** Every field the constructor sets is non-empty, and an auth key, when
      there is one, is never the empty string. */
  lemma ConfiguredFieldsNonEmpty(options: ApiConfig)
    ensures var s := Configure(options);
      s.countryCode != "" && s.apiVersion != "" && s.url != "" &&
      (s.authKey.Some? ==> s.authKey.value != "")
  {
  }

  // ---------------------------------------------------------------------
  // sendRequest

  /** The arguments of one `sendRequest` call. */
  datatype SendArgs = SendArgs(
    httpMethod: string,
    path: string,
    data: Json,
    includePicnicHeaders: bool,
    isImageRequest: bool)

  /** The header map `sendRequest` builds from the session's auth key and
      its `includePicnicHeaders` flag. */
  function Headers(authKey: Option<string>, includePicnicHeaders: bool): (h: map<string, string>)
    ensures UserAgentHeader in h && h[UserAgentHeader] == UserAgent
    ensures ContentTypeHeader in h && h[ContentTypeHeader] == JsonContentType
    ensures AuthHeader in h <==> Present(authKey)
    ensures AuthHeader in h ==> h[AuthHeader] == authKey.value
    ensures AgentHeader in h <==> includePicnicHeaders
    ensures DeviceIdHeader in h <==> includePicnicHeaders
    ensures includePicnicHeaders ==> h[AgentHeader] == PicnicAgent && h[DeviceIdHeader] == PicnicDeviceId
    ensures h.Keys <= {UserAgentHeader, ContentTypeHeader, AuthHeader, AgentHeader, DeviceIdHeader}
  {
    var fixed := map[UserAgentHeader := UserAgent, ContentTypeHeader := JsonContentType];
    var withAuth := if Present(authKey) then fixed[AuthHeader := authKey.value] else fixed;
    if includePicnicHeaders then withAuth[AgentHeader := PicnicAgent][DeviceIdHeader := PicnicDeviceId]
    else withAuth
  }

  /** The axios options `sendRequest` builds: the body only when `data` is
      truthy, the `arraybuffer` response type only for image requests. */
  function RequestOptions(authKey: Option<string>, args: SendArgs): (r: Request)
    ensures r.httpMethod == args.httpMethod && r.url == args.path
    ensures r.headers == Headers(authKey, args.includePicnicHeaders)
    ensures r.data.Some? <==> Truthy(args.data)
    ensures r.data.Some? ==> r.data.value == args.data
    ensures r.responseType.Some? <==> args.isImageRequest
    ensures r.responseType.Some? ==> r.responseType.value == ArrayBuffer
  {
    Request(
      args.httpMethod,
      args.path,
      Headers(authKey, args.includePicnicHeaders),
      if Truthy(args.data) then Some(args.data) else None,
      if args.isImageRequest then Some(ArrayBuffer) else None)
  }

  // ---------------------------------------------------------------------
  // Endpoint wrappers

  datatype ImageSize = Tiny | Small | Medium | Large | ExtraLarge

  function SizeName(size: ImageSize): string {
    match size
    case Tiny => "tiny"
    case Small => "small"
    case Medium => "medium"
    case Large => "large"
    case ExtraLarge => "extra-large"
  }

  /** A call of one of the endpoint wrappers, with its arguments. An
      argument of a parameter with a default is optional: `None` is the
      argument left out. */
  datatype Call =
    | GetUserDetails
    | Search(query: string)
    | GetSuggestions(query: string)
    | GetArticle(productId: string)
    | GetImage(imageId: string, size: ImageSize)
    | GetCategories(depth: Option<int>)
    | GetShoppingCart
    | AddProductToShoppingCart(productId: string, count: Option<int>)
    | RemoveProductFromShoppingCart(productId: string, count: Option<int>)
    | ClearShoppingCart
    | GetDeliverySlots
    | SetDeliverySlot(slotId: string)
    | GetDeliveries(filter: Option<Json>)
    | GetDelivery(deliveryId: string)
    | GetDeliveryPosition(deliveryId: string)
    | GetDeliveryScenario(deliveryId: string)
    | CancelDelivery(deliveryId: string)
    | SetDeliveryRating(deliveryId: string, rating: int)
    | SendDeliveryInvoiceEmail(deliveryId: string)
    | GetOrderStatus(orderId: string)
    | GetLists(depth: Option<int>)
    | GetList(listId: string, subListId: Option<string>, depth: Option<int>)
    | GetMgmDetails
    | GetConsentSettings(general: Option<bool>)
    | SetConsentSettings(input: Json)
    | GetMessages
    | GetReminders

  /** The wrappers that ask for the device headers. */
  predicate NeedsDeviceHeaders(call: Call) {
    call.GetDeliveryPosition? || call.GetDeliveryScenario? || call.GetMessages? || call.GetReminders?
  }

  function Get(path: string): SendArgs {
    SendArgs("GET", path, JNull, false, false)
  }

  function GetWithDeviceHeaders(path: string): SendArgs {
    SendArgs("GET", path, JNull, true, false)
  }

  /** A path ending in one query value, such as `/search?search_term=<q>`. */
  function QueryPath(route: string, value: string): (r: string)
    ensures route <= r
    ensures r[|route|..] == value
  {
    route + value
  }

  function Post(path: string, data: Json): SendArgs {
    SendArgs("POST", path, data, false, false)
  }

  /** The path of `getList`: the list, then `sublist` when a sub list is
      given, then `depth`, always. */
  function ListPath(listId: string, subListId: Option<string>, depth: int): (r: string)
    ensures "/lists/" + listId <= r
    ensures Present(subListId) ==> "/lists/" + listId + "?sublist=" + subListId.value + "&depth=" <= r
    ensures !Present(subListId) ==> r == "/lists/" + listId + "?depth=" + IntToString(depth)
  {
    "/lists/" + listId + ListQueryHead(subListId) + "depth=" + IntToString(depth)
  }

  /** `getList` builds its path step by step on a local variable. */
  method BuildListPath(listId: string, subListId: Option<string>, depth: int) returns (path: string)
    ensures path == ListPath(listId, subListId, depth)
  {
    path := "/lists/" + listId;
    if Present(subListId) {
      path := path + "?sublist=" + subListId.value;
    }
    path := path + (if Present(subListId) then "&" else "?") + "depth=" + IntToString(depth);
  }

  /** The path of `getImage`: the image lives outside the API, under the
      part of the base URL before "/api/". */
  function ImagePath(url: string, imageId: string, size: ImageSize): (r: string)
    ensures var host := SplitHead(url, "/api/");
      host <= url && host <= r && r[|host|..] == "/static/images/" + imageId + "/" + SizeName(size) + ".png"
  {
    SplitHead(url, "/api/") + ("/static/images/" + imageId + "/" + SizeName(size) + ".png")
  }

  /** The path of `getConsentSettings`. */
  function ConsentSettingsPath(general: bool): string {
    "/consents" + (if general then "/general" else "") + "/settings-page"
  }

  /** What every wrapper's `sendRequest` arguments have in common: the
      device headers exactly for the four device wrappers, the binary
      response type exactly for `getImage`, one of three methods, no body on
      a GET, and a path under the API (the image path aside), with the fixed
      prefix of the two query wrappers. */
  predicate Fits(call: Call, r: SendArgs) {
    (r.includePicnicHeaders <==> NeedsDeviceHeaders(call)) &&
    (r.isImageRequest <==> call.GetImage?) &&
    r.httpMethod in {"GET", "POST", "PUT"} &&
    (r.httpMethod == "GET" ==> r.data == JNull) &&
    (!call.GetImage? ==> "/" <= r.path) &&
    (call.Search? ==> "/search?search_term=" <= r.path) &&
    (call.GetSuggestions? ==> "/suggest?search_term=" <= r.path)
  }

  /** The wrappers of the store and the shopping cart. */
  predicate ShopCall(call: Call) {
    call.GetUserDetails? || call.Search? || call.GetSuggestions? || call.GetArticle? ||
    call.GetImage? || call.GetCategories? || call.GetShoppingCart? ||
    call.AddProductToShoppingCart? || call.RemoveProductFromShoppingCart? ||
    call.ClearShoppingCart? || call.GetDeliverySlots? || call.SetDeliverySlot?
  }

  /** What each store and cart wrapper passes to `sendRequest`. */
  function ShopInvocation(url: string, encodeURIComponent: string -> string, call: Call): (r: SendArgs)
    requires ShopCall(call)
    ensures Fits(call, r)
  {
    match call
    case GetUserDetails => Get("/user")
    case Search(query) => Get(QueryPath("/search?search_term=", encodeURIComponent(query)))
    case GetSuggestions(query) => Get(QueryPath("/suggest?search_term=", encodeURIComponent(query)))
    case GetArticle(productId) => Get("/articles/" + productId)
    case GetImage(imageId, size) => SendArgs("GET", ImagePath(url, imageId, size), JNull, false, true)
    case GetCategories(depth) => Get("/my_store?depth=" + IntToString(OrDefault(depth, DefaultDepth)))
    case GetShoppingCart => Get("/cart")
    case AddProductToShoppingCart(productId, count) =>
      Post("/cart/add_product", JObj([("product_id", JStr(productId)), ("count", JNum(OrDefault(count, DefaultCount)))]))
    case RemoveProductFromShoppingCart(productId, count) =>
      Post("/cart/remove_product", JObj([("product_id", JStr(productId)), ("count", JNum(OrDefault(count, DefaultCount)))]))
    case ClearShoppingCart => Post("/cart/clear", JNull)
    case GetDeliverySlots => Get("/cart/delivery_slots")
    case SetDeliverySlot(slotId) => Post("/cart/set_delivery_slot", JObj([("slot_id", JStr(slotId))]))
  }

  /** What each delivery, order, list, account and notification wrapper
      passes to `sendRequest`. */
  function AccountInvocation(call: Call): (r: SendArgs)
    requires !ShopCall(call)
    ensures Fits(call, r)
  {
    match call
    case GetDeliveries(filter) => Post("/deliveries/summary", OrDefault(filter, NoFilter))
    case GetDelivery(deliveryId) => Get("/deliveries/" + deliveryId)
    case GetDeliveryPosition(deliveryId) => GetWithDeviceHeaders("/deliveries/" + deliveryId + "/position")
    case GetDeliveryScenario(deliveryId) => GetWithDeviceHeaders("/deliveries/" + deliveryId + "/scenario")
    case CancelDelivery(deliveryId) => Post("/order/delivery/" + deliveryId + "/cancel", JNull)
    case SetDeliveryRating(deliveryId, rating) =>
      Post("/deliveries/" + deliveryId + "/rating", JObj([("rating", JNum(rating))]))
    case SendDeliveryInvoiceEmail(deliveryId) =>
      Post("/deliveries/" + deliveryId + "/resend_invoice_email", JNull)
    case GetOrderStatus(orderId) => Get("/cart/checkout/order/" + orderId + "/status")
    case GetLists(depth) => Get("/lists?depth=" + IntToString(OrDefault(depth, DefaultDepth)))
    case GetList(listId, subListId, depth) => Get(ListPath(listId, subListId, OrDefault(depth, DefaultDepth)))
    case GetMgmDetails => Get("/mgm")
    case GetConsentSettings(general) => Get(ConsentSettingsPath(OrDefault(general, DefaultGeneral)))
    case SetConsentSettings(input) => SendArgs("PUT", "/consents", input, false, false)
    case GetMessages => GetWithDeviceHeaders("/messages")
    case GetReminders => GetWithDeviceHeaders("/reminders")
  }

  /** What each wrapper passes to `sendRequest`. `encodeURIComponent` is the
      ECMAScript function of that name, taken as a parameter. */
  function Invocation(url: string, encodeURIComponent: string -> string, call: Call): (r: SendArgs)
    ensures r.includePicnicHeaders <==> NeedsDeviceHeaders(call)
    ensures r.isImageRequest <==> call.GetImage?
    ensures r.httpMethod in {"GET", "POST", "PUT"}
    ensures r.httpMethod == "GET" ==> r.data == JNull
    ensures !call.GetImage? ==> "/" <= r.path
    ensures call.Search? ==> "/search?search_term=" <= r.path
    ensures call.GetSuggestions? ==> "/suggest?search_term=" <= r.path
  {
    if ShopCall(call) then ShopInvocation(url, encodeURIComponent, call) else AccountInvocation(call)
  }

  /** The request a wrapper call produces for a client with this session. */
  function BuildRequest(s: Settings, encodeURIComponent: string -> string, call: Call): (r: Request)
    ensures r.headers == Headers(s.authKey, NeedsDeviceHeaders(call))
    ensures r.responseType.Some? <==> call.GetImage?
    ensures r.httpMethod == "GET" ==> r.data.None?
    ensures !call.GetImage? ==> "/" <= r.url
  {
    RequestOptions(s.authKey, Invocation(s.url, encodeURIComponent, call))
  }

  /** `getImageAsDataUri`: the image bytes, base64-encoded behind a data URI
      prefix. The base64 encoder is a parameter. */
  function ImageDataUri(image: seq<bv8>, base64: seq<bv8> -> string): (r: string)
    ensures DataUriPrefix <= r
    ensures r[|DataUriPrefix|..] == base64(image)
  {
    DataUriPrefix + base64(image)
  }

  // ---------------------------------------------------------------------
  // Properties of the wrappers

  /** The query part of a `getList` path, before `depth=`. */
  function ListQueryHead(subListId: Option<string>): string {
    if Present(subListId) then "?sublist=" + subListId.value + "&" else "?"
  }

  /** The `depth` parameter holds one '=' and no '?'. */
  lemma DepthParamCount(depth: int, c: char)
    requires c == '?' || c == '='
    ensures Count("depth=" + IntToString(depth), c) == if c == '=' then 1 else 0
  {
    var digits := IntToString(depth);
    IntToStringAvoids(depth, c);
    assert c !in digits;
    if c == '=' {
      assert "depth=" + digits == "depth" + ['='] + digits;
      CountOnce("depth", '=', digits);
    } else {
      assert "depth=" + digits == "depth=" + [] + digits;
      CountConcat("depth=", digits, c);
    }
  }

  /** The part of `ListPath` before the query holds neither '?' nor '='. */
  lemma ListPathSplit(listId: string, subListId: Option<string>, depth: int, c: char)
    requires c == '?' || c == '='
    requires c !in listId
    ensures Count(ListPath(listId, subListId, depth), c)
      == Count(ListQueryHead(subListId), c) + (if c == '=' then 1 else 0)
  {
    var head, query, tail := "/lists/" + listId, ListQueryHead(subListId), "depth=" + IntToString(depth);
    assert ListPath(listId, subListId, depth) == head + query + tail;
    CountConcat3(head, query, tail, c);
    assert c !in head;
    DepthParamCount(depth, c);
  }

  /** The query head has one '?', and one '=' more when a sub list is given. */
  lemma ListQueryHeadCount(subListId: Option<string>, c: char)
    requires c == '?' || c == '='
    requires Present(subListId) ==> c !in subListId.value
    ensures Count(ListQueryHead(subListId), c) == if c == '?' then 1 else if Present(subListId) then 1 else 0
  {
    if Present(subListId) {
      var v := subListId.value;
      if c == '?' {
        assert ListQueryHead(subListId) == [] + ['?'] + ("sublist=" + v + "&");
        assert '?' !in "sublist=" + v + "&";
        CountOnce([], '?', "sublist=" + v + "&");
      } else {
        assert ListQueryHead(subListId) == "?sublist" + ['='] + (v + "&");
        assert '=' !in "?sublist";
        assert '=' !in v + "&";
        CountOnce("?sublist", '=', v + "&");
      }
    } else if c == '?' {
      assert ListQueryHead(subListId) == [] + ['?'] + [];
      CountOnce([], '?', []);
    }
  }

  /** A `getList` path has exactly one '?' and as many '=' as query
      parameters: `sublist` (when given) and `depth`, which is always there
      and comes last. */
  lemma ListPathQuery(listId: string, subListId: Option<string>, depth: int)
    requires '?' !in listId && '=' !in listId
    requires Present(subListId) ==> '?' !in subListId.value && '=' !in subListId.value
    ensures Count(ListPath(listId, subListId, depth), '?') == 1
    ensures Count(ListPath(listId, subListId, depth), '=') == if Present(subListId) then 2 else 1
    ensures var suffix := "depth=" + IntToString(depth);
      var path := ListPath(listId, subListId, depth);
      |suffix| <= |path| && path[|path| - |suffix|..] == suffix
  {
    ListPathSplit(listId, subListId, depth, '?');
    ListPathSplit(listId, subListId, depth, '=');
    ListQueryHeadCount(subListId, '?');
    ListQueryHeadCount(subListId, '=');
    ListPathEndsInDepth(listId, subListId, depth);
  }

  /** A `getList` path ends with its `depth` parameter. */
  lemma ListPathEndsInDepth(listId: string, subListId: Option<string>, depth: int)
    ensures var suffix := "depth=" + IntToString(depth);
      var path := ListPath(listId, subListId, depth);
      |suffix| <= |path| && path[|path| - |suffix|..] == suffix
  {
    var prefix := "/lists/" + listId + ListQueryHead(subListId);
    assert ListPath(listId, subListId, depth) == prefix + ("depth=" + IntToString(depth));
  }

  /** The auth key given to the constructor is attached, verbatim, to every
      request; no login is needed. */
  lemma ConfiguredKeyOnEveryRequest(options: ApiConfig, encodeURIComponent: string -> string, call: Call)
    requires Present(options.authKey)
    ensures var r := BuildRequest(Configure(options), encodeURIComponent, call);
      AuthHeader in r.headers && r.headers[AuthHeader] == options.authKey.value
  {
  }

  /** A request carries the device headers exactly when it comes from one of
      the four wrappers that ask for them. */
  lemma DeviceHeadersOnlyWhereNeeded(s: Settings, encodeURIComponent: string -> string, call: Call)
    ensures var r := BuildRequest(s, encodeURIComponent, call);
      (AgentHeader in r.headers <==> NeedsDeviceHeaders(call)) &&
      (DeviceIdHeader in r.headers <==> NeedsDeviceHeaders(call))
  {
  }

  /** For a client on a storefront URL, images are fetched from the
      storefront host, outside the API path, with the binary response type. */
  lemma ImageFromStorefrontHost(s: Settings, encodeURIComponent: string -> string, imageId: string, size: ImageSize)
    requires s.url == StorefrontUrl(s.countryCode, s.apiVersion)
    requires '/' !in s.countryCode
    ensures var r := BuildRequest(s, encodeURIComponent, GetImage(imageId, size));
      r.url == StorefrontHost(s.countryCode) + "/static/images/" + imageId + "/" + SizeName(size) + ".png" &&
      r.responseType == Some(ArrayBuffer) && r.data == None
  {
    StorefrontImagePath(s.countryCode, s.apiVersion, imageId, size);
    var args := SendArgs("GET", ImagePath(s.url, imageId, size), JNull, false, true);
    assert ShopInvocation(s.url, encodeURIComponent, GetImage(imageId, size)) == args;
    assert Invocation(s.url, encodeURIComponent, GetImage(imageId, size)) == args;
    assert BuildRequest(s, encodeURIComponent, GetImage(imageId, size)) == RequestOptions(s.authKey, args);
  }

  /** The image path of a client on a storefront URL. */
  lemma StorefrontImagePath(countryCode: string, apiVersion: string, imageId: string, size: ImageSize)
    requires '/' !in countryCode
    ensures ImagePath(StorefrontUrl(countryCode, apiVersion), imageId, size)
      == StorefrontHost(countryCode) + "/static/images/" + imageId + "/" + SizeName(size) + ".png"
  {
    StorefrontUrlHead(countryCode, apiVersion);
    var host, rest := StorefrontHost(countryCode), "/static/images/" + imageId + "/" + SizeName(size) + ".png";
    assert ImagePath(StorefrontUrl(countryCode, apiVersion), imageId, size) == host + rest;
    assert host + rest == host + "/static/images/" + imageId + "/" + SizeName(size) + ".png";
  }

  /** The general consent settings have their own page. */
  lemma ConsentSettingsPaths(general: bool)
    ensures ConsentSettingsPath(general) == (if general then "/consents/general/settings-page" else "/consents/settings-page")
  {
  }

  /** A left-out `depth` is 0: it is written as `depth=0`. */
  lemma LeftOutDepth(s: Settings, encodeURIComponent: string -> string, listId: string)
    ensures BuildRequest(s, encodeURIComponent, GetCategories(None)).url == "/my_store?depth=0"
    ensures BuildRequest(s, encodeURIComponent, GetLists(None)).url == "/lists?depth=0"
    ensures BuildRequest(s, encodeURIComponent, GetList(listId, None, None)).url == "/lists/" + listId + "?depth=0"
  {
    IntToStringZero();
    assert Invocation(s.url, encodeURIComponent, GetCategories(None)).path == "/my_store?depth=" + "0";
    assert Invocation(s.url, encodeURIComponent, GetLists(None)).path == "/lists?depth=" + "0";
    assert Invocation(s.url, encodeURIComponent, GetList(listId, None, None)).path == ListPath(listId, None, 0);
  }

  /** A left-out `count` is 1. */
  lemma LeftOutCount(s: Settings, encodeURIComponent: string -> string, productId: string)
    ensures BuildRequest(s, encodeURIComponent, AddProductToShoppingCart(productId, None)).data
      == Some(JObj([("product_id", JStr(productId)), ("count", JNum(1))]))
    ensures BuildRequest(s, encodeURIComponent, RemoveProductFromShoppingCart(productId, None)).data
      == Some(JObj([("product_id", JStr(productId)), ("count", JNum(1))]))
  {
    var body := JObj([("product_id", JStr(productId)), ("count", JNum(1))]);
    assert ShopInvocation(s.url, encodeURIComponent, AddProductToShoppingCart(productId, None)).data == body;
    assert ShopInvocation(s.url, encodeURIComponent, RemoveProductFromShoppingCart(productId, None)).data == body;
  }

  /** A left-out `filter` is the empty array, which is still sent, as an
      array is truthy. */
  lemma LeftOutFilter(s: Settings, encodeURIComponent: string -> string)
    ensures var r := BuildRequest(s, encodeURIComponent, GetDeliveries(None));
      r.httpMethod == "POST" && r.url == "/deliveries/summary" && r.data == Some(JArr([]))
  {
    var deliveries := Post("/deliveries/summary", JArr([]));
    assert AccountInvocation(GetDeliveries(None)) == deliveries;
    assert Invocation(s.url, encodeURIComponent, GetDeliveries(None)) == deliveries;
  }

  /** A left-out `general` selects the ordinary consent page. */
  lemma LeftOutGeneral(s: Settings, encodeURIComponent: string -> string)
    ensures BuildRequest(s, encodeURIComponent, GetConsentSettings(None)).url == "/consents/settings-page"
  {
    var consents := Get(ConsentSettingsPath(false));
    assert AccountInvocation(GetConsentSettings(None)) == consents;
    assert Invocation(s.url, encodeURIComponent, GetConsentSettings(None)) == consents;
  }

  // ---------------------------------------------------------------------
  // The client object

  /** The client object: the session fields the constructor sets and
      `login` updates. */
  class Client {
    var countryCode: string
    var apiVersion: string
    var authKey: Option<string>
    var url: string

    /** The session, as a value. */
    function Session(): Settings
      reads this
    {
      Settings(countryCode, apiVersion, authKey, url)
    }

    constructor (options: ApiConfig)
      ensures Session() == Configure(options)
    {
      var cc := OrElse(options.countryCode, DefaultCountryCode);
      var version := OrElse(options.apiVersion, DefaultApiVersion);
      countryCode := cc;
      apiVersion := version;
      authKey := OrNull(options.authKey);
      url := OrElse(options.url, StorefrontUrl(cc, version));
    }

    /** `POST /user/login` with the hex MD5 digest of the password. It goes
        straight to the axios instance, which has no default headers, so it
        carries none of the client's headers. `md5Hex` is the digest
        function, `response` what the vendor answers. On success the
        `x-picnic-auth` response header becomes the auth key and is
        returned, unless the body is `null`: then the key is still taken but
        the promise is rejected. On failure the key is kept and the promise
        is rejected. */
    method Login(username: string, password: string, md5Hex: string -> string, response: Response<LoginReply>)
      returns (request: Request, outcome: Settled<LoginResult>)
      modifies this`authKey
      ensures request == Request("post", LoginPath, map[], Some(LoginBody(username, md5Hex(password))), None)
      ensures response.Received? ==> authKey == response.body.authHeader
      ensures response.Received? && response.body.data.Some? ==>
        outcome == Resolved(LoginResult(authKey, response.body.data.value.secondFactorRequired, response.body.data.value.userId))
      ensures response.Received? && response.body.data.None? ==> outcome == Rejected(NullBodyRead)
      ensures response.Failed? ==>
        authKey == old(authKey) && outcome == Rejected(LoginRejection(response.error))
    {
      var secret := md5Hex(password);
      request := Request("post", LoginPath, map[], Some(LoginBody(username, secret)), None);
      match response
      case Received(reply) =>
        authKey := reply.authHeader;
        match reply.data {
          case Some(fields) =>
            outcome := Resolved(LoginResult(authKey, fields.secondFactorRequired, fields.userId));
          case None =>
            // Reading a field of a null body throws a TypeError after the key
            // is set; it carries no vendor envelope, so it is rejected as is.
            outcome := Rejected(NullBodyRead);
        }
      case Failed(error) =>
        outcome := Rejected(LoginRejection(error));
    }

    /** `sendRequest`: builds the options from the session and passes the
        transport's outcome on unchanged. It changes no field. */
    method SendRequest<T>(args: SendArgs, response: Response<T>) returns (request: Request, outcome: Settled<T>)
      ensures request == RequestOptions(authKey, args)
      ensures outcome == match response
        case Received(body) => Resolved(body)
        case Failed(error) => Rejected(Raw(error))
    {
      request := RequestOptions(authKey, args);
      outcome := match response
        case Received(body) => Resolved(body)
        case Failed(error) => Rejected(Raw(error));
    }
  }

  /** What `login` resolves with. */
  datatype LoginResult = LoginResult(authKey: Option<string>, secondFactorRequired: string, userId: string)
}
