/** The legacy client, `PicnicClient` of index.js: its axios instance carries
    fixed default headers and a request interceptor that adds the auth key,
    and `sendRequest` only sets the method, the path and the body. */
module LegacyPicnicClient {
  import opened JsValues
  import opened Strings
  import opened Picnic

  const DefaultCountryCode := "NL"
  const DefaultApiVersion := "1000"
  const UserAgent := "okhttp/3.9.0"

  /** The values of `HttpMethods` the wrappers use. */
  const HttpGet := "get"
  const HttpPost := "post"
  const HttpPut := "put"

  /** Default of the `depth` parameter of `getCategories`. */
  const DefaultDepth := 0
  /** Default of the `count` parameter of the shopping cart calls. */
  const DefaultCount := 1
  /** Default of the `summary` parameter of `getDeliveries`. */
  const DefaultSummary := false
  /** Default of the `filter` parameter of `getDeliveries`. */
  const NoFilter := JArr([])
  /** Default of the `general` parameter of `getConsentSettings`. */
  const DefaultGeneral := false

  // ---------------------------------------------------------------------
  // Session

  /** The four fields a client holds. */
  datatype Settings = Settings(countryCode: string, apiVersion: string, authKey: Option<string>, url: string)

  /** What the constructor makes of its options. The URL is always built
      from the country and version: a `url` option is ignored. */
  function Configure(options: ApiConfig): (s: Settings)
    ensures Present(options.countryCode) ==> s.countryCode == options.countryCode.value
    ensures !Present(options.countryCode) ==> s.countryCode == DefaultCountryCode
    ensures Present(options.apiVersion) ==> s.apiVersion == options.apiVersion.value
    ensures !Present(options.apiVersion) ==> s.apiVersion == DefaultApiVersion
    ensures s.authKey.Some? <==> Present(options.authKey)
    ensures s.authKey.Some? ==> s.authKey == options.authKey
    ensures s.url == StorefrontUrl(s.countryCode, s.apiVersion)
  {
    var countryCode := OrElse(options.countryCode, DefaultCountryCode);
    var apiVersion := OrElse(options.apiVersion, DefaultApiVersion);
    Settings(countryCode, apiVersion, OrNull(options.authKey), StorefrontUrl(countryCode, apiVersion))
  }

  /** A client built without options talks to the Dutch storefront, API
      version 1000, and is not logged in. */
  lemma DefaultSettings()
    ensures Configure(NoOptions) == Settings("NL", "1000", None, "https://storefront-prod.nl.picnicinternational.com/api/1000")
  {
    var s := Configure(NoOptions);
    assert s.url == StorefrontUrl("NL", "1000");
    StorefrontUrlNL("1000");
  }

  // ---------------------------------------------------------------------
  // The axios instance: default headers and the auth interceptor

  /** The headers the axios instance sends with every request. */
  function InstanceHeaders(): (h: map<string, string>)
    ensures h.Keys == {UserAgentHeader, ContentTypeHeader}
    ensures h[UserAgentHeader] == UserAgent && h[ContentTypeHeader] == JsonContentType
  {
    map[UserAgentHeader := UserAgent, ContentTypeHeader := JsonContentType]
  }

  /** What the interceptor does to a request's headers: it sets
      `x-picnic-auth` to the auth key when the key is truthy and leaves
      every other header as it was. */
  function WithAuth(authKey: Option<string>, h: map<string, string>): (r: map<string, string>)
    ensures Present(authKey) ==> AuthHeader in r && r[AuthHeader] == authKey.value
    ensures !Present(authKey) ==> r == h
    ensures forall k :: k != AuthHeader ==> (k in r <==> k in h)
    ensures forall k :: k != AuthHeader && k in h ==> r[k] == h[k]
  {
    if Present(authKey) then h[AuthHeader := authKey.value] else h
  }

  /** The headers every request of the instance goes out with. */
  lemma RequestHeaders(authKey: Option<string>)
    ensures var h := WithAuth(authKey, InstanceHeaders());
      h[UserAgentHeader] == UserAgent && h[ContentTypeHeader] == JsonContentType &&
      (AuthHeader in h <==> Present(authKey)) &&
      (AuthHeader in h ==> h[AuthHeader] == authKey.value) &&
      h.Keys <= {UserAgentHeader, ContentTypeHeader, AuthHeader}
  {
  }

  /** The request configuration the interceptor sees; it edits the header
      map in place. */
  class RequestConfig {
    var headers: map<string, string>

    constructor (headers: map<string, string>)
      ensures this.headers == headers
    {
      this.headers := headers;
    }
  }

  // ---------------------------------------------------------------------
  // sendRequest

  /** The arguments of one `sendRequest` call. */
  datatype SendArgs = SendArgs(httpMethod: string, path: string, data: Json)

  /** The options object `sendRequest` hands to axios. */
  datatype Options = Options(httpMethod: string, url: string, data: Option<Json>)

  /** The options of a call: exactly the method and the path, plus the body
      when it is truthy. */
  function OptionsFor(args: SendArgs): (o: Options)
    ensures o.httpMethod == args.httpMethod && o.url == args.path
    ensures o.data.Some? <==> Truthy(args.data)
    ensures o.data.Some? ==> o.data.value == args.data
  {
    Options(args.httpMethod, args.path, if Truthy(args.data) then Some(args.data) else None)
  }

  /** `sendRequest` builds the options, then adds the body when it is truthy. */
  method BuildOptions(args: SendArgs) returns (options: Options)
    ensures options == OptionsFor(args)
  {
    options := Options(args.httpMethod, args.path, None);
    if Truthy(args.data) {
      options := options.(data := Some(args.data));
    }
  }

  /** The request that leaves the axios instance for given options. */
  function Outgoing(authKey: Option<string>, options: Options): (r: Request)
    ensures r.httpMethod == options.httpMethod && r.url == options.url && r.data == options.data
    ensures r.headers == WithAuth(authKey, InstanceHeaders())
    ensures r.responseType.None?
  {
    Request(options.httpMethod, options.url, WithAuth(authKey, InstanceHeaders()), options.data, None)
  }

  // ---------------------------------------------------------------------
  // Endpoint wrappers

  /** A call of one of the endpoint wrappers, with its arguments. An
      argument of a parameter with a default is optional: `None` is the
      argument left out. */
  datatype Call =
    | GetUserDetails
    | Search(query: string)
    | GetSuggestions(query: string)
    | GetProduct(productId: string)
    | GetCategories(depth: Option<int>)
    | GetShoppingCart
    | AddProductToShoppingCart(productId: string, count: Option<int>)
    | RemoveProductFromShoppingCart(productId: string, count: Option<int>)
    | ClearShoppingCart
    | GetDeliverySlots
    | SetDeliverySlot(slotId: string)
    | GetDeliveries(summary: Option<bool>, filter: Option<Json>)
    | GetDelivery(deliveryId: string)
    | GetDeliveryPosition(deliveryId: string)
    | CancelDelivery(deliveryId: string)
    | SetDeliveryRating(deliveryId: string, rating: int)
    | SendDeliveryInvoiceEmail(deliveryId: string)
    | GetOrderStatus(orderId: string)
    | GetLists
    | GetList(listId: string, subListId: Option<string>)
    | GetMgmDetails
    | GetConsentSettings(general: Option<bool>)
    | SetConsentSettings(consentDeclarations: Json)

  function Get(path: string): SendArgs {
    SendArgs(HttpGet, path, JNull)
  }

  function Post(path: string, data: Json): SendArgs {
    SendArgs(HttpPost, path, data)
  }

  /** The path of `getDeliveries`. */
  function DeliveriesPath(summary: bool): string {
    "/deliveries" + (if summary then "/summary" else "")
  }

  /** The path of `getList`: the `sublist` parameter only, and only when a
      sub list is given. */
  function ListPath(listId: string, subListId: Option<string>): (r: string)
    ensures Present(subListId) ==> r == "/lists/" + listId + "?sublist=" + subListId.value
    ensures !Present(subListId) ==> r == "/lists/" + listId
  {
    "/lists/" + listId + (if Present(subListId) then "?sublist=" + subListId.value else "")
  }

  /** The path of `getConsentSettings`. */
  function ConsentSettingsPath(general: bool): string {
    "/consents" + (if general then "/general" else "") + "/settings-page"
  }

  /** The body of `setConsentSettings`: the declarations wrapped in an object. */
  function ConsentBody(consentDeclarations: Json): (j: Json)
    ensures Truthy(j)
    ensures j.JObj? && |j.fields| == 1 && j.fields[0] == ("consent_declarations", consentDeclarations)
  {
    JObj([("consent_declarations", consentDeclarations)])
  }

  /** What each wrapper passes to `sendRequest`. `encodeURIComponent` is the
      ECMAScript function of that name, taken as a parameter. */
  function Invocation(encodeURIComponent: string -> string, call: Call): (r: SendArgs)
    ensures r.httpMethod in {HttpGet, HttpPost, HttpPut}
    ensures r.httpMethod == HttpGet ==> r.data == JNull
    ensures "/" <= r.path
    ensures call.SetConsentSettings? ==> r.httpMethod == HttpPut && r.data == ConsentBody(call.consentDeclarations)
    ensures call.Search? ==> "/search?search_term=" <= r.path
    ensures call.GetSuggestions? ==> "/suggest?search_term=" <= r.path
  {
    match call
    case GetUserDetails => Get("/user")
    case Search(query) => Get("/search?search_term=" + encodeURIComponent(query))
    case GetSuggestions(query) => Get("/suggest?search_term=" + encodeURIComponent(query))
    case GetProduct(productId) => Get("/product/" + productId)
    case GetCategories(depth) => Get("/my_store?depth=" + IntToString(OrDefault(depth, DefaultDepth)))
    case GetShoppingCart => Get("/cart")
    case AddProductToShoppingCart(productId, count) =>
      Post("/cart/add_product", JObj([("product_id", JStr(productId)), ("count", JNum(OrDefault(count, DefaultCount)))]))
    case RemoveProductFromShoppingCart(productId, count) =>
      Post("/cart/remove_product", JObj([("product_id", JStr(productId)), ("count", JNum(OrDefault(count, DefaultCount)))]))
    case ClearShoppingCart => Post("/cart/clear", JNull)
    case GetDeliverySlots => Get("/cart/delivery_slots")
    case SetDeliverySlot(slotId) => Post("/cart/set_delivery_slot", JObj([("slot_id", JStr(slotId))]))
    case GetDeliveries(summary, filter) =>
      Post(DeliveriesPath(OrDefault(summary, DefaultSummary)), OrDefault(filter, NoFilter))
    case GetDelivery(deliveryId) => Get("/deliveries/" + deliveryId)
    case GetDeliveryPosition(deliveryId) => Get("/deliveries/" + deliveryId + "/position")
    case CancelDelivery(deliveryId) => Post("/order/delivery/" + deliveryId + "/cancel", JNull)
    case SetDeliveryRating(deliveryId, rating) =>
      Post("/deliveries/" + deliveryId + "/rating", JObj([("rating", JNum(rating))]))
    case SendDeliveryInvoiceEmail(deliveryId) =>
      Post("/deliveries/" + deliveryId + "/resend_invoice_email", JNull)
    case GetOrderStatus(orderId) => Get("/cart/checkout/order/" + orderId + "/status")
    case GetLists => Get("/lists")
    case GetList(listId, subListId) => Get(ListPath(listId, subListId))
    case GetMgmDetails => Get("/mgm")
    case GetConsentSettings(general) => Get(ConsentSettingsPath(OrDefault(general, DefaultGeneral)))
    case SetConsentSettings(consentDeclarations) => SendArgs(HttpPut, "/consents", ConsentBody(consentDeclarations))
  }

  /** The request a wrapper call produces for a client with this session. */
  function BuildRequest(s: Settings, encodeURIComponent: string -> string, call: Call): (r: Request)
    ensures r.headers == WithAuth(s.authKey, InstanceHeaders())
    ensures r.responseType.None?
    ensures r.httpMethod == HttpGet ==> r.data.None?
    ensures "/" <= r.url
  {
    Outgoing(s.authKey, OptionsFor(Invocation(encodeURIComponent, call)))
  }

  // ---------------------------------------------------------------------
  // Properties of the wrappers

  /** `getDeliveries` posts its filter to the summary path exactly when
      `summary` is set; the filter is sent even when it is the empty array. */
  lemma DeliveriesRequest(s: Settings, encodeURIComponent: string -> string, summary: bool, filter: Json)
    requires filter.JArr?
    ensures var r := BuildRequest(s, encodeURIComponent, GetDeliveries(Some(summary), Some(filter)));
      r.httpMethod == HttpPost && r.data == Some(filter) &&
      (r.url == "/deliveries/summary" <==> summary) &&
      (!summary ==> r.url == "/deliveries")
  {
    if !summary {
      assert |"/deliveries"| != |"/deliveries/summary"|;
    }
  }

  /** A legacy `getList` path never carries a `depth` parameter: it has a
      '?' and a '=' only for the `sublist` parameter, and no query at all
      without a sub list. */
  lemma ListPathQuery(listId: string, subListId: Option<string>)
    requires '?' !in listId && '=' !in listId
    requires Present(subListId) ==> '?' !in subListId.value && '=' !in subListId.value
    ensures Count(ListPath(listId, subListId), '?') == if Present(subListId) then 1 else 0
    ensures Count(ListPath(listId, subListId), '=') == if Present(subListId) then 1 else 0
  {
    var head := "/lists/" + listId;
    assert '?' !in head && '=' !in head;
    if Present(subListId) {
      var v := subListId.value;
      assert ListPath(listId, subListId) == head + ['?'] + ("sublist=" + v);
      assert '?' !in "sublist=" + v;
      CountOnce(head, '?', "sublist=" + v);
      assert ListPath(listId, subListId) == (head + "?sublist") + ['='] + v;
      assert '=' !in head + "?sublist";
      CountOnce(head + "?sublist", '=', v);
    } else {
      assert ListPath(listId, subListId) == head;
    }
  }

  /** The general consent settings have their own page. */
  lemma ConsentSettingsPaths(general: bool)
    ensures ConsentSettingsPath(general) == (if general then "/consents/general/settings-page" else "/consents/settings-page")
  {
  }

  /** What the wrappers send when the arguments with defaults are left
      out: depth 0, count 1, the full (not summary) deliveries with an empty
      filter, which is still sent, and the non-general consent page. */
  lemma LeftOutArguments(s: Settings, encodeURIComponent: string -> string, productId: string)
    ensures BuildRequest(s, encodeURIComponent, GetCategories(None)).url == "/my_store?depth=0"
    ensures BuildRequest(s, encodeURIComponent, AddProductToShoppingCart(productId, None)).data
      == Some(JObj([("product_id", JStr(productId)), ("count", JNum(1))]))
    ensures BuildRequest(s, encodeURIComponent, RemoveProductFromShoppingCart(productId, None)).data
      == Some(JObj([("product_id", JStr(productId)), ("count", JNum(1))]))
    ensures var r := BuildRequest(s, encodeURIComponent, GetDeliveries(None, None));
      r.httpMethod == HttpPost && r.url == "/deliveries" && r.data == Some(JArr([]))
    ensures BuildRequest(s, encodeURIComponent, GetConsentSettings(None)).url == "/consents/settings-page"
  {
    IntToStringZero();
    DeliveriesRequest(s, encodeURIComponent, DefaultSummary, NoFilter);
  }

  /** The auth key given to the constructor is attached, verbatim, to every
      request; no login is needed. */
  lemma ConfiguredKeyOnEveryRequest(options: ApiConfig, encodeURIComponent: string -> string, call: Call)
    requires Present(options.authKey)
    ensures var r := BuildRequest(Configure(options), encodeURIComponent, call);
      AuthHeader in r.headers && r.headers[AuthHeader] == options.authKey.value
  {
  }

  // ---------------------------------------------------------------------
  // The client object

  /** The client object: the session fields the constructor sets and
      `login` updates. */
  class Client {
    var countryCode: string
    var apiVersion: string
    var authKey: Option<string>
    var url: string

    /** The session, as a value. */
    function Session(): Settings
      reads this
    {
      Settings(countryCode, apiVersion, authKey, url)
    }

    constructor (options: ApiConfig)
      ensures Session() == Configure(options)
    {
      var cc := OrElse(options.countryCode, DefaultCountryCode);
      var version := OrElse(options.apiVersion, DefaultApiVersion);
      countryCode := cc;
      apiVersion := version;
      authKey := OrNull(options.authKey);
      url := StorefrontUrl(cc, version);
    }

    /** The request interceptor: sets `x-picnic-auth` on the request's
        headers, in place, when the auth key is truthy. */
    method Intercept(config: RequestConfig)
      modifies config
      ensures config.headers == WithAuth(authKey, old(config.headers))
    {
      if Present(authKey) {
        config.headers := config.headers[AuthHeader := authKey.value];
      }
    }

    /** Sends a request through the axios instance: the instance's default
        headers, then the interceptor. */
    method Dispatch(options: Options) returns (request: Request)
      ensures request == Outgoing(authKey, options)
    {
      var config := new RequestConfig(InstanceHeaders());
      Intercept(config);
      request := Request(options.httpMethod, options.url, config.headers, options.data, None);
    }

    /** `POST /user/login` with the hex MD5 digest of the password, through
        the instance (so with its headers and, if a key is already set, the
        old key). On success the `x-picnic-auth` response header becomes the
        auth key and the promise resolves with no value; on failure the key
        is kept and the promise is rejected. */
    method Login(username: string, password: string, md5Hex: string -> string, response: Response<LoginReply>)
      returns (request: Request, outcome: Settled<()>)
      modifies this`authKey
      ensures request == Outgoing(old(authKey), Options(HttpPost, LoginPath, Some(LoginBody(username, md5Hex(password)))))
      ensures response.Received? ==> authKey == response.body.authHeader && outcome == Resolved(())
      ensures response.Failed? ==> authKey == old(authKey) && outcome == Rejected(LoginRejection(response.error))
    {
      var secret := md5Hex(password);
      request := Dispatch(Options(HttpPost, LoginPath, Some(LoginBody(username, secret))));
      match response
      case Received(reply) =>
        authKey := reply.authHeader;
        outcome := Resolved(());
      case Failed(error) =>
        outcome := Rejected(LoginRejection(error));
    }

    /** `sendRequest`: builds the options, sends them through the instance
        and passes the transport's outcome on unchanged. It changes no field. */
    method SendRequest<T>(args: SendArgs, response: Response<T>) returns (request: Request, outcome: Settled<T>)
      ensures request == Outgoing(authKey, OptionsFor(args))
      ensures outcome == match response
        case Received(body) => Resolved(body)
        case Failed(error) => Rejected(Raw(error))
    {
      var options := BuildOptions(args);
      request := Dispatch(options);
      outcome := match response
        case Received(body) => Resolved(body)
        case Failed(error) => Rejected(Raw(error));
    }
  }
}
