/** Where the current client (src/index.ts) and the legacy one (index.js)
    behave differently for the same input. */
module ClientVersions {
  import opened JsValues
  import opened Strings
  import opened Picnic
  import Current = PicnicClient
  import Legacy = LegacyPicnicClient

  /** Built without options, both clients use the Dutch storefront and no
      auth key, but the current one asks for API version 17 and the legacy
      one for version 1000. */
  lemma DefaultVersionsDiffer()
    ensures Current.Configure(NoOptions).countryCode == Legacy.Configure(NoOptions).countryCode == "NL"
    ensures Current.Configure(NoOptions).authKey == Legacy.Configure(NoOptions).authKey == None
    ensures Current.Configure(NoOptions).apiVersion == "17"
    ensures Legacy.Configure(NoOptions).apiVersion == "1000"
    ensures Current.Configure(NoOptions).url != Legacy.Configure(NoOptions).url
  {
    Current.DefaultSettings();
    Legacy.DefaultSettings();
    assert |Current.Configure(NoOptions).url| != |Legacy.Configure(NoOptions).url|;
  }

  /** Only the current client honours a `url` option; with the same
      country and version, the two differ exactly when that option is given
      and is not the storefront URL. */
  lemma UrlOverride(options: ApiConfig)
    requires Present(options.apiVersion)
    ensures Current.Configure(options).url == (if Present(options.url) then options.url.value else Legacy.Configure(options).url)
    ensures Legacy.Configure(options).url == StorefrontUrl(Legacy.Configure(options).countryCode, options.apiVersion.value)
  {
  }

  /** The current `getList` always sends a query with `depth`; the legacy
      one sends no query at all without a sub list. */
  lemma ListQueriesDiffer(listId: string, subListId: Option<string>, depth: int)
    requires '?' !in listId && '=' !in listId
    requires Present(subListId) ==> '?' !in subListId.value && '=' !in subListId.value
    ensures Count(Current.ListPath(listId, subListId, depth), '=') == Count(Legacy.ListPath(listId, subListId), '=') + 1
    ensures !Present(subListId) ==> '?' in Current.ListPath(listId, subListId, depth) && '?' !in Legacy.ListPath(listId, subListId)
  {
    Current.ListPathQuery(listId, subListId, depth);
    Legacy.ListPathQuery(listId, subListId);
  }

  /** The current `getDeliveries` always posts to the summary path; the
      legacy one only when asked for a summary. Both send the filter, even
      an empty one. */
  lemma DeliveriesPathsDiffer(s: Current.Settings, t: Legacy.Settings, encodeURIComponent: string -> string, filter: Json)
    requires filter.JArr?
    ensures Current.BuildRequest(s, encodeURIComponent, Current.GetDeliveries(Some(filter))).url == "/deliveries/summary"
    ensures Legacy.BuildRequest(t, encodeURIComponent, Legacy.GetDeliveries(Some(false), Some(filter))).url == "/deliveries"
    ensures Current.BuildRequest(s, encodeURIComponent, Current.GetDeliveries(Some(filter))).data == Some(filter)
    ensures Legacy.BuildRequest(t, encodeURIComponent, Legacy.GetDeliveries(Some(false), Some(filter))).data == Some(filter)
  {
    Legacy.DeliveriesRequest(t, encodeURIComponent, false, filter);
  }

  /** The current `setConsentSettings` sends its input as the body (and no
      body when the input is falsy); the legacy one always sends the input
      wrapped in `{consent_declarations: ...}`. */
  lemma ConsentBodiesDiffer(s: Current.Settings, t: Legacy.Settings, encodeURIComponent: string -> string, input: Json)
    ensures var r := Current.BuildRequest(s, encodeURIComponent, Current.SetConsentSettings(input));
      r.httpMethod == "PUT" && r.url == "/consents" && (r.data.Some? <==> Truthy(input)) &&
      (r.data.Some? ==> r.data.value == input)
    ensures var r := Legacy.BuildRequest(t, encodeURIComponent, Legacy.SetConsentSettings(input));
      r.httpMethod == "put" && r.url == "/consents" &&
      r.data == Some(JObj([("consent_declarations", input)]))
  {
    var current := Current.Invocation(s.url, encodeURIComponent, Current.SetConsentSettings(input));
    assert current == Current.SendArgs("PUT", "/consents", input, false, false);
    var legacy := Legacy.Invocation(encodeURIComponent, Legacy.SetConsentSettings(input));
    assert legacy == Legacy.SendArgs(Legacy.HttpPut, "/consents", Legacy.ConsentBody(input));
  }

  /** The two clients announce different user agents. */
  lemma UserAgentsDiffer(authKey: Option<string>, includePicnicHeaders: bool)
    ensures Current.Headers(authKey, includePicnicHeaders)[UserAgentHeader] == "okhttp/3.12.2"
    ensures Legacy.WithAuth(authKey, Legacy.InstanceHeaders())[UserAgentHeader] == "okhttp/3.9.0"
  {
  }
}
