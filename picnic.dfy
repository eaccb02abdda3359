/** What both versions of the Picnic client share: the constructor options,
    the storefront URL, the header names, the request descriptor handed to
    axios, the outcome of a call, and how a failed login is reported. */
module Picnic {
  import opened JsValues
  import opened Strings

  const UserAgentHeader := "User-Agent"
  const ContentTypeHeader := "Content-Type"
  const AuthHeader := "x-picnic-auth"
  const AgentHeader := "x-picnic-agent"
  const DeviceIdHeader := "x-picnic-did"
  const JsonContentType := "application/json; charset=UTF-8"
  const LoginPath := "/user/login"
  const LoginFailedPrefix := "Login failed: "

  /** The constructor options; every field may be left out. */
  datatype ApiConfig = ApiConfig(
    countryCode: Option<string>,
    apiVersion: Option<string>,
    authKey: Option<string>,
    url: Option<string>)

  /** `new PicnicClient()` with no options at all. */
  const NoOptions := ApiConfig(None, None, None, None)

  const StorefrontScheme := "https://storefront-prod."
  const StorefrontDomain := ".picnicinternational.com"

  /** The scheme and host of the storefront of a country: the country code,
      lower-cased, between a fixed scheme and a fixed domain. */
  function StorefrontHost(countryCode: string): (r: string)
    ensures |r| == |StorefrontScheme| + |countryCode| + |StorefrontDomain|
    ensures StorefrontScheme <= r
  {
    StorefrontScheme + Lower(countryCode) + StorefrontDomain
  }

  /** The base URL built from a country code and an API version. */
  function StorefrontUrl(countryCode: string, apiVersion: string): (r: string)
    ensures StorefrontHost(countryCode) + "/api/" <= r
    ensures r[|StorefrontHost(countryCode) + "/api/"|..] == apiVersion
  {
    StorefrontHost(countryCode) + "/api/" + apiVersion
  }

  /** The Dutch country code in lower case. */
  lemma LowerNL()
    ensures Lower("NL") == "nl"
  {
    assert Lower("NL")[0] == LowerChar('N') == 'n';
    assert Lower("NL")[1] == LowerChar('L') == 'l';
  }

  /** The host of the Dutch storefront. */
  lemma StorefrontHostNL()
    ensures StorefrontHost("NL") == "https://storefront-prod.nl.picnicinternational.com"
  {
    LowerNL();
    assert StorefrontHost("NL") == StorefrontScheme + "nl" + StorefrontDomain;
    assert StorefrontScheme + "nl" == "https://storefront-prod.nl";
  }

  /** The Dutch storefront URL of an API version. */
  lemma StorefrontUrlNL(apiVersion: string)
    ensures StorefrontUrl("NL", apiVersion) == "https://storefront-prod.nl.picnicinternational.com/api/" + apiVersion
  {
    StorefrontHostNL();
    var host := "https://storefront-prod.nl.picnicinternational.com";
    assert host + "/api/" == "https://storefront-prod.nl.picnicinternational.com/api/";
  }

  /** The fixed parts of a storefront host: the scheme has no 'a' and ends
      in '.', and the domain has no '/'. */
  lemma StorefrontParts()
    ensures 'a' !in StorefrontScheme && StorefrontScheme[|StorefrontScheme| - 1] == '.'
    ensures '/' !in StorefrontDomain
  {
    forall i | 0 <= i < |StorefrontScheme| ensures StorefrontScheme[i] != 'a' {}
    forall i | 0 <= i < |StorefrontDomain| ensures StorefrontDomain[i] != '/' {}
  }

  /** No "/api/" starts inside the host of a storefront URL. */
  lemma NoApiInHost(countryCode: string, apiVersion: string, j: int)
    requires '/' !in countryCode
    requires 0 <= j < |StorefrontHost(countryCode)|
    ensures !OccursAt(StorefrontUrl(countryCode, apiVersion), "/api/", j)
  {
    var scheme, cc, domain := StorefrontScheme, Lower(countryCode), StorefrontDomain;
    var host := StorefrontHost(countryCode);
    var s := StorefrontUrl(countryCode, apiVersion);
    assert host == scheme + cc + domain;
    assert s == host + "/api/" + apiVersion;
    LowerKeepsNonLetter(countryCode, '/');
    StorefrontParts();
    assert s[j] == host[j];
    if j < |scheme| {
      assert host[j] == scheme[j];
      if j + 1 < |scheme| {
        assert s[j + 1] == scheme[j + 1];
      } else {
        assert scheme[j] == '.';
      }
    } else if j < |scheme| + |cc| {
      assert host[j] == cc[j - |scheme|];
    } else {
      assert host[j] == domain[j - |scheme| - |cc|];
    }
    assert s[j] != '/' || s[j + 1] != 'a';
    OccursAtChar(s, "/api/", j, 0);
    OccursAtChar(s, "/api/", j, 1);
  }

  /** Splitting a storefront URL on "/api/" gives back its host, whatever
      the API version, as long as the country code holds no '/'. */
  lemma StorefrontUrlHead(countryCode: string, apiVersion: string)
    requires '/' !in countryCode
    ensures SplitHead(StorefrontUrl(countryCode, apiVersion), "/api/") == StorefrontHost(countryCode)
  {
    var host := StorefrontHost(countryCode);
    assert StorefrontUrl(countryCode, apiVersion) == host + "/api/" + apiVersion;
    forall j | 0 <= j < |host| ensures !OccursAt(host + "/api/" + apiVersion, "/api/", j) {
      NoApiInHost(countryCode, apiVersion, j);
    }
    SplitHeadAt(host, "/api/", apiVersion);
  }

  /** The request configuration handed to axios: method, URL or path,
      headers, the body (absent when `None`) and the response type. */
  datatype Request = Request(
    httpMethod: string,
    url: string,
    headers: map<string, string>,
    data: Option<Json>,
    responseType: Option<string>)

  /** A rejected axios call, as far as the client looks into it: the
      `error.message` of the vendor's error envelope, when the response
      carried one, and the rest of the error, which is passed on as is. */
  datatype TransportError = TransportError(envelopeMessage: Option<string>, detail: string)

  /** What the transport does with a request: it resolves with a response
      body, or rejects. */
  datatype Response<T> = Received(body: T) | Failed(error: TransportError)

  /** The reason a client promise is rejected with: a formatted message,
      the transport's error unchanged, or the `TypeError` thrown by reading
      a field of a `null` response body. */
  datatype Rejection = LoginFailed(message: string) | Raw(error: TransportError) | NullBodyRead

  /** How a promise returned by the client settles. */
  datatype Settled<T> = Resolved(value: T) | Rejected(reason: Rejection)

  /** A successful answer to `POST /user/login`: the `x-picnic-auth`
      response header (absent when `None`) and the body, which may be `null`. */
  datatype LoginReply = LoginReply(authHeader: Option<string>, data: Option<LoginFields>)

  /** The two fields of a login response body the client reads. */
  datatype LoginFields = LoginFields(userId: string, secondFactorRequired: string)

  /** The body of `POST /user/login`; `secret` is the hex MD5 digest of the password. */
  function LoginBody(username: string, secret: string): (j: Json)
    ensures Truthy(j)
    ensures j.JObj? && |j.fields| == 3
    ensures j.fields[0] == ("key", JStr(username)) && j.fields[1] == ("secret", JStr(secret))
    ensures j.fields[2] == ("client_id", JNum(1))
  {
    JObj([("key", JStr(username)), ("secret", JStr(secret)), ("client_id", JNum(1))])
  }

  /** The reason a failed login is rejected with: "Login failed: " followed
      by the envelope's message when there is one, else the error itself. */
  function LoginRejection(e: TransportError): (r: Rejection)
    ensures r.LoginFailed? <==> Present(e.envelopeMessage)
    ensures r.LoginFailed? ==> LoginFailedPrefix <= r.message
    ensures r.LoginFailed? ==> r.message[|LoginFailedPrefix|..] == e.envelopeMessage.value
    ensures r.Raw? ==> r.error == e
  {
    if Present(e.envelopeMessage) then LoginFailed(LoginFailedPrefix + e.envelopeMessage.value)
    else Raw(e)
  }

  /** The vendor's answer to a wrong password becomes the message the
      integration test expects. */
  lemma InvalidCredentialsMessage(detail: string)
    ensures LoginRejection(TransportError(Some("Invalid credentials."), detail))
      == LoginFailed("Login failed: Invalid credentials.")
  {
    var e := TransportError(Some("Invalid credentials."), detail);
    assert Present(e.envelopeMessage);
    assert LoginFailedPrefix + "Invalid credentials." == "Login failed: Invalid credentials.";
  }

  /** Distinct envelope messages give distinct login rejections. */
  lemma LoginRejectionInjective(e1: TransportError, e2: TransportError)
    requires Present(e1.envelopeMessage) && Present(e2.envelopeMessage)
    requires LoginRejection(e1) == LoginRejection(e2)
    ensures e1.envelopeMessage == e2.envelopeMessage
  {
    var m1, m2 := LoginRejection(e1).message, LoginRejection(e2).message;
    assert m1[|LoginFailedPrefix|..] == m2[|LoginFailedPrefix|..];
  }
}
