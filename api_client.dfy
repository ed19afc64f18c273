/**
 * The authenticated HTTP client of the front end (frontend/src/services/api.ts):
 * an axios instance with a request interceptor that attaches the stored bearer
 * token and a response interceptor that redirects to the matching login page on
 * a 401 inside a protected area and raises at most one error toast, then
 * re-rejects. The transport, localStorage and window.location are inputs and
 * outputs here: a transport function, a TokenStore object and a BrowserLocation
 * object.
 */
module ApiClient {
  import opened Wrappers
  import opened JsValues

  const ApiBaseUrl: string := "http://127.0.0.1:8000/api"
  const ContentTypeJson: map<string, string> := map["Content-Type" := "application/json"]
  const ContentTypeMultipart: map<string, string> := map["Content-Type" := "multipart/form-data"]

  /** The storage keys read for a token, modern key first. */
  const TokenKeys: seq<string> := ["authToken", "token", "access_token"]

  /** The path prefixes of the areas that need a session. */
  const ProtectedPrefixes: seq<string> := ["/admin", "/doctor", "/dashboard", "/appointments", "/profile"]

  const GenericErrorMessage: string := "Une erreur est survenue"

  // ---------------------------------------------------------------------------
  // Token resolution
  // ---------------------------------------------------------------------------

  /** `localStorage.getItem(key)`: None stands for null. */
  function GetItem(storage: map<string, string>, key: string): Option<string> {
    if key in storage then Some(storage[key]) else None
  }

  /** A key holds a usable token when its stored value is a non-empty string. */
  predicate HoldsToken(storage: map<string, string>, key: string) {
    key in storage && storage[key] != ""
  }

  /** `a || b` on the results of getItem: null and "" are falsy. */
  function OrItem(a: Option<string>, b: Option<string>): Option<string> {
    if a.Some? && a.value != "" then a else b
  }

  /** Reference definition: the first key, in the given order, that holds a token. */
  function FirstToken(storage: map<string, string>, keys: seq<string>): (t: Option<string>)
    ensures t.None? <==> forall i :: 0 <= i < |keys| ==> !HoldsToken(storage, keys[i])
    ensures t.Some? ==> exists i :: 0 <= i < |keys| && HoldsToken(storage, keys[i]) && storage[keys[i]] == t.value
                                    && forall j :: 0 <= j < i ==> !HoldsToken(storage, keys[j])
    decreases |keys|
  {
    if keys == [] then None
    else if HoldsToken(storage, keys[0]) then Some(storage[keys[0]])
    else
      var rest := FirstToken(storage, keys[1..]);
      assert forall i :: 1 <= i < |keys| ==> keys[i] == keys[1..][i - 1];
      rest
  }

  /**
   * The token the request interceptor uses: the `||` chain over the three keys,
   * and then `if (token)`, so an empty chain result means "no token".
   */
  function ResolveToken(storage: map<string, string>): (t: Option<string>)
    ensures t.None? <==> !HoldsToken(storage, "authToken") && !HoldsToken(storage, "token") && !HoldsToken(storage, "access_token")
    ensures t.Some? ==> t.value != "" && exists k :: k in TokenKeys && HoldsToken(storage, k) && t.value == storage[k]
  {
    var chain := OrItem(GetItem(storage, "authToken"), OrItem(GetItem(storage, "token"), GetItem(storage, "access_token")));
    if chain.Some? && chain.value != "" then chain else None
  }

  /** The `||` chain picks the first of the three keys, in order, that holds a token. */
  lemma ResolveTokenIsFirstToken(storage: map<string, string>)
    ensures ResolveToken(storage) == FirstToken(storage, TokenKeys)
    ensures ResolveToken(storage).Some? ==> ResolveToken(storage).value != ""
  {
    assert TokenKeys[1..] == ["token", "access_token"];
    assert TokenKeys[1..][1..] == ["access_token"];
    assert TokenKeys[1..][1..][1..] == [];
  }

  /** A non-empty `authToken` always wins, whatever the legacy keys hold. */
  lemma AuthTokenWins(storage: map<string, string>)
    requires HoldsToken(storage, "authToken")
    ensures ResolveToken(storage) == Some(storage["authToken"])
  {
  }

  // ---------------------------------------------------------------------------
  // Request interceptor
  // ---------------------------------------------------------------------------

  /** The headers after the interceptor. */
  function WithAuthorization(headers: Option<map<string, string>>, token: Option<string>): (r: Option<map<string, string>>)
    ensures token.None? ==> r == headers
    ensures token.Some? ==> r.Some? && "Authorization" in r.value && r.value["Authorization"] == "Bearer " + token.value
    ensures token.Some? ==> forall h :: h in r.value && h != "Authorization" ==>
                              headers.Some? && h in headers.value && r.value[h] == headers.value[h]
    ensures token.Some? && headers.Some? ==> forall h :: h in headers.value && h != "Authorization" ==>
                              h in r.value && r.value[h] == headers.value[h]
  {
    if token.None? then headers
    else
      var base := if headers.Some? then headers.value else map[];
      Some(base["Authorization" := "Bearer " + token.value])
  }

  datatype Verb = GET | POST | PUT | PATCH | DELETE

  /** The axios request configuration handed to the request interceptor. */
  class RequestConfig {
    var verb: Verb
    var url: string
    var headers: Option<map<string, string>>
    var data: JsValue

    constructor (verb: Verb, url: string, headers: Option<map<string, string>>, data: JsValue)
      ensures this.verb == verb && this.url == url && this.headers == headers && this.data == data
    {
      this.verb := verb;
      this.url := url;
      this.headers := headers;
      this.data := data;
    }
  }

  /** The browser's localStorage; the interceptors only read it. */
  class TokenStore {
    var items: map<string, string>

    constructor (items: map<string, string>)
      ensures this.items == items
    {
      this.items := items;
    }
  }

  /**
   * The request interceptor: it resolves the token and, when there is one,
   * sets `Authorization` on the config's headers in place (creating the header
   * object if absent); it returns the same config object. The store is outside
   * its frame, so it never writes a token.
   */
  method InterceptRequest(config: RequestConfig, store: TokenStore) returns (out: RequestConfig)
    modifies config
    ensures out == config
    ensures config.headers == WithAuthorization(old(config.headers), ResolveToken(store.items))
    ensures config.verb == old(config.verb) && config.url == old(config.url) && config.data == old(config.data)
    ensures ResolveToken(store.items).None? ==> config.headers == old(config.headers)
  {
    var token := OrItem(GetItem(store.items, "authToken"), OrItem(GetItem(store.items, "token"), GetItem(store.items, "access_token")));
    if token.Some? && token.value != "" {
      if config.headers.None? {
        config.headers := Some(map[]);
      }
      config.headers := Some(config.headers.value["Authorization" := "Bearer " + token.value]);
    }
    out := config;
  }

  // ---------------------------------------------------------------------------
  // Response interceptor
  // ---------------------------------------------------------------------------

  datatype HttpResponse = HttpResponse(status: int, data: JsValue)

  /** An axios error; `response` is absent when no response arrived (network failure). */
  datatype HttpError = HttpError(response: Option<HttpResponse>)

  /** `error.response?.status`. */
  function ErrorStatus(error: HttpError): Option<int> {
    if error.response.Some? then Some(error.response.value.status) else None
  }

  /** `error.response?.data?.<key>`. */
  function PayloadField(error: HttpError, key: string): JsValue {
    if error.response.Some? then OptionalMember(error.response.value.data, key) else Undefined
  }

  /** The `startsWith` chain over the five prefixes. It is a plain string prefix test. */
  predicate IsProtected(path: string)
    ensures IsProtected(path) <==> exists i :: 0 <= i < |ProtectedPrefixes| && ProtectedPrefixes[i] <= path
  {
    assert ProtectedPrefixes[0] == "/admin" && ProtectedPrefixes[1] == "/doctor" && ProtectedPrefixes[2] == "/dashboard"
      && ProtectedPrefixes[3] == "/appointments" && ProtectedPrefixes[4] == "/profile";
    "/admin" <= path || "/doctor" <= path || "/dashboard" <= path || "/appointments" <= path || "/profile" <= path
  }

  /** Being a string prefix test, `/doctors...` counts as protected and leads to the doctor login. */
  lemma DoctorsListIsProtected(rest: string)
    ensures IsProtected("/doctors" + rest) && LoginPageFor("/doctors" + rest) == "/doctor/login"
  {
    var path := "/doctors" + rest;
    assert path[..7] == "/doctor";
    assert path[1] == 'd' && "/admin"[1] == 'a';
  }

  /** The login page of the area the current path belongs to. */
  function LoginPageFor(path: string): (r: string)
    ensures r == "/admin/login" || r == "/doctor/login" || r == "/login"
    ensures r == "/admin/login" <==> "/admin" <= path
    ensures r == "/doctor/login" <==> !("/admin" <= path) && "/doctor" <= path
  {
    if "/admin" <= path then "/admin/login"
    else if "/doctor" <= path then "/doctor/login"
    else "/login"
  }

  /** Where the response interceptor sends the browser, if anywhere. */
  function RedirectTarget(error: HttpError, path: string): (r: Option<string>)
    ensures r.Some? <==> ErrorStatus(error) == Some(401) && IsProtected(path)
    ensures r.Some? ==> r.value == LoginPageFor(path)
  {
    if ErrorStatus(error) == Some(401) && IsProtected(path) then Some(LoginPageFor(path)) else None
  }

  /**
   * The toast text: `data.message || data.error || (status === 401 ? undefined : generic)`,
   * shown only when truthy. So there is never more than one toast per error.
   */
  function ErrorToast(error: HttpError): (m: Option<JsValue>)
    ensures m.Some? ==> Truthy(m.value)
    ensures Truthy(PayloadField(error, "message")) ==> m == Some(PayloadField(error, "message"))
    ensures !Truthy(PayloadField(error, "message")) && Truthy(PayloadField(error, "error")) ==>
              m == Some(PayloadField(error, "error"))
    ensures m.None? <==> ErrorStatus(error) == Some(401) && !Truthy(PayloadField(error, "message"))
                                                         && !Truthy(PayloadField(error, "error"))
    ensures m.Some? && !Truthy(PayloadField(error, "message")) && !Truthy(PayloadField(error, "error")) ==>
              m == Some(Str(GenericErrorMessage))
  {
    var fallback := if ErrorStatus(error) == Some(401) then Undefined else Str(GenericErrorMessage);
    var chosen := Or(PayloadField(error, "message"), Or(PayloadField(error, "error"), fallback));
    if Truthy(chosen) then Some(chosen) else None
  }

  /** A 401 on a public page with no payload message raises nothing at all. */
  lemma PublicUnauthorizedIsSilent(error: HttpError, path: string)
    requires ErrorStatus(error) == Some(401) && !IsProtected(path)
    requires !Truthy(PayloadField(error, "message")) && !Truthy(PayloadField(error, "error"))
    ensures RedirectTarget(error, path).None? && ErrorToast(error).None?
  {
  }

  /** `window.location`: the page's path, and the href the client code assigned, if any. */
  class BrowserLocation {
    const pathname: string
    var assignedHref: Option<string>

    constructor (pathname: string)
      ensures this.pathname == pathname && assignedHref.None?
    {
      this.pathname := pathname;
      assignedHref := None;
    }
  }

  /**
   * The response interceptor's error handler: on a 401 in a protected area it
   * assigns the login page to `location.href` (tokens are kept, the store is
   * not in its frame), raises the toast, and rejects with the same error.
   */
  method InterceptResponseError(error: HttpError, location: BrowserLocation) returns (toast: Option<JsValue>, rejection: HttpError)
    modifies location
    ensures rejection == error
    ensures toast == ErrorToast(error)
    ensures location.assignedHref == (if RedirectTarget(error, location.pathname).Some?
                                      then RedirectTarget(error, location.pathname)
                                      else old(location.assignedHref))
  {
    if error.response.Some? && error.response.value.status == 401 {
      var currentPath := location.pathname;
      var isProtected := "/admin" <= currentPath || "/doctor" <= currentPath || "/dashboard" <= currentPath
                         || "/appointments" <= currentPath || "/profile" <= currentPath;
      if isProtected {
        if "/admin" <= currentPath {
          location.assignedHref := Some("/admin/login");
        } else if "/doctor" <= currentPath {
          location.assignedHref := Some("/doctor/login");
        } else {
          location.assignedHref := Some("/login");
        }
      }
    }
    var fallback := if error.response.Some? && error.response.value.status == 401 then Undefined else Str(GenericErrorMessage);
    var errorMessage := Or(PayloadField(error, "message"), Or(PayloadField(error, "error"), fallback));
    toast := if Truthy(errorMessage) then Some(errorMessage) else None;
    rejection := error;
  }

  // ---------------------------------------------------------------------------
  // The service and its verb methods
  // ---------------------------------------------------------------------------

  /** What the transport is asked to send. */
  datatype HttpRequest = HttpRequest(verb: Verb, baseUrl: string, url: string, headers: map<string, string>, data: JsValue)

  /** What the transport answers: a 2xx response, or an axios error. */
  datatype Reply = Delivered(response: HttpResponse) | Failed(error: HttpError)

  /** How a verb method's promise settles. */
  datatype Outcome = Resolved(value: JsValue) | Rejected(reason: HttpError)

  /** The request the transport receives: instance headers, call headers on top, then the token header. */
  function PreparedRequest(verb: Verb, baseUrl: string, defaults: map<string, string>, url: string,
                           callHeaders: map<string, string>, data: JsValue, storage: map<string, string>): (r: HttpRequest)
    ensures r.verb == verb && r.url == url && r.data == data && r.baseUrl == baseUrl
    ensures "Authorization" in r.headers <==> ResolveToken(storage).Some? || "Authorization" in defaults + callHeaders
    ensures ResolveToken(storage).Some? ==> r.headers["Authorization"] == "Bearer " + ResolveToken(storage).value
    ensures ResolveToken(storage).None? ==> r.headers == defaults + callHeaders
    ensures ResolveToken(storage).Some? ==>
      r.headers == (defaults + callHeaders)["Authorization" := "Bearer " + ResolveToken(storage).value]
  {
    HttpRequest(verb, baseUrl, url, WithAuthorization(Some(defaults + callHeaders), ResolveToken(storage)).value, data)
  }

  /** Successes resolve with `response.data`; errors are re-rejected unchanged. */
  function Settle(reply: Reply): (o: Outcome)
    ensures reply.Delivered? <==> o.Resolved?
    ensures reply.Delivered? ==> o.value == reply.response.data
    ensures reply.Failed? ==> o.reason == reply.error
  {
    match reply
    case Delivered(response) => Resolved(response.data)
    case Failed(error) => Rejected(error)
  }

  /** The toast the response interceptor raises for this reply, if any. */
  function ReplyToast(reply: Reply): Option<JsValue> {
    if reply.Failed? then ErrorToast(reply.error) else None
  }

  /** `window.location.href` after the reply: the login page on a redirect, unchanged otherwise. */
  function HrefAfter(reply: Reply, pathname: string, before: Option<string>): Option<string> {
    if reply.Failed? && RedirectTarget(reply.error, pathname).Some? then RedirectTarget(reply.error, pathname) else before
  }

  class ApiService {
    const baseUrl: string
    const defaultHeaders: map<string, string>

    constructor ()
      ensures baseUrl == ApiBaseUrl && defaultHeaders == ContentTypeJson
    {
      baseUrl := ApiBaseUrl;
      defaultHeaders := ContentTypeJson;
    }

    /**
     * One call through the instance: build the config, run the request
     * interceptor, hand the request to the transport, run the response
     * interceptor, and settle with `response.data` or the rejection.
     */
    method Send(verb: Verb, url: string, data: JsValue, callHeaders: map<string, string>,
                store: TokenStore, location: BrowserLocation, transport: HttpRequest -> Reply)
      returns (sent: HttpRequest, toast: Option<JsValue>, outcome: Outcome)
      modifies location
      ensures sent == PreparedRequest(verb, baseUrl, defaultHeaders, url, callHeaders, data, store.items)
      ensures outcome == Settle(transport(sent))
      ensures toast == ReplyToast(transport(sent))
      ensures location.assignedHref == HrefAfter(transport(sent), location.pathname, old(location.assignedHref))
    {
      var config := new RequestConfig(verb, url, Some(defaultHeaders + callHeaders), data);
      config := InterceptRequest(config, store);
      sent := HttpRequest(config.verb, baseUrl, config.url, config.headers.value, config.data);
      var reply := transport(sent);
      match reply
      case Delivered(response) =>
        toast := None;
        outcome := Resolved(response.data);
      case Failed(error) =>
        var rejection;
        toast, rejection := InterceptResponseError(error, location);
        outcome := Rejected(rejection);
    }

    method Get(url: string, store: TokenStore, location: BrowserLocation, transport: HttpRequest -> Reply)
      returns (sent: HttpRequest, toast: Option<JsValue>, outcome: Outcome)
      modifies location
      ensures sent == PreparedRequest(GET, baseUrl, defaultHeaders, url, map[], Undefined, store.items)
      ensures outcome == Settle(transport(sent))
      ensures toast == ReplyToast(transport(sent))
      ensures location.assignedHref == HrefAfter(transport(sent), location.pathname, old(location.assignedHref))
    {
      sent, toast, outcome := Send(GET, url, Undefined, map[], store, location, transport);
    }

    method Post(url: string, data: JsValue, store: TokenStore, location: BrowserLocation, transport: HttpRequest -> Reply)
      returns (sent: HttpRequest, toast: Option<JsValue>, outcome: Outcome)
      modifies location
      ensures sent == PreparedRequest(POST, baseUrl, defaultHeaders, url, map[], data, store.items)
      ensures outcome == Settle(transport(sent))
      ensures toast == ReplyToast(transport(sent))
      ensures location.assignedHref == HrefAfter(transport(sent), location.pathname, old(location.assignedHref))
    {
      sent, toast, outcome := Send(POST, url, data, map[], store, location, transport);
    }

    method Put(url: string, data: JsValue, store: TokenStore, location: BrowserLocation, transport: HttpRequest -> Reply)
      returns (sent: HttpRequest, toast: Option<JsValue>, outcome: Outcome)
      modifies location
      ensures sent == PreparedRequest(PUT, baseUrl, defaultHeaders, url, map[], data, store.items)
      ensures outcome == Settle(transport(sent))
      ensures toast == ReplyToast(transport(sent))
      ensures location.assignedHref == HrefAfter(transport(sent), location.pathname, old(location.assignedHref))
    {
      sent, toast, outcome := Send(PUT, url, data, map[], store, location, transport);
    }

    method Patch(url: string, data: JsValue, store: TokenStore, location: BrowserLocation, transport: HttpRequest -> Reply)
      returns (sent: HttpRequest, toast: Option<JsValue>, outcome: Outcome)
      modifies location
      ensures sent == PreparedRequest(PATCH, baseUrl, defaultHeaders, url, map[], data, store.items)
      ensures outcome == Settle(transport(sent))
      ensures toast == ReplyToast(transport(sent))
      ensures location.assignedHref == HrefAfter(transport(sent), location.pathname, old(location.assignedHref))
    {
      sent, toast, outcome := Send(PATCH, url, data, map[], store, location, transport);
    }

    method Delete(url: string, store: TokenStore, location: BrowserLocation, transport: HttpRequest -> Reply)
      returns (sent: HttpRequest, toast: Option<JsValue>, outcome: Outcome)
      modifies location
      ensures sent == PreparedRequest(DELETE, baseUrl, defaultHeaders, url, map[], Undefined, store.items)
      ensures outcome == Settle(transport(sent))
      ensures toast == ReplyToast(transport(sent))
      ensures location.assignedHref == HrefAfter(transport(sent), location.pathname, old(location.assignedHref))
    {
      sent, toast, outcome := Send(DELETE, url, Undefined, map[], store, location, transport);
    }

    /** A multipart POST: the per-call Content-Type overrides the JSON default. */
    method UploadFile(url: string, formData: JsValue, store: TokenStore, location: BrowserLocation, transport: HttpRequest -> Reply)
      returns (sent: HttpRequest, toast: Option<JsValue>, outcome: Outcome)
      modifies location
      ensures sent == PreparedRequest(POST, baseUrl, defaultHeaders, url, ContentTypeMultipart, formData, store.items)
      ensures sent.headers["Content-Type"] == "multipart/form-data"
      ensures outcome == Settle(transport(sent))
      ensures toast == ReplyToast(transport(sent))
      ensures location.assignedHref == HrefAfter(transport(sent), location.pathname, old(location.assignedHref))
    {
      sent, toast, outcome := Send(POST, url, formData, ContentTypeMultipart, store, location, transport);
    }
  }
}
