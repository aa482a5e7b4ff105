/**
 * Contactzilla\Api\Client: configuration resolution, setters, URL builders, the
 * legacy-endpoint rewrite that runs before every request is sent, the error
 * message that replaces a 4xx response, and the convenience calls built on
 * `get` and `post`. The HTTP transport is abstract: a call produces the request
 * record it would send, and the server's answer is an input.
 */
module ContactzillaApi {
  import opened Php

  /** The fixed message shown instead of a 4xx body when debug is off; the four pieces spell the text of Client.php:9. */
  const ERROR_MESSAGE: string :=
    "An unexpected error occurred " + "communicating with Contactzilla. " + "If the problem persists, " + "please contact support."

  const DEBUG_PREFIX: string := "API responded with: "

  const ADDRESS_BOOKS_PREFIX: string := "/address_books/"

  /** The two legacy short paths that older callers still use. */
  const LEGACY_CONTACTS_PATH: string := "/contacts"
  const LEGACY_USER_DATA_PATH: string := "/data/user"

  /** The request-context parameters consulted when no address book or install id is given. */
  const CONTEXT_ADDRESS_BOOK: string := "appContextAddressBook"
  const CONTEXT_INSTALL_ID: string := "appContextInstallId"

  /** The HTTP verbs this version of the client defines. */
  datatype Verb = Get | Post

  /**
   * What a call hands to the transport: the client's base URL (scheme and
   * host the path is resolved against), the verb, the URL path after the
   * before-send listener ran, the query string or fragment written into the
   * endpoint itself (kept in the URL as given), the query options (GET), the
   * body (POST), and the default options the client carried when it created
   * the request.
   */
  datatype Request = Request(
    baseUrl: string,
    verb: Verb,
    path: string,
    urlTail: string,
    query: map<string, Value>,
    body: map<string, Value>,
    defaults: map<string, Value>)

  /** The server's answer: a decoded JSON document, a 4xx response with its body, or any other transport failure. */
  datatype Response =
    | Answer(json: Value)
    | ClientErrorResponse(body: string)
    | TransportFailure(reason: string)

  /** What the caller observes: a value, the rethrown client error with its new message, or the transport's own failure. */
  datatype Outcome =
    | Returned(value: Value)
    | ClientError(message: string)
    | Failed(reason: string)

  // ---------------------------------------------------------------- construction

  /** `'https://' . ($apiHost ?: API_HOST)` */
  function BaseUrl(apiHost: Value, defaultHost: string): string
  {
    "https://" + (if Truthy(apiHost) then Text(apiHost) else defaultHost)
  }

  /** `$arg ?: (isset($_GET[$name]) ? $_GET[$name] : null)` */
  function ResolveId(arg: Value, context: map<string, string>, name: string): Value
  {
    if Truthy(arg) then arg else if name in context then Str(context[name]) else Null
  }

  lemma ResolveIdCases(arg: Value, context: map<string, string>, name: string)
    ensures Truthy(arg) ==> ResolveId(arg, context, name) == arg
    ensures !Truthy(arg) && name in context ==> ResolveId(arg, context, name) == Str(context[name])
    ensures !Truthy(arg) && name !in context ==> ResolveId(arg, context, name) == Null
    ensures ResolveId(arg, context, name) == arg || ResolveId(arg, context, name).Str? || ResolveId(arg, context, name).Null?
  {
  }

  /** The value of the `query` default option that setAccessToken installs. */
  function TokenQuery(token: Value): Value
  {
    Dict(map["access_token" := token])
  }

  // ---------------------------------------------------------------- endpoints

  /** The characters that end the path part of a URL: the start of the query string or of the fragment. */
  predicate IsUrlDelimiter(c: char)
  {
    c == '?' || c == '#'
  }

  predicate HasNoDelimiter(s: string)
  {
    forall j :: 0 <= j < |s| ==> !IsUrlDelimiter(s[j])
  }

  /** Where the path part of an endpoint ends: at its first `?` or `#`, or at its end. */
  function PathEnd(endpoint: string): (k: nat)
    ensures k <= |endpoint| && HasNoDelimiter(endpoint[..k])
    ensures k < |endpoint| ==> IsUrlDelimiter(endpoint[k])
  {
    if endpoint == [] || IsUrlDelimiter(endpoint[0]) then 0
    else
      var k := 1 + PathEnd(endpoint[1..]);
      assert endpoint[..k] == [endpoint[0]] + endpoint[1..][..k - 1];
      k
  }

  /** The path the transport's request reports for an endpoint such as `/contacts?limit=10`. */
  function PathOf(endpoint: string): string
  {
    endpoint[..PathEnd(endpoint)]
  }

  /** The query string or fragment that follows that path, empty when there is none. */
  function TailOf(endpoint: string): string
  {
    endpoint[PathEnd(endpoint)..]
  }

  /** An endpoint is its path followed by its tail; the path has no `?` or `#`, and the tail starts at one. */
  lemma EndpointSplit(endpoint: string)
    ensures PathOf(endpoint) + TailOf(endpoint) == endpoint
    ensures HasNoDelimiter(PathOf(endpoint))
    ensures TailOf(endpoint) == [] || IsUrlDelimiter(TailOf(endpoint)[0])
  {
  }

  lemma {:induction false} PathEndAfterPlainPrefix(prefix: string, rest: string)
    requires HasNoDelimiter(prefix)
    ensures PathEnd(prefix + rest) == |prefix| + PathEnd(rest)
  {
    if prefix == [] {
      assert prefix + rest == rest;
    } else {
      assert (prefix + rest)[0] == prefix[0];
      assert (prefix + rest)[1..] == prefix[1..] + rest;
      PathEndAfterPlainPrefix(prefix[1..], rest);
    }
  }

  /** A legacy path followed by a query string or fragment is still seen, and rewritten, as the legacy path. */
  lemma LegacyEndpointWithTail(path: string, tail: string, addressBook: Value, appInstallId: Value)
    requires IsLegacyPath(path)
    requires tail == [] || IsUrlDelimiter(tail[0])
    ensures PathOf(path + tail) == path && TailOf(path + tail) == tail
    ensures LegacyRewrite(PathOf(path + tail), addressBook, appInstallId) ==
      if path == LEGACY_CONTACTS_PATH then ContactsPath(addressBook) else UserDataUrl(addressBook, appInstallId)
  {
    assert HasNoDelimiter(path);
    PathEndAfterPlainPrefix(path, tail);
    assert PathEnd(tail) == 0;
  }

  /** An endpoint under /address_books/ keeps that prefix in its path, so the listener leaves it alone. */
  lemma QualifiedEndpointKept(endpoint: string, addressBook: Value, appInstallId: Value)
    requires StartsWith(endpoint, ADDRESS_BOOKS_PREFIX)
    ensures StartsWith(PathOf(endpoint), ADDRESS_BOOKS_PREFIX) && !IsLegacyPath(PathOf(endpoint))
    ensures LegacyRewrite(PathOf(endpoint), addressBook, appInstallId) == PathOf(endpoint)
    ensures PathOf(endpoint) + TailOf(endpoint) == endpoint
    ensures HasNoDelimiter(endpoint) ==> PathOf(endpoint) == endpoint && TailOf(endpoint) == ""
  {
  }

  // ---------------------------------------------------------------- URLs

  function ContactsPath(addressBook: Value): string
  {
    ADDRESS_BOOKS_PREFIX + Text(addressBook) + "/contacts"
  }

  function UserDataUrl(addressBook: Value, appInstallId: Value): string
  {
    ADDRESS_BOOKS_PREFIX + Text(addressBook) + "/app_install/" + Text(appInstallId) + "/data/user"
  }

  predicate IsLegacyPath(path: string)
  {
    path == LEGACY_CONTACTS_PATH || path == LEGACY_USER_DATA_PATH
  }

  predicate StartsWith(s: string, prefix: string)
  {
    |prefix| <= |s| && s[..|prefix|] == prefix
  }

  /** The path a request ends up with once the legacy-endpoint listener has run. */
  function LegacyRewrite(path: string, addressBook: Value, appInstallId: Value): string
  {
    if path == LEGACY_CONTACTS_PATH then ContactsPath(addressBook)
    else if path == LEGACY_USER_DATA_PATH then UserDataUrl(addressBook, appInstallId)
    else path
  }

  lemma NoDelimiterConcat(a: string, b: string)
    ensures HasNoDelimiter(a + b) <==> HasNoDelimiter(a) && HasNoDelimiter(b)
  {
    if HasNoDelimiter(a + b) {
      assert forall j :: 0 <= j < |a| ==> a[j] == (a + b)[j];
      assert forall j :: 0 <= j < |b| ==> b[j] == (a + b)[|a| + j];
    }
  }

  /** Ids without `?` or `#` give URLs without them. */
  lemma PlainIdsGivePlainUrls(addressBook: Value, appInstallId: Value)
    ensures HasNoDelimiter(Text(addressBook)) ==> HasNoDelimiter(ContactsPath(addressBook))
    ensures HasNoDelimiter(Text(addressBook)) && HasNoDelimiter(Text(appInstallId)) ==>
      HasNoDelimiter(UserDataUrl(addressBook, appInstallId))
  {
    var book, id := Text(addressBook), Text(appInstallId);
    assert HasNoDelimiter(ADDRESS_BOOKS_PREFIX) && HasNoDelimiter("/contacts");
    assert HasNoDelimiter("/app_install/") && HasNoDelimiter("/data/user");
    NoDelimiterConcat(ADDRESS_BOOKS_PREFIX, book);
    NoDelimiterConcat(ADDRESS_BOOKS_PREFIX + book, "/contacts");
    NoDelimiterConcat(ADDRESS_BOOKS_PREFIX + book, "/app_install/");
    NoDelimiterConcat(ADDRESS_BOOKS_PREFIX + book + "/app_install/", id);
    NoDelimiterConcat(ADDRESS_BOOKS_PREFIX + book + "/app_install/" + id, "/data/user");
  }

  /** The contacts path names its address book: two paths agree exactly when the books' texts agree. */
  lemma ContactsPathIdentifiesBook(a: Value, b: Value)
    ensures ContactsPath(a) == ContactsPath(b) <==> Text(a) == Text(b)
    ensures a.Int? && b.Int? && 0 <= a.i && 0 <= b.i && a != b ==> ContactsPath(a) != ContactsPath(b)
  {
    var n := |ADDRESS_BOOKS_PREFIX|;
    if ContactsPath(a) == ContactsPath(b) {
      assert Text(a) == ContactsPath(a)[n..n + |Text(a)|];
      assert Text(b) == ContactsPath(b)[n..n + |Text(b)|];
      if a.Int? && b.Int? && 0 <= a.i && 0 <= b.i {
        NatTextInjective(a.i, b.i);
      }
    }
  }

  /** Every fully qualified path lies under /address_books/, where no legacy path does. */
  lemma QualifiedPathsAreNotLegacy(addressBook: Value, appInstallId: Value)
    ensures StartsWith(ContactsPath(addressBook), ADDRESS_BOOKS_PREFIX)
    ensures StartsWith(UserDataUrl(addressBook, appInstallId), ADDRESS_BOOKS_PREFIX)
    ensures !IsLegacyPath(ContactsPath(addressBook))
    ensures !IsLegacyPath(UserDataUrl(addressBook, appInstallId))
  {
  }

  /** The rewrite maps each legacy path to its qualified form and leaves every other path alone. */
  lemma LegacyRewriteCases(path: string, addressBook: Value, appInstallId: Value)
    ensures path == LEGACY_CONTACTS_PATH ==> LegacyRewrite(path, addressBook, appInstallId) == ContactsPath(addressBook)
    ensures path == LEGACY_USER_DATA_PATH ==>
      LegacyRewrite(path, addressBook, appInstallId) == UserDataUrl(addressBook, appInstallId)
    ensures !IsLegacyPath(path) ==> LegacyRewrite(path, addressBook, appInstallId) == path
    ensures IsLegacyPath(path) ==> StartsWith(LegacyRewrite(path, addressBook, appInstallId), ADDRESS_BOOKS_PREFIX)
    ensures !IsLegacyPath(LegacyRewrite(path, addressBook, appInstallId))
  {
  }

  /** Rewriting an already rewritten path changes nothing. */
  lemma LegacyRewriteIdempotent(path: string, addressBook: Value, appInstallId: Value)
    ensures LegacyRewrite(LegacyRewrite(path, addressBook, appInstallId), addressBook, appInstallId)
         == LegacyRewrite(path, addressBook, appInstallId)
  {
  }

  // ---------------------------------------------------------------- errors

  /** The message of the exception rethrown for a 4xx response, chosen by the debug flag. */
  function ErrorMessage(debug: Value, body: string): string
  {
    if Truthy(debug) then DEBUG_PREFIX + body else ERROR_MESSAGE
  }

  /** Without debug the message is the fixed text whatever the server said. */
  lemma ProductionMessageHidesBody(debug: Value, body: string, otherBody: string)
    requires !Truthy(debug)
    ensures ErrorMessage(debug, body) == ERROR_MESSAGE
    ensures ErrorMessage(debug, body) == ErrorMessage(debug, otherBody)
  {
  }

  /** With debug the server's body is carried verbatim at the end of the message. */
  lemma DebugMessageCarriesBody(debug: Value, body: string)
    requires Truthy(debug)
    ensures ErrorMessage(debug, body) == DEBUG_PREFIX + body
    ensures ErrorMessage(debug, body)[|DEBUG_PREFIX|..] == body
  {
  }

  /** A debug message can never be mistaken for the generic one. */
  lemma DebugAndProductionMessagesDiffer(debug: Value, noDebug: Value, body: string, otherBody: string)
    requires Truthy(debug) && !Truthy(noDebug)
    ensures ErrorMessage(debug, body) != ErrorMessage(noDebug, otherBody)
  {
    var m := ErrorMessage(debug, body);
    assert m[1] == 'P';
    assert ERROR_MESSAGE[1] == 'n';
  }

  /** The try/catch of `get` and `post`: only a 4xx response is caught and rethrown with a new message. */
  function Settle(response: Response, debug: Value): Outcome
  {
    match response
    case Answer(json) => Returned(json)
    case ClientErrorResponse(body) => ClientError(ErrorMessage(debug, body))
    case TransportFailure(reason) => Failed(reason)
  }

  lemma SettleCases(response: Response, debug: Value)
    ensures response.Answer? ==> Settle(response, debug) == Returned(response.json)
    ensures response.ClientErrorResponse? && !Truthy(debug) ==> Settle(response, debug) == ClientError(ERROR_MESSAGE)
    ensures response.ClientErrorResponse? && Truthy(debug) ==>
      Settle(response, debug) == ClientError(DEBUG_PREFIX + response.body)
    ensures response.TransportFailure? ==> Settle(response, debug) == Failed(response.reason)
  {
  }

  // ---------------------------------------------------------------- user data

  /** `getUserData`'s projection: the whole document for a null key, else the entry or null. */
  function ProjectKey(userData: Value, key: Value): Value
  {
    if key.Null? then userData else Lookup(userData, key)
  }

  lemma ProjectKeyCases(userData: Value, key: Value)
    ensures key.Null? ==> ProjectKey(userData, key) == userData
    ensures userData.Dict? && key.Str? && key.s in userData.entries ==>
      ProjectKey(userData, key) == userData.entries[key.s]
    ensures userData.Dict? && key.Str? && key.s !in userData.entries ==> ProjectKey(userData, key) == Null
    ensures !key.Null? && !userData.Dict? && !userData.List? ==> ProjectKey(userData, key) == Null
  {
  }

  /** The JSON document `saveUserDataKeyValue` sends: a one-element list holding one key/value record. */
  function SavedDocument(key: Value, value: Value): Value
  {
    List([Dict(map["key" := key, "value" := value])])
  }

  /** The POST parameters of `saveUserDataKeyValue`: the document under the `body` field. */
  function SaveParams(key: Value, value: Value): map<string, Value>
  {
    map["body" := SavedDocument(key, value)]
  }

  /** Reading the saved document back yields exactly the one pair it was built from. */
  lemma SavedDocumentRoundTrip(key: Value, value: Value)
    ensures SaveParams(key, value).Keys == {"body"}
    ensures Lookup(SaveParams(key, value)["body"], Int(0)) == Dict(map["key" := key, "value" := value])
    ensures Lookup(SaveParams(key, value)["body"], Int(1)) == Null
    ensures Lookup(Lookup(SaveParams(key, value)["body"], Int(0)), Str("key")) == key
    ensures Lookup(Lookup(SaveParams(key, value)["body"], Int(0)), Str("value")) == value
  {
  }

  // ---------------------------------------------------------------- objects

  /** A request the transport has created and not yet sent; listeners may change its path. */
  class OutgoingRequest {
    var baseUrl: string
    var verb: Verb
    var path: string
    var urlTail: string
    var query: map<string, Value>
    var body: map<string, Value>
    var defaults: map<string, Value>

    /** The transport splits the endpoint into the request's path and the rest of its URL. */
    constructor (baseUrl: string, verb: Verb, endpoint: string, query: map<string, Value>, body: map<string, Value>,
                 defaults: map<string, Value>)
      ensures Record() == Request(baseUrl, verb, PathOf(endpoint), TailOf(endpoint), query, body, defaults)
    {
      this.baseUrl := baseUrl;
      this.verb := verb;
      this.path := PathOf(endpoint);
      this.urlTail := TailOf(endpoint);
      this.query := query;
      this.body := body;
      this.defaults := defaults;
    }

    function Record(): Request
      reads this
    {
      Request(baseUrl, verb, path, urlTail, query, body, defaults)
    }
  }

  class Client {
    var baseUrl: string
    var accessToken: Value
    var addressBook: Value
    var appInstallId: Value
    var debug: Value
    /** The transport's default options this client sets: `query` and `verify`. */
    var defaultOptions: map<string, Value>

    /** Holds after the constructor and every setter: the default `query` option carries the current access token. */
    predicate TokenInstalled()
      reads this
    {
      "query" in defaultOptions && defaultOptions["query"] == TokenQuery(accessToken)
    }

    /**
     * `API_HOST` and the request context `$_GET` are not part of Client.php;
     * they enter as `defaultHost` and `context`.
     */
    constructor (accessToken: Value, addressBook: Value, appInstallId: Value, apiHost: Value, debug: Value,
                 context: map<string, string>, defaultHost: string)
      ensures baseUrl == BaseUrl(apiHost, defaultHost)
      ensures GetAccessToken() == accessToken
      ensures GetAddressBook() == ResolveId(addressBook, context, CONTEXT_ADDRESS_BOOK)
      ensures GetAppInstallId() == ResolveId(appInstallId, context, CONTEXT_INSTALL_ID)
      ensures GetDebug() == debug
      ensures TokenInstalled()
      ensures defaultOptions ==
        if Truthy(debug) then map["query" := TokenQuery(accessToken), "verify" := Bool(false)]
        else map["query" := TokenQuery(accessToken)]
    {
      baseUrl := BaseUrl(apiHost, defaultHost);
      this.accessToken := Null;
      this.addressBook := Null;
      this.appInstallId := Null;
      this.debug := Null;
      defaultOptions := map[];
      new;
      var _ := SetAccessToken(accessToken);
      var _ := SetAddressBook(ResolveId(addressBook, context, CONTEXT_ADDRESS_BOOK));
      var _ := SetAppInstallId(ResolveId(appInstallId, context, CONTEXT_INSTALL_ID));
      var _ := SetDebug(debug);
    }

    function GetAccessToken(): Value
      reads this
    {
      accessToken
    }

    function GetAddressBook(): Value
      reads this
    {
      addressBook
    }

    function GetAppInstallId(): Value
      reads this
    {
      appInstallId
    }

    function GetDebug(): Value
      reads this
    {
      debug
    }

    method SetAccessToken(token: Value) returns (self: Client)
      modifies this`accessToken, this`defaultOptions
      ensures self == this
      ensures GetAccessToken() == token
      ensures defaultOptions == old(defaultOptions)["query" := TokenQuery(token)]
      ensures defaultOptions["query"] == Dict(map["access_token" := token])
      ensures TokenInstalled()
    {
      accessToken := token;
      defaultOptions := defaultOptions["query" := TokenQuery(token)];
      self := this;
    }

    method SetAddressBook(book: Value) returns (self: Client)
      modifies this`addressBook
      ensures self == this
      ensures GetAddressBook() == book
      ensures TokenInstalled() == old(TokenInstalled())
    {
      addressBook := book;
      self := this;
    }

    method SetAppInstallId(id: Value) returns (self: Client)
      modifies this`appInstallId
      ensures self == this
      ensures GetAppInstallId() == id
      ensures TokenInstalled() == old(TokenInstalled())
    {
      appInstallId := id;
      self := this;
    }

    method SetDebug(flag: Value) returns (self: Client)
      modifies this`debug, this`defaultOptions
      ensures self == this
      ensures GetDebug() == flag
      ensures Truthy(flag) ==> defaultOptions == old(defaultOptions)["verify" := Bool(false)]
      ensures !Truthy(flag) ==> defaultOptions == old(defaultOptions)
      ensures TokenInstalled() == old(TokenInstalled())
    {
      debug := flag;
      if Truthy(debug) {
        defaultOptions := defaultOptions["verify" := Bool(false)];
      }
      self := this;
    }

    /** The `request.before_send` listener: two sequential checks on the request's current path. */
    method BeforeRequestFixLegacyEndpoints(request: OutgoingRequest)
      modifies request`path
      ensures request.path == LegacyRewrite(old(request.path), addressBook, appInstallId)
    {
      if request.path == LEGACY_CONTACTS_PATH {
        request.path := ADDRESS_BOOKS_PREFIX + Text(addressBook) + "/contacts";
      }
      if request.path == LEGACY_USER_DATA_PATH {
        request.path := GetUserDataUrl();
      }
    }

    /** `getUserDataUrl` */
    function GetUserDataUrl(): (url: string)
      reads this
      ensures StartsWith(url, ADDRESS_BOOKS_PREFIX) && !IsLegacyPath(url)
    {
      UserDataUrl(addressBook, appInstallId)
    }

    /**
     * The transport's send: the request is created from the endpoint, the
     * listener registered at construction runs on its path, then it leaves.
     */
    method Send(verb: Verb, endpoint: string, query: map<string, Value>, body: map<string, Value>)
      returns (sent: Request)
      ensures sent == Request(baseUrl, verb, LegacyRewrite(PathOf(endpoint), addressBook, appInstallId), TailOf(endpoint),
                              query, body, defaultOptions)
    {
      var request := new OutgoingRequest(baseUrl, verb, endpoint, query, body, defaultOptions);
      BeforeRequestFixLegacyEndpoints(request);
      sent := request.Record();
    }

    /** `get`: the parameters become the query; a 4xx answer is rethrown with the debug-chosen message. */
    method Get(endpoint: string, params: map<string, Value>, response: Response)
      returns (sent: Request, outcome: Outcome)
      ensures sent.baseUrl == baseUrl
      ensures sent.verb == Verb.Get && sent.query == params && sent.body == map[]
      ensures sent.path == LegacyRewrite(PathOf(endpoint), addressBook, appInstallId)
      ensures sent.urlTail == TailOf(endpoint)
      ensures sent.defaults == defaultOptions
      ensures TokenInstalled() ==> sent.defaults["query"] == TokenQuery(accessToken)
      ensures outcome == Settle(response, debug)
    {
      sent := Send(Verb.Get, endpoint, params, map[]);
      outcome := Settle(response, GetDebug());
    }

    /** `post`: the parameters become the body; same error handling as `get`. */
    method Post(endpoint: string, params: map<string, Value>, response: Response)
      returns (sent: Request, outcome: Outcome)
      ensures sent.baseUrl == baseUrl
      ensures sent.verb == Verb.Post && sent.query == map[] && sent.body == params
      ensures sent.path == LegacyRewrite(PathOf(endpoint), addressBook, appInstallId)
      ensures sent.urlTail == TailOf(endpoint)
      ensures sent.defaults == defaultOptions
      ensures TokenInstalled() ==> sent.defaults["query"] == TokenQuery(accessToken)
      ensures outcome == Settle(response, debug)
    {
      sent := Send(Verb.Post, endpoint, map[], params);
      outcome := Settle(response, GetDebug());
    }

    /** `call`: dispatch on the verb. */
    method Call(endpoint: string, params: map<string, Value>, verb: Verb, response: Response)
      returns (sent: Request, outcome: Outcome)
      ensures sent.baseUrl == baseUrl && sent.verb == verb
      ensures sent.path == LegacyRewrite(PathOf(endpoint), addressBook, appInstallId)
      ensures sent.urlTail == TailOf(endpoint)
      ensures verb == Verb.Get ==> sent.query == params && sent.body == map[]
      ensures verb == Verb.Post ==> sent.query == map[] && sent.body == params
      ensures sent.defaults == defaultOptions
      ensures TokenInstalled() ==> sent.defaults["query"] == TokenQuery(accessToken)
      ensures outcome == Settle(response, debug)
    {
      match verb
      case Get => sent, outcome := Get(endpoint, params, response);
      case Post => sent, outcome := Post(endpoint, params, response);
    }

    /** `getContacts`: a GET of the address book's contacts with the parameters as the query. */
    method GetContacts(params: map<string, Value>, response: Response)
      returns (sent: Request, outcome: Outcome)
      ensures sent.baseUrl == baseUrl
      ensures sent.verb == Verb.Get && sent.path + sent.urlTail == ContactsPath(addressBook)
      ensures sent.path == PathOf(ContactsPath(addressBook)) && sent.urlTail == TailOf(ContactsPath(addressBook))
      ensures StartsWith(sent.path, ADDRESS_BOOKS_PREFIX)
      ensures HasNoDelimiter(Text(addressBook)) ==> sent.path == ContactsPath(addressBook) && sent.urlTail == ""
      ensures sent.query == params && sent.body == map[] && sent.defaults == defaultOptions
      ensures outcome == Settle(response, debug)
    {
      PlainIdsGivePlainUrls(addressBook, appInstallId);
      QualifiedPathsAreNotLegacy(addressBook, appInstallId);
      QualifiedEndpointKept(ContactsPath(addressBook), addressBook, appInstallId);
      sent, outcome := Get(ADDRESS_BOOKS_PREFIX + Text(addressBook) + "/contacts", params, response);
    }

    /** `getUserData`: a GET of the user-data URL, then the projection on `key`. */
    method GetUserData(key: Value, response: Response)
      returns (sent: Request, outcome: Outcome)
      ensures sent.baseUrl == baseUrl
      ensures sent.verb == Verb.Get && sent.path + sent.urlTail == UserDataUrl(addressBook, appInstallId)
      ensures sent.path == PathOf(UserDataUrl(addressBook, appInstallId))
      ensures sent.urlTail == TailOf(UserDataUrl(addressBook, appInstallId))
      ensures HasNoDelimiter(Text(addressBook)) && HasNoDelimiter(Text(appInstallId)) ==>
        sent.path == UserDataUrl(addressBook, appInstallId) && sent.urlTail == ""
      ensures sent.query == map[] && sent.body == map[] && sent.defaults == defaultOptions
      ensures response.Answer? ==> outcome == Returned(ProjectKey(response.json, key))
      ensures response.Answer? && key.Null? ==> outcome == Returned(response.json)
      ensures response.Answer? && response.json.Dict? && key.Str? ==>
        outcome == Returned(if key.s in response.json.entries then response.json.entries[key.s] else Null)
      ensures !response.Answer? ==> outcome == Settle(response, debug)
    {
      PlainIdsGivePlainUrls(addressBook, appInstallId);
      QualifiedPathsAreNotLegacy(addressBook, appInstallId);
      QualifiedEndpointKept(UserDataUrl(addressBook, appInstallId), addressBook, appInstallId);
      sent, outcome := Get(GetUserDataUrl(), map[], response);
      if outcome.Returned? && !key.Null? {
        outcome := Returned(Lookup(outcome.value, key));
      }
    }

    /** `saveUserDataKeyValue`: one POST of the one-pair document to the user-data URL. */
    method SaveUserDataKeyValue(key: Value, value: Value, response: Response)
      returns (sent: Request, outcome: Outcome)
      ensures sent.baseUrl == baseUrl
      ensures sent.verb == Verb.Post && sent.path + sent.urlTail == UserDataUrl(addressBook, appInstallId)
      ensures sent.path == PathOf(UserDataUrl(addressBook, appInstallId))
      ensures sent.urlTail == TailOf(UserDataUrl(addressBook, appInstallId))
      ensures HasNoDelimiter(Text(addressBook)) && HasNoDelimiter(Text(appInstallId)) ==>
        sent.path == UserDataUrl(addressBook, appInstallId) && sent.urlTail == ""
      ensures sent.query == map[] && sent.defaults == defaultOptions
      ensures sent.body == map["body" := List([Dict(map["key" := key, "value" := value])])]
      ensures outcome == Settle(response, debug)
    {
      PlainIdsGivePlainUrls(addressBook, appInstallId);
      QualifiedPathsAreNotLegacy(addressBook, appInstallId);
      QualifiedEndpointKept(UserDataUrl(addressBook, appInstallId), addressBook, appInstallId);
      sent, outcome := Post(GetUserDataUrl(), SaveParams(key, value), response);
    }

    /** `saveDataKeyValue`, the deprecated name: the very same request and outcome. */
    method SaveDataKeyValue(key: Value, value: Value, response: Response)
      returns (sent: Request, outcome: Outcome)
      ensures sent == Request(baseUrl, Verb.Post, PathOf(UserDataUrl(addressBook, appInstallId)),
                              TailOf(UserDataUrl(addressBook, appInstallId)), map[], SaveParams(key, value), defaultOptions)
      ensures outcome == Settle(response, debug)
    {
      sent, outcome := SaveUserDataKeyValue(key, value, response);
    }
  }
}
