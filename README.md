# Contactzilla API client — Dafny model

This project models `Contactzilla\Api\Client`, the PHP client of the Contactzilla
contact-management API. The client wraps a Guzzle HTTP client. Its own logic is small and
deterministic, and the model covers it:

- **Construction-time resolution.** The base URL is `https://` plus `apiHost`, or the
  `API_HOST` default when `apiHost` is falsy. The address book and app-install id fall back
  to the request-context parameters `appContextAddressBook` and `appContextInstallId`.
- **Setters and getters.** The setters update the client's fields and the transport's
  default options (`query` with the access token, `verify`).
- **Before-send listener.** It rewrites the legacy short paths `/contacts` and `/data/user`
  to their fully qualified forms.
- **Error messages.** A 4xx response is rethrown with a message chosen by the debug flag.
- **Convenience calls.** These are `get`, `post`, `call`, `getContacts`, `getUserData`,
  `saveUserDataKeyValue` and `saveDataKeyValue`.

Files:

- `php_values.dfy` (module `Php`) holds the PHP semantics the client relies on:
  - values as decoded from JSON;
  - truthiness, for `?:` and `if`;
  - the string conversion of `.`, including the decimal text of integers;
  - the key normalisation of `$array[$key]`.
- `client.dfy` (module `ContactzillaApi`) holds:
  - the constants;
  - the request record the client hands to the transport;
  - the pure path, message and projection functions, with their lemmas;
  - class `OutgoingRequest`, whose path the listener rewrites in place;
  - class `Client`, with the configuration as fields.

The transport is abstract. Each call returns the `Request` record it would send, with the
path the before-send listener left. It also returns the `Outcome` the caller sees. The
server's answer is a `Response` input: a decoded JSON value, a 4xx response with its body,
or any other failure. `API_HOST` is not defined in `Client.php`, so it is the constructor
parameter `defaultHost`. The ambient `$_GET` array is the constructor parameter `context`.

`call` forwards to any method of the class by name. Only `get` and `post` are modelled, as
the closed enum `Verb`. Only 4xx responses are caught; every other failure reaches the caller
unchanged.

## Model

| member | source | states |
|---|---|---|
| `ContactzillaApi.Client.constructor` | src/Contactzilla/Api/Client.php:13-28 | The base URL is `https://` + `apiHost` if it is truthy, else `https://` + the default host. The access token is stored and becomes the default `query` option, so `TokenInstalled` holds. The address book and install id are the argument if truthy, else the context entry, else null. `verify` is false exactly when debug is truthy. Every request the client sends carries this base URL (see `Send`). |
| `ContactzillaApi.ResolveIdCases` | src/Contactzilla/Api/Client.php:23-24 | `$arg ?: (isset($_GET[k]) ? $_GET[k] : null)`: a truthy argument wins. Otherwise the value is the context entry when present, else null. |
| `ContactzillaApi.Client.SetAccessToken` | src/Contactzilla/Api/Client.php:100-112 | The getter then yields the new token. The default `query` option becomes exactly `{access_token: token}`, so `TokenInstalled` holds afterwards. No other option or field changes, and the same object is returned. |
| `ContactzillaApi.Client.SetAddressBook` | src/Contactzilla/Api/Client.php:114-124 | Only the address book changes; the getter yields the new value; `TokenInstalled` is preserved; the same object is returned. |
| `ContactzillaApi.Client.SetAppInstallId` | src/Contactzilla/Api/Client.php:126-136 | Only the install id changes; the getter yields the new value; `TokenInstalled` is preserved; the same object is returned. |
| `ContactzillaApi.Client.SetDebug` | src/Contactzilla/Api/Client.php:138-152 | Stores the flag. A truthy flag sets `verify` to false. A falsy flag leaves the default options untouched. `TokenInstalled` is preserved, and the same object is returned. |
| `ContactzillaApi.Client.BeforeRequestFixLegacyEndpoints` | src/Contactzilla/Api/Client.php:170-185 | The two sequential checks change the request's path to exactly `LegacyRewrite` of the old path. Nothing else in the request changes. |
| `ContactzillaApi.Client.GetUserDataUrl` | src/Contactzilla/Api/Client.php:187-189 | The user-data URL lies under `/address_books/` and is never a legacy path. |
| `ContactzillaApi.QualifiedPathsAreNotLegacy` | src/Contactzilla/Api/Client.php:178-189 | For any ids, the contacts path and the user-data URL both start with `/address_books/` and are neither `/contacts` nor `/data/user`. |
| `ContactzillaApi.LegacyRewriteCases` | src/Contactzilla/Api/Client.php:174-185 | `/contacts` becomes `/address_books/{book}/contacts`. `/data/user` becomes `/address_books/{book}/app_install/{id}/data/user`. Every other path is unchanged, and no rewritten path is a legacy path. |
| `ContactzillaApi.LegacyRewriteIdempotent` | src/Contactzilla/Api/Client.php:174-189 | Rewriting twice gives the same path as rewriting once. |
| `ContactzillaApi.EndpointSplit` | src/Contactzilla/Api/Client.php:33 | An endpoint is its path part followed by its tail. The path part contains no `?` or `#`, and the tail is empty or starts with one of them. |
| `ContactzillaApi.LegacyEndpointWithTail` | src/Contactzilla/Api/Client.php:174-185 | An endpoint such as `/contacts?limit=10` has the path `/contacts`, which the listener rewrites to the qualified path. The query string `?limit=10` stays in the URL. The same holds for `/data/user`. |
| `ContactzillaApi.QualifiedEndpointKept` | src/Contactzilla/Api/Client.php:178-185 | The path part of any endpoint under `/address_books/` is still under it and is not a legacy path, so the listener leaves it unchanged. An endpoint without `?` or `#` is its own path. |
| `ContactzillaApi.PlainIdsGivePlainUrls` | src/Contactzilla/Api/Client.php:187-189 | When the ids contain no `?` or `#`, neither do the contacts path and the user-data URL. |
| `ContactzillaApi.ContactsPathIdentifiesBook` | src/Contactzilla/Api/Client.php:63 | Two contacts paths are equal exactly when the address books' texts are equal, so distinct non-negative integer ids address distinct contact lists. |
| `ContactzillaApi.Client.Send` | src/Contactzilla/Api/Client.php:27 | The request is created from the endpoint: its path is the endpoint up to the first `?` or `#`, and the rest stays in the URL. The listener registered at construction then runs on that path. The record leaves with the client's base URL, the rewritten path, the given query and body, and the client's current default options. |
| `ContactzillaApi.Client.Get` | src/Contactzilla/Api/Client.php:30-41 | A GET to the client's base URL whose path is the rewritten path part of the endpoint, with the endpoint's own query string kept after it. The parameters are its query and it has no body. While `TokenInstalled` holds, the request carries `{access_token: token}` as its default query. An answer is returned, a 4xx response becomes a client error with `ErrorMessage(debug, body)`, and any other failure passes through. |
| `ContactzillaApi.Client.Post` | src/Contactzilla/Api/Client.php:43-54 | A POST to the client's base URL whose path is the rewritten path part of the endpoint, with the parameters as its body and no query. It carries the token like `get`. The outcome is the same function of response and debug as for `get`. |
| `ContactzillaApi.Client.Call` | src/Contactzilla/Api/Client.php:56-59 | Dispatching on `Get` or `Post` produces exactly the request and outcome of that verb's method, sent to the client's base URL. |
| `ContactzillaApi.SettleCases` | src/Contactzilla/Api/Client.php:32-40 | An answer is returned as is. A 4xx response gives `ERROR_MESSAGE` without debug and `API responded with: ` + body with debug. Any other failure is propagated. |
| `ContactzillaApi.ProductionMessageHidesBody` | src/Contactzilla/Api/Client.php:34-37 | With debug falsy the message is exactly `ERROR_MESSAGE` and does not depend on the response body. |
| `ContactzillaApi.DebugMessageCarriesBody` | src/Contactzilla/Api/Client.php:47-50 | With debug truthy the message is `API responded with: ` + body, and the body is recovered verbatim after the prefix. |
| `ContactzillaApi.DebugAndProductionMessagesDiffer` | src/Contactzilla/Api/Client.php:35-35 | A debug-mode message never equals the production message, whatever the bodies. |
| `ContactzillaApi.Client.GetContacts` | src/Contactzilla/Api/Client.php:61-64 | A GET to the client's base URL of `/address_books/{book}/contacts`, whose path stays under `/address_books/` and which the listener leaves alone. The sent path is the URL's part before its first `?` or `#`, and the URL tail is the rest, so together they are exactly that URL. When the book id has no `?` or `#`, the path is the whole URL. The parameters pass through unchanged as the query. |
| `ContactzillaApi.Client.GetUserData` | src/Contactzilla/Api/Client.php:66-78 | A GET, sent to the client's base URL, of the user-data URL with an empty query. The sent path is the URL's part before its first `?` or `#`, and the tail is the rest. The path is the whole URL when the ids have no `?` or `#`. A null key returns the whole document. With a key present in a map document, the result is that entry; with an absent key it is null. Errors are those of `get`. |
| `ContactzillaApi.ProjectKeyCases` | src/Contactzilla/Api/Client.php:73-77 | Null key gives the whole document; a present key gives its entry; an absent key, or a document that is no array, gives null. |
| `Php.LookupInDict` | src/Contactzilla/Api/Client.php:74 | `isset($m[$k]) ? $m[$k] : null` on a map is the entry when the key is present and null otherwise. |
| `Php.LookupInList` | src/Contactzilla/Api/Client.php:74 | On a decoded JSON list, an integer key or its decimal string selects the element at that position. |
| `Php.NatTextRoundTrip` | src/Contactzilla/Api/Client.php:188 | The decimal text PHP writes for a non-negative integer id, which goes into URLs and array keys, reads back as the same number. |
| `Php.NatTextInjective` | src/Contactzilla/Api/Client.php:188 | Distinct non-negative integer ids give distinct decimal texts. |
| `ContactzillaApi.Client.SaveUserDataKeyValue` | src/Contactzilla/Api/Client.php:80-90 | One POST, sent to the client's base URL, to the user-data URL, with the path being the whole URL when the ids have no `?` or `#`. Its only parameter is `body`, holding the one-element list `[{key: k, value: v}]`. Errors are those of `post`. |
| `ContactzillaApi.SavedDocumentRoundTrip` | src/Contactzilla/Api/Client.php:85-89 | The POST parameters hold only `body`. Its list has exactly one element, whose `key` and `value` entries are the saved key and value. |
| `ContactzillaApi.Client.SaveDataKeyValue` | src/Contactzilla/Api/Client.php:92-98 | The deprecated name produces the identical request and outcome to `saveUserDataKeyValue`. |

## Left out

- Guzzle transport: `send()`, `$response->json()`, the exception classes and listener
  registration are foreign calls. The server's answer is an input, and the thrown exception
  is the `ClientError` outcome.
- Merging of the default `query` option into each request is done inside Guzzle and is not
  modelled. Each record carries the client's default options at send time, so a later
  `setAccessToken` shows up in later requests only.
- `json_encode` is not modelled. The saved body is kept as the structured document it
  would encode, not as JSON text.
- `getSabreDAVClient` wraps a WebDAV library that is not part of this model.
- `ContactzillaApi.Client.Send`: an endpoint is assumed to be a path starting with `/`. Guzzle
  also resolves absolute URLs and relative paths against the base URL, and it may normalise
  dot segments and percent-encoding. That URL resolution is not modelled. The model only
  splits off the query string or fragment at the first `?` or `#`.
- `ContactzillaApi.Client.Get` inherits that limit. Its contract holds for endpoints written
  as an absolute path with an optional query string or fragment. The tail is kept as text; it
  is not merged with the `query` option.
- `ContactzillaApi.Client.Post` inherits the same limit. Its contract holds for endpoints
  written as an absolute path with an optional query string or fragment.
- `ContactzillaApi.Client.Call` inherits the same limit through `get` and `post`.
- `ContactzillaApi.Client.BeforeRequestFixLegacyEndpoints` stores the new path as given.
  Any encoding Guzzle's `setPath` applies to characters such as `?` or spaces in the ids is
  not modelled.
- `call` forwards to any method of the class by name, case-insensitively, because
  `$this->$method(...)` resolves the name at run time. Only `get` and `post` are modelled, as
  the closed enum `Verb`. Other names, such as `getContacts` or `saveUserDataKeyValue`, are
  not modelled. An undefined name is a PHP runtime error.
- `API_HOST` is defined outside `Client.php` and is the constructor parameter
  `defaultHost`. `$_GET` is the `context` map, whose entries are taken to be strings.
- PHP floats, objects and string offsets are not modelled. Looking a key up in a scalar
  document gives null, even though PHP's `isset` on a string offset can find a character.
- Guzzle's own initial default options are not modelled. The option map starts empty
  before the constructor calls the setters.
- The test files are a live-network version check and autoloader setup, with nothing to
  model.
