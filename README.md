# maingo HTTP client, modelled in Dafny

maingo is a TypeScript HTTP client. A client is built from a configuration
object and has two API generations.

**First generation** (`src/client.ts` and everything it uses):
- The constructor fills in the defaults `auth: "none"` and
  `searchParamFormat: "delimited"`.
- It picks an auth adapter (none, basic, bearer, OAuth2) and a connector
  (REST or Graphql) by type guards.
- It gives the connector a new middleware stack.
- The middleware stack holds four insertion-ordered sets:
  - request taps, nested so that each calls the next;
  - response taps, run in order;
  - request maps and response maps, rolled up into one nested call.
- A connector keeps persistent, temporary and permanent headers and an
  optional temporary hostname.
- A request goes through these steps:
  1. strip the endpoint's leading slash;
  2. normalise the temporary headers through `new Headers`;
  3. run the request maps;
  4. build the URL from the hostname, checking it with `isValidUrl`;
  5. append the search parameters in the "delimited" or "php" format;
  6. turn a JSON array or object body into JSON text;
  7. `new Request`, then fetch;
  8. `postRequest` (response taps, then response maps);
  9. the request taps, then return the stored response.
- `refire` replays the last request.
- The REST connector binds seven verbs onto the client; the Graphql
  connector binds `query`.

**Second generation** (`src/core/`):
- A keyed middleware stack, whose `use` stores a function under a name or
  an automatic key.
- A `Client` that installs the auth middleware under "auth" in `init`.
- A Graphql connector whose `query` forces the method "post" and the
  configured endpoint.

**Shared utilities**:
- `normalizeHostname`;
- `formatSearchParamPHP`;
- the "delimited" and "indexed" query encoders;
- `pipe`, `compose` and `identity`.

**How the model is built.**
- JavaScript values are the datatype `JsValues.Value`.
- Plain objects are ordered records with unique keys. Spreading an object
  is `Records.Assign`.
- `URL` parsing and `isValidUrl` are parameters of a connector
  (`Connectors.Env`).
- The fetch outcome is a parameter of each request (`Connectors.FetchResult`).
- The clock (`Date.now()`) is a parameter `now`.
- Objects that JavaScript mutates are classes with `modifies` clauses:
  - the middleware stacks;
  - the connector;
  - the OAuth2 adapter;
  - the `URL` being built;
  - the client objects that receive bound methods.
- Each state-changing method is proved equal to a specification function
  on the old state. The request cycle uses `Connectors.RequestSpec`.
- The properties the source promises are proved about those functions:
  - header precedence;
  - query encoding;
  - JSON round trip of bodies;
  - tap nesting;
  - map roll-up as a pipe;
  - guard partitions;
  - adapter selection;
  - the OAuth2 single-flight token request.

The standards involved are cited by name:
- the JSON text that `JSON.stringify` writes and its parse (RFC 8259);
- the base64 alphabet and padding of `btoa` (RFC 4648 section 4);
- the Basic credentials `user-id ":" password` (RFC 7617 section 2);
- the `Bearer` header (RFC 6750 section 2.1).

## Model

| member | source | states |
|---|---|---|
| Functional.PipeAppend | src/utils/functional.ts:11-13 | piping `f + g` is piping `f` and then `g` |
| Functional.PipeSnoc | src/utils/functional.ts:11-13 | a function added at the end of a pipe is applied last |
| Functional.ComposeIsReversedPipe | src/utils/functional.ts:47-49 | `compose(...fns)` equals `pipe` of the reversed list, for every argument |
| Functional.EmptyIsIdentity | src/utils/functional.ts:59-61 | an empty pipe and an empty compose are `identity` |
| Functional.IdentityNeutral | src/utils/functional.ts:59-61 | inserting `identity` anywhere in a pipe changes nothing |
| Functional.DocumentedExamples | src/utils/functional.ts:11-49 | the documented examples: `pipe(x+1, x*2)(2)` and `compose(x*2, x+1)(2)` are both 6 |
| Functional.Reverse | src/utils/functional.ts:47-49 | the reversal compose applies: same length, item i is item n-1-i |
| Url.NormalizeHostname | src/utils/url.ts:8-10 | the result ends in "/", extends the hostname by at most one character, and is the hostname itself when it already ends in "/" |
| Url.NormalizeHostnameIdempotent | src/utils/url.ts:8-10 | normalising twice is normalising once |
| Url.UrlObject.Append | src/utils/url.ts:26 | `searchParams.append` adds the pair at the end of the query and changes nothing else |
| Url.FirstNil | src/utils/url.ts:26 | the first null or undefined array item, if any; every item before it is present |
| Url.ArrayAppended | src/utils/url.ts:25-26 | an array throws exactly when one of its items is null or undefined; otherwise one pair per item |
| Url.AppendArray | src/utils/url.ts:25-26 | the `forEach` loop appends `key[i]` pairs up to the first nil item, then reports that item's error |
| Url.FormatSearchParamPhp | src/utils/url.ts:20-32 | arrays as `key[i]`, booleans as "1"/"0", other values by `toString`, and the TypeError for null or undefined |
| Url.FirstNilAt | src/utils/url.ts:25-26 | the first nil item is found at its own position |
| Url.AppendAllStep | src/connectors/base.ts:146-160 | one more entry of the loop adds that entry's pairs and error |
| Url.AppendAllStops | src/connectors/base.ts:146-160 | once an entry throws, the later entries add nothing |
| Url.AppendAllError | src/connectors/base.ts:146-160 | the loop throws exactly when some entry throws, and its error is one of theirs |
| Url.PhpArrayForm | src/utils/url.ts:25-26 | an array without nil items gives exactly the pairs `key[j]` = `items[j].toString()` |
| UrlSearchParams.AppendParamsDelimited | src/utils/url-search-params.ts:12-23 | the query gains the delimited pairs of the own entries, in order |
| UrlSearchParams.DelimitedConcat | src/utils/url-search-params.ts:12-23 | encoding two records one after the other is encoding their concatenation |
| UrlSearchParams.DelimitedSingle | src/utils/url-search-params.ts:16-21 | a nil value is skipped; any other value becomes one pair with its `toString` |
| UrlSearchParams.DelimitedAllPresent | src/utils/url-search-params.ts:12-23 | without nil values, one pair per entry, key and `toString` value |
| UrlSearchParams.AppendEntryIndexed | src/utils/url-search-params.ts:42-60 | one iteration appends the pairs of that entry and reports its error |
| UrlSearchParams.AppendParamsIndexed | src/utils/url-search-params.ts:38-61 | the query gains the indexed pairs up to the first entry that throws, and the method returns that entry's error |
| UrlSearchParams.IndexedSkipsNil | src/utils/url-search-params.ts:42-45 | a null or undefined value adds nothing |
| UrlSearchParams.IndexedAgreesWithPhp | src/utils/url-search-params.ts:47-58 | for a present value, the indexed pairs equal the PHP pairs, and one throws exactly when the other does |
| UrlSearchParams.IndexedIsDelimitedOnScalars | src/utils/url-search-params.ts:38-61 | without arrays or booleans, indexed and delimited encoding agree |
| UrlSearchParams.IndexedThrows | src/utils/url-search-params.ts:47-54 | the encoder throws exactly when an array holds a nil item, with the "Invalid array item type" message |
| Middleware.Add | src/middleware/middleware-stack.ts:38 | `Set.add`: the item is in the result, and is appended only if it was absent |
| Middleware.Without | src/middleware/middleware-stack.ts:40 | `Set.delete`: the item is gone and every other item stays |
| Middleware.AddDistinct | src/middleware/middleware-stack.ts:14-18 | adding keeps the set free of duplicates |
| Middleware.WithoutDistinct | src/middleware/middleware-stack.ts:14-18 | deleting keeps the set free of duplicates |
| Middleware.WithoutAdd | src/middleware/middleware-stack.ts:38-40 | calling the remover after adding a new function restores the set |
| Middleware.WithoutConcat | src/middleware/middleware-stack.ts:40 | deleting distributes over concatenation |
| Middleware.WithoutAbsent | src/middleware/middleware-stack.ts:40 | deleting an absent function changes nothing |
| Middleware.MiddlewareStack.constructor | src/middleware/middleware-stack.ts:14-18 | all four sets start empty |
| Middleware.MiddlewareStack.TapRequest | src/middleware/middleware-stack.ts:33-41 | `tap("request", fn)` adds fn to the request taps only, and returns the remover for it |
| Middleware.MiddlewareStack.TapResponse | src/middleware/middleware-stack.ts:33-41 | `tap("response", fn)` adds fn to the response taps only, and returns the remover for it |
| Middleware.MiddlewareStack.PushRequest | src/middleware/middleware-stack.ts:87-98 | `push("request", fn)` adds fn to the request maps only, and returns the remover for it |
| Middleware.MiddlewareStack.PushResponse | src/middleware/middleware-stack.ts:87-98 | `push("response", fn)` adds fn to the response maps only, and returns the remover for it |
| Middleware.MiddlewareStack.Remove | src/middleware/middleware-stack.ts:40 | a remover deletes its function from its own set and reports whether it was there |
| Middleware.LastSkipper | src/middleware/middleware-stack.ts:54-58 | the highest tap that does not call `next`: every tap after it does |
| Middleware.ChainClosedForm | src/middleware/middleware-stack.ts:47-65 | the nested taps run as befores (last tap first) and afters; a tap that skips `next` cuts off the inner chain, and the step counter is the number of the tap that failed |
| Middleware.TapOrderExample | src/middleware/middleware-stack.ts:47-65 | three taps that log after `next` log in registration order |
| Middleware.MiddlewareStack.ApplyRequestTap | src/middleware/middleware-stack.ts:47-65 | the events of the nested chain, and the "Request tap N failed to call next()" error exactly when the chain was cut |
| Middleware.MiddlewareStack.ApplyResponseTap | src/middleware/middleware-stack.ts:71-75 | each response tap runs once, in insertion order |
| Middleware.MiddlewareStack.ApplyRequestMap | src/middleware/middleware-stack.ts:105-113 | the roll-up of request maps is `pipe` of their functions, in insertion order |
| Middleware.MapFunctions | src/middleware/middleware-stack.ts:105-113 | the function of every request map, in set order |
| Middleware.RequestRollupIsPipe | src/middleware/middleware-stack.ts:105-113 | the nested reduce is the pipe of the maps, first map first |
| Middleware.RequestRollupPush | src/middleware/middleware-stack.ts:95-113 | a newly pushed request map is applied to the result of the existing ones |
| Middleware.ResponseRollupPush | src/middleware/middleware-stack.ts:95-127 | a newly pushed response map is applied last, with the same request |
| Middleware.ResponseTapAdd | src/middleware/middleware-stack.ts:38-75 | a newly added response tap runs after the existing ones |
| CoreMiddleware.MiddlewareStack.constructor | src/core/middleware-stack.ts:68-70 | the stack starts empty |
| CoreMiddleware.MiddlewareStack.Middleware | src/core/middleware-stack.ts:72-74 | the stored functions in insertion order |
| CoreMiddleware.MiddlewareStack.Has | src/core/middleware-stack.ts:81-83 | true exactly when the key is stored |
| CoreMiddleware.MiddlewareStack.GetMiddleware | src/core/middleware-stack.ts:90-92 | the function stored under the key, or none when the key is absent |
| CoreMiddleware.MiddlewareStack.Use | src/core/middleware-stack.ts:100-106 | the key returned is the given name, or "maingo-middleware-key-" + the size before the call; it is bound to fn, every other key keeps its function, and the key is appended only if new |
| CoreMiddleware.MiddlewareStack.Remove | src/core/middleware-stack.ts:112-114 | the key is gone, the other entries stay, and the result says whether it was there |
| CoreMiddleware.GetEntry | src/core/middleware-stack.ts:90-92 | a `get` hit is an entry of the map, and every entry is found by its key |
| CoreMiddleware.ReplaceInPlace | src/core/middleware-stack.ts:100-106 | `Map.set` on an existing key replaces the value in place |
| CoreMiddleware.RemoveKeepsOrder | src/core/middleware-stack.ts:112-114 | `Map.delete` keeps the order of the other entries |
| CoreMiddleware.AutoKeyCollision | src/core/middleware-stack.ts:101 | as written: use, use, remove the first, use: the third function gets the second one's automatic key and replaces it |
| CoreMiddleware.FreshKey | src/core/middleware-stack.ts:101 | corrected: an automatic key that no stored entry has |
| CoreMiddleware.UseFreshKeyAppends | src/core/middleware-stack.ts:100-106 | corrected: a fresh automatic key always appends and never replaces |
| CoreMiddleware.SymBound | src/core/middleware-stack.ts:101 | a bound above every fresh key in use |
| CoreMiddleware.SetAbsent | src/core/middleware-stack.ts:104 | `Map.set` on an absent key appends |
| Config.IsAuthTypeSpec | src/auth/types.ts:19-31 | `isAuthType` accepts exactly "none", "basic", "bearer" and "oauth2" |
| Config.IsConfigSpec | src/config.ts:37-49 | `isConfig` in terms of the connector, hostname and auth fields |
| Config.IsConfigNeedsAuth | src/config.ts:37-49 | a missing or undefined auth, or a lower-case "rest", fails `isConfig` |
| Config.IsConfigIgnoresOtherFields | src/config.ts:37-49 | fields other than connector, hostname and auth do not change the verdict |
| Config.ConnectorGuardsPartition | src/connectors/rest.ts:17-19 | a configuration passes `isConfig` exactly when it passes one of the two connector guards, and never both |
| Config.WithDefaults | src/client.ts:26-27 | `auth ??=` and `searchParamFormat ??= "delimited"` set only those two fields, and only when nil |
| OAuth.IsOAuth2ConfigStrict | src/auth/oauth2.ts:50-72 | numeric client id or secret, or a present but undefined scope, fails the guard |
| OAuth.IsOAuth2ConfigIgnoresAuth | src/auth/oauth2.ts:50-72 | the guard does not read `auth` |
| OAuth.SameFieldsSameVerdict | src/auth/oauth2.ts:50-72 | configurations that differ only in `auth` get the same verdict |
| OAuth.ExpiryMonotone | src/auth/oauth2.ts:131-137 | an expired token stays expired as time goes on; a token with a positive expiry is fresh exactly before it |
| OAuth.StoredExpiry | src/auth/oauth2.ts:188 | `expirationTimestamp || 0` |
| OAuth.CallbackFor | src/auth/oauth2.ts:182 | the refresh callback exactly when a non-empty refresh token is held |
| OAuth.WithAuthorization | src/auth/oauth2.ts:154-155 | the headers get `authorization: Bearer <token>` and nothing else changes |
| OAuth.OAuth2.constructor | src/auth/oauth2.ts:117-123 | a configuration the guard accepts gives an adapter with no token and no request in flight |
| OAuth.NewOAuth2 | src/auth/oauth2.ts:117-123 | the constructor throws "Invalid OAuth2Config provided" exactly when the guard refuses the configuration, and otherwise gives an idle adapter |
| OAuth.OAuth2.GetAccessToken | src/auth/oauth2.ts:177-199 | a token request starts only when none is in flight; a running one is reused; the callback follows the refresh token |
| OAuth.OAuth2.Succeed | src/auth/oauth2.ts:185-195 | the token, refresh token and expiry come from the response, and the adapter is idle again |
| OAuth.OAuth2.Fail | src/auth/oauth2.ts:192-195 | a rejected token request leaves the tokens alone and makes the adapter idle (what the waiting request does is `OAuth.OAuth2.Settle`) |
| OAuth.OAuth2.Authenticate | src/auth/oauth2.ts:147-160 | while authorizing the request passes unchanged; with a fresh token it gets the header; with an expired token it waits on the (single) token request |
| OAuth.OAuth2.Resume | src/auth/oauth2.ts:154-155 | after a successful wait the request's `authorization` header is "Bearer " + the stored token, and every other header and field is unchanged |
| OAuth.OAuth2.Settle | src/auth/oauth2.ts:151-158 | when the awaited token request resolves, the new tokens are stored and the request goes on with the new token's header; when it rejects, the tokens stay, the request rejects with the same reason and `next` is never called; either way the adapter is idle again |
| OAuth.RejectedTokenRetries | src/auth/oauth2.ts:147-199 | a rejected token request makes the waiting request reject without a header; the token is still missing, so the next request starts a new access-token request |
| OAuth.NoExpiryMeansExpired | src/auth/oauth2.ts:131-137 | a token response without an expiry leaves the token expired at once |
| OAuth.SingleFlight | src/auth/oauth2.ts:147-199 | three requests: the first starts the access-token request, the second (while authorizing) passes unchanged, the third after success carries the new token |
| Auth.AuthGuardsExclusive | src/auth/index.ts:14-19 | the none, basic and bearer guards exclude one another; other auth values pass none |
| Auth.GuardAsymmetry | src/auth/bearer.ts:12-22 | the bearer guard accepts a bare object; the basic guard wants a full configuration |
| Auth.AdapterKindSpec | src/auth/index.ts:14-19 | each adapter is chosen exactly when its guard accepts, OAuth2 only when the others refuse |
| Auth.BasicWithoutPassword | src/auth/basic.ts:14-25 | auth "basic" without `userPass` gives no basic adapter |
| Auth.BasicCredentials | src/auth/basic.ts:37 | `btoa` of "userId:userPass" fails exactly when a character is above U+00FF |
| Auth.CreateAuthAdapter | src/auth/index.ts:14-19 | the adapter its guard selects; the Latin1 error from the basic constructor; none when no guard accepts |
| Auth.WithAuthorizationHeader | src/auth/basic.ts:44 | `Authorization` is set; other headers, body and params stay |
| Auth.GetAuthentication | src/auth/basic.ts:40-47 | a new request map whose function is the adapter's header map |
| Auth.NoAuthPassesThrough | src/auth/no-auth.ts:26-28 | the no-auth map returns its input |
| Auth.BearerHeader | src/auth/bearer.ts:33-40 | the map sets `Authorization: Bearer <token>` and keeps the other headers, body and params |
| Auth.BasicHeader | src/auth/basic.ts:34-47 | the basic map sets `Authorization: Basic <enc>` and keeps the other headers; `enc` is the base64 of the credentials, of base64 length, and decodes back to them |
| Auth.BasicCredentialsSplit | src/auth/basic.ts:37 | decoding the stored credentials and splitting at the first colon gives back userId and userPass when the id has no colon |
| Auth.FirstColon | src/auth/basic.ts:37 | the first colon of the decoded credentials, if any |
| Auth.SplitAtFirstColon | src/auth/basic.ts:37 | splitting "id:pass" at the first colon gives back id and pass |
| Base64.DecodeEncode | src/auth/basic.ts:37 | decoding the base64 text gives back the bytes |
| Base64.EncodeLength | src/auth/basic.ts:37 | the text has 4 * ceil(n / 3) characters |
| Base64.EncodeAlphabet | src/auth/basic.ts:37 | every character is in the alphabet or is "=" |
| Base64.Btoa | src/auth/basic.ts:37 | `btoa` throws exactly on a character above U+00FF |
| Base64.BtoaLength | src/auth/basic.ts:37 | when `btoa` succeeds its text has 4 * ceil(n / 3) characters for n input characters |
| Base64.AtobBtoa | src/auth/basic.ts:37 | `atob(btoa(s))` read as Latin-1 is s |
| Json.StringifyRoundTrip | src/connectors/base.ts:172-174 | parsing `JSON.stringify(v)` gives v without its undefined properties, and v itself when it has none |
| Json.ValueRoundTrip | src/connectors/base.ts:174 | a JSON value followed by any text that cannot continue it parses back |
| Json.PruneSpec | src/connectors/base.ts:174 | dropping undefined properties does not change the JSON text |
| Http.NormalizeHeadersGet | src/connectors/base.ts:200-203 | `new Headers`: a name's value is its values joined with ", " in order |
| Http.NormalizeHeadersNames | src/connectors/base.ts:200-203 | `new Headers` gives distinct lower-case names |
| Http.AppendHeaderGet | src/connectors/base.ts:201 | appending a header adds ", value" to an existing name |
| Http.NewRequest | src/connectors/base.ts:217-221 | `new Request` refuses CONNECT/TRACE/TRACK and a body on GET or HEAD; otherwise the method and headers are normalised |
| Http.MethodNormalization | src/connectors/base.ts:217-221 | the verbs are upper-cased except "patch"; connect and trace are refused |
| Http.BodylessMethod | src/connectors/base.ts:217-221 | only get and head normalise to a method that refuses a body |
| Connectors.HeaderPrecedence | src/connectors/base.ts:62-68 | permanent beats temporary beats persistent, and the merge has distinct names |
| Connectors.Connector.Headers | src/connectors/base.ts:62-68 | the `headers` getter resolves each name by that precedence |
| Connectors.TempHeadersOf | src/connectors/base.ts:200-206 | temporary headers are those of `new Headers`; without headers they are empty |
| Connectors.StripSlash | src/connectors/base.ts:197 | one leading slash is removed, and nothing else changes |
| Connectors.StripSlashOnce | src/connectors/base.ts:197 | only the first of two leading slashes goes |
| Connectors.Connector.SetMiddleware | src/connectors/base.ts:53-55 | the stack is replaced and the headers and request record stay |
| Connectors.Connector.SetHeaders | src/connectors/base.ts:74-76 | the persistent headers are replaced wholesale |
| Connectors.Connector.SetHeader | src/connectors/base.ts:100-104 | one persistent header is set to the value's string, the others stay |
| Connectors.Connector.FormatSearchParam | src/connectors/base.ts:112-126 | "delimited" appends `toString`, "php" the PHP pairs, any other format nothing |
| Connectors.Connector.AppendParams | src/connectors/base.ts:145-161 | the loop appends each entry's pairs in order and stops at the first error, a nil value giving the "Invalid URL Search Param value type" error |
| Connectors.Connector.BuildUrl | src/connectors/base.ts:135-164 | the URL resolved against the temporary hostname or the configured one, checked, with the parameters appended |
| Connectors.BuiltUrlDelimited | src/connectors/base.ts:135-164 | in "delimited" format the URL builds exactly when no value is nil, with one pair per entry after the existing query |
| Connectors.DelimitedAll | src/connectors/base.ts:145-161 | without nil values, the loop adds one `toString` pair per entry |
| Connectors.BuiltUrlUnknownFormat | src/connectors/base.ts:117-125 | a format other than "delimited" or "php" leaves the query as resolved |
| Connectors.UnknownFormatAppendsNothing | src/connectors/base.ts:117-125 | an unknown format appends no pair |
| Connectors.BuiltUrlInvalid | src/connectors/base.ts:141-143 | a URL `isValidUrl` refuses gives "Invalid URL: " and the URL |
| Connectors.BuildBodyJson | src/connectors/base.ts:172-178 | a JSON array or object is sent as JSON text that parses back to it; null and undefined send no body |
| Connectors.BuildBodyStable | src/connectors/base.ts:172-178 | building a built body again gives the same body |
| Connectors.PreRequestOutcome | src/connectors/base.ts:189-222 | `preRequest` stores the new request exactly when it builds, keeps the old one and reports the error otherwise, and sets the temporary headers |
| Connectors.Connector.PreRequest | src/connectors/base.ts:189-222 | the new state and error are those of the pre-request specification |
| Connectors.Connector.PostRequest | src/connectors/base.ts:256-277 | the new state, error and tap log are those of the post-request specification |
| Connectors.Connector.SendRequest | src/connectors/base.ts:233-250 | the new state, result and tap log are those of the corrected request cycle |
| Connectors.RequestResult | src/connectors/base.ts:256-277 | a successful request clears the temporary hostname and returns the response maps applied to the fetched response |
| Connectors.RequestAgreesOnSuccess | src/connectors/base.ts:233-250 | when the fetch succeeds, the as-written cycle and the corrected one agree |
| Connectors.StaleResponseAfterFailedFetch | src/connectors/base.ts:242-249 | as written, a failed fetch returns the previous response; corrected, it returns the error |
| Connectors.Connector.Refire | src/connectors/base.ts:279-293 | the last request's method, endpoint, body, query and temporary headers are replayed through the request cycle; without a last request it throws |
| Connectors.RefireDropsQuery | src/connectors/base.ts:290 | as written, the iterator passed as params has no entries, so the query is lost |
| Connectors.RefireKeepsQuery | src/connectors/base.ts:286-292 | corrected, the replayed query is the last request's query, when its names are distinct and the format is "delimited" or "php" |
| Connectors.Bind | src/connectors/rest.ts:43-49 | the named properties point to the connector and the others stay |
| Connectors.Connector.constructor | src/connectors/base.ts:20-34 | a new connector has no headers, no hostname override and no last request |
| Rest.Perform | src/connectors/rest.ts:66-230 | each verb is the request cycle called with its own name, and with an undefined body for head, get and options |
| Rest.InitializeClient | src/connectors/rest.ts:38-51 | the seven verbs are bound onto the client, which is returned |
| Rest.RestNamesAreVerbNames | src/connectors/rest.ts:43-49 | the bound names are the verbs' own names; connect and trace are not bound |
| Rest.BodylessVerbs | src/connectors/rest.ts:66-101 | head, get and options send no body, with the upper-cased method, exactly when the URL builds |
| Rest.BodyVerbsSendJson | src/connectors/rest.ts:117-205 | post, patch, put and delete send a JSON body as text that parses back to it |
| Rest.MappedBodyOnGetFails | src/connectors/rest.ts:66-101 | a request map that gives a get or head request a body makes the request throw |
| Rest.BodyOnGetOrHeadFails | src/connectors/base.ts:217-221 | any call whose method normalises to GET or HEAD throws once a request map gives it a body and its URL builds |
| Graphql.Query | src/connectors/graphql.ts:54-64 | `query` is the request cycle with the method "post" |
| Graphql.InitializeClient | src/connectors/graphql.ts:38-44 | `query` is bound onto the client, which is returned |
| Graphql.QueryIsPost | src/connectors/graphql.ts:54-64 | `query` makes the same call as the REST `post` and goes out as "POST" |
| ConnectorFactory.ConnectorKindSpec | src/connectors/index.ts:11-14 | a connector is made exactly for configurations `isConfig` accepts, of the class the connector field names |
| ConnectorFactory.CreateConnector | src/connectors/index.ts:11-14 | a new connector of that class, with an empty initial state, or none |
| Client.MissingAuthMeansNone | src/client.ts:26-32 | without `auth` the no-auth adapter is used, and the client builds exactly when the connector and hostname are valid |
| Client.NoneAuthSelected | src/auth/index.ts:15 | auth "none" selects the pass-through adapter, whose construction cannot fail |
| Client.BuildOrder | src/client.ts:31-32 | a client that builds has a valid configuration; an adapter failure is reported before the connector is looked at |
| Client.UnknownAuthType | src/client.ts:43-62 | an unknown auth type fails on the adapter, unless the OAuth2 guard accepts, in which case it fails on the connector |
| Client.BuildAuthAdapter | src/client.ts:43-51 | the adapter, or the error its constructor throws, or the "Failed to generate an auth adapter" error |
| Client.BuildConnectorAdapter | src/client.ts:54-62 | the connector, or the "Failed to generate a connector" error |
| Client.Assemble | src/client.ts:34-39 | the client and its connector share one new, empty middleware stack |
| Client.NewClient | src/client.ts:25-40 | the constructor throws exactly the first failure, and otherwise gives a client over a new connector with an empty stack |
| Client.Client.constructor | src/client.ts:25-40 | the client holds the configuration, adapter, connector and stack it was built with |
| Client.Client.SetHeaders | src/client.ts:132-134 | the connector's persistent headers are replaced |
| Client.Client.SetHeader | src/client.ts:39 | the connector's `setHeader` |
| Client.Client.TapRequest | src/client.ts:37 | the tap lands in the stack the connector runs |
| Client.Client.TapResponse | src/client.ts:37 | the tap lands in the stack the connector runs |
| Client.Client.PushRequest | src/client.ts:38 | the map lands in the stack the connector runs |
| Client.Client.PushResponse | src/client.ts:38 | the map lands in the stack the connector runs |
| Client.Client.Initialize | src/client.ts:136-138 | the connector binds its verbs onto this client, which is returned |
| CoreGraphql.QueryRequest | src/core/connectors/graphql.ts:27-29 | the request gets method "post" and the configured endpoint; its other fields stay |
| CoreGraphql.QueryIgnoresMethodAndEndpoint | src/core/connectors/graphql.ts:27-29 | the caller's method and endpoint never reach the request; a missing endpoint becomes undefined |
| CoreGraphql.GraphqlConnector.Init | src/core/connectors/graphql.ts:31-35 | `init` adds `query` to the client object |
| CoreClient.GetAuthSpec | src/core/auth/index.ts:56-68 | no adapter for undefined, "none" or an unlisted type; one adapter per listed type |
| CoreClient.GetAuthReadsOnlyType | src/core/auth/index.ts:56-68 | only the `type` field decides |
| CoreClient.CoreConfig | src/core/client.ts:26-27 | `auth ??= {type: "none"}`: a missing auth gives no adapter, a present one keeps its verdict |
| CoreClient.Client.constructor | src/core/client.ts:23-34 | the defaults are filled in, the adapter is chosen, and the stack starts empty |
| CoreClient.Client.HasMiddleware | src/core/client.ts:41-42 | `hasMiddleware` is the stack's `has` |
| CoreClient.Client.GetMiddleware | src/core/client.ts:48-49 | `getMiddleware` is the stack's `get` |
| CoreClient.Client.UseMiddleware | src/core/client.ts:56-57 | `useMiddleware` is the stack's `use` |
| CoreClient.Client.RemoveMiddleware | src/core/client.ts:62-63 | `removeMiddleware` is the stack's `remove` |
| CoreClient.Client.Init | src/core/client.ts:70-78 | the auth middleware is stored under "auth" exactly when there is an adapter; the `middleware` snapshot stays empty; a Graphql connector adds `query` |

## Left out

- Fetch and the network: the outcome of each fetch is a parameter (`Connectors.FetchResult`). Promises and `await` become a fixed sequence of steps.
- `new URL` resolution and `isValidUrl` (src/utils/url.ts:39-50) are parameters of the connector. The regular expression and WHATWG URL parsing are not modelled.
- Percent-encoding of the query string is not modelled; the query is kept as a list of pairs.
- Requests and responses are values, so `clone()` is the identity. Bodies are values, not streams.
- `console.error` in `request` produces no observable state and is left out.
- Numbers are integers; floating point is not modelled. `Date.now()` is the parameter `now`.
- `curry` (src/utils/functional.ts:28-35) is not modelled: its arity comes from `Function.length`, which the model has no counterpart for.
- The order of `new Headers` entries (it sorts names) is not modelled; names, values and their combination are.
- JSON text: surrogate pairs, number formatting beyond integers, and the key order of objects with integer-like keys are not modelled.
- Request maps are pure functions of the components they receive. A map that does not call `next` is the same as a constant function.
- The `guardis` library is modelled only through `has`, `Is.String`, `Is.Function`, `Is.JsonArray` and `Is.JsonObject`.
- Middleware.MiddlewareStack.ApplyRequestTap: taps are `(callsNext, before, after)` event logs. A tap that calls `next` more than once, or asynchronously, is not modelled.
- Client.Client.TapRequest: the `tap` overload that takes the type as a string is split into one method per type. `pushMiddleware` is split the same way.
- Client.Client.SetHeader: stated through the connector's state, as it is the connector's own bound method.
- The first-generation `Client` never puts its adapter's request map on the stack. The model keeps that: no auth header is sent by the first-generation client.
- `config.headers` is never read by the first-generation connector, and the model does not read it.
- The connector's permanent headers are never assigned in the source, so they stay empty. Its temporary hostname is only ever cleared. Both are modelled as fields.
- `checkAuthentication` and the `AuthBase` class in src/auth/base.ts hold no logic beyond the constructor.
- The getters `config`, `auth`, `connector`, `lastRequest` and `lastResponse` are fields of the model.
- `createClient` and the library wrappers in src/library.ts and src/new-library.ts only call the constructors.
- These second-generation files are not part of this model:
  - `getConnector` (src/core/connectors/index.ts): the core `Client` takes its connector as a constructor argument;
  - the core REST connector;
  - the core `ConnectorBase.request`;
  - the core basic, bearer and OAuth2 adapter files: the core adapters are named by `CoreClient.CoreAuth`, and the "auth" middleware is an opaque handler.
- CoreClient.Client.Init: states only that the "auth" entry exists, not which handler it holds, since the core adapters are not modelled. With a REST connector it says nothing about the client object's properties, since the core REST connector's `init` is not modelled.
- Connectors.Connector.Refire: uses the corrected call, which passes the query as an object. The as-written call is `Connectors.RefireCallAsWritten` (see Findings).
- Connectors.RefireKeepsQuery: holds only for distinct query names and the "delimited" and "php" formats. `Object.fromEntries` keeps one pair per name, so a query such as `tag=a&tag=b` (or an endpoint's own `?page=1` next to a `page` parameter) comes back shorter. Under any other format nothing is appended, and the replayed endpoint is cut to protocol, host and path (src/connectors/base.ts:283), so the query is lost.
- Http.NewRequest and Connectors.TempHeadersOf: the TypeErrors of the Fetch standard for headers are not modelled. `new Headers` (src/connectors/base.ts:201) and `new Request` (src/connectors/base.ts:217-221) throw on a header name that is not a token, or on a value with CR, LF, NUL or a character above U+00FF, for example after `setHeader("bad name", …)`. The model builds the request in those cases. The separate iteration of `set-cookie` values by `Headers.entries()` is not modelled either: the model keeps the ", "-joined value, where `Object.fromEntries` keeps the last one.
- Connectors.Connector.Refire: the source replays `lastRequest.body`, which is the sent request's `ReadableStream` (or null), not its text. The model hands the stored body value back to `buildBody` (`Connectors.BodyValue`), so it does not capture a stream that has already been read.
- Config.WithDefaults and Client.NewClient: the source writes the two defaults into the caller's own configuration object and then freezes it (src/client.ts:26-29). The model builds a new value, so it does not capture that the caller's object is changed and made read-only.
- Connectors.Connector.SetHeaders, Connectors.Connector.SetHeader, Client.Client.SetHeaders and Client.Client.SetHeader: the source keeps the caller's headers object by reference (src/connectors/base.ts:74-76), and `setHeader` writes into that object (src/connectors/base.ts:103). The model copies the record, so it does not capture that `setHeader` changes the caller's object or that the caller's later edits change what is sent.
- Connectors.Connector.SendRequest: uses the corrected cycle, where a failed fetch is returned as the error. The as-written cycle is `Connectors.RequestAsWritten` (see Findings).
- Tests that target APIs outside these files are not modelled:
  - `buildBody(undefined)` returning undefined;
  - a bearer constructor that throws;
  - an "Authorization" header from the core OAuth2 adapter;
  - `concatSearchParams`.

## Findings

| source | as written | input that shows it | evidently intended | confidence | as-written member | corrected member |
|---|---|---|---|---|---|---|
| src/core/middleware-stack.ts:101 | an unnamed middleware gets the key "maingo-middleware-key-" + the current size | `use(a)`, `use(b)`, `remove("maingo-middleware-key-0")`, `use(c)`: c gets "maingo-middleware-key-1" and replaces b | every unnamed middleware is added under a key no other entry has | not executed | CoreMiddleware.AutoKeyCollision | CoreMiddleware.UseFreshKeyAppends |
| src/connectors/base.ts:290 | `refire` passes `url.searchParams.entries()`, an iterator, as the params; `Object.entries` of an iterator is empty | a last request to `/cats?page=2`: the replayed request has no query | the replayed request carries the last request's query (proved when its names are distinct and the format is "delimited" or "php") | not executed | Connectors.RefireDropsQuery | Connectors.RefireKeepsQuery |
| src/connectors/base.ts:242-249 | a rejected fetch is caught and logged before `postRequest` sees it, and `request` returns the stored response | one successful request, then a request whose fetch rejects: the second call resolves to the first response | a failed fetch clears the stored response and the request rejects with the error | not executed | Connectors.StaleResponseAfterFailedFetch | Connectors.Connector.SendRequest |
