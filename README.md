# roproxy-lite: a Dafny model of the request-forwarding pipeline

roproxy-lite is a small reverse proxy. It handles each inbound request as follows:

1. **Gate.** When the `KEY` environment variable is set, the request's `PROXYKEY` header must equal it. Otherwise the proxy answers 407.
2. **Path check.** The proxy drops the first character of the request URI and splits the rest once at `/`. A URI with no further slash gets 400.
3. **Outbound request.** The request URI given to the HTTP client is the string `https://{subdomain}.roblox.com/{rest}`. The inbound method and body are copied unchanged. The inbound headers are copied with last-write-wins `Set`. `User-Agent` and `Accept` are then forced, and `Roblox-Id` is deleted.
4. **Bounded retry.** The proxy retries only on transport errors. It gives up with a synthesized 500 once the attempt number exceeds `RETRIES`.
5. **Mirror.** The final response's status, body and headers are copied back to the caller.

The model has four modules:

- `Wrappers` (`wrappers.dfy`): `Option`.
- `Headers` (`headers.dfy`): header blocks as sequences of fields. It has pure `Lookup`/`SetField`/`DelField`/`SetAll`, their lemmas, and a `Header` class for the blocks that the handler mutates in place.
- `Route` (`route.dfy`): the one-time split of the URI, the URL template and its inverse on strings.
- `Proxy` (`proxy.dfy`): the gate, the outbound request, the recursive retry `Forward` and the whole decision `Serve`. The handler is the class `RequestCtx`. Its `Handle` method fills in the caller's response in place.

The HTTP client is an oracle: `oracle[i]` is what the client reports for attempt `i + 1`, either `TransportError` or `Delivered(response)`. The configuration is a parameter, `Config(key, retries)`:

- `key` is `None` when `KEY` is absent.
- `retries` is what `strconv.Atoi` gives for `RETRIES`: 0 when it is unset or not a number, and the saturated int bound when it is a number out of range.

Where a natural reading differs from the code, the model follows the code:

- **Attempt count.** The attempt number starts at 1 and the proxy stops when it exceeds `RETRIES`. So the proxy makes exactly `RETRIES` attempts, not one attempt plus `RETRIES` retries as one might expect, and none at all when `RETRIES <= 0`.
- **Empty `KEY`.** A `KEY` that is set to `""` still enforces the gate, so only a missing or empty `PROXYKEY` passes. One might expect an empty secret to turn the gate off.
- **Empty segments.** The path check counts parts only, so `//x` and `/a/` are forwarded with an empty subdomain or an empty path. One might expect both parts to be required non-empty.

## Model

| member | source | states |
|---|---|---|
| `Headers.Lookup` | main.go:38 | A value stored under the name, absent exactly when no field has that name. |
| `Headers.LookupFirst` | main.go:38 | `Lookup` gives the value of the first field with the name, the one with no earlier field of that name. |
| `Headers.Peek` | main.go:38 | A missing header reads as `""`. A present header reads as its first value, which may itself be `""`. |
| `Headers.LastValueLast` | main.go:81-83 | The reference for last-write-wins copying: the value of the last field with the name, the one with no later field of that name. |
| `Headers.SetField` | main.go:82 | After `Set(k, v)`, looking up `k` gives `v`, every other name keeps its value, and no other field appears. |
| `Headers.SetFieldDistinct` | main.go:82 | `Set` never creates a second field with the same name. |
| `Headers.DelField` | main.go:88 | After `Del(k)`, no field is named `k` and every other name keeps its value. |
| `Headers.DelFieldDistinct` | main.go:88 | `Del` keeps the names in a block distinct. |
| `Headers.SetAll` | main.go:81-83 | Copying fields one by one with `Set`: a copied name ends with its last copied value, and any other name keeps its earlier value. |
| `Headers.SetAllDistinct` | main.go:81-83 | A block built by copying with `Set` has distinct names. |
| `Headers.Header.Set` | main.go:86-87 | The in-place `Set`: the block becomes `SetField` of the old block and stays free of repeated names. |
| `Headers.Header.Del` | main.go:88 | The in-place `Del`: the block becomes `DelField` of the old block. |
| `Headers.Header.SetEach` | main.go:81-83 | The `VisitAll` loop that calls `Set` for each field: the block becomes `SetAll` of the old block and the visited fields. |
| `Route.IndexOf` | main.go:44 | The position of the first separator, or none exactly when there is no separator. |
| `Route.SplitOnce` | main.go:44 | Splitting once at the first `/` gives one part exactly when there is no `/`. Otherwise it gives two parts that join back to the input, and the first part has no `/`. |
| `Route.SplitOnceJoin` | main.go:44 | When `a` has no separator, `a + "/" + b` splits into exactly `a` and `b`. So the rest is kept verbatim, further slashes included. |
| `Route.ParseTarget` | main.go:44-49 | There is no target exactly when no `/` follows the first character. Otherwise the subdomain has no `/`, and subdomain + `/` + path is the URI without its first character. |
| `Route.ParseTargetJoin` | main.go:44-49 | Any first character, a slash-free subdomain, `/` and any path parse back to exactly that subdomain and path. |
| `Route.BuildURL` | main.go:75 | The URL string is `https://`, then the subdomain, then `.roblox.com/`, then the path unchanged; its length is theirs plus 20. |
| `Route.URLRoundTrip` | main.go:72-76 | The upstream URL string can be split back into the subdomain and path it was built from. |
| `Route.UpstreamOfURI` | main.go:72-76 | The upstream URL is `https://` + the URI's first segment + `.roblox.com/` + everything after that segment's slash, query string included. |
| `Route.ExampleUsers` | main.go:44-49 | `/users/v1/users/1` selects subdomain `users` and path `v1/users/1`. |
| `Route.ExampleUsersURL` | main.go:72-76 | The users target gives `https://users.roblox.com/v1/users/1`. |
| `Route.ExampleEmptySegments` | main.go:44-49 | `//x` and `/a/` pass the check, with an empty subdomain or an empty path. |
| `Route.ExampleNoSlash` | main.go:44-49 | `/badpath` has no target. |
| `Route.ExampleQueryInSubdomain` | main.go:44-49 | The first segment is not checked: `/evil.example?/x` selects subdomain `evil.example?` and path `x`. |
| `Route.ExampleQueryInSubdomainURL` | main.go:72-76 | That target gives the URL string `https://evil.example?.roblox.com/x`. |
| `Proxy.Admitted` | main.go:36-42 | An absent `KEY` admits every request. A `KEY` of `""` admits exactly the requests with no `PROXYKEY` or an empty one. Any other `KEY` admits exactly the requests whose first `PROXYKEY` equals it. |
| `Proxy.Outbound` | main.go:72-88 | The outbound request carries the inbound method and body and the built URL. Its headers are distinct, `User-Agent` and `Accept` have the fixed values, and `Roblox-Id` is absent. Every other name has its last inbound value, or is absent if it was absent inbound. |
| `Proxy.BuildRequest` | main.go:69-88 | Building the request step by step on a fresh header block gives exactly `Outbound`. |
| `Proxy.FirstDelivered` | main.go:91-96 | The first attempt index in a range that got a response, with every earlier index a transport error. |
| `Proxy.Forward` | main.go:61-98 | From attempt `a`, the number of requests sent is the position of the first delivered outcome, capped at `retries`. Every request sent is the same request. The result is that response, whatever its status, or the synthesized 500 when every allowed attempt failed. |
| `Proxy.Serve` | main.go:35-98 | The whole decision: at most `max(retries, 0)` requests are sent, only for an admitted request with a valid path, and each is the rewritten request. The answer is the 407, the 400, the 500 or a response the client delivered. |
| `Proxy.ServeAttempts` | main.go:51-98 | For an admitted request with a valid path, the proxy sends `min(first success + 1, retries)` requests, or 0 when `retries <= 0`, and returns the matching response or the 500. |
| `Proxy.ServeRejects` | main.go:36-42 | The answer is 407 with nothing sent exactly when `KEY` is set and `PROXYKEY` differs from it. |
| `Proxy.ServeBadPath` | main.go:44-49 | The answer is 400 with nothing sent exactly when the request is admitted and no `/` follows the URI's first character. |
| `Proxy.ServeSendsRewritten` | main.go:72-88 | Anything sent implies a parsed target. Every request sent is the rewritten request: same method and body, the built URL, forced `User-Agent` and `Accept`, and no `Roblox-Id`. |
| `Proxy.ServeExhausted` | main.go:61-67 | When every allowed attempt fails in transport, the answer is the 500 "Proxy failed to connect. Please try again." after exactly `max(retries, 0)` attempts. |
| `Proxy.ServeFirstResponse` | main.go:91-98 | The first attempt that gets a response, even 4xx or 5xx, ends the retry. The caller gets that response after `k + 1` attempts. |
| `Proxy.ExampleForward` | main.go:35-98 | `GET /users/v1/users/1` with no `KEY` sends one `GET` to `https://users.roblox.com/v1/users/1` and returns the upstream response. |
| `Proxy.ExampleExhausted` | main.go:61-95 | With `RETRIES=3` and three transport errors, the answer is 500 after three attempts. |
| `Proxy.ExampleMissingKey` | main.go:36-42 | With `KEY=secret` and no `PROXYKEY`, the answer is 407 and nothing is sent. |
| `Proxy.RequestCtx.Mirror` | main.go:54-58 | The caller's status and body become the response's. Its headers are `Set` one by one onto the caller's header block, last write wins. |
| `Proxy.RequestCtx.Handle` | main.go:35-59 | The handler leaves the caller's status, body and headers as `Serve` decides. 407 and 400 set the status and body only. The requests it sends are the ones `Serve` lists. |

## Left out

- Server and client setup: `main`, `ListenAndServe`, the client's `ReadTimeout` and `MaxIdleConnDuration`, and the `PORT` fallback (main.go:18-33). These are socket plumbing in a foreign library.
- Environment parsing (main.go:12-14, 36). `KEY` and `RETRIES` are taken already parsed, as `Config`. `TIMEOUT` only configures the client, which is not modelled.
- The network call `client.Do` (main.go:91). It is replaced by the outcome oracle. The oracle must list at least `retries` outcomes, one for each attempt the bound allows.
- Acquiring and releasing pooled request and response objects, and `defer`. This is memory management inside fasthttp.
- Concurrency between requests, and timeouts.
- fasthttp's header handling beyond plain set, delete and lookup:
  - Header names are compared exactly. Case normalisation is not modelled.
  - Special headers (`Host`, `Content-Type`, `Content-Length`, cookies and `Set-Cookie`) are treated like any other field.
  - Responses that the proxy makes itself carry no headers. fasthttp's default `Content-Type` is not modelled.
- An empty request URI would make the slice at main.go:44 panic. The model requires a URI of at least one character.
- Proxy.RequestCtx.Handle: builds the outbound request once and passes it to `Forward`. The source rebuilds it at every attempt from the unchanged inbound request. `BuildRequest` reads only that request, so every rebuild gives the same value.
- Bodies are byte sequences. The three fixed messages are converted from their ASCII text.
- URIs, header names and header values are Dafny strings and stand for byte strings, one character per byte. Go's `[1:]` at main.go:44 drops one byte, so a URI that starts with a multi-byte UTF-8 character is not covered.
- How the HTTP client reads the host out of the URL string is not modelled. The subdomain segment is not checked, so a `?` or `#` in it ends the host early under section 3.2 of RFC 3986: `/evil.example?/x` gives `https://evil.example?.roblox.com/x`, whose host under that reading is `evil.example`. The model proves facts about the URL string only.
