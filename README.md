# z/OSMF authentication plugin: session state machine

This project models the z/OSMF authentication plugin of the Zowe app server,
`lib/zosmfAuth.js`, and proves properties of the model in Dafny. The plugin
checks a user's credentials by sending an HTTP HEAD to a fixed z/OSMF URL. It
keeps the `LtpaToken2` cookie from the reply in the plugin's part of the
session. It authorizes later requests from that session state. It also copies
the stored cookie onto outbound proxied requests.

Files:

- `wrappers.dfy`: `Option`, used for JavaScript properties that may be absent.
- `js_strings.dfy`: the string operations the plugin uses, written out. These are `indexOf`, `split(';')[0]` and the decimal text of a status code.
- `set_cookie.dfy`: the scan of the `set-cookie` entries. It has a specification function, the loop as a method proved against that function, and the "last match wins" lemmas.
- `zosmf_auth.dfy`: the session fields (`SessionState` is a class with `authenticated`, `zosmfUsername` and `zosmfCookies`), `getStatus`, `authenticate`, `authorized` and `addProxyAuthorizations`.

`authenticate` takes the result of the z/OSMF call as an input (`Reply`). The
result is either a response (status code, status message and the optional
`set-cookie` array) or a rejected call carrying its error value. The state
change is given by the pure function `AfterAuthenticate`, and the imperative
`Authenticate` method is proved to produce exactly that state and result.

What the code does not do, and the model therefore does not do either:

- The code has no expiration timestamp, no TTL and no `expms`. `getStatus` evicts nothing and only reports the flag and the username.
- On success `authenticate` resolves `{success: true}` with no username and no remaining time.
- The code does not check for missing credentials. `request.body.username` is stored as it is, absent or not. So `authenticated` does not imply that a username is stored. Only the cookie is tied to the flag (`ZosmfAuth.Consistent`).
- There is no refresh operation in the code.

## Model

| member | source | states |
|---|---|---|
| `JsStrings.IndexOf` | lib/zosmfAuth.js:54 | The result is the first position where the marker occurs, and it is -1 exactly when the marker occurs nowhere. |
| `JsStrings.SplitHead` | lib/zosmfAuth.js:53 | `split(';')[0]` is a prefix of the entry and contains no `;`. Either it is the whole entry or a `;` follows it. |
| `JsStrings.SplitHeadAt` | lib/zosmfAuth.js:53 | The first element of the split is exactly the text before the first separator. |
| `JsStrings.NumberToString` | lib/zosmfAuth.js:72 | The rendered status code is a non-empty string of digits with no leading zero, except for "0" itself. |
| `JsStrings.DecimalRoundTrip` | lib/zosmfAuth.js:72 | Reading the rendered digits back gives the status code again. |
| `SetCookie.LastTokenIndex` | lib/zosmfAuth.js:51-57 | The chosen entry carries the marker, and no entry after it does. -1 means that no entry carries it. |
| `SetCookie.TokenOf` | lib/zosmfAuth.js:48-59 | A token exists exactly when some entry's cookie-pair contains `LtpaToken2`. The token is the text before the first `;` of one of the entries, and it contains the marker. |
| `SetCookie.TokenOfSnoc` | lib/zosmfAuth.js:51-57 | Appending an entry that carries the marker replaces the token. Appending any other entry keeps the token. |
| `SetCookie.TokenOfConcat` | lib/zosmfAuth.js:51-57 | Last match wins: a token among later entries overrides any token among earlier ones. |
| `SetCookie.TokenIsLastPair` | lib/zosmfAuth.js:51-57 | The token is the last of the matching cookie-pairs in header order. There is none when no pair matches. |
| `SetCookie.ScanSetCookie` | lib/zosmfAuth.js:48-59 | The `for` loop over the entries ends with exactly the token `TokenOf` defines. |
| `SetCookie.CookiePair` | lib/zosmfAuth.js:53 | The cookie-pair of an entry is a prefix of it without `;`, and it is followed by `;` or the end of the entry. |
| `SetCookie.CarriesToken` | lib/zosmfAuth.js:54 | The `indexOf` test holds exactly when `LtpaToken2` occurs somewhere in the cookie-pair. A pair that passes it is at least ten characters long. |
| `ZosmfAuth.SessionState.constructor` | lib/zosmfAuth.js:23 | A session the host has just created holds none of the three fields. It reads as unauthenticated and is consistent. |
| `ZosmfAuth.Truthy` | lib/zosmfAuth.js:115 | A truthy cookie property is present. A present cookie that carries the marker is truthy, so the tests at lines 60 and 115 are presence tests for such cookies. |
| `ZosmfAuth.ReplyToken` | lib/zosmfAuth.js:48-59 | A token comes only from a 200 response that has `set-cookie` entries, and it carries the marker. On a 200 response with `set-cookie` entries, the token is what the scan finds. |
| `ZosmfAuth.StatusLine` | lib/zosmfAuth.js:72 | The text before the first space is exactly the rendered status code (`NumberToString`: non-empty digits, no leading zero, "0" for zero) and reads back as the code. The rest of the line is the status message. |
| `ZosmfAuth.IsLoginProbe` | lib/zosmfAuth.js:102 | The request is the credential probe: method `HEAD` and the URL `LoginUrl`, the constant `loginUrl` of line 13. |
| `ZosmfAuth.GetStatus` | lib/zosmfAuth.js:21-26 | Reports the flag and the stored username and changes nothing. On a consistent session the flag says whether a cookie is stored. |
| `ZosmfAuth.AfterAuthenticate` | lib/zosmfAuth.js:47-84 | Success happens exactly when the status is 200 and some entry carries the token. On success the flag is set, the body's username is stored and the token is stored. On failure all three fields are cleared, and the error is the status line or the rejection value. Every outcome is consistent. |
| `ZosmfAuth.Authenticate` | lib/zosmfAuth.js:40-86 | The session afterwards and the resolved result are exactly those of `AfterAuthenticate`. A reply and a rejected call both end in a result. |
| `ZosmfAuth.CookiesIgnoredUnlessOk` | lib/zosmfAuth.js:49-75 | With a status other than 200 the `set-cookie` entries make no difference, and the call fails. |
| `ZosmfAuth.Decision` | lib/zosmfAuth.js:101-111 | Authorized exactly for the HEAD probe of the login URL or an authenticated session. Reported authenticated exactly for an authenticated session and a request that is not the probe. |
| `ZosmfAuth.Authorized` | lib/zosmfAuth.js:101-111 | Returns `Decision` of the session flag. It sets `request.username` to the stored username exactly when it reports authenticated, and otherwise leaves it alone. |
| `ZosmfAuth.WithDelegatedCookie` | lib/zosmfAuth.js:113-119 | With a non-empty stored cookie, the `cookie` header becomes exactly that cookie. Otherwise the headers are unchanged. No other header is ever added, removed or changed. |
| `ZosmfAuth.AddProxyAuthorizations` | lib/zosmfAuth.js:113-119 | The outbound headers become `WithDelegatedCookie` of the old headers and the stored cookie. |
| `ZosmfAuth.LoginDelegatesToken` | lib/zosmfAuth.js:60-119 | After a successful login every non-probe request is authorized, and each proxied call carries the extracted token as its `cookie` header. |
| `ZosmfAuth.FailedLoginDenies` | lib/zosmfAuth.js:65-119 | After a failed login only the probe is authorized, and proxied calls get no cookie header. |
| `ZosmfAuth.AcceptedLogin` | lib/zosmfAuth.js:49-64 | A 200 reply with `LtpaToken2=abc123; Path=/` logs "alice" in and stores the token `LtpaToken2=abc123`. |
| `ZosmfAuth.RejectedLogin` | lib/zosmfAuth.js:65-75 | A 401 "Unauthorized" reply, whatever cookies it sets, clears the session and reports the message "401 Unauthorized". |

## Left out

- The HTTPS call through `callService` and the basic-auth string `username:password` (lib/zosmfAuth.js:11, 44-46). The call's outcome is an input (`Reply`), and the password is carried in `LoginBody` but used nowhere else.
- Promises and asynchrony. The operations are synchronous, and "never rejects" is modelled by always returning a result.
- The plugin factory and the constructor that records `authPluginID` (lib/zosmfAuth.js:15-17, 122-125). They only register the plugin.
- `addProxyAuthorizations` ignores its first argument, the inbound request, so the model does not take it.
- A missing `request.zluxData.plugin`, or a `callService` that throws instead of returning a promise (lib/zosmfAuth.js:44). Either would throw inside the promise executor and reject the promise. The model assumes `callService` is reachable and returns a promise, so every call ends in a reply or a rejection.
- Outbound options without a `headers` object. There, `addProxyAuthorizations` would throw at lib/zosmfAuth.js:118. `ProxyOptions` always carries a headers map.
- Status codes of four or more digits. `StatusCode` is below 1000, as every HTTP status code is. `NumberToString` matches JavaScript's rendering only below 10^21, and JavaScript cannot hold integers above 2^53 exactly.
- `IndexOf` counts positions in Unicode scalar values, while JavaScript counts UTF-16 code units. The plugin only tests whether the result is at least 0, which is the same under both counts.
- A request without a `body`. There, reading `request.body.username` would throw inside the promise executor and reject the promise. The model assumes the host always supplies a body.
- JavaScript dynamic typing. `username` is an optional string, the status code is a non-negative integer, and the `headers` object of a reply is always present.
- Concurrency between requests of one session. The code does nothing about it.
