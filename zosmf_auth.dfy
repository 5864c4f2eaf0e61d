/**
 * The z/OSMF authentication plugin: how a credential check against z/OSMF
 * becomes per-session state, how each request is authorized from that
 * state, and how the delegated LtpaToken2 cookie is put on proxied calls.
 */
module ZosmfAuth {
  import opened Wrappers
  import opened JsStrings
  import opened SetCookie

  /** The z/OSMF endpoint probed with HEAD to check credentials. */
  const LoginUrl: string := "/zosmf/workflow/rest/1.0/workflows"

  /**
   * JavaScript truthiness of an optional string property: absent and "" are
   * falsy. A stored or found token is always truthy, so testing truthiness
   * is the same as testing presence.
   */
  predicate Truthy(s: Option<string>)
    ensures Truthy(s) ==> s.Some?
    ensures s.Some? && CarriesToken(s.value) ==> Truthy(s)
  {
    s.Some? && s.value != ""
  }

  /** The plugin's three fields of the session, as a value. */
  datatype SessionView = SessionView(authenticated: bool, username: Option<string>, cookies: Option<string>)

  /** `authenticated = false` with `zosmfUsername` and `zosmfCookies` deleted. */
  const Unauthenticated := SessionView(false, None, None)

  /**
   * The state every authenticate outcome leaves behind: the session is
   * authenticated exactly when a delegated cookie is stored, and a stored
   * cookie is a single cookie-pair carrying the LtpaToken2 marker.
   */
  predicate Consistent(v: SessionView) {
    && (v.authenticated <==> v.cookies.Some?)
    && (v.cookies.Some? ==> CarriesToken(v.cookies.value) && ';' !in v.cookies.value)
  }

  /** The plugin's private storage within one client session; the host owns it and passes it to every call. */
  class SessionState {
    var authenticated: bool
    var zosmfUsername: Option<string>
    var zosmfCookies: Option<string>

    /** A fresh session, where none of the fields is set yet. */
    constructor ()
      ensures View() == Unauthenticated && Consistent(View())
    {
      authenticated := false;
      zosmfUsername := None;
      zosmfCookies := None;
    }

    function View(): SessionView
      reads this
    {
      SessionView(authenticated, zosmfUsername, zosmfCookies)
    }
  }

  datatype Status = Status(authenticated: bool, username: Option<string>)

  /**
   * `getStatus`: reports the flag and the stored username. Being a function
   * it changes nothing; on a consistent session the flag says whether a
   * delegated cookie is there to forward.
   */
  function GetStatus(session: SessionState): (s: Status)
    reads session
    ensures s.authenticated == session.authenticated && s.username == session.zosmfUsername
    ensures Consistent(session.View()) ==> (s.authenticated <==> Truthy(session.zosmfCookies))
  {
    Status(session.authenticated, session.zosmfUsername)
  }

  /** The login form; the password only goes into the basic-auth string of the z/OSMF call. */
  datatype LoginBody = LoginBody(username: Option<string>, password: Option<string>)

  /** Whatever the HTTP client rejected with; it is handed back to the caller untouched. */
  datatype TransportError = TransportError(description: string)

  /** An HTTP status code: three decimal digits at most. */
  type StatusCode = c: nat | c < 1000

  /** How the HEAD call to z/OSMF ended: a reply, or a rejected call. */
  datatype Reply =
    | Response(statusCode: StatusCode, statusMessage: string, setCookie: Option<seq<string>>)
    | TransportFailure(error: TransportError)

  datatype AuthError =
    | StatusError(message: string)    // `{message: "<statusCode> <statusMessage>"}`
    | CallError(cause: TransportError) // the rejection value `e` itself

  /** What the promise of authenticate resolves to: `{success}` with an optional `error`. */
  datatype AuthResult = AuthResult(success: bool, error: Option<AuthError>)

  datatype AuthOutcome = AuthOutcome(session: SessionView, result: AuthResult)

  /**
   * `${response.statusCode} ${response.statusMessage}`: the text before the
   * first space reads back as the status code, and the rest is the message.
   */
  function StatusLine(code: StatusCode, message: string): (line: string)
    ensures var head := SplitHead(line, ' ');
      && head == NumberToString(code) && DecimalValue(head) == code
      && |head| < |line| && line[|head| + 1..] == message
  {
    var digits := NumberToString(code);
    var line := digits + " " + message;
    assert line[..|digits|] == digits;
    SplitHeadAt(line, ' ', |digits|);
    DecimalRoundTrip(code);
    line
  }

  /** The token the reply yields: entries are inspected only when the status is 200. */
  function ReplyToken(reply: Reply): (t: Option<string>)
    ensures t.Some? ==> reply.Response? && reply.statusCode == 200 && reply.setCookie.Some? && CarriesToken(t.value) && ';' !in t.value
    ensures reply.Response? && reply.statusCode == 200 && reply.setCookie.Some? ==> t == TokenOf(reply.setCookie.value)
  {
    match reply
    case Response(code, _, setCookie) =>
      if code == 200 && setCookie.Some? then TokenOf(setCookie.value) else None
    case TransportFailure(_) => None
  }

  /**
   * The effect of authenticate on the session and what it resolves to.
   * Every outcome, including a failed call, resolves and leaves a
   * consistent session; success requires status 200 and a token entry.
   */
  function AfterAuthenticate(body: LoginBody, reply: Reply): (o: AuthOutcome)
    ensures Consistent(o.session)
    ensures o.result.success <==> o.session.authenticated
    ensures o.result.success <==>
      reply.Response? && reply.statusCode == 200 && reply.setCookie.Some? && TokenOf(reply.setCookie.value).Some?
    ensures o.result.success ==>
      o.session == SessionView(true, body.username, TokenOf(reply.setCookie.value)) && o.result.error == None
    ensures !o.result.success ==> o.session == Unauthenticated
    ensures !o.result.success && reply.Response? ==>
      o.result.error == Some(StatusError(StatusLine(reply.statusCode, reply.statusMessage)))
    ensures reply.TransportFailure? ==> o.result == AuthResult(false, Some(CallError(reply.error)))
  {
    match reply
    case TransportFailure(e) =>
      AuthOutcome(Unauthenticated, AuthResult(false, Some(CallError(e))))
    case Response(code, message, _) =>
      var token := ReplyToken(reply);
      if Truthy(token) then
        AuthOutcome(SessionView(true, body.username, token), AuthResult(true, None))
      else
        AuthOutcome(Unauthenticated, AuthResult(false, Some(StatusError(StatusLine(code, message)))))
  }

  /**
   * `authenticate`, given how the z/OSMF call ended: scans the set-cookie
   * entries of a 200 reply, then either stores username, flag and cookie or
   * clears them. Every ending of the call, a reply or a rejection, gives a result.
   */
  method Authenticate(body: LoginBody, reply: Reply, session: SessionState) returns (r: AuthResult)
    modifies session
    ensures session.View() == AfterAuthenticate(body, reply).session
    ensures r == AfterAuthenticate(body, reply).result
  {
    match reply {
      case TransportFailure(e) =>
        session.authenticated := false;
        session.zosmfUsername := None;
        session.zosmfCookies := None;
        r := AuthResult(false, Some(CallError(e)));
      case Response(code, message, setCookie) =>
        var zosmfCookie: Option<string> := None;
        if code == 200 {
          if setCookie.Some? {
            zosmfCookie := ScanSetCookie(setCookie.value);
          }
        }
        if Truthy(zosmfCookie) {
          session.zosmfUsername := body.username;
          session.authenticated := true;
          session.zosmfCookies := zosmfCookie;
          r := AuthResult(true, None);
        } else {
          session.authenticated := false;
          session.zosmfUsername := None;
          session.zosmfCookies := None;
          r := AuthResult(false, Some(StatusError(StatusLine(code, message))));
        }
    }
  }

  /** Unless the status is 200 the set-cookie entries make no difference at all. */
  lemma CookiesIgnoredUnlessOk(body: LoginBody, code: StatusCode, message: string, h1: Option<seq<string>>, h2: Option<seq<string>>)
    requires code != 200
    ensures AfterAuthenticate(body, Response(code, message, h1)) == AfterAuthenticate(body, Response(code, message, h2))
    ensures !AfterAuthenticate(body, Response(code, message, h1)).result.success
  {
  }

  /** What `authorized` resolves to. */
  datatype Authorization = Authorization(authenticated: bool, authorized: bool)

  /** The parts of an incoming request that `authorized` reads and writes. */
  class ServiceRequest {
    const httpMethod: string
    const url: string
    var username: Option<string>

    constructor (httpMethod: string, url: string, username: Option<string>)
      ensures this.httpMethod == httpMethod && this.url == url && this.username == username
    {
      this.httpMethod := httpMethod;
      this.url := url;
      this.username := username;
    }
  }

  /** The credential probe itself: a HEAD request to the login URL. */
  predicate IsLoginProbe(httpMethod: string, url: string) {
    httpMethod == "HEAD" && url == LoginUrl
  }

  /**
   * The decision of `authorized`: the probe is let through unauthenticated,
   * anything else is authorized exactly when the session flag is set.
   */
  function Decision(httpMethod: string, url: string, authenticated: bool): (a: Authorization)
    ensures a.authorized <==> IsLoginProbe(httpMethod, url) || authenticated
    ensures a.authenticated <==> !IsLoginProbe(httpMethod, url) && authenticated
  {
    if IsLoginProbe(httpMethod, url) then Authorization(false, true)
    else if authenticated then Authorization(true, true)
    else Authorization(false, false)
  }

  /**
   * `authorized`: decides from the session flag alone and, for an
   * authenticated non-probe request, sets `request.username` from the session.
   */
  method Authorized(request: ServiceRequest, session: SessionState) returns (a: Authorization)
    modifies request
    ensures a == Decision(request.httpMethod, request.url, session.authenticated)
    ensures request.username ==
      if a.authenticated then session.zosmfUsername else old(request.username)
  {
    if IsLoginProbe(request.httpMethod, request.url) {
      return Authorization(false, true);
    }
    if session.authenticated {
      request.username := session.zosmfUsername;
      return Authorization(true, true);
    } else {
      return Authorization(false, false);
    }
  }

  /** The outbound request options of a proxied call; only the headers are touched. */
  class ProxyOptions {
    var headers: map<string, string>

    constructor (headers: map<string, string>)
      ensures this.headers == headers
    {
      this.headers := headers;
    }
  }

  /**
   * The headers of a proxied call once the delegated cookie is added: the
   * `cookie` header is exactly the stored cookie when one is stored and
   * non-empty, and every other header is as it was.
   */
  function WithDelegatedCookie(headers: map<string, string>, cookies: Option<string>): (h: map<string, string>)
    ensures Truthy(cookies) ==> "cookie" in h && h["cookie"] == cookies.value
    ensures !Truthy(cookies) ==> h == headers
    ensures forall k :: k != "cookie" ==> (k in h <==> k in headers)
    ensures forall k :: k != "cookie" && k in h ==> k in headers && h[k] == headers[k]
  {
    if !Truthy(cookies) then headers else headers["cookie" := cookies.value]
  }

  /** `addProxyAuthorizations`: the inbound request is not consulted. */
  method AddProxyAuthorizations(options: ProxyOptions, session: SessionState)
    modifies options
    ensures options.headers == WithDelegatedCookie(old(options.headers), session.zosmfCookies)
  {
    if !Truthy(session.zosmfCookies) {
      return;
    }
    options.headers := options.headers["cookie" := session.zosmfCookies.value];
  }

  /**
   * After a successful login every later non-probe request is authorized,
   * and every proxied call carries the extracted token as its cookie header.
   */
  lemma LoginDelegatesToken(body: LoginBody, reply: Reply, httpMethod: string, url: string, headers: map<string, string>)
    requires AfterAuthenticate(body, reply).result.success
    ensures !IsLoginProbe(httpMethod, url) ==>
      Decision(httpMethod, url, AfterAuthenticate(body, reply).session.authenticated) == Authorization(true, true)
    ensures var h := WithDelegatedCookie(headers, AfterAuthenticate(body, reply).session.cookies);
      "cookie" in h && Some(h["cookie"]) == ReplyToken(reply)
  {
  }

  /**
   * After a failed login (rejected credentials, no token, or a failed call)
   * only the probe is authorized and proxied calls get no cookie header added.
   */
  lemma FailedLoginDenies(body: LoginBody, reply: Reply, httpMethod: string, url: string, headers: map<string, string>)
    requires !AfterAuthenticate(body, reply).result.success
    ensures Decision(httpMethod, url, AfterAuthenticate(body, reply).session.authenticated).authorized
      <==> IsLoginProbe(httpMethod, url)
    ensures WithDelegatedCookie(headers, AfterAuthenticate(body, reply).session.cookies) == headers
  {
  }

  /** A 200 reply with one LtpaToken2 entry logs "alice" in with the cookie-pair of that entry. */
  lemma AcceptedLogin()
    ensures AfterAuthenticate(LoginBody(Some("alice"), Some("secret")),
                              Response(200, "OK", Some(["LtpaToken2=abc123; Path=/"])))
         == AuthOutcome(SessionView(true, Some("alice"), Some("LtpaToken2=abc123")), AuthResult(true, None))
  {
    var entry, pair := "LtpaToken2=abc123; Path=/", "LtpaToken2=abc123";
    assert entry[..|pair|] == pair;
    SplitHeadAt(entry, ';', |pair|);
    assert pair[0..|TokenName|] == TokenName;
    assert OccursAt(pair, TokenName, 0);
    assert IsTokenEntry(entry);
    assert LastTokenIndex([entry]) == 0;
  }

  /** A 401 reply clears the session and reports the status line, whatever cookies it sets. */
  lemma RejectedLogin(entries: Option<seq<string>>)
    ensures AfterAuthenticate(LoginBody(Some("alice"), Some("wrong")), Response(401, "Unauthorized", entries))
         == AuthOutcome(Unauthenticated, AuthResult(false, Some(StatusError("401 Unauthorized"))))
  {
    assert NumberToString(401) == "401";
    assert StatusLine(401, "Unauthorized") == "401 Unauthorized";
  }
}
