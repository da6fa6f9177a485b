/** The connection to a Nextcloud server: the URL and credentials with their
    guarded setters and change notifications, the request gate that counts
    requests in flight, the server status query and the Login Flow v2 state
    machine. The guarded setters are first described as pure changes of the
    URL (what the URL becomes and which notifications are emitted), and the
    class `NextcloudApi` performs them in place. */
module Nextcloud {

  import opened Wrappers
  import opened Json
  import opened ServerUrl
  import Base64
  import Utf8

  datatype NextcloudStatus = NextcloudUnknown | NextcloudBusy | NextcloudSuccess | NextcloudFailed

  datatype CapabilitiesStatus = CapabilitiesUnknown | CapabilitiesBusy | CapabilitiesSuccess | CapabilitiesFailed

  datatype LoginStatus =
    | LoginUnknown
    | LoginFlowV2Initiating
    | LoginFlowV2Polling
    | LoginFlowV2Success
    | LoginFlowV2Failed

  /** QSslSocket::PeerVerifyMode. */
  datatype PeerVerifyMode = VerifyNone | QueryPeer | VerifyPeer | AutoVerifyPeer

  /** Whether a client connection with this mode checks the server's
      certificate: AutoVerifyPeer behaves as VerifyPeer for clients. */
  predicate Verifies(mode: PeerVerifyMode)
  {
    mode == VerifyPeer || mode == AutoVerifyPeer
  }

  datatype Verb = GET | POST | PUT | DELETE

  /** The endpoints requests are sent to, relative to the server path. Their
      literal paths are declared in headers that are not part of this model. */
  datatype Endpoint =
    | StatusEndpoint
    | LoginFlowV2Endpoint
    | PollEndpoint(path: string)
    | UserCapabilitiesEndpoint(user: string)
    | GetAppPasswordEndpoint
    | DeleteAppPasswordEndpoint
    | NotesEndpoint(exclude: seq<string>)
    | NoteEndpoint(id: Int32)

  /** Request bodies: nothing, a note serialised as JSON, or the form `token=<pollToken>`. */
  datatype Body = EmptyBody | JsonBody(note: Object) | TokenForm(token: string)

  /** A request handed to the network layer: the server string the endpoint
      is appended to, and the parts of the request template it was built
      from (which template, its Authorization header and its peer
      verification mode). */
  datatype Request = Request(
    verb: Verb,
    server: string,
    endpoint: Endpoint,
    body: Body,
    authenticated: bool,
    authorization: Option<string>,
    verifyMode: PeerVerifyMode)

  /** Notifications (Qt signals) and calls of the status setters. */
  datatype Event =
    | SchemeChanged(scheme: string)
    | HostChanged(host: string)
    | PortChanged(port: int)
    | UsernameChanged(username: string)
    | PasswordChanged(password: string)
    | PathChanged(path: string)
    | ServerChanged(server: string)
    | UrlChanged(url: Url)
    | VerifySslChanged(verify: bool)
    | StatusSet(status: NextcloudStatus)
    | CapabilitiesStatusSet(capabilitiesStatus: CapabilitiesStatus)
    | LoginStatusSet(loginStatus: LoginStatus)

  predicate IsHttpScheme(scheme: string)
  {
    scheme == "http" || scheme == "https"
  }

  predicate IsValidPort(port: int)
  {
    1 <= port <= 65535
  }

  /** The value of the Authorization header for a user name and password. */
  function BasicAuth(username: string, password: string): string
  {
    "Basic " + Base64.Encode(Utf8.Encode(username + ":" + password))
  }

  /** The header carries exactly `username:password`: after the `Basic `
      prefix it decodes to the two encodings around the colon's byte. */
  lemma BasicAuthDecodes(username: string, password: string)
    ensures BasicAuth(username, password)[..6] == "Basic "
    ensures Base64.Decode(BasicAuth(username, password)[6..])
            == Some(Utf8.Encode(username) + [':' as int] + Utf8.Encode(password))
  {
    var h := BasicAuth(username, password);
    var bytes := Utf8.Encode(username + ":" + password);
    assert h[6..] == Base64.Encode(bytes);
    Utf8.EncodeAppend(username + ":", password);
    Utf8.EncodeAppend(username, ":");
    assert Utf8.Encode(":") == [':' as int];
    Base64.RoundTrip(bytes);
  }

  /** A request is sent only when the URL composed from `server()` has a
      scheme and a host. */
  predicate DispatchAccepted(u: Url)
  {
    u.scheme != "" && u.host != ""
  }

  /** The composed server string of an accepted, well-formed URL reads back
      with the same scheme and host, so the gate's test is a test of the string. */
  lemma DispatchGateOnServerString(u: Url)
    requires Composable(u)
    ensures DispatchAccepted(u)
    ensures ParseServer(Server(u)).Some?
    ensures ParseServer(Server(u)).value.scheme == u.scheme && ParseServer(Server(u)).value.host == u.host
  {
    ServerRoundTrip(u);
  }

  // ---------------------------------------------------------------------
  // The guarded setters as changes of the URL.

  /** What a setter does: the URL afterwards and the notifications it emits. */
  datatype Change = Change(url: Url, events: seq<Event>)

  /** The URL components that have a notification of their own. */
  datatype Component = SchemePart | HostPart | PortPart | UsernamePart | PasswordPart | PathPart

  /** The component a notification names, if any. */
  function Names(e: Event): set<Component>
  {
    match e
    case SchemeChanged(_) => {SchemePart}
    case HostChanged(_) => {HostPart}
    case PortChanged(_) => {PortPart}
    case UsernameChanged(_) => {UsernamePart}
    case PasswordChanged(_) => {PasswordPart}
    case PathChanged(_) => {PathPart}
    case _ => {}
  }

  /** The components a list of notifications names. */
  function Notified(events: seq<Event>): set<Component>
    decreases |events|
  {
    if events == [] then {} else Names(events[0]) + Notified(events[1..])
  }

  lemma {:induction false} NotifiedAppend(a: seq<Event>, b: seq<Event>)
    ensures Notified(a + b) == Notified(a) + Notified(b)
    decreases |a|
  {
    if a == [] {
      assert a + b == b;
    } else {
      assert (a + b)[0] == a[0];
      assert (a + b)[1..] == a[1..] + b;
      NotifiedAppend(a[1..], b);
    }
  }

  lemma NotifiedSingle(e: Event)
    ensures Notified([e]) == Names(e)
  {
    assert [e][1..] == [];
  }

  lemma NotifiedTwo(x: Event, y: Event)
    ensures Notified([x, y]) == Names(x) + Names(y)
  {
    assert [x, y][1..] == [y];
    NotifiedSingle(y);
  }

  lemma NotifiedThree(x: Event, y: Event, z: Event)
    ensures Notified([x, y, z]) == Names(x) + Names(y) + Names(z)
  {
    assert [x, y, z][1..] == [y, z];
    NotifiedTwo(y, z);
  }

  lemma NotifiedSix(a: seq<Event>, b: seq<Event>, c: seq<Event>, d: seq<Event>, e: seq<Event>, f: seq<Event>)
    ensures Notified(a + b + c + d + e + f)
            == Notified(a) + Notified(b) + Notified(c) + Notified(d) + Notified(e) + Notified(f)
  {
    NotifiedAppend(a + b + c + d + e, f);
    NotifiedAppend(a + b + c + d, e);
    NotifiedAppend(a + b + c, d);
    NotifiedAppend(a + b, c);
    NotifiedAppend(a, b);
  }

  /** The components in which two URLs differ. */
  function Differs(u: Url, v: Url): set<Component>
  {
    (if u.scheme != v.scheme then {SchemePart} else {})
    + (if u.host != v.host then {HostPart} else {})
    + (if u.port != v.port then {PortPart} else {})
    + (if u.username != v.username then {UsernamePart} else {})
    + (if u.password != v.password then {PasswordPart} else {})
    + (if u.path != v.path then {PathPart} else {})
  }

  /** setScheme: only `http` or `https`, and only when different. */
  function SchemeChange(u: Url, scheme: string): (c: Change)
    ensures c.url.(scheme := u.scheme) == u
    ensures c.url != u <==> scheme != u.scheme && IsHttpScheme(scheme)
    ensures c.url.scheme == u.scheme || c.url.scheme == scheme
    ensures c.events == [] <==> c.url == u
  {
    if scheme != u.scheme && IsHttpScheme(scheme) then
      var v := u.(scheme := scheme);
      Change(v, [SchemeChanged(scheme), ServerChanged(Server(v)), UrlChanged(v)])
    else
      Change(u, [])
  }

  /** setHost: any different host. */
  function HostChange(u: Url, host: string): (c: Change)
    ensures c.url.(host := u.host) == u
    ensures c.url.host == host
    ensures c.events == [] <==> host == u.host
  {
    if host != u.host then
      var v := u.(host := host);
      Change(v, [HostChanged(host), ServerChanged(Server(v)), UrlChanged(v)])
    else
      Change(u, [])
  }

  /** setPort: only a different port in 1..65535. */
  function PortChange(u: Url, port: int): (c: Change)
    ensures c.url.(port := u.port) == u
    ensures c.url != u <==> port != u.port && IsValidPort(port)
    ensures c.url.port == u.port || c.url.port == port
    ensures c.events == [] <==> c.url == u
  {
    if port != u.port && IsValidPort(port) then
      var v := u.(port := port);
      Change(v, [PortChanged(port), ServerChanged(Server(v)), UrlChanged(v)])
    else
      Change(u, [])
  }

  /** setUsername: any different user name; the server string is not affected. */
  function UsernameChange(u: Url, username: string): (c: Change)
    ensures c.url.(username := u.username) == u
    ensures c.url.username == username
    ensures c.events == [] <==> username == u.username
    ensures Server(c.url) == Server(u)
  {
    if username != u.username then
      var v := u.(username := username);
      Change(v, [UsernameChanged(username), UrlChanged(v)])
    else
      Change(u, [])
  }

  /** setPassword: any different password; the server string is not affected. */
  function PasswordChange(u: Url, password: string): (c: Change)
    ensures c.url.(password := u.password) == u
    ensures c.url.password == password
    ensures c.events == [] <==> password == u.password
    ensures Server(c.url) == Server(u)
  {
    if password != u.password then
      var v := u.(password := password);
      Change(v, [PasswordChanged(password), UrlChanged(v)])
    else
      Change(u, [])
  }

  /** setPath: any different path. */
  function PathChange(u: Url, path: string): (c: Change)
    ensures c.url.(path := u.path) == u
    ensures c.url.path == path
    ensures c.events == [] <==> path == u.path
  {
    if path != u.path then
      var v := u.(path := path);
      Change(v, [PathChanged(path), ServerChanged(Server(v)), UrlChanged(v)])
    else
      Change(u, [])
  }

  /** The URL `setUrl` leaves: every component of the target that a setter
      copies, except a scheme other than http/https and a port outside
      1..65535; those, the query and the fragment keep their previous values. */
  function Merged(u: Url, target: Url): Url
  {
    Url(if IsHttpScheme(target.scheme) then target.scheme else u.scheme,
        target.host,
        if IsValidPort(target.port) then target.port else u.port,
        target.username,
        target.password,
        target.path,
        u.query,
        u.fragment)
  }

  /** The six setters of `setUrl` in turn: scheme, host, port, user name,
      password and path. */
  function SettersChange(u: Url, target: Url): (c: Change)
    ensures c.url == Merged(u, target)
  {
    var c1 := SchemeChange(u, target.scheme);
    var c2 := HostChange(c1.url, target.host);
    var c3 := PortChange(c2.url, target.port);
    var c4 := UsernameChange(c3.url, target.username);
    var c5 := PasswordChange(c4.url, target.password);
    var c6 := PathChange(c5.url, target.path);
    Change(c6.url, c1.events + c2.events + c3.events + c4.events + c5.events + c6.events)
  }

  /** A Login Flow v2 is under way: initiated, or being polled. */
  predicate FlowInProgress(status: LoginStatus)
  {
    status == LoginFlowV2Initiating || status == LoginFlowV2Polling
  }

  /** Regrouping the notifications of consecutive setters. */
  lemma AppendSix<T>(s: seq<T>, a: seq<T>, b: seq<T>, c: seq<T>, d: seq<T>, e: seq<T>, f: seq<T>)
    ensures s + a + b + c + d + e + f == s + (a + b + c + d + e + f)
  {
  }

  lemma AppendTwo<T>(s: seq<T>, a: seq<T>, b: seq<T>)
    ensures s + a + b == s + (a + b)
  {
  }

  lemma AppendFour<T>(s: seq<T>, a: seq<T>, b: seq<T>, c: seq<T>, d: seq<T>)
    ensures s + a + b + c + d == s + (a + b + c + d)
  {
  }

  lemma AppendThree<T>(s: seq<T>, a: seq<T>, b: seq<T>, c: seq<T>)
    ensures s + a + b + c == s + (a + b + c)
  {
  }

  /** setUrl: when the target differs from the current URL, the six setters
      in turn, then `serverChanged` if the composed server string changed,
      then `urlChanged`. */
  function UrlChange(u: Url, target: Url): (c: Change)
    ensures target == u ==> c == Change(u, [])
    ensures target != u ==> c.url == Merged(u, target)
    ensures target != u ==> |c.events| > 0 && c.events[|c.events| - 1] == UrlChanged(c.url)
  {
    if target == u then Change(u, [])
    else
      var c := SettersChange(u, target);
      var serverEvents := if Server(c.url) != Server(u) then [ServerChanged(Server(c.url))] else [];
      Change(c.url, c.events + serverEvents + [UrlChanged(c.url)])
  }

  /** A target whose query or fragment differs from the current URL's is
      never reached: every `setUrl` with it notifies again. */
  lemma UrlChangeNeverSettles(u: Url, target: Url)
    requires target.query != u.query || target.fragment != u.fragment
    ensures var c := UrlChange(u, target);
            c.url != target && c.events != [] && UrlChange(c.url, target).events != []
  {
  }

  /** `setUrl` notifies about a component exactly when that component changed. */
  lemma UrlChangeNotifies(u: Url, target: Url)
    requires target != u
    ensures Notified(UrlChange(u, target).events) == Differs(u, UrlChange(u, target).url)
  {
    var s := SettersChange(u, target);
    var serverEvents := if Server(s.url) != Server(u) then [ServerChanged(Server(s.url))] else [];
    assert UrlChange(u, target) == Change(s.url, s.events + serverEvents + [UrlChanged(s.url)]);
    NotifiedSingle(ServerChanged(Server(s.url)));
    QuietTail(s.events, serverEvents, s.url);
    SettersNotify(u, target);
  }

  /** The server and URL notifications after the setters name no component. */
  lemma QuietTail(a: seq<Event>, x: seq<Event>, url: Url)
    requires Notified(x) == {}
    ensures Notified(a + x + [UrlChanged(url)]) == Notified(a)
  {
    NotifiedAppend(a, x);
    NotifiedAppend(a + x, [UrlChanged(url)]);
    NotifiedSingle(UrlChanged(url));
  }

  /** `setUrl` emits `serverChanged` with the new server string, just before
      the final `urlChanged`, exactly when the composed server string changed. */
  lemma UrlChangeServerEvent(u: Url, target: Url)
    requires target != u
    ensures var c := UrlChange(u, target);
      (|c.events| >= 2 && c.events[|c.events| - 2] == ServerChanged(Server(c.url))) <==> Server(c.url) != Server(u)
  {
    var s := SettersChange(u, target);
    var e := UrlChange(u, target).events;
    if Server(s.url) == Server(u) {
      assert e == s.events + [UrlChanged(s.url)];
      SettersEndWithUrl(u, target);
      if |e| >= 2 {
        assert e[|e| - 2] == s.events[|s.events| - 1];
      }
    } else {
      assert e == s.events + [ServerChanged(Server(s.url))] + [UrlChanged(s.url)];
    }
  }

  /** Notifications that are none or end with `urlChanged`. */
  predicate EndsWithUrlChanged(events: seq<Event>)
  {
    events == [] || events[|events| - 1].UrlChanged?
  }

  lemma EndsWithUrlChangedAppend(a: seq<Event>, b: seq<Event>)
    requires EndsWithUrlChanged(a) && EndsWithUrlChanged(b)
    ensures EndsWithUrlChanged(a + b)
  {
    if b == [] {
      assert a + b == a;
    }
  }

  /** Every setter's notifications, and so those of the six together, end with `urlChanged`. */
  lemma SettersEndWithUrl(u: Url, target: Url)
    ensures EndsWithUrlChanged(SettersChange(u, target).events)
  {
    var c1 := SchemeChange(u, target.scheme);
    var c2 := HostChange(c1.url, target.host);
    var c3 := PortChange(c2.url, target.port);
    var c4 := UsernameChange(c3.url, target.username);
    var c5 := PasswordChange(c4.url, target.password);
    var c6 := PathChange(c5.url, target.path);
    assert SettersChange(u, target).events
           == c1.events + c2.events + c3.events + c4.events + c5.events + c6.events;
    EndsWithUrlChangedAppend(c1.events, c2.events);
    EndsWithUrlChangedAppend(c1.events + c2.events, c3.events);
    EndsWithUrlChangedAppend(c1.events + c2.events + c3.events, c4.events);
    EndsWithUrlChangedAppend(c1.events + c2.events + c3.events + c4.events, c5.events);
    EndsWithUrlChangedAppend(c1.events + c2.events + c3.events + c4.events + c5.events, c6.events);
  }

  /** Each setter names exactly the component it changed. */
  lemma SchemeNotifies(u: Url, scheme: string)
    ensures Notified(SchemeChange(u, scheme).events) == Differs(u, SchemeChange(u, scheme).url)
  {
    var c := SchemeChange(u, scheme);
    if c.events != [] {
      NotifiedThree(SchemeChanged(scheme), ServerChanged(Server(c.url)), UrlChanged(c.url));
    }
  }

  lemma HostNotifies(u: Url, host: string)
    ensures Notified(HostChange(u, host).events) == Differs(u, HostChange(u, host).url)
  {
    var c := HostChange(u, host);
    if c.events != [] {
      NotifiedThree(HostChanged(host), ServerChanged(Server(c.url)), UrlChanged(c.url));
    }
  }

  lemma PortNotifies(u: Url, port: int)
    ensures Notified(PortChange(u, port).events) == Differs(u, PortChange(u, port).url)
  {
    var c := PortChange(u, port);
    if c.events != [] {
      NotifiedThree(PortChanged(port), ServerChanged(Server(c.url)), UrlChanged(c.url));
    }
  }

  lemma UsernameNotifies(u: Url, username: string)
    ensures Notified(UsernameChange(u, username).events) == Differs(u, UsernameChange(u, username).url)
  {
    var c := UsernameChange(u, username);
    if c.events != [] {
      NotifiedTwo(UsernameChanged(username), UrlChanged(c.url));
    }
  }

  lemma PasswordNotifies(u: Url, password: string)
    ensures Notified(PasswordChange(u, password).events) == Differs(u, PasswordChange(u, password).url)
  {
    var c := PasswordChange(u, password);
    if c.events != [] {
      NotifiedTwo(PasswordChanged(password), UrlChanged(c.url));
    }
  }

  lemma PathNotifies(u: Url, path: string)
    ensures Notified(PathChange(u, path).events) == Differs(u, PathChange(u, path).url)
  {
    var c := PathChange(u, path);
    if c.events != [] {
      NotifiedThree(PathChanged(path), ServerChanged(Server(c.url)), UrlChanged(c.url));
    }
  }

  /** Six steps that each change one component, in the setters' order,
      differ from the start in exactly the components the steps changed. */
  lemma DiffersSteps(u: Url, v1: Url, v2: Url, v3: Url, v4: Url, v5: Url, v6: Url)
    requires v1.(scheme := u.scheme) == u && v2.(host := v1.host) == v1 && v3.(port := v2.port) == v2
    requires v4.(username := v3.username) == v3 && v5.(password := v4.password) == v4 && v6.(path := v5.path) == v5
    ensures Differs(u, v6) == Differs(u, v1) + Differs(v1, v2) + Differs(v2, v3) + Differs(v3, v4)
                              + Differs(v4, v5) + Differs(v5, v6)
  {
  }

  /** The six setters of `setUrl` together name exactly the components that changed. */
  lemma SettersNotify(u: Url, target: Url)
    ensures Notified(SettersChange(u, target).events) == Differs(u, SettersChange(u, target).url)
  {
    var c1 := SchemeChange(u, target.scheme);
    var c2 := HostChange(c1.url, target.host);
    var c3 := PortChange(c2.url, target.port);
    var c4 := UsernameChange(c3.url, target.username);
    var c5 := PasswordChange(c4.url, target.password);
    var c6 := PathChange(c5.url, target.path);
    assert SettersChange(u, target)
           == Change(c6.url, c1.events + c2.events + c3.events + c4.events + c5.events + c6.events);
    NotifiedSix(c1.events, c2.events, c3.events, c4.events, c5.events, c6.events);
    SchemeNotifies(u, target.scheme);
    HostNotifies(c1.url, target.host);
    PortNotifies(c2.url, target.port);
    UsernameNotifies(c3.url, target.username);
    PasswordNotifies(c4.url, target.password);
    PathNotifies(c5.url, target.path);
    DiffersSteps(u, c1.url, c2.url, c3.url, c4.url, c5.url, c6.url);
  }

  /** setServer: when the target differs from the URL `server()` describes,
      the scheme, host, port and path setters in turn; the credentials stay. */
  function ServerChange(u: Url, target: Url): (c: Change)
    ensures target == ServerPart(u) ==> c == Change(u, [])
    ensures target != ServerPart(u) ==> c.url == Merged(u, target).(username := u.username, password := u.password)
  {
    if target == ServerPart(u) then Change(u, [])
    else
      var c1 := SchemeChange(u, target.scheme);
      var c2 := HostChange(c1.url, target.host);
      var c3 := PortChange(c2.url, target.port);
      var c4 := PathChange(c3.url, target.path);
      Change(c4.url, c1.events + c2.events + c3.events + c4.events)
  }

  /** A URL without a port keeps the previous port: `setUrl` cannot remove one. */
  lemma SetUrlKeepsPortWithoutPort(u: Url, target: Url)
    requires target != u && target.port == NoPort
    ensures UrlChange(u, target).url.port == u.port
  {
  }

  /** After `setUrl` with a well-formed target, the server string reads back
      as the target's scheme, host, port and path. */
  lemma {:induction false} SetUrlServerRoundTrip(u: Url, target: Url)
    requires Composable(target) && IsHttpScheme(target.scheme)
    requires target.port == NoPort ==> u.port == NoPort
    requires target.port != NoPort ==> IsValidPort(target.port)
    ensures ParseServer(Server(UrlChange(u, target).url)) == Some(ServerPart(target))
  {
    var v := UrlChange(u, target).url;
    assert v == Merged(u, target);
    assert Composable(v);
    ServerRoundTrip(v);
  }

  // ---------------------------------------------------------------------
  // SSL peer verification.

  /** The verification modes of the anonymous and the authenticated request
      templates after `setVerifySsl`, and whether `verifySslChanged` is emitted. */
  datatype SslChange = SslChange(anonymous: PeerVerifyMode, authenticated: PeerVerifyMode, notified: bool)

  /** setVerifySsl as written: the guard compares each template's mode with
      VerifyPeer, and the new mode is set on the copy of the configuration
      that QNetworkRequest::sslConfiguration() returns, so neither template
      changes. */
  function VerifySslAsWritten(anonymous: PeerVerifyMode, authenticated: PeerVerifyMode, verify: bool): (r: SslChange)
    ensures r.anonymous == anonymous && r.authenticated == authenticated
  {
    SslChange(anonymous, authenticated,
              verify != (anonymous == VerifyPeer) || verify != (authenticated == VerifyPeer))
  }

  /** As written, from the initial AutoVerifyPeer templates: turning
      verification off does nothing (certificates are still checked), and
      turning it on changes nothing yet notifies on every call. */
  lemma VerifySslAsWrittenDiscrepancy()
    ensures var off := VerifySslAsWritten(AutoVerifyPeer, AutoVerifyPeer, false);
            !off.notified && Verifies(off.anonymous) && Verifies(off.authenticated)
    ensures var on1 := VerifySslAsWritten(AutoVerifyPeer, AutoVerifyPeer, true);
            var on2 := VerifySslAsWritten(on1.anonymous, on1.authenticated, true);
            on1.notified && on2.notified && on2.anonymous == AutoVerifyPeer
  {
  }

  /** setVerifySsl as intended: both templates end up verifying exactly when
      asked to, and the notification is emitted exactly when a mode changed. */
  function VerifySslChange(anonymous: PeerVerifyMode, authenticated: PeerVerifyMode, verify: bool): (r: SslChange)
    ensures Verifies(r.anonymous) == verify && Verifies(r.authenticated) == verify
    ensures r.notified <==> (r.anonymous, r.authenticated) != (anonymous, authenticated)
  {
    if verify != Verifies(anonymous) || verify != Verifies(authenticated) then
      var mode := if verify then VerifyPeer else VerifyNone;
      SslChange(mode, mode, true)
    else
      SslChange(anonymous, authenticated, false)
  }

  /** A repeated `setVerifySsl` with the same value is a no-op without notification. */
  lemma VerifySslIdempotent(anonymous: PeerVerifyMode, authenticated: PeerVerifyMode, verify: bool)
    ensures var r1 := VerifySslChange(anonymous, authenticated, verify);
            var r2 := VerifySslChange(r1.anonymous, r1.authenticated, verify);
            !r2.notified && r2.anonymous == r1.anonymous && r2.authenticated == r1.authenticated
  {
  }

  // ---------------------------------------------------------------------
  // Error messages.

  /** The `int` argument of `errorMessage`: one of the five error
      enumerators, or `OtherError` for every value that is none of them. */
  datatype ErrorCode =
    | NoError
    | NoConnectionError
    | CommunicationError
    | SslHandshakeError
    | AuthenticationError
    | OtherError

  /** The messages, as tags for the translated texts. */
  datatype ErrorText =
    | NoErrorText
    | NoConnectionText
    | CommunicationText
    | SslHandshakeText
    | AuthenticationText
    | UnknownErrorText

  function ErrorMessage(error: ErrorCode): (m: ErrorText)
    ensures m == UnknownErrorText <==> error.OtherError?
  {
    match error
    case NoError => NoErrorText
    case NoConnectionError => NoConnectionText
    case CommunicationError => CommunicationText
    case SslHandshakeError => SslHandshakeText
    case AuthenticationError => AuthenticationText
    case OtherError => UnknownErrorText
  }

  /** Every known error has a message of its own. */
  lemma ErrorMessageDistinct(e1: ErrorCode, e2: ErrorCode)
    requires !e1.OtherError? && ErrorMessage(e1) == ErrorMessage(e2)
    ensures e1 == e2
  {
  }

  // ---------------------------------------------------------------------
  // The connection object.

  class NextcloudApi {
    var url: Url
    /** Peer verification of the anonymous and of the authenticated request template. */
    var anonymousVerifyMode: PeerVerifyMode
    var authenticatedVerifyMode: PeerVerifyMode
    /** The Authorization header of the authenticated template, absent until credentials are set. */
    var authorization: Option<string>
    var status: NextcloudStatus
    var capabilitiesStatus: CapabilitiesStatus
    var loginStatus: LoginStatus
    var statusInstalled: bool
    var statusMaintenance: bool
    var statusNeedsDbUpgrade: bool
    var statusExtendedSupport: bool
    var loginUrl: Url
    var pollUrl: Url
    var pollToken: string
    var timerRunning: bool
    var runningRequests: nat
    /** Everything emitted so far, in order. */
    ghost var events: seq<Event>
    /** Every request handed to the network layer, in order. */
    ghost var sent: seq<Request>

    /** The scheme is empty or http/https, the port absent or in range, and
        the Authorization header, once set, encodes the current credentials. */
    ghost predicate Valid()
      reads this`url, this`authorization
    {
      && (url.scheme == "" || IsHttpScheme(url.scheme))
      && (url.port == NoPort || IsValidPort(url.port))
      && (authorization.None? || authorization == Some(BasicAuth(url.username, url.password)))
    }

    /** The Login Flow v2 session is torn down: timer stopped, URLs and token empty. */
    predicate SessionCleared()
      reads this`timerRunning, this`loginUrl, this`pollUrl, this`pollToken
    {
      !timerRunning && loginUrl == EmptyUrl && pollUrl == EmptyUrl && pollToken == ""
    }

    constructor ()
      ensures Valid()
      ensures url == EmptyUrl && authorization == None
      ensures anonymousVerifyMode == AutoVerifyPeer && authenticatedVerifyMode == AutoVerifyPeer
      ensures status == NextcloudUnknown && capabilitiesStatus == CapabilitiesUnknown
      ensures loginStatus == LoginUnknown
      ensures !statusInstalled && !statusMaintenance && !statusNeedsDbUpgrade && !statusExtendedSupport
      ensures SessionCleared() && runningRequests == 0
      ensures events == [StatusSet(NextcloudUnknown), CapabilitiesStatusSet(CapabilitiesUnknown), LoginStatusSet(LoginUnknown)]
      ensures sent == []
    {
      url := EmptyUrl;
      anonymousVerifyMode, authenticatedVerifyMode := AutoVerifyPeer, AutoVerifyPeer;
      authorization := None;
      status, capabilitiesStatus, loginStatus := NextcloudUnknown, CapabilitiesUnknown, LoginUnknown;
      statusInstalled, statusMaintenance, statusNeedsDbUpgrade, statusExtendedSupport := false, false, false, false;
      loginUrl, pollUrl, pollToken, timerRunning := EmptyUrl, EmptyUrl, "", false;
      runningRequests := 0;
      events := [StatusSet(status), CapabilitiesStatusSet(capabilitiesStatus), LoginStatusSet(loginStatus)];
      sent := [];
    }

    /** server(): the composed `scheme://host[:port]path` string. */
    function Server(): string
      reads this`url
    {
      ServerUrl.Server(url)
    }

    method SetVerifySsl(verify: bool)
      modifies this`anonymousVerifyMode, this`authenticatedVerifyMode, this`events
      ensures var r := VerifySslChange(old(anonymousVerifyMode), old(authenticatedVerifyMode), verify);
              anonymousVerifyMode == r.anonymous && authenticatedVerifyMode == r.authenticated
              && events == old(events) + (if r.notified then [VerifySslChanged(verify)] else [])
    {
      if verify != Verifies(anonymousVerifyMode) || verify != Verifies(authenticatedVerifyMode) {
        var mode := if verify then VerifyPeer else VerifyNone;
        anonymousVerifyMode := mode;
        authenticatedVerifyMode := mode;
        events := events + [VerifySslChanged(verify)];
      }
    }

    method SetScheme(scheme: string)
      requires Valid()
      modifies this`url, this`events
      ensures Valid()
      ensures var c := SchemeChange(old(url), scheme); url == c.url && events == old(events) + c.events
    {
      if scheme != url.scheme && IsHttpScheme(scheme) {
        url := url.(scheme := scheme);
        events := events + [SchemeChanged(url.scheme), ServerChanged(Server()), UrlChanged(url)];
      }
    }

    method SetHost(host: string)
      requires Valid()
      modifies this`url, this`events
      ensures Valid()
      ensures var c := HostChange(old(url), host); url == c.url && events == old(events) + c.events
    {
      if host != url.host {
        url := url.(host := host);
        events := events + [HostChanged(url.host), ServerChanged(Server()), UrlChanged(url)];
      }
    }

    method SetPort(port: int)
      requires Valid()
      modifies this`url, this`events
      ensures Valid()
      ensures var c := PortChange(old(url), port); url == c.url && events == old(events) + c.events
    {
      if port != url.port && IsValidPort(port) {
        url := url.(port := port);
        events := events + [PortChanged(url.port), ServerChanged(Server()), UrlChanged(url)];
      }
    }

    method SetUsername(username: string)
      requires Valid()
      modifies this`url, this`authorization, this`events
      ensures Valid()
      ensures var c := UsernameChange(old(url), username); url == c.url && events == old(events) + c.events
      ensures authorization == if url != old(url) then Some(BasicAuth(url.username, url.password))
                               else old(authorization)
    {
      if username != url.username {
        url := url.(username := username);
        authorization := Some(BasicAuth(username, url.password));
        events := events + [UsernameChanged(url.username), UrlChanged(url)];
      }
    }

    method SetPassword(password: string)
      requires Valid()
      modifies this`url, this`authorization, this`events
      ensures Valid()
      ensures var c := PasswordChange(old(url), password); url == c.url && events == old(events) + c.events
      ensures authorization == if url != old(url) then Some(BasicAuth(url.username, url.password))
                               else old(authorization)
    {
      if password != url.password {
        url := url.(password := password);
        authorization := Some(BasicAuth(url.username, password));
        events := events + [PasswordChanged(url.password), UrlChanged(url)];
      }
    }

    method SetPath(path: string)
      requires Valid()
      modifies this`url, this`events
      ensures Valid()
      ensures var c := PathChange(old(url), path); url == c.url && events == old(events) + c.events
    {
      if path != url.path {
        url := url.(path := path);
        events := events + [PathChanged(url.path), ServerChanged(Server()), UrlChanged(url)];
      }
    }

    /** The setter calls of `setUrl`. */
    method ApplySetters(target: Url)
      requires Valid()
      modifies this`url, this`authorization, this`events
      ensures Valid()
      ensures var c := SettersChange(old(url), target); url == c.url && events == old(events) + c.events
      ensures authorization == if url.username != old(url.username) || url.password != old(url.password)
                               then Some(BasicAuth(url.username, url.password))
                               else old(authorization)
    {
      ghost var u0, e0 := url, events;
      SetScheme(target.scheme);
      ghost var c1 := SchemeChange(u0, target.scheme);
      ghost var e1 := e0 + c1.events;
      assert url == c1.url && events == e1;
      SetHost(target.host);
      ghost var c2 := HostChange(c1.url, target.host);
      ghost var e2 := e1 + c2.events;
      assert url == c2.url && events == e2;
      SetPort(target.port);
      ghost var c3 := PortChange(c2.url, target.port);
      ghost var e3 := e2 + c3.events;
      assert url == c3.url && events == e3;
      SetUsername(target.username);
      ghost var c4 := UsernameChange(c3.url, target.username);
      ghost var e4 := e3 + c4.events;
      assert url == c4.url && events == e4;
      SetPassword(target.password);
      ghost var c5 := PasswordChange(c4.url, target.password);
      ghost var e5 := e4 + c5.events;
      assert url == c5.url && events == e5;
      SetPath(target.path);
      ghost var c6 := PathChange(c5.url, target.path);
      assert url == c6.url && events == e5 + c6.events;
      AppendSix(e0, c1.events, c2.events, c3.events, c4.events, c5.events, c6.events);
    }

    method SetUrl(target: Url)
      requires Valid()
      modifies this`url, this`authorization, this`events
      ensures Valid()
      ensures var c := UrlChange(old(url), target); url == c.url && events == old(events) + c.events
      ensures authorization == if url.username != old(url.username) || url.password != old(url.password)
                               then Some(BasicAuth(url.username, url.password))
                               else old(authorization)
    {
      if target != url {
        ghost var e0 := events;
        var oldServer := Server();
        ApplySetters(target);
        ghost var c := SettersChange(old(url), target);
        var newServer := Server();
        var serverEvents := if newServer != oldServer then [ServerChanged(newServer)] else [];
        events := events + serverEvents + [UrlChanged(url)];
        AppendThree(e0, c.events, serverEvents, [UrlChanged(url)]);
      }
    }

    method SetServer(target: Url)
      requires Valid()
      modifies this`url, this`events
      ensures Valid()
      ensures var c := ServerChange(old(url), target); url == c.url && events == old(events) + c.events
    {
      if target != ServerPart(url) {
        ghost var u0, e0 := url, events;
        SetScheme(target.scheme);
        ghost var c1 := SchemeChange(u0, target.scheme);
        SetHost(target.host);
        ghost var c2 := HostChange(c1.url, target.host);
        SetPort(target.port);
        ghost var c3 := PortChange(c2.url, target.port);
        SetPath(target.path);
        ghost var c4 := PathChange(c3.url, target.path);
        assert url == c4.url && events == e0 + c1.events + c2.events + c3.events + c4.events;
        AppendFour(e0, c1.events, c2.events, c3.events, c4.events);
      }
    }

    /** The common gate of get, post, put and del. */
    method Dispatch(verb: Verb, endpoint: Endpoint, body: Body, authenticated: bool) returns (accepted: bool)
      modifies this`runningRequests, this`sent
      ensures accepted == DispatchAccepted(url)
      ensures runningRequests == old(runningRequests) + (if accepted then 1 else 0)
      ensures sent == old(sent) + if accepted then [RequestFor(verb, endpoint, body, authenticated)] else []
    {
      if url.scheme != "" && url.host != "" {
        runningRequests := runningRequests + 1;
        sent := sent + [RequestFor(verb, endpoint, body, authenticated)];
        accepted := true;
      } else {
        accepted := false;
      }
    }

    /** The request built from the anonymous or the authenticated template. */
    function RequestFor(verb: Verb, endpoint: Endpoint, body: Body, authenticated: bool): (r: Request)
      reads this`url, this`authorization, this`anonymousVerifyMode, this`authenticatedVerifyMode
      ensures r.server == Server()
      ensures !authenticated ==> r.authorization.None?
      ensures Valid() && r.authorization.Some? ==> r.authorization == Some(BasicAuth(url.username, url.password))
    {
      if authenticated then Request(verb, Server(), endpoint, body, true, authorization, authenticatedVerifyMode)
      else Request(verb, Server(), endpoint, body, false, None, anonymousVerifyMode)
    }

    method Get(endpoint: Endpoint, authenticated: bool) returns (accepted: bool)
      modifies this`runningRequests, this`sent
      ensures accepted == DispatchAccepted(url)
      ensures runningRequests == old(runningRequests) + (if accepted then 1 else 0)
      ensures sent == old(sent) + if accepted then [RequestFor(GET, endpoint, EmptyBody, authenticated)] else []
    {
      accepted := Dispatch(GET, endpoint, EmptyBody, authenticated);
    }

    method Post(endpoint: Endpoint, body: Body, authenticated: bool) returns (accepted: bool)
      modifies this`runningRequests, this`sent
      ensures accepted == DispatchAccepted(url)
      ensures runningRequests == old(runningRequests) + (if accepted then 1 else 0)
      ensures sent == old(sent) + if accepted then [RequestFor(POST, endpoint, body, authenticated)] else []
    {
      accepted := Dispatch(POST, endpoint, body, authenticated);
    }

    method Put(endpoint: Endpoint, body: Body, authenticated: bool) returns (accepted: bool)
      modifies this`runningRequests, this`sent
      ensures accepted == DispatchAccepted(url)
      ensures runningRequests == old(runningRequests) + (if accepted then 1 else 0)
      ensures sent == old(sent) + if accepted then [RequestFor(PUT, endpoint, body, authenticated)] else []
    {
      accepted := Dispatch(PUT, endpoint, body, authenticated);
    }

    method Del(endpoint: Endpoint, authenticated: bool) returns (accepted: bool)
      modifies this`runningRequests, this`sent
      ensures accepted == DispatchAccepted(url)
      ensures runningRequests == old(runningRequests) + (if accepted then 1 else 0)
      ensures sent == old(sent) + if accepted then [RequestFor(DELETE, endpoint, EmptyBody, authenticated)] else []
    {
      accepted := Dispatch(DELETE, endpoint, EmptyBody, authenticated);
    }

    method GetStatus() returns (accepted: bool)
      modifies this`status, this`events, this`runningRequests, this`sent
      ensures accepted == DispatchAccepted(url)
      ensures status == if accepted then NextcloudBusy else NextcloudFailed
      ensures events == old(events) + [StatusSet(status)]
      ensures runningRequests == old(runningRequests) + (if accepted then 1 else 0)
      ensures sent == old(sent) + if accepted then [RequestFor(GET, StatusEndpoint, EmptyBody, false)] else []
    {
      accepted := Get(StatusEndpoint, false);
      if accepted {
        status := NextcloudBusy;
      } else {
        status := NextcloudFailed;
      }
      events := events + [StatusSet(status)];
    }

    method AbortFlowV2Login()
      modifies this`timerRunning, this`loginUrl, this`pollUrl, this`pollToken, this`loginStatus, this`events
      ensures SessionCleared() && loginStatus == LoginUnknown
      ensures events == old(events) + [LoginStatusSet(LoginUnknown)]
    {
      timerRunning := false;
      loginUrl := EmptyUrl;
      pollUrl := EmptyUrl;
      pollToken := "";
      loginStatus := LoginUnknown;
      events := events + [LoginStatusSet(LoginUnknown)];
    }

    /** The common end of initiateFlowV2Login and pollLoginUrl: the next
        login status when the request was accepted, otherwise Failed and
        then an abort. */
    method FinishLoginStep(accepted: bool, next: LoginStatus)
      modifies this`timerRunning, this`loginUrl, this`pollUrl, this`pollToken, this`loginStatus, this`events
      ensures loginStatus == if accepted then next else LoginUnknown
      ensures !accepted ==> SessionCleared()
      ensures accepted ==> timerRunning == old(timerRunning) && loginUrl == old(loginUrl)
                           && pollUrl == old(pollUrl) && pollToken == old(pollToken)
      ensures events == old(events)
                        + if accepted then [LoginStatusSet(next)]
                          else [LoginStatusSet(LoginFlowV2Failed), LoginStatusSet(LoginUnknown)]
    {
      if accepted {
        loginStatus := next;
        events := events + [LoginStatusSet(loginStatus)];
      } else {
        ghost var e0 := events;
        loginStatus := LoginFlowV2Failed;
        events := events + [LoginStatusSet(loginStatus)];
        AbortFlowV2Login();
        AppendTwo(e0, [LoginStatusSet(LoginFlowV2Failed)], [LoginStatusSet(LoginUnknown)]);
      }
    }

    method InitiateFlowV2Login() returns (accepted: bool)
      modifies this`timerRunning, this`loginUrl, this`pollUrl, this`pollToken, this`loginStatus, this`events
      modifies this`runningRequests, this`sent
      ensures accepted == DispatchAccepted(url)
      ensures loginStatus == if accepted then LoginFlowV2Initiating else LoginUnknown
      ensures FlowInProgress(old(loginStatus)) || !accepted ==> SessionCleared()
      ensures !FlowInProgress(old(loginStatus)) && accepted ==>
                timerRunning == old(timerRunning) && loginUrl == old(loginUrl)
                && pollUrl == old(pollUrl) && pollToken == old(pollToken)
      ensures events == old(events)
                        + (if FlowInProgress(old(loginStatus)) then [LoginStatusSet(LoginUnknown)] else [])
                        + (if accepted then [LoginStatusSet(LoginFlowV2Initiating)]
                           else [LoginStatusSet(LoginFlowV2Failed), LoginStatusSet(LoginUnknown)])
      ensures runningRequests == old(runningRequests) + (if accepted then 1 else 0)
      ensures sent == old(sent) + if accepted then [RequestFor(POST, LoginFlowV2Endpoint, EmptyBody, false)] else []
    {
      if loginStatus == LoginFlowV2Initiating || loginStatus == LoginFlowV2Polling {
        AbortFlowV2Login();
      }
      accepted := Post(LoginFlowV2Endpoint, EmptyBody, false);
      FinishLoginStep(accepted, LoginFlowV2Initiating);
    }

    method PollLoginUrl() returns (accepted: bool)
      modifies this`timerRunning, this`loginUrl, this`pollUrl, this`pollToken, this`loginStatus, this`events
      modifies this`runningRequests, this`sent
      ensures accepted == DispatchAccepted(url)
      ensures loginStatus == if accepted then LoginFlowV2Polling else LoginUnknown
      ensures !accepted ==> SessionCleared()
      ensures accepted ==> timerRunning == old(timerRunning) && loginUrl == old(loginUrl)
                           && pollUrl == old(pollUrl) && pollToken == old(pollToken)
      ensures events == old(events)
                        + if accepted then [LoginStatusSet(LoginFlowV2Polling)]
                          else [LoginStatusSet(LoginFlowV2Failed), LoginStatusSet(LoginUnknown)]
      ensures runningRequests == old(runningRequests) + (if accepted then 1 else 0)
      ensures sent == old(sent) + if accepted
                                  then [RequestFor(POST, PollEndpoint(old(pollUrl).path), TokenForm(old(pollToken)), false)]
                                  else []
    {
      accepted := Post(PollEndpoint(pollUrl.path), TokenForm(pollToken), false);
      FinishLoginStep(accepted, LoginFlowV2Polling);
    }

    method VerifyLogin() returns (accepted: bool)
      modifies this`runningRequests, this`sent
      ensures accepted == DispatchAccepted(url)
      ensures runningRequests == old(runningRequests) + (if accepted then 1 else 0)
      ensures sent == old(sent) + if accepted then [RequestFor(GET, UserCapabilitiesEndpoint(url.username), EmptyBody, true)] else []
    {
      accepted := Get(UserCapabilitiesEndpoint(url.username), true);
    }

    method GetAppPassword() returns (accepted: bool)
      modifies this`runningRequests, this`sent
      ensures accepted == DispatchAccepted(url)
      ensures runningRequests == old(runningRequests) + (if accepted then 1 else 0)
      ensures sent == old(sent) + if accepted then [RequestFor(GET, GetAppPasswordEndpoint, EmptyBody, true)] else []
    {
      accepted := Get(GetAppPasswordEndpoint, true);
    }

    method DeleteAppPassword() returns (accepted: bool)
      modifies this`runningRequests, this`sent
      ensures accepted == DispatchAccepted(url)
      ensures runningRequests == old(runningRequests) + (if accepted then 1 else 0)
      ensures sent == old(sent) + if accepted then [RequestFor(DELETE, DeleteAppPasswordEndpoint, EmptyBody, true)] else []
    {
      accepted := Del(DeleteAppPasswordEndpoint, true);
    }
  }
}
