/** The reverse-proxy handler of internal/handler/proxy.go. Every request
    that is not for the proxy's own pages passes through `ServeHTTP`: the
    session cookie is decoded, the requested host is looked up among the
    configured backends, the user's privilege on it is checked, and the
    request is forwarded to the backend's upstream. The upstream's answer is
    captured in a buffering `ResponseWriter` and then copied to the client.
    Header names are the canonical forms net/http stores them under. */
module HandlerProxy {
  import opened Wrappers
  import opened Strings
  import opened Decimal
  import opened Http
  import opened Config
  import opened Secure
  import opened HandlerRequest
  import opened HandlerResponse
  import GoDuration

  /** The header that tells the upstream which host the client asked for. */
  const OriginalHostHeader: string := "X-Secure-Proxy-Host"
  /** The header that tells the upstream who the user is. */
  const AccountHeader: string := "X-Secure-Proxy-Account"
  const AuthPath: string := "/secure-proxy/auth"
  const StatusBadGateway: int := 502
  const DefaultTimeout: int := 60 * GoDuration.Second

  /** The path suffixes of static assets, whose requests are not logged
      unless the configuration is verbose. */
  const StaticSuffixes: seq<string> :=
    [".js", ".css", ".jpeg", ".bmp", ".jpg", ".png", ".gif", ".svg", ".font", ".ico", ".woff2", ".ttf"]

  /** `ProxyOptions.AuthHandler`: the session record of a request, read from
      its cookies, or why there is none. */
  type AuthHandler = seq<RequestCookie> -> Result<UserAuthInfo, CookieError>

  /** `ProxyOptions`. `authHandler` is `None` for the nil function
      `DefaultOptions` leaves in place; it is filled in when the server is
      wired together. */
  datatype ProxyOptions = ProxyOptions(config: Config, backends: map<string, Backend>,
                                       timeout: int, authHandler: Option<AuthHandler>)

  /** A single-host reverse proxy: the host of the upstream URL it forwards
      to, and the configured host it serves. */
  datatype ReverseProxy = ReverseProxy(gatewayHost: string, backendHost: string)

  /** `ProxyHandler`, without its logger and auth provider, which
      `ServeHTTP` does not consult. */
  datatype ProxyHandler = ProxyHandler(requestTimeout: int, options: ProxyOptions,
                                       reverseProxies: map<string, ReverseProxy>)

  /** The backends by host; of several backends with one host, the last
      in the configuration is kept. */
  function BackendTable(bs: seq<Backend>): (t: map<string, Backend>)
    ensures forall h :: h in t <==> exists i :: 0 <= i < |bs| && bs[i].host == h
    ensures forall h :: h in t ==> t[h].host == h
  {
    if |bs| == 0 then map[]
    else
      var init := bs[..|bs| - 1];
      var last := bs[|bs| - 1];
      assert forall i :: 0 <= i < |init| ==> init[i] == bs[i];
      BackendTable(init)[last.host := last]
  }

  /** Of several backends with one host, the last in the configuration is
      the one kept. */
  lemma {:induction false} BackendTableLastWins(bs: seq<Backend>, i: nat)
    requires i < |bs|
    requires forall j :: i < j < |bs| ==> bs[j].host != bs[i].host
    ensures BackendTable(bs)[bs[i].host] == bs[i]
  {
    if i < |bs| - 1 {
      var init := bs[..|bs| - 1];
      assert forall j :: i < j < |init| ==> init[j] == bs[j];
      BackendTableLastWins(init, i);
      assert init[i] == bs[i];
    }
  }

  /** Every backend is stored under its own host. */
  ghost predicate KeyedByHost(backends: map<string, Backend>) {
    forall h :: h in backends ==> backends[h].host == h
  }

  /** `DefaultOptions`. */
  method DefaultOptions(conf: Config) returns (opts: ProxyOptions)
    ensures opts.backends == BackendTable(conf.backends)
    ensures opts == ProxyOptions(conf, opts.backends, DefaultTimeout, None)
  {
    var backendsMap: map<string, Backend> := map[];
    for i := 0 to |conf.backends|
      invariant backendsMap == BackendTable(conf.backends[..i])
    {
      assert conf.backends[..i + 1][..i] == conf.backends[..i];
      backendsMap := backendsMap[conf.backends[i].host := conf.backends[i]];
    }
    assert conf.backends[..|conf.backends|] == conf.backends;
    return ProxyOptions(conf, backendsMap, DefaultTimeout, None);
  }

  /** The characters that end the authority part of a URL. */
  predicate UrlDelimiter(c: char) {
    c == '/' || c == '?' || c == '#'
  }

  /** The length of the authority at the start of `s`. */
  function AuthorityEnd(s: string): (n: nat)
    ensures n <= |s|
    ensures forall i :: 0 <= i < n ==> !UrlDelimiter(s[i])
    ensures n < |s| ==> UrlDelimiter(s[n])
  {
    if |s| == 0 || UrlDelimiter(s[0]) then 0 else 1 + AuthorityEnd(s[1..])
  }

  /** The `Host` of the URL `url.Parse` makes of an upstream address: what
      follows the scheme, up to the path, query or fragment. */
  function UpstreamHost(url: string): (host: string)
    ensures forall i :: 0 <= i < |host| ==> !UrlDelimiter(host[i])
    ensures var rest := if HasPrefix(url, "http://") then url[7..]
                        else if HasPrefix(url, "https://") then url[8..]
                        else url;
            HasPrefix(rest, host) && (|host| < |rest| ==> UrlDelimiter(rest[|host|]))
  {
    var rest := if HasPrefix(url, "http://") then url[7..]
                else if HasPrefix(url, "https://") then url[8..]
                else url;
    rest[..AuthorityEnd(rest)]
  }

  /** The host of an http or https URL is exactly its authority. */
  lemma UpstreamHostOf(scheme: string, authority: string, rest: string)
    requires scheme == "http://" || scheme == "https://"
    requires forall i :: 0 <= i < |authority| ==> !UrlDelimiter(authority[i])
    requires rest == [] || UrlDelimiter(rest[0])
    ensures UpstreamHost(scheme + authority + rest) == authority
  {
    var url := scheme + authority + rest;
    assert HasPrefix(url, scheme);
    if scheme == "https://" {
      assert url[4] == 's';
    }
    var tail := url[|scheme|..];
    assert tail == authority + rest;
    AuthorityOf(authority, rest);
  }

  lemma {:induction false} AuthorityOf(authority: string, rest: string)
    requires forall i :: 0 <= i < |authority| ==> !UrlDelimiter(authority[i])
    requires rest == [] || UrlDelimiter(rest[0])
    ensures AuthorityEnd(authority + rest) == |authority|
    decreases |authority|
  {
    if |authority| > 0 {
      assert (authority + rest)[1..] == authority[1..] + rest;
      AuthorityOf(authority[1..], rest);
    } else {
      assert authority + rest == rest;
    }
  }

  /** The reverse proxy `NewProxyHandler` builds for a backend. */
  function ProxyFor(b: Backend): (p: ReverseProxy)
    ensures p.backendHost == b.host
  {
    ReverseProxy(UpstreamHost(GetUpstream(b)), b.host)
  }

  /** An upstream written without a scheme, path, query or fragment is the
      host the proxy sends its requests to. */
  lemma BareUpstreamIsGatewayHost(b: Backend)
    requires !HasPrefix(b.upstream, "http://") && !HasPrefix(b.upstream, "https://")
    requires forall i :: 0 <= i < |b.upstream| ==> !UrlDelimiter(b.upstream[i])
    ensures ProxyFor(b).gatewayHost == b.upstream
  {
    UpstreamHostOf("http://", b.upstream, "");
    assert "http://" + b.upstream + "" == "http://" + b.upstream;
  }

  /** The proxy table holds, under each backend's host, the proxy of some
      backend with that host, and nothing else. */
  ghost predicate ProxiesFor(backends: map<string, Backend>, proxies: map<string, ReverseProxy>) {
    && (forall h :: h in proxies <==> exists k :: k in backends && backends[k].host == h)
    && (forall h :: h in proxies ==> exists k :: k in backends && backends[k].host == h && proxies[h] == ProxyFor(backends[k]))
  }

  /** `NewProxyHandler`: one reverse proxy per backend, under the backend's host. */
  method NewProxyHandler(options: ProxyOptions) returns (ph: ProxyHandler)
    ensures ph.options == options && ph.requestTimeout == options.timeout
    ensures ProxiesFor(options.backends, ph.reverseProxies)
  {
    var reverseProxies: map<string, ReverseProxy> := map[];
    var pending := options.backends.Keys;
    while pending != {}
      invariant pending <= options.backends.Keys
      invariant forall h :: h in reverseProxies <==>
                  exists k :: k in options.backends && k !in pending && options.backends[k].host == h
      invariant forall h :: h in reverseProxies ==>
                  exists k :: k in options.backends && k !in pending && options.backends[k].host == h
                              && reverseProxies[h] == ProxyFor(options.backends[k])
      decreases pending
    {
      var k :| k in pending;
      var backend := options.backends[k];
      reverseProxies := reverseProxies[backend.host := ProxyFor(backend)];
      pending := pending - {k};
    }
    return ProxyHandler(options.timeout, options, reverseProxies);
  }

  /** Over backends keyed by their hosts, the proxy table has the same
      hosts, and each proxy serves the backend under its host. */
  lemma ProxiesMatchBackends(backends: map<string, Backend>, proxies: map<string, ReverseProxy>)
    requires KeyedByHost(backends) && ProxiesFor(backends, proxies)
    ensures proxies.Keys == backends.Keys
    ensures forall h :: h in backends ==> proxies[h] == ProxyFor(backends[h])
  {
    forall h | h in backends
      ensures h in proxies && proxies[h] == ProxyFor(backends[h])
    {
      assert backends[h].host == h;
      var k :| k in backends && backends[k].host == h && proxies[h] == ProxyFor(backends[k]);
      assert k == h;
    }
    forall h | h in proxies
      ensures h in backends
    {
      var k :| k in backends && backends[k].host == h;
    }
  }

  /** `DefaultOptions`' table is keyed by host. */
  lemma BackendTableKeyedByHost(bs: seq<Backend>)
    ensures KeyedByHost(BackendTable(bs))
  {
  }

  /** The first comma-separated entry of the real-IP header when one is
      configured and non-empty, otherwise the remote address up to its
      first ':'. */
  function ClientIP(realIPHeader: string, headers: map<string, seq<string>>, remoteAddr: string): (ip: string)
    ensures realIPHeader != "" && Split(FirstValue(headers, realIPHeader), ',')[0] != "" ==>
              ip == Split(FirstValue(headers, realIPHeader), ',')[0]
    ensures (realIPHeader == "" || Split(FirstValue(headers, realIPHeader), ',')[0] == "") ==>
              ip == Split(remoteAddr, ':')[0]
  {
    var fromHeader := if realIPHeader != "" then FirstField(FirstValue(headers, realIPHeader), ',') else "";
    if fromHeader != "" then fromHeader else FirstField(remoteAddr, ':')
  }

  /** The client IP is the start of the real-IP header's value, without a
      ',', or else the start of the remote address, without a ':'; it is
      empty only when the remote address is empty or begins with ':'. */
  lemma ClientIPShape(realIPHeader: string, headers: map<string, seq<string>>, remoteAddr: string)
    ensures var ip := ClientIP(realIPHeader, headers, remoteAddr);
            && ((realIPHeader != "" && ip != "" && HasPrefix(FirstValue(headers, realIPHeader), ip) && ',' !in ip)
                || (HasPrefix(remoteAddr, ip) && ':' !in ip))
            && (ip == "" ==> remoteAddr == "" || remoteAddr[0] == ':')
  {
    var ip := ClientIP(realIPHeader, headers, remoteAddr);
    if ip == "" && remoteAddr != "" {
      assert remoteAddr[|ip|] == ':';
    }
  }

  /** An IPv4 remote address yields its address. */
  lemma IPv4RemoteAddr(addr: string, port: string)
    requires ':' !in addr
    ensures ClientIP("", map[], addr + ":" + port) == addr
  {
    var s := addr + ":" + port;
    assert forall i :: 0 <= i < |addr| ==> s[i] == addr[i];
    assert s[|addr|] == ':';
    assert s[..|addr|] == addr;
  }

  /** An IPv6 remote address, which net/http writes as "[addr]:port",
      yields only its opening bracket. */
  lemma IPv6RemoteAddrTruncated()
    ensures ClientIP("", map[], "[::1]:8080") == "["
  {
    assert Split("[::1]:8080", ':')[0] == "[";
  }

  /** The position of the last `c` in `s`, or -1. */
  function LastIndex(s: string, c: char): (i: int)
    ensures -1 <= i < |s|
    ensures i >= 0 ==> s[i] == c
    ensures forall j :: i < j < |s| ==> s[j] != c
  {
    if |s| == 0 then -1
    else if s[|s| - 1] == c then |s| - 1
    else LastIndex(s[..|s| - 1], c)
  }

  /** The host part of a remote address as `net.SplitHostPort` reads it:
      everything before the last ':', without the brackets of an IPv6
      literal. */
  function RemoteHost(remoteAddr: string): (host: string)
  {
    var colon := LastIndex(remoteAddr, ':');
    var h := if colon < 0 then remoteAddr else remoteAddr[..colon];
    if |h| >= 2 && h[0] == '[' && h[|h| - 1] == ']' then h[1..|h| - 1] else h
  }

  /** The remote host of "host:port" is the host and of "[addr]:port" is
      the address, for IPv4 and IPv6 clients alike. */
  lemma RemoteHostOfAddress(host: string, port: string)
    requires ':' !in port
    ensures ':' !in host && (host == [] || host[0] != '[') ==> RemoteHost(host + ":" + port) == host
    ensures RemoteHost("[" + host + "]:" + port) == host
  {
    var plain := host + ":" + port;
    assert plain[|host|] == ':';
    assert forall j :: |host| < j < |plain| ==> plain[j] == port[j - |host| - 1];
    assert LastIndex(plain, ':') == |host|;
    assert plain[..|host|] == host;
    var bracketed := "[" + host + "]:" + port;
    var n := |host| + 2;
    assert bracketed[n] == ':';
    assert forall j :: n < j < |bracketed| ==> bracketed[j] == port[j - n - 1];
    assert LastIndex(bracketed, ':') == n;
    assert bracketed[..n] == "[" + host + "]";
    assert ("[" + host + "]")[1..n - 1] == host;
  }

  /** The client IP with the remote address read by `RemoteHost`. */
  function CorrectedClientIP(realIPHeader: string, headers: map<string, seq<string>>, remoteAddr: string): (ip: string)
    ensures realIPHeader != "" && FirstField(FirstValue(headers, realIPHeader), ',') != "" ==>
              ip == ClientIP(realIPHeader, headers, remoteAddr)
  {
    var fromHeader := if realIPHeader != "" then FirstField(FirstValue(headers, realIPHeader), ',') else "";
    if fromHeader != "" then fromHeader else RemoteHost(remoteAddr)
  }

  /** Without a forwarding header, the corrected client IP of an IPv6
      client is its address. */
  lemma IPv6ClientIP(addr: string, port: string)
    requires ':' !in port
    ensures CorrectedClientIP("", map[], "[" + addr + "]:" + port) == addr
  {
    RemoteHostOfAddress(addr, port);
  }

  /** `str.HasSuffixes`: whether `s` ends with one of the suffixes. */
  function AnySuffix(s: string, suffixes: seq<string>): (r: bool)
    ensures r <==> exists i :: 0 <= i < |suffixes| && HasSuffix(s, suffixes[i])
  {
    if |suffixes| == 0 then false
    else HasSuffix(s, suffixes[0]) || AnySuffix(s, suffixes[1..])
  }

  /** Whether the request is logged: always when verbose, otherwise unless
      its path names a static asset. */
  function ShouldLog(verbose: bool, path: string): (logged: bool)
    ensures logged <==> verbose || forall i :: 0 <= i < |StaticSuffixes| ==> !HasSuffix(path, StaticSuffixes[i])
  {
    verbose || !AnySuffix(path, StaticSuffixes)
  }

  /** A request for a static asset is logged exactly when verbose. */
  lemma StaticAssetsLoggedOnlyWhenVerbose(verbose: bool, name: string, i: nat)
    requires i < |StaticSuffixes|
    ensures ShouldLog(verbose, name + StaticSuffixes[i]) == verbose
  {
    var s := name + StaticSuffixes[i];
    assert s[|s| - |StaticSuffixes[i]|..] == StaticSuffixes[i];
  }

  /** What `ServeHTTP` does with a request. */
  datatype Decision =
    | AuthRedirect
    | Forbidden(name: string)
    | Unavailable
    | Proxied(user: UserAuthInfo, backend: Backend, proxy: ReverseProxy)

  /** The decision from the session, the backends and the proxy table. */
  function Decide(auth: Result<UserAuthInfo, CookieError>, backends: map<string, Backend>,
                  proxies: map<string, ReverseProxy>, host: string): (d: Decision)
    ensures d.AuthRedirect? <==> auth.Err?
    ensures d.Forbidden? <==>
              auth.Ok? && !(host in backends && Permits(backends[host], auth.value.account, auth.value.groups))
    ensures d.Forbidden? ==> d.name == auth.value.name
    ensures d.Unavailable? <==>
              auth.Ok? && host in backends && Permits(backends[host], auth.value.account, auth.value.groups)
              && host !in proxies
    ensures d.Proxied? <==>
              auth.Ok? && host in backends && Permits(backends[host], auth.value.account, auth.value.groups)
              && host in proxies
    ensures d.Proxied? ==> d == Proxied(auth.value, backends[host], proxies[host])
  {
    if auth.Err? then AuthRedirect
    else if host !in backends || !Permits(backends[host], auth.value.account, auth.value.groups) then
      Forbidden(auth.value.name)
    else if host !in proxies then Unavailable
    else Proxied(auth.value, backends[host], proxies[host])
  }

  /** With the proxy table built from the same backends, a permitted host
      always has its proxy, which serves that very host. */
  lemma ConfiguredHostsAreServed(auth: Result<UserAuthInfo, CookieError>, backends: map<string, Backend>,
                                 proxies: map<string, ReverseProxy>, host: string)
    requires KeyedByHost(backends) && ProxiesFor(backends, proxies)
    ensures !Decide(auth, backends, proxies, host).Unavailable?
    ensures Decide(auth, backends, proxies, host).Proxied? ==>
              Decide(auth, backends, proxies, host).proxy == ProxyFor(backends[host])
              && Decide(auth, backends, proxies, host).proxy.backendHost == host
  {
    ProxiesMatchBackends(backends, proxies);
  }

  /** A request without a valid session cookie is sent to the login page,
      whatever host it is for. */
  lemma NoSessionIsRedirected(cm: CookieManager, cookies: seq<RequestCookie>, backends: map<string, Backend>,
                              proxies: map<string, ReverseProxy>, host: string)
    requires forall i :: 0 <= i < |cookies| ==> cookies[i].name != cm.cookieName
    ensures Decide(cm.Authenticate(cookies), backends, proxies, host) == AuthRedirect
  {
  }

  /** A private backend refuses a user who is neither listed nor in one of
      its groups. */
  lemma StrangerIsForbidden(user: UserAuthInfo, backends: map<string, Backend>,
                            proxies: map<string, ReverseProxy>, host: string)
    requires host in backends && backends[host].privilege == PrivilegePrivate
    requires user.account !in backends[host].users
    requires forall g :: g in user.groups ==> g !in backends[host].groups
    ensures Decide(Ok(user), backends, proxies, host) == Forbidden(user.name)
  {
  }

  /** The page sent when the user may not use the host. */
  function ForbiddenText(name: string, host: string): string {
    "当前用户 " + name + " 没有对域名 " + host + " 的访问权限，请联系管理员。如管理员已经赋予相应权限，请访问 <a href='http://"
      + host + "/secure-proxy'>http://" + host + "/secure-proxy</a> 退出重新登陆后再试"
  }

  /** The page sent when the host has no proxy. */
  function UnavailableText(host: string): string {
    "当前域名 " + host + " 不可用"
  }

  /** The headers of the outgoing request as the director writes them:
      the original host is added after any value the client sent. */
  function DirectedHeaderAsWritten(entries: map<string, seq<string>>, backendHost: string): (r: map<string, seq<string>>)
    ensures Values(r, OriginalHostHeader) == Values(entries, OriginalHostHeader) + [backendHost]
    ensures forall k :: k != OriginalHostHeader ==> Values(r, k) == Values(entries, k)
  {
    Added(entries, OriginalHostHeader, backendHost)
  }

  /** A client that sends its own X-Secure-Proxy-Host header is the one an
      upstream reading the header's value believes. */
  lemma ForgedOriginalHostWins()
    ensures var sent := map[OriginalHostHeader := ["admin.internal"]];
            FirstValue(DirectedHeaderAsWritten(sent, "wiki.example.com"), OriginalHostHeader) == "admin.internal"
  {
  }

  /** The headers of the outgoing request with the original host set, as
      the account header is: the header holds the backend's host alone. */
  function DirectedHeader(entries: map<string, seq<string>>, backendHost: string): (r: map<string, seq<string>>)
    ensures r.Keys == entries.Keys + {OriginalHostHeader}
    ensures Values(r, OriginalHostHeader) == [backendHost]
    ensures FirstValue(r, OriginalHostHeader) == backendHost
    ensures forall k :: k != OriginalHostHeader ==> Values(r, k) == Values(entries, k)
  {
    entries[OriginalHostHeader := [backendHost]]
  }

  /** The code as written and the correction send the same headers exactly
      when the client sent no original-host header of its own. */
  lemma {:induction false} AsWrittenAgreesWithoutClientHeader(entries: map<string, seq<string>>, backendHost: string)
    ensures DirectedHeaderAsWritten(entries, backendHost) == DirectedHeader(entries, backendHost)
            <==> Values(entries, OriginalHostHeader) == []
  {
    var written := DirectedHeaderAsWritten(entries, backendHost);
    if Values(entries, OriginalHostHeader) == [] {
      assert [] + [backendHost] == [backendHost];
      assert written == entries[OriginalHostHeader := [backendHost]];
    }
  }

  /** As written, an upstream reading the header's first value gets the
      client's own value whenever the client sent one. */
  lemma UpstreamReadsClientValueFirst(entries: map<string, seq<string>>, backendHost: string)
    ensures FirstValue(DirectedHeaderAsWritten(entries, backendHost), OriginalHostHeader)
            == if Values(entries, OriginalHostHeader) == [] then backendHost
               else Values(entries, OriginalHostHeader)[0]
  {
  }

  /** Whatever the client sends, the upstream is told the host it serves
      and the account of the session, and every other header is passed on. */
  lemma OutgoingHeadersCannotBeForged(entries: map<string, seq<string>>, account: string, backendHost: string)
    ensures var out := DirectedHeader(entries[AccountHeader := [account]], backendHost);
            && FirstValue(out, OriginalHostHeader) == backendHost
            && Values(out, AccountHeader) == [account]
            && forall k :: k != OriginalHostHeader && k != AccountHeader ==> Values(out, k) == Values(entries, k)
  {
  }

  /** The request the reverse proxy sends upstream: its Host, headers and body. */
  datatype Outbound = Outbound(host: string, header: map<string, seq<string>>, body: seq<byte>)

  /** What the upstream does: answer, or fail (refuse the connection, or
      not answer before the request's deadline). */
  datatype UpstreamReply =
    | Answered(header: map<string, seq<string>>, status: int, body: seq<byte>)
    | Unreachable

  /** Header values appended name by name, as `Header.Add` in a loop does:
      the values of `from` follow those of `into`, and a name whose list in
      `from` is empty is not created. */
  function Merged(into: map<string, seq<string>>, from: map<string, seq<string>>): (r: map<string, seq<string>>)
    ensures forall k :: Values(r, k) == Values(into, k) + Values(from, k)
    ensures forall k :: k in r <==> k in into || Values(from, k) != []
  {
    map k | k in into.Keys + from.Keys && (k in into || from[k] != []) :: Values(into, k) + Values(from, k)
  }

  /** `src` without the names still pending. */
  function Without(src: map<string, seq<string>>, pending: set<string>): (r: map<string, seq<string>>)
    ensures forall k :: Values(r, k) == if k in pending then [] else Values(src, k)
  {
    map k | k in src && k !in pending :: src[k]
  }

  /** `entries` after adding the values `vs` under `key` one by one. */
  function AddedAll(entries: map<string, seq<string>>, key: string, vs: seq<string>): (r: map<string, seq<string>>)
    ensures Values(r, key) == Values(entries, key) + vs
    ensures forall k :: k != key ==> Values(r, k) == Values(entries, k)
    ensures forall k :: k in r <==> k in entries || (k == key && vs != [])
  {
    if vs == [] then entries else entries[key := Values(entries, key) + vs]
  }

  /** Two header maps with the same names and values are equal. */
  lemma SameEntries(a: map<string, seq<string>>, b: map<string, seq<string>>)
    requires forall k :: k in a <==> k in b
    requires forall k :: Values(a, k) == Values(b, k)
    ensures a == b
  {
    forall k | k in a ensures a[k] == b[k] {
      assert Values(a, k) == Values(b, k);
    }
  }

  /** Merging names that hold no values changes nothing. */
  lemma MergedNothing(into: map<string, seq<string>>, from: map<string, seq<string>>)
    requires forall k :: Values(from, k) == []
    ensures Merged(into, from) == into
  {
    SameEntries(Merged(into, from), into);
  }

  lemma AddedAllStep(entries: map<string, seq<string>>, key: string, vs: seq<string>, v: string)
    ensures AddedAll(entries, key, vs + [v]) == Added(AddedAll(entries, key, vs), key, v)
  {
    assert Values(entries, key) + vs + [v] == Values(entries, key) + (vs + [v]);
  }

  /** Adding one pending name's values completes its merge. */
  lemma MergedStep(into: map<string, seq<string>>, src: map<string, seq<string>>, pending: set<string>, key: string)
    requires key in pending && pending <= src.Keys
    ensures AddedAll(Merged(into, Without(src, pending)), key, src[key]) == Merged(into, Without(src, pending - {key}))
  {
    var before := Without(src, pending);
    var after := Without(src, pending - {key});
    var l := AddedAll(Merged(into, before), key, src[key]);
    var r := Merged(into, after);
    forall k ensures k in l <==> k in r {
      MergedStepAt(into, src, pending, key, k);
    }
    forall k ensures Values(l, k) == Values(r, k) {
      MergedStepAt(into, src, pending, key, k);
    }
    SameEntries(l, r);
  }

  lemma MergedStepAt(into: map<string, seq<string>>, src: map<string, seq<string>>, pending: set<string>,
                     key: string, k: string)
    requires key in pending && pending <= src.Keys
    ensures var l := AddedAll(Merged(into, Without(src, pending)), key, src[key]);
            var r := Merged(into, Without(src, pending - {key}));
            (k in l <==> k in r) && Values(l, k) == Values(r, k)
  {
    var before := Without(src, pending);
    var after := Without(src, pending - {key});
    var m := Merged(into, before);
    var l := AddedAll(m, key, src[key]);
    if k != key {
      assert Values(after, k) == Values(before, k);
      assert Values(l, k) == Values(m, k);
      assert k in l <==> k in m;
    } else {
      assert Values(before, key) == [];
      assert Values(after, key) == src[key];
      assert Values(m, key) == Values(into, key);
      assert Values(l, key) == Values(into, key) + src[key];
    }
  }

  /** The inner copy loop: the values are added under one name in order. */
  method AddValues(dst: Header, key: string, vs: seq<string>)
    modifies dst
    ensures dst.entries == AddedAll(old(dst.entries), key, vs)
  {
    for j := 0 to |vs|
      invariant dst.entries == AddedAll(old(dst.entries), key, vs[..j])
    {
      AddedAllStep(old(dst.entries), key, vs[..j], vs[j]);
      assert vs[..j + 1] == vs[..j] + [vs[j]];
      dst.Add(key, vs[j]);
    }
    assert vs[..|vs|] == vs;
  }

  /** The header copy loop: every value of `src` is added to `dst`. */
  method CopyHeader(dst: Header, src: map<string, seq<string>>)
    modifies dst
    ensures dst.entries == Merged(old(dst.entries), src)
  {
    var pending := src.Keys;
    MergedNothing(dst.entries, Without(src, pending));
    while pending != {}
      invariant pending <= src.Keys
      invariant dst.entries == Merged(old(dst.entries), Without(src, pending))
      decreases pending
    {
      var k :| k in pending;
      AddValues(dst, k, src[k]);
      MergedStep(old(dst.entries), src, pending, k);
      pending := pending - {k};
    }
    assert Without(src, {}) == src;
  }

  /** The reverse proxy writing the upstream's answer into the buffering
      writer: headers added, status recorded, body appended; a failed
      upstream is answered with 502 Bad Gateway and nothing else. */
  method Relay(target: ResponseWriter, reply: UpstreamReply)
    requires target.buffer.Some?
    modifies target, target.headers
    ensures target.headers == old(target.headers)
    ensures reply.Unreachable? ==>
              && target.headers.entries == old(target.headers.entries)
              && target.statusCode == StatusBadGateway && target.buffer == old(target.buffer)
    ensures reply.Answered? ==>
              && target.headers.entries == Merged(old(target.headers.entries), reply.header)
              && target.statusCode == reply.status
              && target.buffer == Some(old(target.buffer.value) + reply.body)
  {
    if reply.Unreachable? {
      target.WriteHeader(StatusBadGateway);
      return;
    }
    var h := target.Header();
    CopyHeader(h, reply.header);
    target.WriteHeader(reply.status);
    var _ := target.Write(reply.body);
  }

  /** The end of `ServeHTTP`: the captured headers are added to the
      client's, Content-Length is set to the captured body's length, a
      positive captured status is sent, and the body is written. */
  method Finish(writer: ClientWriter, target: ResponseWriter)
    requires target.buffer.Some?
    requires writer.header != target.headers
    modifies writer, writer.header
    ensures writer.header.entries ==
              Merged(old(writer.header.entries), target.headers.entries)
                ["Content-Length" := [Itoa(|target.buffer.value|)]]
    ensures writer.status == if old(writer.status) != 0 then old(writer.status)
                             else if target.statusCode > 0 then target.statusCode
                             else StatusOK
    ensures writer.body == old(writer.body) + target.buffer.value
    ensures writer.cookies == old(writer.cookies)
  {
    var body := target.buffer.value;
    CopyHeader(writer.header, target.headers.entries);
    writer.header.Set("Content-Length", Itoa(|body|));
    if target.statusCode > 0 {
      writer.WriteHeader(target.statusCode);
    }
    var _ := writer.Write(body);
  }

  /** The headers, status and body the buffering writer holds after the
      reverse proxy has relayed `reply` into a fresh one. */
  function CapturedHeader(reply: UpstreamReply): map<string, seq<string>> {
    if reply.Answered? then Merged(map[], reply.header) else map[]
  }

  function CapturedStatus(reply: UpstreamReply): int {
    if reply.Answered? then reply.status else StatusBadGateway
  }

  function CapturedBody(reply: UpstreamReply): seq<byte> {
    if reply.Answered? then reply.body else []
  }

  /** A fresh buffering writer with the upstream's answer relayed into it. */
  method Capture(reply: UpstreamReply, now: int) returns (target: ResponseWriter)
    ensures fresh(target) && fresh(target.headers)
    ensures target.headers.entries == CapturedHeader(reply)
    ensures target.statusCode == CapturedStatus(reply)
    ensures target.buffer == Some(CapturedBody(reply))
  {
    target := new ResponseWriter(now);
    Relay(target, reply);
    if reply.Answered? {
      assert [] + reply.body == reply.body;
    }
  }

  /** The client got the captured answer, as `Finish` sends it. */
  twostate predicate Relayed(writer: ClientWriter, reply: UpstreamReply)
    reads writer, writer.header
  {
    && writer.header.entries ==
         Merged(old(writer.header.entries), CapturedHeader(reply))
           ["Content-Length" := [Itoa(|CapturedBody(reply)|)]]
    && writer.status == (if old(writer.status) != 0 then old(writer.status)
                         else if CapturedStatus(reply) > 0 then CapturedStatus(reply)
                         else StatusOK)
    && writer.body == old(writer.body) + CapturedBody(reply)
    && writer.cookies == old(writer.cookies)
  }

  /** The client got an HTML page with this status and text. */
  twostate predicate Refused(writer: ClientWriter, code: int, text: string)
    reads writer, writer.header
  {
    && writer.header.entries == old(writer.header.entries)["Content-Type" := [HtmlContentType]]
    && writer.status == (if old(writer.status) == 0 then code else old(writer.status))
    && writer.body == old(writer.body) + Utf8(text)
    && writer.cookies == old(writer.cookies)
  }

  /** The header the client receives holds every value the upstream sent,
      after those already set, and the length of the body it receives. */
  lemma RelayedHeadersKeepUpstreamValues(into: map<string, seq<string>>, reply: UpstreamReply, k: string)
    requires reply.Answered? && k != "Content-Length"
    ensures Values(Merged(into, CapturedHeader(reply))["Content-Length" := [Itoa(|CapturedBody(reply)|)]], k)
            == Values(into, k) + Values(reply.header, k)
  {
  }

  /** An unreachable upstream reaches the client as an empty 502 answer. */
  lemma UnreachableIsBadGateway(into: map<string, seq<string>>)
    ensures CapturedStatus(Unreachable) == StatusBadGateway && CapturedBody(Unreachable) == []
    ensures Merged(into, CapturedHeader(Unreachable))["Content-Length" := ["0"]]
            == into["Content-Length" := ["0"]]
  {
    MergedNothing(into, map[]);
  }

  /** Sends an HTML page with this status and text. */
  method Refuse(writer: ClientWriter, code: int, text: string)
    requires code != 0
    modifies writer, writer.header
    ensures Refused(writer, code, text)
  {
    writer.header.Set("Content-Type", HtmlContentType);
    writer.WriteHeader(code);
    var _ := writer.Write(Utf8(text));
  }

  /** The request body around the forwarding: read into memory, handed to
      the transport, which reads and closes it, and put back as a fresh
      reader over the same bytes. */
  method SendBody(request: Request) returns (data: seq<byte>)
    modifies request, request.body
    ensures data == old(request.body.unread)
    ensures fresh(request.body) && request.body.unread == data && !request.body.closed
    ensures request.header == old(request.header) && request.host == old(request.host)
    ensures request.cookies == old(request.cookies)
  {
    data := ExtractBodyFromRequest(request);
    var _ := request.body.ReadAll();
    request.body.Close();
    request.body := new Body(data);
  }

  /** The forwarding half of `ServeHTTP`: the account header is set on
      the request, its body is read so it can be read again, the reverse
      proxy sends a copy of it upstream, and the captured answer is
      passed on to the client. */
  method Forward(ph: ProxyHandler, writer: ClientWriter, request: Request, user: UserAuthInfo,
                 rp: ReverseProxy, reply: UpstreamReply, now: int)
    returns (out: Outbound)
    requires writer.header != request.header
    modifies writer, writer.header, request, request.header, request.body
    ensures request.header == old(request.header) && request.host == old(request.host)
    ensures request.cookies == old(request.cookies)
    ensures request.header.entries == old(request.header.entries)[AccountHeader := [user.account]]
    ensures out == Outbound(rp.gatewayHost, DirectedHeaderAsWritten(request.header.entries, rp.backendHost),
                            old(request.body.unread))
    ensures fresh(request.body) && request.body.unread == old(request.body.unread) && !request.body.closed
    ensures Relayed(writer, reply)
  {
    request.header.Set(AccountHeader, user.account);
    // The reverse proxy clones the request, headers included, and directs
    // the clone; the body is shared and read by the transport.
    var requestBody := SendBody(request);
    out := Outbound(rp.gatewayHost, DirectedHeaderAsWritten(request.header.entries, rp.backendHost), requestBody);
    var target := Capture(reply, now);
    Finish(writer, target);
  }

  /** What the client and the upstream got for a decision: the login
      redirect, a 403 or 400 page, or the request forwarded with the
      account set and the headers as the director writes them, and the
      relayed answer. Only a forwarded request is changed. */
  twostate predicate Served(writer: ClientWriter, request: Request, reply: UpstreamReply, d: Decision,
                            new forwarded: Option<Outbound>)
    reads *
  {
    && (!d.Proxied? ==>
          && forwarded.None?
          && request.header.entries == old(request.header.entries)
          && request.body == old(request.body) && request.body.unread == old(request.body.unread))
    && (d.AuthRedirect? ==>
          && Redirected(writer, old(request.httpMethod), AuthPath, StatusSeeOther)
          && writer.cookies == old(writer.cookies))
    && (d.Forbidden? ==> Refused(writer, StatusForbidden, ForbiddenText(d.name, old(request.host))))
    && (d.Unavailable? ==> Refused(writer, StatusBadRequest, UnavailableText(old(request.host))))
    && (d.Proxied? ==>
          && request.header.entries == old(request.header.entries)[AccountHeader := [d.user.account]]
          && forwarded == Some(Outbound(d.proxy.gatewayHost,
                                        DirectedHeaderAsWritten(request.header.entries, d.proxy.backendHost),
                                        old(request.body.unread)))
          && fresh(request.body) && request.body.unread == old(request.body.unread)
          && !request.body.closed
          && Relayed(writer, reply))
  }

  /** `ProxyHandler.ServeHTTP`, for a request and the upstream's answer.
      `forwarded` is the request sent upstream, if one was; `logged` tells
      whether the request log is written when the handler returns. */
  method ServeHTTP(ph: ProxyHandler, writer: ClientWriter, request: Request, reply: UpstreamReply, now: int)
    returns (forwarded: Option<Outbound>, logged: bool)
    requires ph.options.authHandler.Some?
    requires writer.header != request.header
    modifies writer, writer.header, request, request.header, request.body
    ensures request.header == old(request.header) && request.host == old(request.host)
    ensures request.cookies == old(request.cookies)
    ensures logged <==> ph.options.authHandler.value(old(request.cookies)).Ok?
                        && ShouldLog(ph.options.config.verbose, old(request.path))
    ensures Served(writer, request, reply,
                   Decide(ph.options.authHandler.value(old(request.cookies)), ph.options.backends,
                          ph.reverseProxies, old(request.host)),
                   forwarded)
  {
    var auth := ph.options.authHandler.value(request.cookies);
    if auth.Err? {
      writer.Redirect(request.httpMethod, AuthPath, StatusSeeOther);
      return None, false;
    }
    logged := ShouldLog(ph.options.config.verbose, request.path);
    forwarded := Admit(ph, writer, request, auth.value, reply, now);
  }

  /** The part of `ServeHTTP` after the session was found: the privilege
      check, the proxy lookup and the forwarding. */
  method Admit(ph: ProxyHandler, writer: ClientWriter, request: Request, user: UserAuthInfo,
               reply: UpstreamReply, now: int)
    returns (forwarded: Option<Outbound>)
    requires writer.header != request.header
    modifies writer, writer.header, request, request.header, request.body
    ensures request.header == old(request.header) && request.host == old(request.host)
    ensures request.cookies == old(request.cookies)
    ensures Served(writer, request, reply, Decide(Ok(user), ph.options.backends, ph.reverseProxies, old(request.host)),
                   forwarded)
  {
    var host := request.host;
    var allowed := false;
    if host in ph.options.backends {
      allowed := HasPrivilege(ph.options.backends[host], user);
    }
    if !allowed {
      Refuse(writer, StatusForbidden, ForbiddenText(user.name, host));
      return None;
    }
    if host !in ph.reverseProxies {
      Refuse(writer, StatusBadRequest, UnavailableText(host));
      return None;
    }
    var out := Forward(ph, writer, request, user, ph.reverseProxies[host], reply, now);
    return Some(out);
  }
}
