/** The login and logout handlers of internal/handler/auth.go. A login form
    carries k0 (the user type), k1 (the user name) and k2 (the password); the
    handler normalises them, settles the user type from the configured auth
    type, consults the login-rate store, asks the auth provider, and answers
    with a redirect and, on success, the session cookie. */
module HandlerAuth {
  import opened Wrappers
  import opened Strings
  import opened Http
  import opened Auth
  import opened Config
  import opened Secure
  import MemoryCache
  import opened Store
  import LdapLocal

  const MsgEmptyCredentials: string := "用户名或密码不能为空"
  const MsgBadParameters: string := "请求参数有误"
  const MsgWrongCredentials: string := "用户名或密码错误"

  /** The login page address the handler redirects to after a refusal; the
      values are put in the query as they are, without escaping. */
  function LoginPage(k1: string, k0: string, message: string): string
  {
    "/secure-proxy/auth?k1=" + k1 + "&k0=" + k0 + "&error=" + message
  }

  /** The user name after trimming white space and, when a suffix to ignore
      is configured, removing one occurrence of it. */
  function Username(raw: string, ignoreSuffix: string): (username: string)
    ensures HasSuffix(TrimSpace(raw), ignoreSuffix) ==> username + ignoreSuffix == TrimSpace(raw)
    ensures !HasSuffix(TrimSpace(raw), ignoreSuffix) ==> username == TrimSpace(raw)
  {
    var trimmed := TrimSpace(raw);
    if ignoreSuffix != "" then TrimSuffix(trimmed, ignoreSuffix)
    else assert trimmed + "" == trimmed; trimmed
  }

  /** A name that ends in the suffix twice keeps one: the suffix is removed
      once, from the end. */
  lemma {:induction false} UsernameSuffixRemovedOnce(raw: string, base: string, ignoreSuffix: string)
    requires TrimSpace(raw) == base + ignoreSuffix + ignoreSuffix
    ensures Username(raw, ignoreSuffix) == base + ignoreSuffix
  {
    var u := Username(raw, ignoreSuffix);
    var t := TrimSpace(raw);
    assert t[|t| - |ignoreSuffix|..] == ignoreSuffix;
    assert u + ignoreSuffix == (base + ignoreSuffix) + ignoreSuffix;
    assert u == (u + ignoreSuffix)[..|u|];
  }

  /** The user type the handler settles on, or `None` when it redirects for a
      bad parameter: "ldap" mode forces ldap, "misc" mode takes k0 if it is
      local or ldap, any other mode forces local. */
  function ResolveUserType(authType: string, k0: string): (r: Option<string>)
    ensures r.Some? ==> r.value == "local" || r.value == "ldap"
    ensures authType == "ldap" ==> r == Some("ldap")
    ensures authType == "misc" ==> (r.Some? <==> k0 == "local" || k0 == "ldap")
    ensures authType == "misc" && r.Some? ==> r.value == k0
    ensures authType != "ldap" && authType != "misc" ==> r == Some("local")
  {
    if authType == "ldap" then Some("ldap")
    else if authType == "misc" then
      if k0 == "local" || k0 == "ldap" then Some(k0) else None
    else Some("local")
  }

  /** The account passed to the provider: "misc" mode qualifies the user name
      with the user type. */
  function LoginAccount(authType: string, userType: string, username: string): (account: string)
    ensures authType == "misc" ==> account == userType + ":" + username
    ensures authType != "misc" ==> account == username
  {
    if authType == "misc" then userType + ":" + username else username
  }

  /** In "misc" mode the qualified account sends the composite provider
      straight to the chosen provider, with the bare user name. */
  lemma MiscAccountSelectsProvider(k0: string, username: string)
    requires ResolveUserType("misc", k0).Some?
    ensures var account := LoginAccount("misc", ResolveUserType("misc", k0).value, username);
            && (k0 == "local" ==> LdapLocal.RouteOf(account) == LdapLocal.LocalOnly(username))
            && (k0 == "ldap" ==> LdapLocal.RouteOf(account) == LdapLocal.LdapOnly(username))
  {
    var account := LoginAccount("misc", k0, username);
    if k0 == "local" {
      assert account[..|LdapLocal.LocalPrefix|] == LdapLocal.LocalPrefix;
      assert account[|LdapLocal.LocalPrefix|..] == username;
    } else {
      assert account[..|LdapLocal.LdapPrefix|] == LdapLocal.LdapPrefix;
      assert account[|LdapLocal.LdapPrefix|..] == username;
      assert account[1] != LdapLocal.LocalPrefix[1];
    }
  }

  /** What the handler sends back: a 303 redirect, or a 500 with a message. */
  datatype Response = Redirect(location: string) | ServerError(message: string)

  /** Everything a login request changes: the response, the cookie set (if
      any) and the cache behind the store. */
  datatype LoginResult = LoginResult(response: Response, cookie: Option<Cookie>, cache: MemoryCache.Store)

  /** The session record written for a user the provider accepted. */
  function SessionRecord(u: AuthedUser, host: string, now: int): (info: UserAuthInfo)
  {
    UserAuthInfo(u.userType, u.account, u.uuid, u.name, u.groups, host, now)
  }

  /** The login handler from the rate check on, once the user name, the
      password and the user type are settled. */
  function Attempt(conf: Config, author: Provider, cm: CookieManager, m: MemoryCache.Store,
                   userType: string, username: string, password: string, host: string, now: int): (r: LoginResult)
    ensures r.cookie.Some? ==> r.response == Redirect("/")
    ensures r.response.ServerError? ==> r.cookie.None? && r.cache == m
  {
    match CanLogin(m, userType, username, now)
    case Fail(err) =>
      LoginResult(Redirect(LoginPage(username, userType, RefusalText(err.retryAfter))), None, m)
    case Pass =>
      match author.login(LoginAccount(conf.authType, userType, username), password)
      case Err(_) =>
        var m' := match Attempted(m, userType, username, now)
                  case Ok(counted) => counted
                  case Err(_) => m;
        LoginResult(Redirect(LoginPage(username, userType, MsgWrongCredentials)), None, m')
      case Ok(u) =>
        match cm.SessionCookie(SessionRecord(u, host, now))
        case Err(e) => LoginResult(ServerError("Internal Server Error: " + e.message), None, m)
        case Ok(c) => LoginResult(Redirect("/"), Some(c), m)
  }

  /** The login handler as a function of the form, the request host, the
      cache contents and the clock. */
  function LoginFlow(conf: Config, author: Provider, cm: CookieManager, m: MemoryCache.Store,
                     form: map<string, string>, host: string, now: int): (r: LoginResult)
    ensures r.cookie.Some? ==> r.response == Redirect("/")
    ensures r.response.ServerError? ==> r.cookie.None? && r.cache == m
  {
    var k0 := FormField(form, "k0");
    var username := Username(FormField(form, "k1"), conf.users.ignoreAccountSuffix);
    var password := TrimSpace(FormField(form, "k2"));
    if username == "" || password == "" then
      LoginResult(Redirect(LoginPage(username, k0, MsgEmptyCredentials)), None, m)
    else match ResolveUserType(conf.authType, k0)
      case None => LoginResult(Redirect(LoginPage(username, k0, MsgBadParameters)), None, m)
      case Some(userType) => Attempt(conf, author, cm, m, userType, username, password, host, now)
  }

  /** What a handler has sent on `rw` since the start of the call: the cookie,
      if any, then a redirect or a 500 with its message. */
  twostate predicate Sent(rw: ClientWriter, requestMethod: string, response: Response, cookie: Option<Cookie>)
    reads rw, rw.header
  {
    && rw.cookies == old(rw.cookies) + (if cookie.Some? then [cookie.value] else [])
    && (response.Redirect? ==>
          Redirected(rw, requestMethod, response.location, StatusSeeOther))
    && (response.ServerError? ==>
          && rw.header.entries == old(rw.header.entries)
          && rw.status == (if old(rw.status) == 0 then StatusInternalServerError else old(rw.status))
          && rw.body == old(rw.body) + Utf8(response.message))
  }

  /** A 303 redirect without a cookie, as `Sent` describes it. */
  method SendRedirect(rw: ClientWriter, requestMethod: string, location: string)
    modifies rw, rw.header
    ensures Sent(rw, requestMethod, Redirect(location), None)
  {
    rw.Redirect(requestMethod, location, StatusSeeOther);
  }

  /** The part of the login handler from the rate check on. */
  method TryLogin(conf: Config, author: Provider, cm: CookieManager, store: DefaultStore,
                  rw: ClientWriter, requestMethod: string, userType: string, username: string, password: string, host: string, now: int)
    modifies rw, rw.header, store.cacheDriver
    ensures var res := Attempt(conf, author, cm, old(store.cacheDriver.data), userType, username, password, host, now);
            store.cacheDriver.data == res.cache && Sent(rw, requestMethod, res.response, res.cookie)
  {
    var canLogin := store.UserCanLogin(userType, username, now);
    if canLogin.Fail? {
      rw.Redirect(requestMethod, LoginPage(username, userType, RefusalText(canLogin.error.retryAfter)), StatusSeeOther);
      return;
    }
    var account := username;
    if conf.authType == "misc" {
      account := userType + ":" + username;
    }
    var authed := author.login(account, password);
    if authed.Err? {
      var _ := store.UserLoginAttempt(userType, username, now);
      rw.Redirect(requestMethod, LoginPage(username, userType, MsgWrongCredentials), StatusSeeOther);
      return;
    }
    var u := authed.value;
    var info := UserAuthInfo(u.userType, u.account, u.uuid, u.name, u.groups, host, now);
    var cookieErr := cm.SetCookie(rw, info);
    if cookieErr.Fail? {
      rw.WriteHeader(StatusInternalServerError);
      var _ := rw.Write(Utf8("Internal Server Error: " + cookieErr.error.message));
      return;
    }
    rw.Redirect(requestMethod, "/", StatusSeeOther);
  }

  /** `buildLoginHandler`'s closure. */
  method Login(conf: Config, author: Provider, cm: CookieManager, store: DefaultStore,
               rw: ClientWriter, r: Request, now: int)
    modifies rw, rw.header, store.cacheDriver
    ensures var res := LoginFlow(conf, author, cm, old(store.cacheDriver.data), r.form, r.host, now);
            store.cacheDriver.data == res.cache && Sent(rw, r.httpMethod, res.response, res.cookie)
  {
    var userType := r.FormValue("k0");
    var username := TrimSpace(r.FormValue("k1"));
    var password := TrimSpace(r.FormValue("k2"));
    if conf.users.ignoreAccountSuffix != "" {
      username := TrimSuffix(username, conf.users.ignoreAccountSuffix);
    }
    ghost var k0 := userType;
    ghost var m := store.cacheDriver.data;
    assert username == Username(FormField(r.form, "k1"), conf.users.ignoreAccountSuffix);
    if username == "" || password == "" {
      assert LoginFlow(conf, author, cm, m, r.form, r.host, now)
             == LoginResult(Redirect(LoginPage(username, k0, MsgEmptyCredentials)), None, m);
      SendRedirect(rw, r.httpMethod, LoginPage(username, userType, MsgEmptyCredentials));
      return;
    }
    assert LoginFlow(conf, author, cm, m, r.form, r.host, now)
           == match ResolveUserType(conf.authType, k0)
              case None => LoginResult(Redirect(LoginPage(username, k0, MsgBadParameters)), None, m)
              case Some(t) => Attempt(conf, author, cm, m, t, username, password, r.host, now);
    ResolveAndTry(conf, author, cm, store, rw, r.httpMethod, userType, username, password, r.host, now);
  }

  /** The login handler once the user name and password are non-empty: the
      user type is settled from the auth type and k0, or the request is
      redirected for a bad parameter. */
  method ResolveAndTry(conf: Config, author: Provider, cm: CookieManager, store: DefaultStore,
                       rw: ClientWriter, requestMethod: string, k0: string, username: string, password: string,
                       host: string, now: int)
    modifies rw, rw.header, store.cacheDriver
    ensures var m := old(store.cacheDriver.data);
            var res := match ResolveUserType(conf.authType, k0)
                       case None => LoginResult(Redirect(LoginPage(username, k0, MsgBadParameters)), None, m)
                       case Some(userType) => Attempt(conf, author, cm, m, userType, username, password, host, now);
            store.cacheDriver.data == res.cache && Sent(rw, requestMethod, res.response, res.cookie)
  {
    var userType := k0;
    if conf.authType == "ldap" {
      userType := "ldap";
    } else if conf.authType == "misc" {
      if !(userType == "local" || userType == "ldap") {
        SendRedirect(rw, requestMethod, LoginPage(username, userType, MsgBadParameters));
        return;
      }
    } else {
      userType := "local";
    }
    assert ResolveUserType(conf.authType, k0) == Some(userType);
    TryLogin(conf, author, cm, store, rw, requestMethod, userType, username, password, host, now);
  }

  /** An empty user name or password is refused before the user type, the
      store or the provider is looked at, echoing the raw k0. */
  lemma EmptyCredentialsRefusedFirst(conf: Config, author: Provider, cm: CookieManager, m: MemoryCache.Store,
                                     form: map<string, string>, host: string, now: int)
    requires var username := Username(FormField(form, "k1"), conf.users.ignoreAccountSuffix);
             username == "" || TrimSpace(FormField(form, "k2")) == ""
    ensures LoginFlow(conf, author, cm, m, form, host, now)
            == LoginResult(Redirect(LoginPage(Username(FormField(form, "k1"), conf.users.ignoreAccountSuffix),
                                              FormField(form, "k0"), MsgEmptyCredentials)), None, m)
  {
  }

  /** A rate-limited login is refused with the store's message; the provider
      is not asked (the result is the same whatever it would say) and no
      attempt is counted. */
  lemma RateLimitedLoginIsNotTried(conf: Config, author1: Provider, author2: Provider, cm: CookieManager,
                                   m: MemoryCache.Store, form: map<string, string>, host: string, now: int)
    requires var username := Username(FormField(form, "k1"), conf.users.ignoreAccountSuffix);
             && username != "" && TrimSpace(FormField(form, "k2")) != ""
             && ResolveUserType(conf.authType, FormField(form, "k0")).Some?
             && CanLogin(m, ResolveUserType(conf.authType, FormField(form, "k0")).value, username, now).Fail?
    ensures LoginFlow(conf, author1, cm, m, form, host, now) == LoginFlow(conf, author2, cm, m, form, host, now)
    ensures LoginFlow(conf, author1, cm, m, form, host, now).cache == m
    ensures LoginFlow(conf, author1, cm, m, form, host, now).cookie.None?
  {
  }

  /** A login the provider refuses counts one attempt against the bare user
      name and the user type, not against the account handed to the provider. */
  lemma FailedLoginCountsAttempt(conf: Config, author: Provider, cm: CookieManager,
                                 m: MemoryCache.Store, form: map<string, string>, host: string, now: int)
    requires var username := Username(FormField(form, "k1"), conf.users.ignoreAccountSuffix);
             var password := TrimSpace(FormField(form, "k2"));
             var userType := ResolveUserType(conf.authType, FormField(form, "k0"));
             && username != "" && password != "" && userType.Some?
             && CanLogin(m, userType.value, username, now).Pass?
             && author.login(LoginAccount(conf.authType, userType.value, username), password).Err?
    ensures var username := Username(FormField(form, "k1"), conf.users.ignoreAccountSuffix);
            var userType := ResolveUserType(conf.authType, FormField(form, "k0")).value;
            var r := LoginFlow(conf, author, cm, m, form, host, now);
            && r.response == Redirect(LoginPage(username, userType, MsgWrongCredentials))
            && r.cookie.None?
            && (Attempted(m, userType, username, now).Ok? ==> r.cache == Attempted(m, userType, username, now).value)
            && (Attempted(m, userType, username, now).Err? ==> r.cache == m)
  {
  }

  /** A successful login sets the cookie for the provider's user, stamped with
      the request host and the clock, redirects to "/", and leaves the attempt
      counter as it was. */
  lemma SuccessfulLoginSetsSession(conf: Config, author: Provider, cm: CookieManager,
                                   m: MemoryCache.Store, form: map<string, string>, host: string, now: int)
    requires var username := Username(FormField(form, "k1"), conf.users.ignoreAccountSuffix);
             var password := TrimSpace(FormField(form, "k2"));
             var userType := ResolveUserType(conf.authType, FormField(form, "k0"));
             && username != "" && password != "" && userType.Some?
             && CanLogin(m, userType.value, username, now).Pass?
             && author.login(LoginAccount(conf.authType, userType.value, username), password).Ok?
             && cm.codec.encode(cm.cookieName, SessionRecord(author.login(LoginAccount(conf.authType, userType.value, username), password).value, host, now)).Ok?
    ensures var username := Username(FormField(form, "k1"), conf.users.ignoreAccountSuffix);
            var password := TrimSpace(FormField(form, "k2"));
            var userType := ResolveUserType(conf.authType, FormField(form, "k0")).value;
            var u := author.login(LoginAccount(conf.authType, userType, username), password).value;
            var r := LoginFlow(conf, author, cm, m, form, host, now);
            && r.response == Redirect("/")
            && r.cookie == Some(cm.SessionCookie(SessionRecord(u, host, now)).value)
            && r.cache == m
  {
  }

  /** When the codec round-trips, the session cookie from a successful login
      authenticates later requests as the provider's user stamped with host
      and time, or as "not logged in" when the provider named no account. */
  lemma LoginCookieAuthenticates(conf: Config, author: Provider, cm: CookieManager,
                                 m: MemoryCache.Store, form: map<string, string>, host: string, now: int,
                                 others: seq<RequestCookie>)
    requires RoundTrips(cm.codec, cm.cookieName)
    requires LoginFlow(conf, author, cm, m, form, host, now).cookie.Some?
    ensures var c := LoginFlow(conf, author, cm, m, form, host, now).cookie.value;
            var username := Username(FormField(form, "k1"), conf.users.ignoreAccountSuffix);
            var password := TrimSpace(FormField(form, "k2"));
            var userType := ResolveUserType(conf.authType, FormField(form, "k0")).value;
            var u := author.login(LoginAccount(conf.authType, userType, username), password).value;
            cm.Authenticate([RequestCookie(c.name, c.value)] + others)
              == if u.account != "" then Ok(SessionRecord(u, host, now)) else Err(NotLoggedIn)
  {
    var username := Username(FormField(form, "k1"), conf.users.ignoreAccountSuffix);
    var password := TrimSpace(FormField(form, "k2"));
    assert username != "" && password != "";
    assert ResolveUserType(conf.authType, FormField(form, "k0")).Some?;
    var userType := ResolveUserType(conf.authType, FormField(form, "k0")).value;
    assert Attempt(conf, author, cm, m, userType, username, password, host, now).cookie.Some?;
    var u := author.login(LoginAccount(conf.authType, userType, username), password).value;
    var info := SessionRecord(u, host, now);
    if info.account != "" {
      SessionCookieAuthenticates(cm, info, others);
    } else {
      var c := cm.SessionCookie(info).value;
      assert cm.codec.encode(cm.cookieName, info) == Ok(c.value);
    }
  }

  /** The empty session record `buildLogoutHandler` writes. */
  const LoggedOut: UserAuthInfo := UserAuthInfo("", "", "", "", [], "", 0)

  /** The logout handler's response and cookie. */
  function LogoutFlow(cm: CookieManager): (r: (Response, Option<Cookie>))
    ensures r.1.Some? <==> r.0 == Redirect("/")
    ensures r.1.Some? ==> cm.SessionCookie(LoggedOut) == Ok(r.1.value)
  {
    match cm.SessionCookie(LoggedOut)
    case Err(e) => (ServerError("Internal Server Error: " + e.message), None)
    case Ok(c) => (Redirect("/"), Some(c))
  }

  /** `buildLogoutHandler`'s closure. */
  method Logout(cm: CookieManager, rw: ClientWriter, r: Request)
    modifies rw, rw.header
    ensures Sent(rw, r.httpMethod, LogoutFlow(cm).0, LogoutFlow(cm).1)
  {
    var err := cm.SetCookie(rw, LoggedOut);
    if err.Fail? {
      rw.WriteHeader(StatusInternalServerError);
      var _ := rw.Write(Utf8("Internal Server Error: " + err.error.message));
      return;
    }
    rw.Redirect(r.httpMethod, "/", StatusSeeOther);
  }

  /** The logout cookie has the login cookie's name, path and domain, so the
      browser replaces the session with it (section 5.3 of RFC 6265), and with
      a round-tripping codec it never authenticates. */
  lemma LogoutReplacesSession(cm: CookieManager, info: UserAuthInfo, others: seq<RequestCookie>)
    requires RoundTrips(cm.codec, cm.cookieName)
    requires cm.SessionCookie(info).Ok?
    requires LogoutFlow(cm).1.Some?
    ensures var login := cm.SessionCookie(info).value;
            var logout := LogoutFlow(cm).1.value;
            && logout.name == login.name && logout.path == login.path && logout.domain == login.domain
            && cm.Authenticate([RequestCookie(logout.name, logout.value)] + others) == Err(NotLoggedIn)
  {
    LogoutCookieNeverAuthenticates(cm, others);
  }
}
