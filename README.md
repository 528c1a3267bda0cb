# secure-proxy in Dafny

A model of the request-handling core of secure-proxy, an authenticating
reverse proxy written in Go. A user logs in through a form. The proxy
checks the password with a local user list, an LDAP directory, or both,
and stores a signed session cookie. It then forwards each request for a
configured host to that host's upstream. Before forwarding, it checks the
session and the backend's privilege rules.

The model covers:

- the configuration rules: defaults, validation, upstream normalisation,
  the privilege check and group merging;
- the in-process TTL cache and the store built on it: a login rate limiter
  and a session revalidation marker;
- the composite local/LDAP provider's routing;
- the session cookie gate;
- the login and logout handlers and the session revalidation callback;
- the proxy handler's decision pipeline: redirect, 403, 400 or forward,
  with the client IP, the forwarded headers and the finalisation of the
  buffered response;
- the buffering response writer, the request helpers and the template
  helpers.

Objects that Go updates in place are Dafny classes whose methods carry
`modifies` clauses: the memory cache, the store, header maps, response
writers, requests and request bodies. The rules those methods follow are
pure functions, and lemmas prove the listed properties about those
functions. Time is an integer number of nanoseconds passed in as `now`.
The two auth providers and the cookie codec are records of function
values, so their behaviour stays abstract.

Files, one Dafny module each:

- `wrappers.dfy`: Option, Result and Outcome.
- `strings.dfy`: the `strings` operations the code uses, Go's string
  order and UTF-8 encoding.
- `decimal.dfy`: `strconv.Atoi` and `Itoa` on 64-bit integers.
- `duration.dfy`: `time.Duration.String`.
- `http.dfy`: the parts of net/http the handlers touch.
- `config.dfy`, `memory_cache.dfy`, `store.dfy`, `auth.dfy`,
  `ldap_local.dfy`, `cookie.dfy`, `template.dfy`: one per source file.
- `handler_auth.dfy`, `handler_provider.dfy`, `handler_proxy.dfy`,
  `handler_response.dfy`, `handler_request.dfy`: the files of the
  handler package.

## Model

| member | source | states |
|---|---|---|
| Config.RedisAddr | config/config.go:57-66 | the defaulted Redis address always holds ':'; an address with ':' is kept, a bare host gets ":6379", and an empty one becomes 127.0.0.1:6379 |
| Config.PopulateDefault | config/config.go:31-66 | each defaulted field (auth type "misc", cookie name, max age 86400, listen ":8080", LDAP display name and uid, Redis address) takes its default exactly when empty or zero; every other field is unchanged |
| Config.PopulateDefaultIdempotent | config/config.go:31-66 | filling defaults twice gives the same configuration as filling them once |
| Config.GetPrivilege | config/config.go:129-135 | the effective privilege is never empty, and a privilege that is set is returned as is |
| Config.ValidateBackend | config/config.go:112-126 | a backend passes iff host and upstream are set and the privilege is empty, internal or private; a missing host or upstream is reported before a bad privilege |
| Config.FirstBackendError | config/config.go:85-91 | passes iff every backend passes; otherwise it is the error of some failing backend, the first in order |
| Config.Validate | config/config.go:69-92 | passes iff both session keys are set, the max age is not negative, the auth type is misc, ldap or local and every backend passes; a missing hash key is reported first, then a missing block key |
| Config.Load | config/config.go:264-269 | a loaded configuration is the defaulted one; an error is exactly the validation error of the defaulted configuration |
| Config.LoadedConfigWellFormed | config/config.go:31-92 | a configuration that loads has a known auth type, a positive session max age and a Redis address with a port |
| Config.GetUpstream | config/config.go:138-144 | the result always starts with http:// or https://; such an upstream is kept, and any other gets "http://" in front |
| Config.GetUpstreamIdempotent | config/config.go:138-144 | normalising an upstream that is already normalised changes nothing |
| Config.Permits | config/config.go:147-167 | an unset or internal privilege, a listed account, or a listed non-empty group of the user admits; under any other privilege nothing else does |
| Config.HasPrivilege | config/config.go:147-167 | the loop's answer equals the access rule: internal or unset admits everyone; private admits a listed account or a member of a listed non-empty group |
| Config.PermitsMonotone | config/config.go:147-167 | adding accounts or groups to a backend's allow-lists never revokes access |
| Config.EmptyGroupGrantsNothing | config/config.go:147-167 | an empty group name on the user never changes the answer |
| Config.Distinct | config/config.go:211-220 | the result has no duplicates and holds exactly the elements of the input |
| Config.MergeGroups | config/config.go:211-220 | the loop yields the groups plus the set group, duplicates removed |
| Config.LdapUser.GetUserGroups | config/config.go:211-220 | duplicate-free; holds exactly the groups and, when set, the single group |
| Config.LocalUser.GetUserGroups | config/config.go:233-242 | duplicate-free; holds exactly the groups and, when set, the single group |
| Decimal.Atoi | internal/cache/memory/memory.go:113 | a parsed value fits in 64 bits; a range error carries the clamped bound; the empty text is a syntax error |
| Decimal.Itoa | internal/cache/memory/memory.go:118 | non-empty, and begins with a digit exactly when the number is not negative |
| Decimal.Wrap64 | internal/cache/memory/memory.go:118 | the sum stays within 64 bits and is unchanged when it already fits |
| Decimal.AtoiItoa | internal/cache/memory/memory.go:112-120 | parsing the decimal text of any 64-bit integer gives that integer back |
| Decimal.AtoiValue | internal/store/store.go:39 | the value `strconv.Atoi` returns beside its error: the number when it parses, 0 on a syntax error (empty text included), the clamped 64-bit bound when out of range |
| Decimal.AtoiValueItoa | internal/store/store.go:39 | the value read beside a parse error is the integer itself for the text of any 64-bit integer |
| GoDuration.DurationString | internal/store/store.go:46 | the text `%s` makes of a duration always ends in 's', starts with '-' exactly for a negative duration, and is "0s" for zero |
| GoDuration.MinuteAndAHalf | internal/store/store.go:46 | ninety seconds read "1m30s" |
| GoDuration.UnderAMinute | internal/store/store.go:46 | from one second up to a minute, the text is the whole seconds, then the fraction, then 's' |
| GoDuration.TenthsFraction | internal/store/store.go:46 | tenths of a second print as one digit after the point; the zeros below it are dropped |
| GoDuration.SecondsAndTenths | internal/store/store.go:46 | between 1 and 59 seconds, a duration with tenths reads like "1.5s" |
| Http.ClientWriter.Redirect | internal/handler/proxy.go:126 | what `http.Redirect` sends for the request's method: the escaped Location, the HTML content type for GET and HEAD and the link body for GET when no Content-Type was set, the status unless one was sent, cookies untouched |
| Http.HexEscapeNonASCII | internal/handler/auth.go:61 | the Location `http.Redirect` writes is pure ASCII |
| Http.HexEscapeKeepsAscii | internal/handler/auth.go:45 | a target that is already ASCII, such as "/", is written unchanged |
| Http.HexEscapeOfHan | internal/handler/auth.go:61 | a Chinese character of the error message is sent as the percent-escapes of its three UTF-8 bytes, in lower-case hex |
| Http.HtmlEscape | internal/handler/auth.go:61 | the link text of the redirect body holds no '<', '>', '"' or '\''; text without special characters is unchanged |
| Http.RedirectHeader | internal/handler/proxy.go:126 | Location holds the escaped target; Content-Type is kept when set, else becomes HTML for GET and HEAD and stays absent otherwise; no other name changes |
| Http.RedirectBody | internal/handler/proxy.go:126 | a body is written exactly for a GET whose handler set no Content-Type |
| MemoryCache.Lookup | internal/cache/memory/memory.go:57-71 | "" for an absent key and for one whose expiry has passed, otherwise the stored value |
| MemoryCache.RemainingTtl | internal/cache/memory/memory.go:93-106 | 0 for an absent key or one without expiry, otherwise expiry minus now, negative once expired |
| MemoryCache.Stored | internal/cache/memory/memory.go:73-79 | the key holds the value with no expiry; every other key keeps its entry |
| MemoryCache.WithExpiry | internal/cache/memory/memory.go:81-91 | a present key keeps its value and expires at now + ttl; an absent key is not created; other keys keep their entries |
| MemoryCache.Incremented | internal/cache/memory/memory.go:108-126 | an absent key becomes "1"; a non-numeric value is a parse error with the map unchanged; a successful increment keeps the expiry and touches no other key |
| MemoryCache.Swept | internal/cache/memory/memory.go:32-49 | exactly the entries whose expiry is set and has passed are removed; the rest are kept unchanged |
| MemoryCache.SetThenRead | internal/cache/memory/memory.go:73-106 | after a write, a read returns the value and the TTL is 0 |
| MemoryCache.ExpireKeepsValue | internal/cache/memory/memory.go:81-106 | setting an expiry keeps the value readable until the expiry and makes the TTL equal to ttl; an absent key stays absent |
| MemoryCache.IncrAbsent | internal/cache/memory/memory.go:121-123 | incrementing an absent key stores "1" without expiry |
| MemoryCache.IncrCounter | internal/cache/memory/memory.go:112-120 | incrementing the text of n stores the text of n + 1 with the same expiry |
| MemoryCache.IncrNotANumber | internal/cache/memory/memory.go:112-116 | incrementing a non-numeric value fails |
| MemoryCache.WritesAreLocal | internal/cache/memory/memory.go:73-126 | Set, Expire and Incr leave the value and TTL of every other key as they were |
| MemoryCache.SweepInvisibleToGet | internal/cache/memory/memory.go:34-47 | a sweep never changes what a read returns for any key |
| MemoryCache.IncrIgnoresExpiry | internal/cache/memory/memory.go:108-126 | an expired counter that has not been swept reads as "" but is still incremented from its old value, and stays expired |
| MemoryCache.Cache.constructor | internal/cache/memory/memory.go:21-23 | a new cache is empty |
| MemoryCache.Cache.Get | internal/cache/memory/memory.go:57-71 | returns the lookup of the key at the given time and changes nothing |
| MemoryCache.Cache.Set | internal/cache/memory/memory.go:73-79 | the map becomes the map with the key stored |
| MemoryCache.Cache.Expire | internal/cache/memory/memory.go:81-91 | the map becomes the map with the key's expiry set |
| MemoryCache.Cache.TTL | internal/cache/memory/memory.go:93-106 | returns the remaining TTL and changes nothing |
| MemoryCache.Cache.Incr | internal/cache/memory/memory.go:108-126 | on success the map is the incremented map and no error is returned; on a parse error the error is returned and the map is unchanged |
| MemoryCache.Cache.Sweep | internal/cache/memory/memory.go:32-49 | collects the expired keys, then deletes them; the map becomes the swept map |
| Store.LoginRateKey | internal/store/store.go:26 | the counter key is "secure-proxy:user:" + user type + ":" + account + ":login-count" |
| Store.SessionKey | internal/store/store.go:61 | the marker key is "secure-proxy:session:" + session id |
| Store.CanLogin | internal/store/store.go:29-50 | a refusal carries the counter's remaining TTL |
| Store.CanLoginIff | internal/store/store.go:29-50 | a login is refused exactly when the live counter reads more than 5, a non-numeric counter reading as 0 |
| Store.Attempted | internal/store/store.go:52-58 | a failed increment leaves the cache unchanged and sets no expiry; otherwise the counter exists and has exactly ten minutes left |
| Store.AttemptCounts | internal/store/store.go:52-58 | one attempt on a counter reading n, absent counting as 0, leaves it reading n + 1 with a fresh ten-minute window |
| Store.AttemptsFromNothing | internal/store/store.go:52-58 | starting without a counter, k attempts leave it reading k with ten minutes left |
| Store.SixthFailureLocksOut | internal/store/store.go:29-58 | from no counter, logins are still allowed after five attempts and refused after six |
| Store.StaleCounterResumes | internal/store/store.go:29-58 | a counter whose window has passed allows a login, but the next attempt resumes from its old count and is refused again at once |
| Store.SessionValid | internal/store/store.go:60-82 | a live marker answers true without the callback; otherwise the answer is the callback's, error included |
| Store.SessionStored | internal/store/store.go:66-79 | a marker with a six-hour life is written only when there was none and the callback said true; otherwise the cache is unchanged |
| Store.ValidatedSessionIsCached | internal/store/store.go:60-82 | after a positive revalidation, any call within six hours answers true whatever the callback would say |
| Store.RejectedSessionIsNotCached | internal/store/store.go:66-79 | a callback that says false or fails is returned as is and leaves no marker |
| Store.DefaultStore.constructor | internal/store/store.go:21-23 | the store works on the given cache |
| Store.DefaultStore.UserCanLogin | internal/store/store.go:29-50 | the answer is the login rule on the cache contents |
| Store.DefaultStore.UserLoginAttempt | internal/store/store.go:52-58 | the cache becomes the attempted cache; when the increment fails its error is returned and no expiry is set |
| Store.DefaultStore.UserSessionValidate | internal/store/store.go:60-82 | the callback is consulted exactly when no live marker exists; the answer and the new cache are the session rules above |
| LdapLocal.RouteOf | internal/auth/ldap_local/auth.go:24-30 | "local:" is checked first and "ldap:" second, and each prefix is stripped once; an unprefixed name is passed unchanged |
| LdapLocal.Login | internal/auth/ldap_local/auth.go:40-55 | a "local:" name gets the local provider's answer, an "ldap:" name the directory's; otherwise a local success, or else the directory's answer |
| LdapLocal.GetUser | internal/auth/ldap_local/auth.go:23-38 | the same routing and fallback as Login, for the user lookup |
| LdapLocal.Users | internal/auth/ldap_local/auth.go:57-63 | the local users followed by the directory's users, and never an error |
| LdapLocal.LocalPrefixNeverConsultsLdap | internal/auth/ldap_local/auth.go:41-43 | a "local:" login or lookup gives the same answer whatever the directory does |
| LdapLocal.LdapPrefixNeverConsultsLocal | internal/auth/ldap_local/auth.go:45-47 | an "ldap:" login or lookup gives the same answer whatever the local provider does |
| LdapLocal.LocalSuccessIsFinal | internal/auth/ldap_local/auth.go:49-54 | an unprefixed local success is the answer, whatever the directory would say |
| LdapLocal.LocalFailureFallsBack | internal/auth/ldap_local/auth.go:49-52 | after an unprefixed local failure the answer is the directory's, whatever the local error was |
| LdapLocal.LoginSuccessHasAProvider | internal/auth/ldap_local/auth.go:40-55 | every composite success is some provider's success for the routed name |
| LdapLocal.UsersIgnoreErrors | internal/auth/ldap_local/auth.go:57-63 | the listing does not depend on the errors the providers report |
| Secure.CookieManager.SessionCookie | internal/secure/cookie.go:30-47 | an encoding error is passed on; otherwise the cookie holds the encoded record under the manager's name, with path "/", the domain, HttpOnly and the max age |
| Secure.CookieManager.SetCookie | internal/secure/cookie.go:30-47 | exactly one cookie is added on success; on an encoding error none is added and the error is returned |
| Secure.FindCookie | internal/secure/cookie.go:50 | absent iff no cookie has the name; otherwise the value of a cookie with that name |
| Secure.CookieManager.GetCookie | internal/secure/cookie.go:49-61 | no cookie of the name is an error, a decode error is passed on, otherwise the decoded record |
| Secure.CookieManager.Authenticate | internal/secure/cookie.go:63-76 | succeeds iff the cookie decodes to a record with a non-empty account, and then returns that record; an empty account is "not logged in" |
| Secure.SessionCookieAuthenticates | internal/secure/cookie.go:30-76 | with a round-tripping codec, the cookie written for a record with an account authenticates as that record |
| Secure.LogoutCookieNeverAuthenticates | internal/secure/cookie.go:70-72 | the empty record written at logout never authenticates |
| Secure.NoCookieNoSession | internal/secure/cookie.go:50-53 | a request without the session cookie never authenticates |
| HandlerAuth.Username | internal/handler/auth.go:52-58 | when the trimmed input ends in the ignored suffix, the user name followed by the suffix is that input; otherwise it is the trimmed input |
| HandlerAuth.UsernameSuffixRemovedOnce | internal/handler/auth.go:52-58 | a trimmed input ending in the suffix twice keeps one copy: the suffix is removed once |
| HandlerAuth.ResolveUserType | internal/handler/auth.go:69-80 | "ldap" forces ldap; "misc" accepts k0 exactly when it is local or ldap and keeps it; any other auth type forces local |
| HandlerAuth.LoginAccount | internal/handler/auth.go:90-93 | in misc mode the account is user type + ":" + user name, otherwise the bare user name |
| HandlerAuth.MiscAccountSelectsProvider | internal/handler/auth.go:89-95 | in misc mode the qualified account routes the composite provider to exactly the chosen provider, with the bare user name |
| HandlerAuth.Attempt | internal/handler/auth.go:83-122 | a cookie is set only together with the redirect to "/"; a 500 sets no cookie and leaves the cache unchanged |
| HandlerAuth.LoginFlow | internal/handler/auth.go:49-123 | the same two facts hold for the whole handler |
| HandlerAuth.TryLogin | internal/handler/auth.go:83-122 | the cache and the response the method produces are those of Attempt, a redirect written as `http.Redirect` writes it for the request's method |
| HandlerAuth.ResolveAndTry | internal/handler/auth.go:65-122 | the cache and the response are those of the user-type rule (a redirect for a bad k0 in "misc" mode) followed by Attempt |
| HandlerAuth.Login | internal/handler/auth.go:49-123 | the cache and the response the method produces are those of LoginFlow, a redirect written as `http.Redirect` writes it for the request's method |
| HandlerAuth.EmptyCredentialsRefusedFirst | internal/handler/auth.go:60-63 | an empty user name or password redirects with the empty-credentials message, before the store or provider is used, and changes nothing |
| HandlerAuth.RateLimitedLoginIsNotTried | internal/handler/auth.go:83-87 | a rate-limited login gives the same result whatever the provider would say, sets no cookie and counts no attempt |
| HandlerAuth.FailedLoginCountsAttempt | internal/handler/auth.go:95-100 | a refused login redirects with the wrong-credentials message and counts an attempt against the bare user name and type |
| HandlerAuth.SuccessfulLoginSetsSession | internal/handler/auth.go:104-121 | a successful login sets the cookie of the provider's user stamped with host and time, redirects to "/" and leaves the counter as it was |
| HandlerAuth.LoginCookieAuthenticates | internal/handler/auth.go:104-121 | with a round-tripping codec, the login cookie authenticates as `SessionRecord(u, host, now)` of the provider's user `u` when its account is non-empty, and is exactly "not logged in" when it is empty |
| HandlerAuth.LogoutFlow | internal/handler/auth.go:37-47 | a cookie is sent exactly when the answer is the redirect to "/", and it is the empty record's cookie |
| HandlerAuth.Logout | internal/handler/auth.go:37-47 | the writer receives what LogoutFlow says: the empty cookie and a 303 to "/" written as `http.Redirect` writes it for the request's method, or a 500 with the error |
| HandlerAuth.LogoutReplacesSession | internal/handler/auth.go:37-47 | the logout cookie has the login cookie's name, path and domain, and it never authenticates |
| HandlerProvider.RevalidationAccount | internal/handler/provider.go:36-39 | the account is user type + ":" + user name exactly for auth type "ldap+local" |
| HandlerProvider.Revalidate | internal/handler/provider.go:41-49 | a found user is true; a disabled account is false with no error; any other error is false with that error |
| HandlerProvider.ValidateSession | internal/handler/provider.go:33-50 | the answer and the new cache are the store's session rules applied to the revalidation callback |
| HandlerProvider.LoadedConfigUsesBareName | internal/handler/provider.go:36-39 | no loadable configuration has auth type "ldap+local", so the bare user name is always asked for |
| HandlerProvider.MarkerOutlivesDisabling | internal/handler/provider.go:33-50 | while a marker is live, a disabled account still validates |
| HandlerProvider.DisabledAccountIsNotRemembered | internal/handler/provider.go:41-44 | without a marker a disabled account answers false, without error, and writes nothing |
| HandlerProxy.BackendTable | internal/handler/proxy.go:47-50 | the table's hosts are exactly the backends' hosts, and each entry is a backend with that host |
| HandlerProxy.BackendTableLastWins | internal/handler/proxy.go:47-50 | of several backends with one host, the last is kept |
| HandlerProxy.BackendTableKeyedByHost | internal/handler/proxy.go:47-50 | every backend is stored under its own host |
| HandlerProxy.DefaultOptions | internal/handler/proxy.go:46-58 | the loop builds the backend table; the options hold the configuration, a 60-second timeout and no auth handler |
| HandlerProxy.AuthorityEnd | internal/handler/proxy.go:64 | the authority ends at the first '/', '?' or '#', or at the end |
| HandlerProxy.UpstreamHost | internal/handler/proxy.go:64 | the host is the longest prefix free of '/', '?' and '#' of what follows "http://" or "https://" |
| HandlerProxy.UpstreamHostOf | internal/handler/proxy.go:64 | the host of an http or https URL is exactly its authority |
| HandlerProxy.ProxyFor | internal/handler/proxy.go:63-76 | the proxy of a backend is filed under the backend's host |
| HandlerProxy.BareUpstreamIsGatewayHost | internal/handler/proxy.go:63-71 | an upstream written as a bare host is the Host of every forwarded request |
| HandlerProxy.NewProxyHandler | internal/handler/proxy.go:61-81 | the loop builds one proxy per backend, under its host, and keeps the options and the timeout |
| HandlerProxy.ProxiesMatchBackends | internal/handler/proxy.go:61-81 | over backends keyed by host, the proxy table has exactly the backends' hosts and each proxy is that backend's |
| HandlerProxy.ClientIP | internal/handler/proxy.go:99-106 | the first ','-field of the real-IP header when one is configured and that field is non-empty, otherwise the first ':'-field of the remote address, in `strings.Split` terms |
| HandlerProxy.ClientIPShape | internal/handler/proxy.go:99-106 | the client IP is the first comma field of the real-IP header when set and non-empty, otherwise the remote address up to the first ':' |
| HandlerProxy.IPv4RemoteAddr | internal/handler/proxy.go:104-106 | an IPv4 remote address gives its address |
| HandlerProxy.IPv6RemoteAddrTruncated | internal/handler/proxy.go:105 | an IPv6 remote address gives "[" |
| HandlerProxy.LastIndex | internal/handler/proxy.go:105 | the position of the last occurrence, or -1 |
| HandlerProxy.RemoteHostOfAddress | internal/handler/proxy.go:105 | the host of "host:port" is the host, and of "[addr]:port" the address |
| HandlerProxy.CorrectedClientIP | internal/handler/proxy.go:99-106 | the real-IP header's rule is unchanged |
| HandlerProxy.IPv6ClientIP | internal/handler/proxy.go:105 | an IPv6 remote address gives the whole address |
| HandlerProxy.AnySuffix | internal/handler/proxy.go:131 | true iff the path ends with one of the suffixes |
| HandlerProxy.StaticAssetsLoggedOnlyWhenVerbose | internal/handler/proxy.go:131-145 | a request for a static asset is logged exactly when verbose |
| HandlerProxy.Decide | internal/handler/proxy.go:123-174 | redirect iff no session; 403 naming the user iff the host is unknown or not permitted; 400 iff permitted with no proxy; otherwise forward with the user, the backend and its proxy |
| HandlerProxy.ConfiguredHostsAreServed | internal/handler/proxy.go:63-76 | with the proxy table built from the same backends, the 400 branch is unreachable and a forward uses the backend's own proxy |
| HandlerProxy.ShouldLog | internal/handler/proxy.go:131-145 | a request is logged exactly when the configuration is verbose or its path ends in none of the static-asset suffixes |
| HandlerProxy.NoSessionIsRedirected | internal/handler/proxy.go:123-128 | a request without the session cookie is always redirected to the login page |
| HandlerProxy.StrangerIsForbidden | internal/handler/proxy.go:148-162 | a private backend answers 403 to a user who is neither listed nor in a listed group |
| HandlerProxy.DirectedHeaderAsWritten | internal/handler/proxy.go:72 | the backend host is appended after any values the client sent; other names are unchanged |
| HandlerProxy.ForgedOriginalHostWins | internal/handler/proxy.go:72 | a client that sends its own original-host header is the one the upstream reads |
| HandlerProxy.DirectedHeader | internal/handler/proxy.go:72 | the correction of line 72 (`Set` in place of `Add`): the original-host header holds exactly the backend host; other names are unchanged |
| HandlerProxy.AsWrittenAgreesWithoutClientHeader | internal/handler/proxy.go:72 | the headers as written equal the corrected ones exactly when the client sent no original-host header |
| HandlerProxy.UpstreamReadsClientValueFirst | internal/handler/proxy.go:72 | as written, the upstream's `Header.Get` reads the client's own original-host value whenever it sent one, and the backend host otherwise |
| HandlerProxy.OutgoingHeadersCannotBeForged | internal/handler/proxy.go:72 | with the correction of line 72, whatever the client sends, the upstream reads the account from the session and the backend host from the table |
| HandlerProxy.Merged | internal/handler/proxy.go:187-191 | every name holds the old values followed by the copied ones, and no name without values is created |
| HandlerProxy.AddedAll | internal/handler/proxy.go:188-190 | the values are appended under the name in order; other names are unchanged |
| HandlerProxy.MergedStep | internal/handler/proxy.go:187-191 | copying one more name's values extends the partial merge by that name |
| HandlerProxy.AddValues | internal/handler/proxy.go:188-190 | the inner loop leaves the header as AddedAll says |
| HandlerProxy.CopyHeader | internal/handler/proxy.go:187-191 | the outer loop leaves the header as the merge of old and copied values |
| HandlerProxy.Relay | internal/handler/proxy.go:182 | an unreachable upstream leaves status 502, no headers and no body; an answer is copied with its headers, status and body |
| HandlerProxy.Finish | internal/handler/proxy.go:186-198 | the client gets the captured headers added, Content-Length set to the body length, the status only if positive and not already sent, and the body unchanged |
| HandlerProxy.Capture | internal/handler/proxy.go:92-97 | a fresh buffering writer holds the upstream's headers, status and body |
| HandlerProxy.RelayedHeadersKeepUpstreamValues | internal/handler/proxy.go:186-193 | every name except Content-Length reaches the client with its existing values and then all of the upstream's |
| HandlerProxy.UnreachableIsBadGateway | internal/handler/proxy.go:186-198 | an unreachable upstream reaches the client as a 502 with Content-Length 0 |
| HandlerProxy.Refuse | internal/handler/proxy.go:152-154 | the client gets an HTML page with this status and text |
| HandlerProxy.SendBody | internal/handler/proxy.go:177-184 | the body is read whole, and the request gets a fresh reader holding the same bytes |
| HandlerProxy.Forward | internal/handler/proxy.go:176-198 | the account header is set; the upstream receives the proxy's host, the client's headers with the backend host added after any original-host value the client sent, and the whole body; the client gets the relayed answer |
| HandlerProxy.ServeHTTP | internal/handler/proxy.go:88-199 | a redirect written as `http.Redirect` writes it for the request's method, a 403 or 400 page, or the forwarded request (headers as written) and relayed answer, as Decide says; a log line exactly for an authenticated request the log filter admits |
| HandlerProxy.Admit | internal/handler/proxy.go:148-199 | for an authenticated user: the 403 or 400 page, or the forwarded request and relayed answer, as Decide says |
| HandlerResponse.ResponseWriter.constructor | internal/handler/proxy.go:92-97 | fresh empty headers, an empty buffer, no Body and status 0 |
| HandlerResponse.ResponseWriter.Header | internal/handler/response.go:26-28 | returns the writer's own header map |
| HandlerResponse.ResponseWriter.Write | internal/handler/response.go:31-33 | appends exactly the bytes, returns their count, and changes neither headers nor status |
| HandlerResponse.ResponseWriter.WriteHeader | internal/handler/response.go:36-38 | records the status, the last call winning; headers and body are unchanged |
| HandlerResponse.ResponseWriter.FillBody | internal/handler/response.go:42-44 | Body is filled from the buffer only when Body is nil and the buffer exists |
| HandlerResponse.ResponseWriter.Hijack | internal/handler/response.go:61-66 | delegated iff the original writer exists and can hijack; otherwise not supported |
| HandlerRequest.ExtractBodyFromRequest | internal/handler/request.go:34-40 | returns the whole unread body, closes the old reader, and gives the request a fresh reader with the same bytes |
| HandlerRequest.HttpRequest | internal/handler/request.go:51-66 | the URL is the gateway without trailing '/' followed by the request URI; the query is the stored one; the stored header replaces the empty one only when not nil; an empty method becomes GET |
| HandlerRequest.TrailingSlashesIgnored | internal/handler/request.go:56 | any number of trailing slashes on the gateway give the same request |
| HandlerRequest.Len | internal/handler/request.go:70-72 | the number of pairs |
| HandlerRequest.Less | internal/handler/request.go:74-76 | true iff the first key is before the second in Go's string order |
| HandlerRequest.LessIsStrictOrder | internal/handler/request.go:74-76 | irreflexive and transitive, and two pairs are unordered exactly when their keys are equal |
| HandlerRequest.Swap | internal/handler/request.go:78-80 | exchanges the two pairs, leaves every other pair alone, and keeps the same pairs overall |
| Template.HaveValue | internal/template/template.go:49-51 | true iff the value is not nil |
| Template.HaveAllValue | internal/template/template.go:29-37 | true iff no value is nil |
| Template.HaveAnyValue | internal/template/template.go:39-47 | true iff some value is not nil |
| Template.HaveAllAndAny | internal/template/template.go:29-47 | no values: all but not any; otherwise all implies any |
| Template.DefaultValue | internal/template/template.go:53-59 | the value when not nil, otherwise the default |
| Template.DefaultValueProperties | internal/template/template.go:53-59 | the result has a value iff the value or the default does, and a second application changes nothing |
| Template.IndentLeft | internal/template/template.go:61-69 | the result neither begins nor ends with a newline |
| Template.ReduceIsJoin | internal/template/template.go:64-66 | the fold is one newline followed by the lines joined with newlines |
| Template.IndentLeftJoinsLines | internal/template/template.go:61-69 | every line gets the indentation, the lines are joined by newlines, and newlines are trimmed at both ends |
| Template.IndentLeftOneLine | internal/template/template.go:61-69 | a one-line message gives the indentation and the message, trimmed of newlines |

## Left out

- Locks, the sweeper's ticker goroutine and its cancellation: the cache is
  sequential here, and `Sweep` is one tick of that loop.
- MemoryCache.Cache.Sweep: the Go loop calls `time.Now()` for each entry;
  the model reads the clock once per sweep.
- The Redis cache and the Redis store: thin wrappers over go-redis. Its
  `Get` returns `redis.Nil` as an error where the memory cache returns "".
  Cache errors therefore never occur in the store model.
- The internals of gorilla/securecookie: encoding and decoding are
  abstract functions, and properties that need decoding to undo encoding
  assume it as `RoundTrips`.
- The LDAP, local and database providers themselves: they are abstract
  function values.
- Header name canonicalisation: names are written in canonical form.
- `url.Parse` beyond scheme and authority: user info, ports written
  strangely, and parse errors are not modelled.
- Http.ClientWriter.Redirect: the path cleaning of `http.Redirect` is
  not modelled. It leaves the handlers' targets as they are, since their
  path parts are "/" and "/secure-proxy/auth" and the cleaning stops at
  the '?'. `StatusText` is spelled out only for the codes the proxy uses.
- HandlerRequest.HttpRequest: `http.NewRequestWithContext` fails on an
  invalid method or an unparsable URL, and request.go then uses the nil
  request and panics. The model always builds the request.
- JSON marshalling of requests and responses, and `UnSerialize`.
- The internals of `httputil.ReverseProxy`: hop-by-hop headers,
  X-Forwarded-For, URL path joining and trailers. The upstream's answer
  is a parameter, and its failure is `Unreachable`.
- The request timeout context: a timeout counts as `Unreachable`.
- Loggers, the log lines' fields, and panic recovery. Only whether a
  request is logged is modelled.
- The no-op `ProxyOptions.Director`, and the handler's logger and auth
  provider fields.
- The closures in `NewProxyHandler` capture each backend separately. Go
  gives each loop iteration its own `backend` only when the module's
  go.mod declares `go 1.22` or later; under an older `go` directive every
  director adds the last backend's host.
- Template: an interface holding a nil of some concrete type is not nil
  to Go's `!= nil`; a template value is either present or absent here.
- Template rendering, the login and status pages, the command-line tools
  and the dependency-injection wiring.
- Reading the configuration file and YAML: `Load` starts from the
  parsed configuration.
- The panic of net/http's `WriteHeader` on a code outside 100-999.
- GoDuration.DurationString: the contract states the sign, the final 's'
  and zero. The digits are stated only for ninety seconds and for whole
  seconds with tenths below a minute.
- The source does not compile as shown in a few places, and the model
  follows each file as written:
  - internal/handler/provider.go:33 passes an argument to
    `BuildAuthHandler`, which takes none;
  - it uses `user.ID()` and `user.Username`, which `UserAuthInfo` lacks.
    The session ID and user name are parameters of
    `HandlerProvider.ValidateSession`;
  - internal/cache/memory/provider.go refers to a configuration field
    that does not exist;
  - internal/handler/auth.go:22,25 take a `*store.Manager`, the Redis rate
    limiter of internal/store/redis.go:12-53, but internal/handler/provider.go:53
    passes the `store.Store` it resolved. The model uses that default store
    over the memory cache, as the wiring does. `Manager` differs in one
    way: its `UserCanLogin` reads the counter with `.Int()`, so a
    non-numeric counter gives a parse error where the default store reads 0.
- The auth type strings disagree. Configuration and login use "misc";
  the revalidation callback tests "ldap+local"; the login page tests
  "ldap_local". `HandlerProvider.LoadedConfigUsesBareName` shows that the
  callback's qualified branch never runs.
- The comment at config/config.go:105 says that an unset privilege means
  private. The code treats it as internal, and the model follows the code.
- An expired login counter that has not been swept yet is still
  incremented from its old value by `Incr`. This is stated in
  `Store.StaleCounterResumes` and `MemoryCache.IncrIgnoresExpiry`.

## Findings

| source | as written | input that shows it | evidently intended | confidence | as-written member | corrected member |
|---|---|---|---|---|---|---|
| internal/handler/proxy.go:72 | the director appends the original host with `Header.Add`, after any value the client sent | a request carrying `X-Secure-Proxy-Host: admin.internal` reaches an upstream whose `Header.Get` reads "admin.internal" | the header holds only the backend host, as `Set` does for the account header at line 176 | not executed | HandlerProxy.ForgedOriginalHostWins | HandlerProxy.OutgoingHeadersCannotBeForged |
| internal/handler/proxy.go:105 | the client IP is the remote address up to its first ':' | remote address "[::1]:8080" gives the client IP "[" | the host part of the remote address, "::1" | not executed | HandlerProxy.IPv6RemoteAddrTruncated | HandlerProxy.IPv6ClientIP |
