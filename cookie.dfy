/** The session cookie of internal/secure/cookie.go. The signed and encrypted
    encoding (gorilla/securecookie keyed by the hash and block keys) is an
    opaque codec: a pair of functions given with the manager. */
module Secure {
  import opened Wrappers
  import opened Config
  import opened Http

  /** `securecookie.Encode` and `Decode` for one key pair; both take the
      cookie name, which the encoding authenticates with the value. */
  datatype Codec = Codec(encode: (string, UserAuthInfo) -> Result<string, string>,
                         decode: (string, string) -> Result<UserAuthInfo, string>)

  /** A codec whose decoding undoes its encoding under the same name. */
  ghost predicate RoundTrips(codec: Codec, name: string) {
    forall info: UserAuthInfo ::
      codec.encode(name, info).Ok? ==> codec.decode(name, codec.encode(name, info).value) == Ok(info)
  }

  /** The ways reading or writing the session cookie fails: the codec's
      encoding or decoding error, `http.ErrNoCookie`, or "user not login". */
  datatype CookieError =
    | EncodeFailed(message: string)
    | NoCookie
    | DecodeFailed(message: string)
    | NotLoggedIn

  /** `CookieManager`. */
  datatype CookieManager = CookieManager(cookieName: string, domain: string, maxAge: int, codec: Codec)
  {
    /** The cookie `SetCookie` emits for a record, or the encoding error. */
    function SessionCookie(info: UserAuthInfo): (r: Result<Cookie, CookieError>)
      ensures codec.encode(cookieName, info).Err? ==> r == Err(EncodeFailed(codec.encode(cookieName, info).error))
      ensures codec.encode(cookieName, info).Ok? ==> r.Ok?
      ensures r.Ok? ==> codec.encode(cookieName, info) == Ok(r.value.value)
      ensures r.Ok? ==> r.value.name == cookieName && r.value.path == "/" && r.value.domain == domain
                        && r.value.httpOnly && r.value.maxAge == maxAge
    {
      match codec.encode(cookieName, info)
      case Err(e) => Err(EncodeFailed(e))
      case Ok(encoded) => Ok(Cookie(cookieName, encoded, "/", domain, true, maxAge))
    }

    /** `SetCookie`: one Set-Cookie on the response, or none and the error. */
    method SetCookie(rw: ClientWriter, info: UserAuthInfo) returns (err: Outcome<CookieError>)
      modifies rw
      ensures SessionCookie(info).Ok? ==> err == Pass && rw.cookies == old(rw.cookies) + [SessionCookie(info).value]
      ensures SessionCookie(info).Err? ==> err == Fail(SessionCookie(info).error) && rw.cookies == old(rw.cookies)
      ensures rw.status == old(rw.status) && rw.body == old(rw.body)
    {
      var encoded := codec.encode(cookieName, info);
      if encoded.Err? {
        return Fail(EncodeFailed(encoded.error));
      }
      var cookie := Cookie(cookieName, encoded.value, "/", domain, true, maxAge);
      rw.SetCookie(cookie);
      return Pass;
    }

    /** `GetCookie`: the record decoded from the request's cookie of this name. */
    function GetCookie(cookies: seq<RequestCookie>): (r: Result<UserAuthInfo, CookieError>)
      ensures FindCookie(cookies, cookieName).None? ==> r == Err(NoCookie)
      ensures FindCookie(cookies, cookieName).Some? ==>
                var d := codec.decode(cookieName, FindCookie(cookies, cookieName).value);
                (d.Err? ==> r == Err(DecodeFailed(d.error))) && (d.Ok? ==> r == Ok(d.value))
    {
      match FindCookie(cookies, cookieName)
      case None => Err(NoCookie)
      case Some(value) =>
        match codec.decode(cookieName, value)
        case Err(e) => Err(DecodeFailed(e))
        case Ok(info) => Ok(info)
    }

    /** The closure `BuildAuthHandler` returns: the decoded record, unless it
        is missing, undecodable or has an empty account. */
    function Authenticate(cookies: seq<RequestCookie>): (r: Result<UserAuthInfo, CookieError>)
      ensures r.Ok? <==> GetCookie(cookies).Ok? && GetCookie(cookies).value.account != ""
      ensures r.Ok? ==> r == GetCookie(cookies)
      ensures GetCookie(cookies).Err? ==> r == GetCookie(cookies)
      ensures GetCookie(cookies).Ok? && GetCookie(cookies).value.account == "" ==> r == Err(NotLoggedIn)
    {
      match GetCookie(cookies)
      case Err(e) => Err(e)
      case Ok(info) => if info.account == "" then Err(NotLoggedIn) else Ok(info)
    }
  }

  /** `Request.Cookie`: the value of the first cookie with this name. */
  function FindCookie(cookies: seq<RequestCookie>, name: string): (r: Option<string>)
    ensures r.None? <==> forall i :: 0 <= i < |cookies| ==> cookies[i].name != name
    ensures r.Some? ==> exists i :: 0 <= i < |cookies| && cookies[i] == RequestCookie(name, r.value)
                                     && forall j :: 0 <= j < i ==> cookies[j].name != name
  {
    if |cookies| == 0 then None
    else if cookies[0].name == name then Some(cookies[0].value)
    else
      var r := FindCookie(cookies[1..], name);
      assert r.Some? ==> exists i :: 1 <= i < |cookies| && cookies[i] == RequestCookie(name, r.value)
                                     && forall j :: 0 <= j < i ==> cookies[j].name != name by {
        if r.Some? {
          var i :| 0 <= i < |cookies[1..]| && cookies[1..][i] == RequestCookie(name, r.value)
                   && forall j :: 0 <= j < i ==> cookies[1..][j].name != name;
          assert cookies[i + 1] == RequestCookie(name, r.value);
          assert forall j :: 0 <= j < i + 1 ==> cookies[j].name != name by {
            forall j | 0 <= j < i + 1 ensures cookies[j].name != name {
              if j > 0 { assert cookies[j] == cookies[1..][j - 1]; }
            }
          }
        }
      }
      r
  }

  /** The record written at login comes back from the cookie it produced,
      whatever other cookies the client sends after it, provided the codec
      round-trips and the account is set. */
  lemma SessionCookieAuthenticates(cm: CookieManager, info: UserAuthInfo, others: seq<RequestCookie>)
    requires RoundTrips(cm.codec, cm.cookieName)
    requires cm.SessionCookie(info).Ok?
    requires info.account != ""
    ensures var c := cm.SessionCookie(info).value;
            cm.Authenticate([RequestCookie(c.name, c.value)] + others) == Ok(info)
  {
    var c := cm.SessionCookie(info).value;
    assert cm.codec.encode(cm.cookieName, info) == Ok(c.value);
  }

  /** With a round-tripping codec, the empty record written at logout decodes
      to a record without account and is refused as not logged in. */
  lemma LogoutCookieNeverAuthenticates(cm: CookieManager, others: seq<RequestCookie>)
    requires RoundTrips(cm.codec, cm.cookieName)
    requires cm.SessionCookie(UserAuthInfo("", "", "", "", [], "", 0)).Ok?
    ensures var c := cm.SessionCookie(UserAuthInfo("", "", "", "", [], "", 0)).value;
            cm.Authenticate([RequestCookie(c.name, c.value)] + others) == Err(NotLoggedIn)
  {
    var empty := UserAuthInfo("", "", "", "", [], "", 0);
    var c := cm.SessionCookie(empty).value;
    assert cm.codec.encode(cm.cookieName, empty) == Ok(c.value);
  }

  /** Without a cookie of the manager's name, no request authenticates. */
  lemma NoCookieNoSession(cm: CookieManager, cookies: seq<RequestCookie>)
    requires forall i :: 0 <= i < |cookies| ==> cookies[i].name != cm.cookieName
    ensures cm.Authenticate(cookies) == Err(NoCookie)
  {
  }
}
