/** The parts of Go's net/http that the handlers act on: header maps, the
    client-facing response writer, the incoming request and its body reader.
    Header names are taken as already canonical; net/http's canonicalisation
    of header keys is not part of this model. */
module Http {
  import opened Strings

  const StatusSeeOther: int := 303
  const StatusBadRequest: int := 400
  const StatusForbidden: int := 403
  const StatusInternalServerError: int := 500
  const StatusOK: int := 200

  /** `http.Cookie`, with the attributes the proxy sets. */
  datatype Cookie = Cookie(name: string, value: string, path: string, domain: string,
                           httpOnly: bool, maxAge: int)

  /** A cookie as the client sends it back: name and value. */
  datatype RequestCookie = RequestCookie(name: string, value: string)

  /** The values stored under a header name, in the order they were added. */
  function Values(entries: map<string, seq<string>>, key: string): (r: seq<string>)
    ensures key !in entries ==> r == []
    ensures key in entries ==> r == entries[key]
  {
    if key in entries then entries[key] else []
  }

  /** `Header.Get`: the first value, or "" when there is none. */
  function FirstValue(entries: map<string, seq<string>>, key: string): (r: string)
    ensures Values(entries, key) == [] ==> r == ""
    ensures Values(entries, key) != [] ==> r == Values(entries, key)[0]
  {
    var vs := Values(entries, key);
    if vs == [] then "" else vs[0]
  }

  /** The entries after appending one value under a name. */
  function Added(entries: map<string, seq<string>>, key: string, value: string): (r: map<string, seq<string>>)
    ensures r.Keys == entries.Keys + {key}
    ensures Values(r, key) == Values(entries, key) + [value]
    ensures forall k :: k != key ==> Values(r, k) == Values(entries, k)
  {
    entries[key := Values(entries, key) + [value]]
  }

  const HtmlContentType: string := "text/html; charset=utf-8"

  /** `http.StatusText` for the codes the proxy sends, "" for the others. */
  function StatusText(code: int): string {
    if code == StatusOK then "OK"
    else if code == StatusSeeOther then "See Other"
    else if code == StatusBadRequest then "Bad Request"
    else if code == StatusForbidden then "Forbidden"
    else if code == StatusInternalServerError then "Internal Server Error"
    else if code == 502 then "Bad Gateway"
    else ""
  }

  /** A hexadecimal digit in lower case, as `strconv.AppendInt` writes it. */
  function HexDigit(n: int): (c: char)
    requires 0 <= n < 16
    ensures c as int < 0x80
  {
    "0123456789abcdef"[n]
  }

  /** The bytes of a URL with every byte outside ASCII written as '%' and two
      hexadecimal digits; ASCII bytes are kept as they are. */
  function EscapeBytes(bs: seq<byte>): (r: string)
    ensures forall i :: 0 <= i < |r| ==> r[i] as int < 0x80
    ensures |r| >= |bs|
  {
    if bs == [] then ""
    else
      var b := bs[0] as int;
      (if b < 0x80 then [b as char] else ['%', HexDigit(b / 16), HexDigit(b % 16)])
      + EscapeBytes(bs[1..])
  }

  /** net/http's `hexEscapeNonASCII`, which `http.Redirect` applies to the
      Location header: the result is pure ASCII. */
  function HexEscapeNonASCII(s: string): (r: string)
    ensures forall i :: 0 <= i < |r| ==> r[i] as int < 0x80
  {
    EscapeBytes(Utf8(s))
  }

  /** A URL that is already ASCII is left untouched. */
  lemma {:induction false} HexEscapeKeepsAscii(s: string)
    requires forall i :: 0 <= i < |s| ==> s[i] as int < 0x80
    ensures HexEscapeNonASCII(s) == s
    decreases |s|
  {
    if |s| > 0 {
      var bs := Utf8(s);
      assert bs == [s[0] as int as byte] + Utf8(s[1..]);
      assert bs[1..] == Utf8(s[1..]);
      HexEscapeKeepsAscii(s[1..]);
      assert s == [s[0]] + s[1..];
    }
  }

  /** A character outside ASCII is sent as the percent-escapes of its UTF-8
      bytes: U+7528 is the bytes E7 94 A8. */
  lemma HexEscapeOfHan()
    ensures HexEscapeNonASCII("\U{7528}") == "%e7%94%a8"
  {
    assert Utf8("\U{7528}") == [0xE7, 0x94, 0xA8];
    var bs: seq<byte> := [0xE7, 0x94, 0xA8];
    assert bs[1..] == [0x94, 0xA8] && bs[1..][1..] == [0xA8] && bs[1..][1..][1..] == [];
  }

  /** One character as net/http's HTML escaper writes it. */
  function HtmlEscapeChar(c: char): (r: string)
    ensures forall i :: 0 <= i < |r| ==> r[i] !in "<>\"'"
    ensures c !in "&<>\"'" ==> r == [c]
  {
    if c == '&' then "&amp;"
    else if c == '<' then "&lt;"
    else if c == '>' then "&gt;"
    else if c == '"' then "&#34;"
    else if c == '\'' then "&#39;"
    else [c]
  }

  /** net/http's `htmlEscape`: no markup character is left in the result,
      and text without special characters is unchanged. */
  function HtmlEscape(s: string): (r: string)
    ensures forall i :: 0 <= i < |r| ==> r[i] !in "<>\"'"
    ensures (forall i :: 0 <= i < |s| ==> s[i] !in "&<>\"'") ==> r == s
  {
    if s == [] then ""
    else
      assert s == [s[0]] + s[1..];
      HtmlEscapeChar(s[0]) + HtmlEscape(s[1..])
  }

  /** The header map after `http.Redirect`: Location holds the escaped target
      and, when no Content-Type was set, a GET or HEAD answer is labelled HTML;
      no other name changes. */
  function RedirectHeader(entries: map<string, seq<string>>, requestMethod: string, location: string)
    : (r: map<string, seq<string>>)
    ensures Values(r, "Location") == [HexEscapeNonASCII(location)]
    ensures "Content-Type" in entries ==> Values(r, "Content-Type") == Values(entries, "Content-Type")
    ensures "Content-Type" !in entries && (requestMethod == "GET" || requestMethod == "HEAD")
            ==> Values(r, "Content-Type") == [HtmlContentType]
    ensures "Content-Type" !in entries && requestMethod != "GET" && requestMethod != "HEAD"
            ==> "Content-Type" !in r
    ensures forall k :: k != "Location" && k != "Content-Type" ==> Values(r, k) == Values(entries, k)
  {
    var withLocation := entries["Location" := [HexEscapeNonASCII(location)]];
    if "Content-Type" !in entries && (requestMethod == "GET" || requestMethod == "HEAD") then
      withLocation["Content-Type" := [HtmlContentType]]
    else withLocation
  }

  /** The body `http.Redirect` writes: a link to the target, only for a GET
      whose handler set no Content-Type; `fmt.Fprintln` ends it with a
      second newline. */
  function RedirectBody(entries: map<string, seq<string>>, requestMethod: string, location: string, code: int)
    : (r: seq<byte>)
    ensures r != [] <==> "Content-Type" !in entries && requestMethod == "GET"
  {
    if "Content-Type" !in entries && requestMethod == "GET" then
      Utf8("<a href=\"" + HtmlEscape(location) + "\">" + StatusText(code) + "</a>.\n\n")
    else []
  }

  /** What `http.Redirect` has sent on `w` since the start of the call: the
      header, the status if none was sent before, and the body. */
  twostate predicate Redirected(w: ClientWriter, requestMethod: string, location: string, code: int)
    reads w, w.header
  {
    && w.header.entries == RedirectHeader(old(w.header.entries), requestMethod, location)
    && w.status == (if old(w.status) == 0 then code else old(w.status))
    && w.body == old(w.body) + RedirectBody(old(w.header.entries), requestMethod, location, code)
  }

  /** `http.Header`, a map from name to values that is shared by reference. */
  class Header {
    var entries: map<string, seq<string>>

    constructor ()
      ensures entries == map[]
    {
      entries := map[];
    }

    method Get(key: string) returns (v: string)
      ensures v == FirstValue(entries, key)
    {
      if key in entries && entries[key] != [] {
        return entries[key][0];
      }
      return "";
    }

    /** `Header.Set`: the name now holds exactly this value. */
    method Set(key: string, value: string)
      modifies this
      ensures entries == old(entries)[key := [value]]
    {
      entries := entries[key := [value]];
    }

    /** `Header.Add`: the value is appended after those already present. */
    method Add(key: string, value: string)
      modifies this
      ensures entries == Added(old(entries), key, value)
    {
      entries := entries[key := Values(entries, key) + [value]];
    }
  }

  /** The `http.ResponseWriter` net/http hands to a handler: the header map,
      the status once sent (the first `WriteHeader` wins, and a `Write` before
      any sends 200), the body bytes sent, and the cookies set through
      `http.SetCookie`. */
  class ClientWriter {
    const header: Header
    var status: int
    var body: seq<byte>
    var cookies: seq<Cookie>

    constructor ()
      ensures fresh(header) && header.entries == map[]
      ensures status == 0 && body == [] && cookies == []
    {
      header := new Header();
      status := 0;
      body := [];
      cookies := [];
    }

    method WriteHeader(code: int)
      modifies this
      ensures status == (if old(status) == 0 then code else old(status))
      ensures body == old(body) && cookies == old(cookies)
    {
      if status == 0 {
        status := code;
      }
    }

    method Write(data: seq<byte>) returns (n: int)
      modifies this
      ensures n == |data|
      ensures status == (if old(status) == 0 then StatusOK else old(status))
      ensures body == old(body) + data && cookies == old(cookies)
    {
      if status == 0 {
        status := StatusOK;
      }
      body := body + data;
      return |data|;
    }

    /** `http.SetCookie`: one more Set-Cookie header. */
    method SetCookie(c: Cookie)
      modifies this
      ensures cookies == old(cookies) + [c]
      ensures status == old(status) && body == old(body)
    {
      cookies := cookies + [c];
    }

    /** `http.Redirect` for a request with this method: the escaped Location
        header, the HTML content type and short HTML body when the handler
        set no Content-Type, and the status. net/http panics on a code
        outside 100 to 999. */
    method Redirect(requestMethod: string, location: string, code: int)
      requires 100 <= code <= 999
      modifies this, header
      ensures Redirected(this, requestMethod, location, code)
      ensures cookies == old(cookies)
    {
      var before := header.entries;
      var hadContentType := "Content-Type" in before;
      header.Set("Location", HexEscapeNonASCII(location));
      if !hadContentType && (requestMethod == "GET" || requestMethod == "HEAD") {
        header.Set("Content-Type", HtmlContentType);
      }
      WriteHeader(code);
      if !hadContentType && requestMethod == "GET" {
        var _ := Write(RedirectBody(before, requestMethod, location, code));
      }
    }
  }

  /** A request body: the bytes not yet read and whether it was closed. */
  class Body {
    var unread: seq<byte>
    var closed: bool

    constructor (data: seq<byte>)
      ensures unread == data && !closed
    {
      unread := data;
      closed := false;
    }

    /** `ioutil.ReadAll`: everything left. */
    method ReadAll() returns (data: seq<byte>)
      modifies this
      ensures data == old(unread) && unread == [] && closed == old(closed)
    {
      data := unread;
      unread := [];
    }

    method Close()
      modifies this
      ensures closed && unread == old(unread)
    {
      closed := true;
    }
  }

  /** The value of a form field, "" when absent. */
  function FormField(form: map<string, string>, key: string): (v: string)
    ensures key in form ==> v == form[key]
    ensures key !in form ==> v == ""
  {
    if key in form then form[key] else ""
  }

  /** `http.Request`, with the fields the handlers read or replace. */
  class Request {
    var httpMethod: string
    var host: string
    var remoteAddr: string
    var path: string
    var requestURI: string
    var header: Header
    var body: Body
    var cookies: seq<RequestCookie>
    var form: map<string, string>

    constructor (httpMethod: string, host: string, remoteAddr: string, path: string, requestURI: string,
                 header: Header, body: Body, cookies: seq<RequestCookie>, form: map<string, string>)
      ensures this.httpMethod == httpMethod
      ensures this.host == host && this.remoteAddr == remoteAddr && this.path == path
      ensures this.requestURI == requestURI && this.header == header && this.body == body
      ensures this.cookies == cookies && this.form == form
    {
      this.httpMethod := httpMethod;
      this.host := host;
      this.remoteAddr := remoteAddr;
      this.path := path;
      this.requestURI := requestURI;
      this.header := header;
      this.body := body;
      this.cookies := cookies;
      this.form := form;
    }

    /** `Request.FormValue`. */
    function FormValue(key: string): (v: string)
      reads this
      ensures v == FormField(form, key)
    {
      FormField(form, key)
    }
  }
}
