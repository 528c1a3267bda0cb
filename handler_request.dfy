/** The request helpers of internal/handler/request.go: reading a request
    body so that it can be read again, rebuilding an outgoing request from a
    stored one, and the key order used to sort key/value pairs. */
module HandlerRequest {
  import opened Wrappers
  import opened Strings
  import opened Http

  /** `ExtractBodyFromRequest`: the whole body is read and closed, and the
      request gets a fresh reader over the same bytes. */
  method ExtractBodyFromRequest(req: Request) returns (body: seq<byte>)
    modifies req, req.body
    ensures body == old(req.body.unread)
    ensures old(req.body).closed
    ensures fresh(req.body) && req.body.unread == body && !req.body.closed
    ensures req.header == old(req.header) && req.host == old(req.host) && req.cookies == old(req.cookies)
  {
    body := req.body.ReadAll();
    req.body.Close();
    req.body := new Body(body);
  }

  /** The stored `Request` record; `header` is `None` for a nil header map. */
  datatype StoredRequest = StoredRequest(httpMethod: string, requestURI: string,
                                         header: Option<map<string, seq<string>>>,
                                         body: seq<byte>, query: string)

  /** The outgoing request `HttpRequest` builds, before URL parsing. */
  datatype OutgoingRequest = OutgoingRequest(httpMethod: string, url: string, rawQuery: string,
                                             header: map<string, seq<string>>, body: seq<byte>)

  /** `Request.HttpRequest(gatewayURL)`. `http.NewRequestWithContext` turns
      an empty method into GET. */
  function HttpRequest(req: StoredRequest, gatewayURL: string): (r: OutgoingRequest)
    ensures r.url == TrimRightChar(gatewayURL, '/') + req.requestURI
    ensures r.rawQuery == req.query
    ensures req.header.Some? ==> r.header == req.header.value
    ensures req.header.None? ==> r.header == map[]
    ensures req.httpMethod == "" ==> r.httpMethod == "GET"
    ensures req.httpMethod != "" ==> r.httpMethod == req.httpMethod
    ensures r.body == req.body
  {
    OutgoingRequest(if req.httpMethod == "" then "GET" else req.httpMethod, TrimRightChar(gatewayURL, '/') + req.requestURI, req.query,
                    if req.header.Some? then req.header.value else map[], req.body)
  }

  /** Trailing slashes on the gateway address make no difference:
      "http://a/" and "http://a//" join like "http://a". */
  lemma {:induction false} TrailingSlashesIgnored(req: StoredRequest, gatewayURL: string, n: nat)
    ensures HttpRequest(req, gatewayURL + Slashes(n)) == HttpRequest(req, gatewayURL)
    decreases n
  {
    if n > 0 {
      var shorter := gatewayURL + Slashes(n - 1);
      assert gatewayURL + Slashes(n) == shorter + "/";
      assert (shorter + "/")[..|shorter|] == shorter;
      assert TrimRightChar(shorter + "/", '/') == TrimRightChar(shorter, '/');
      TrailingSlashesIgnored(req, gatewayURL, n - 1);
    } else {
      assert gatewayURL + Slashes(n) == gatewayURL;
    }
  }

  function Slashes(n: nat): (s: string)
    ensures |s| == n && forall i :: 0 <= i < n ==> s[i] == '/'
  {
    if n == 0 then "" else Slashes(n - 1) + "/"
  }

  /** `jsonutils.KvPair`; the value is kept as text. */
  datatype KvPair = KvPair(key: string, value: string)

  /** `KvPairs.Len`. */
  function Len(k: array<KvPair>): (n: nat)
    ensures n == k.Length
  {
    k.Length
  }

  /** `KvPairs.Less`: string order on the keys. */
  function Less(k: array<KvPair>, i: int, j: int): (r: bool)
    requires 0 <= i < k.Length && 0 <= j < k.Length
    reads k
    ensures r <==> Strings.Less(k[i].key, k[j].key)
  {
    Strings.Less(k[i].key, k[j].key)
  }

  /** `Less` is a strict order in which two pairs are unordered exactly when
      their keys are equal, as `sort.Sort` requires. */
  lemma LessIsStrictOrder(k: array<KvPair>, i: int, j: int, l: int)
    requires 0 <= i < k.Length && 0 <= j < k.Length && 0 <= l < k.Length
    ensures !Less(k, i, i)
    ensures Less(k, i, j) && Less(k, j, l) ==> Less(k, i, l)
    ensures !Less(k, i, j) && !Less(k, j, i) <==> k[i].key == k[j].key
  {
    LessIrreflexive(k[i].key);
    if Less(k, i, j) && Less(k, j, l) {
      LessTransitive(k[i].key, k[j].key, k[l].key);
    }
    if k[i].key != k[j].key {
      LessConnected(k[i].key, k[j].key);
    }
  }

  /** `KvPairs.Swap`: exchanges two pairs in place and touches nothing else. */
  method Swap(k: array<KvPair>, i: int, j: int)
    requires 0 <= i < k.Length && 0 <= j < k.Length
    modifies k
    ensures k[i] == old(k[j]) && k[j] == old(k[i])
    ensures forall m :: 0 <= m < k.Length && m != i && m != j ==> k[m] == old(k[m])
    ensures multiset(k[..]) == multiset(old(k[..]))
  {
    k[i], k[j] := k[j], k[i];
  }
}
