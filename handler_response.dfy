/** The buffering `ResponseWriter` of internal/handler/response.go: the
    reverse proxy writes the upstream's answer into it instead of to the
    client, so that the proxy handler can finish the response itself. */
module HandlerResponse {
  import opened Wrappers
  import opened Strings
  import opened Http

  /** What `Hijack` answers: the original writer's own hijack (a connection
      outside this model), or `http.ErrNotSupported`. */
  datatype HijackResult = Delegated | ErrNotSupported

  /** The writer `originalWriter` may hold: whether it implements `http.Hijacker`. */
  datatype OriginalWriter = OriginalWriter(isHijacker: bool)

  class ResponseWriter {
    var headers: Header
    /** The `body` buffer; `None` is a nil buffer. */
    var buffer: Option<seq<byte>>
    /** The exported `Body` slice; `None` is a nil slice. */
    var body: Option<seq<byte>>
    var statusCode: int
    var createdAt: int
    var originalWriter: Option<OriginalWriter>

    /** The writer `ServeHTTP` creates: fresh headers, an empty buffer,
        status 0 and no original writer. */
    constructor (createdAt: int)
      ensures fresh(headers) && headers.entries == map[]
      ensures buffer == Some([]) && body == None && statusCode == 0
      ensures this.createdAt == createdAt && originalWriter == None
    {
      headers := new Header();
      buffer := Some([]);
      body := None;
      statusCode := 0;
      this.createdAt := createdAt;
      originalWriter := None;
    }

    /** `Header`: the writer's own header map, not a copy, so that changes
        made through the result are the captured headers. */
    method Header() returns (h: Header)
      ensures h == headers
    {
      return headers;
    }

    /** `Write`: the bytes are appended to the buffer and nothing reaches the
        client. The buffer must exist: writing to a nil buffer panics. */
    method Write(data: seq<byte>) returns (n: int)
      requires buffer.Some?
      modifies this
      ensures n == |data|
      ensures buffer == Some(old(buffer.value) + data)
      ensures headers == old(headers) && body == old(body) && statusCode == old(statusCode)
    {
      buffer := Some(buffer.value + data);
      return |data|;
    }

    /** `WriteHeader`: the status is recorded; a later call overrides an earlier one. */
    method WriteHeader(code: int)
      modifies this
      ensures statusCode == code
      ensures headers == old(headers) && buffer == old(buffer) && body == old(body)
    {
      statusCode := code;
    }

    /** The first step of `Serialize`: a nil `Body` is filled from an existing
        buffer; the JSON encoding that follows is not part of this model. */
    method FillBody()
      modifies this
      ensures old(body).None? && old(buffer).Some? ==> body == old(buffer)
      ensures old(body).Some? || old(buffer).None? ==> body == old(body)
      ensures headers == old(headers) && buffer == old(buffer) && statusCode == old(statusCode)
    {
      if body.None? && buffer.Some? {
        body := buffer;
      }
    }

    /** `Hijack`: delegated when the original writer is a hijacker, otherwise
        `http.ErrNotSupported`. */
    method Hijack() returns (r: HijackResult)
      ensures r == Delegated <==> originalWriter.Some? && originalWriter.value.isHijacker
    {
      if originalWriter.Some? && originalWriter.value.isHijacker {
        return Delegated;
      }
      return ErrNotSupported;
    }
  }
}
