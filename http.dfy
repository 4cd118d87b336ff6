/**
 * The parts of Go's net/http that the proxy handler touches, reduced to
 * whole values: header maps, a request, and the writer a handler replies
 * through.
 */
module Http {

  /** net/http's Header: a header name mapped to its values, in order. */
  type Header = map<string, seq<string>>

  /** The values stored under `k`; none when `k` is absent. */
  function Get(h: Header, k: string): seq<string>
  {
    if k in h then h[k] else []
  }

  /** Two header maps with the same names and the same values are equal. */
  lemma HeaderExt(a: Header, b: Header)
    requires forall k :: k in a <==> k in b
    requires forall k :: Get(a, k) == Get(b, k)
    ensures a == b
  {
    forall k | k in a
      ensures a[k] == b[k]
    {
      assert Get(a, k) == Get(b, k);
    }
  }

  /**
   * An HTTP request: its method (`verb`), its URL as `URL.String()` renders it, its
   * header map and its whole body.
   */
  datatype Request = Request(verb: string, url: string, header: Header, body: string)

  /**
   * The http.ResponseWriter a handler receives for one request. The status
   * line is sent once: the first WriteHeader wins, and a Write before any
   * WriteHeader sends 200.
   */
  class Writer {
    var header: Header
    var wroteHeader: bool
    var status: int
    var body: string

    constructor (h: Header)
      ensures header == h && !wroteHeader && body == []
    {
      header := h;
      wroteHeader := false;
      status := 0;
      body := [];
    }

    /** Header().Set: `k` now holds exactly `v`. */
    method Set(k: string, v: string)
      modifies this`header
      ensures header == old(header)[k := [v]]
    {
      header := header[k := [v]];
    }

    /** Header().Add: `v` is appended after the values `k` already holds. */
    method Add(k: string, v: string)
      modifies this`header
      ensures header == old(header)[k := Get(old(header), k) + [v]]
    {
      header := header[k := Get(header, k) + [v]];
    }

    /** WriteHeader: sends `code` unless a status was already sent. */
    method WriteHeader(code: int)
      modifies this`wroteHeader, this`status
      ensures wroteHeader
      ensures status == if old(wroteHeader) then old(status) else code
    {
      if !wroteHeader {
        status := code;
        wroteHeader := true;
      }
    }

    /** Write: appends `data` to the body, sending 200 first if no status was sent. */
    method Write(data: string)
      modifies this`wroteHeader, this`status, this`body
      ensures wroteHeader
      ensures status == if old(wroteHeader) then old(status) else 200
      ensures body == old(body) + data
    {
      if !wroteHeader {
        status := 200;
        wroteHeader := true;
      }
      body := body + data;
    }
  }
}
