/**
 * The multi-tenant reverse proxy of main.go: the tenant registry, the
 * routing decision of RouteProxy, the relay of the upstream response, the
 * ResponseRecorder that observes the status, and the label the logging
 * middleware prints. The network is abstracted: the upstream client is a
 * function from the outbound request to its outcome.
 */
module Gateway {
  import opened Wrappers
  import opened Http
  import opened Json

  // ---------------------------------------------------------------------
  // Tenant registry
  // ---------------------------------------------------------------------

  /** A tenant: display name and backend base URLs (only the first is used). */
  datatype ProjectInformation = ProjectInformation(name: string, urls: seq<string>)

  /** Tenant id to tenant, as held by the global urlMap. */
  type UrlMap = map<string, ProjectInformation>

  /**
   * The registry initUrlMap builds from the empty global map; `sahntek` and
   * `hv` are the values of the SAHNTEK and HV environment variables, the
   * empty string when unset.
   */
  function InitialUrlMap(sahntek: string, hv: string): (m: UrlMap)
    ensures m.Keys == {"HV001", "HV002"}
    ensures m["HV001"].name == "Sahntek" && m["HV001"].urls == [sahntek]
    ensures m["HV002"].name == "Hallowed Visions" && m["HV002"].urls == [hv]
    ensures forall id :: id in m ==> |m[id].urls| == 1
  {
    map["HV001" := ProjectInformation("Sahntek", [sahntek]),
        "HV002" := ProjectInformation("Hallowed Visions", [hv])]
  }

  /** The global urlMap, a Go map that initUrlMap fills in place. */
  class ProjectTable {
    var urlMap: UrlMap

    /** The global starts out empty. */
    constructor ()
      ensures urlMap == map[]
    {
      urlMap := map[];
    }

    /** initUrlMap: registers HV001 and HV002, overwriting earlier entries. */
    method InitUrlMap(sahntek: string, hv: string)
      modifies this
      ensures urlMap == old(urlMap)["HV001" := ProjectInformation("Sahntek", [sahntek])]
                                   ["HV002" := ProjectInformation("Hallowed Visions", [hv])]
      ensures old(urlMap) == map[] ==> urlMap == InitialUrlMap(sahntek, hv)
    {
      urlMap := urlMap["HV001" := ProjectInformation("Sahntek", [sahntek])];
      urlMap := urlMap["HV002" := ProjectInformation("Hallowed Visions", [hv])];
    }
  }

  // ---------------------------------------------------------------------
  // Routing decision
  // ---------------------------------------------------------------------

  /** The request header that names the tenant. */
  const ServerId := "Server-Id"

  const HeaderMissing := JsonError("Header Missing", "INVALID_URL")
  const InvalidUrl := JsonError("Invalid Url", "INVALID_URL")
  const ServerError := JsonError("Internal Server Error", "INVALID_SERVER")

  /** The five fixed error strings (three messages, two codes) need no JSON escaping. */
  lemma ErrorsPlain()
    ensures PlainError(HeaderMissing) && PlainError(InvalidUrl) && PlainError(ServerError)
  {
    assert Plain("Header Missing") by {}
    assert Plain("Invalid Url") by {}
    assert Plain("Internal Server Error") by {}
    assert Plain("INVALID_URL") by {}
    assert Plain("INVALID_SERVER") by {}
  }

  /** The tenant a header map names, if its first Server-Id value is registered. */
  function Tenant(urlMap: UrlMap, h: Header): Option<ProjectInformation>
  {
    if ServerId in h && h[ServerId] != [] && h[ServerId][0] in urlMap
    then Some(urlMap[h[ServerId][0]])
    else None
  }

  /**
   * What RouteProxy does before talking to the network: reply with an error,
   * send an outbound request, or stop on an index out of range (Go panics on
   * `serverId[0]` of an empty value list and on `urls[0]` of a tenant
   * without URLs).
   */
  datatype Decision = Reject(status: int, err: JsonError) | Dispatch(out: Request) | Panic

  function Decide(urlMap: UrlMap, r: Request): (d: Decision)
    ensures d == Reject(400, HeaderMissing) <==> ServerId !in r.header
    ensures d == Reject(400, InvalidUrl) <==>
              ServerId in r.header && r.header[ServerId] != [] && r.header[ServerId][0] !in urlMap
    ensures d.Reject? ==> d == Reject(400, HeaderMissing) || d == Reject(400, InvalidUrl)
    ensures d.Panic? <==>
              ServerId in r.header &&
              (r.header[ServerId] == [] || (r.header[ServerId][0] in urlMap && urlMap[r.header[ServerId][0]].urls == []))
    ensures d.Dispatch? <==> Tenant(urlMap, r.header).Some? && Tenant(urlMap, r.header).value.urls != []
    ensures d.Dispatch? ==>
              d.out.verb == r.verb && d.out.header == r.header && d.out.body == r.body &&
              d.out.url == Tenant(urlMap, r.header).value.urls[0] + r.url
  {
    if ServerId !in r.header then Reject(400, HeaderMissing)
    else if r.header[ServerId] == [] then Panic
    else if r.header[ServerId][0] !in urlMap then Reject(400, InvalidUrl)
    else
      var project := urlMap[r.header[ServerId][0]];
      if project.urls == [] then Panic
      else Dispatch(Request(r.verb, project.urls[0] + r.url, r.header, r.body))
  }

  // ---------------------------------------------------------------------
  // Replies
  // ---------------------------------------------------------------------

  /** What the upstream call produced: a transport error or a response. */
  datatype Upstream = Unreachable | Responded(status: int, header: Header, body: string)

  /** What the handler writes: status, header map and body. */
  datatype Reply = Reply(status: int, header: Header, body: string)

  /**
   * The outcome of one RouteProxy call: the handler panicked, or it replied
   * after sending the upstream request `sent`, if any.
   */
  datatype Handled = Panicked | Completed(sent: Option<Request>, reply: Reply)

  /** SendError's reply, on a response whose header map was `h0`. */
  function ErrorReply(h0: Header, status: int, e: JsonError): (rep: Reply)
    requires PlainError(e)
    ensures rep.status == status
    ensures Get(rep.header, "Content-Type") == ["application/json"]
    ensures forall k :: k != "Content-Type" ==> Get(rep.header, k) == Get(h0, k)
    ensures Unmarshal(rep.body) == Some(e)
  {
    UnmarshalMarshal(e);
    Reply(status, h0["Content-Type" := ["application/json"]], Marshal(e))
  }

  /** The headers the policy layer owns; RouteProxy never copies them from upstream. */
  predicate Relayable(name: string)
  {
    name != "Access-Control-Allow-Origin" && name != "Access-Control-Allow-Credentials"
  }

  /**
   * The response header map after every relayable upstream value has been
   * added to `w`. A name whose upstream list is empty is never added.
   */
  function Relay(w: Header, up: Header): (r: Header)
    ensures forall k :: k in up && Relayable(k) ==> Get(r, k) == Get(w, k) + up[k]
    ensures forall k :: !Relayable(k) ==> Get(r, k) == Get(w, k)
    ensures forall k :: k !in up ==> Get(r, k) == Get(w, k)
    ensures forall k :: k in r <==> k in w || (k in up && Relayable(k) && up[k] != [])
  {
    map k | k in w.Keys + up.Keys && (k in w || (Relayable(k) && Get(up, k) != []))
      :: Get(w, k) + (if Relayable(k) then Get(up, k) else [])
  }

  /**
   * Serving one request through RouteProxy, for a response whose header map
   * starts as `h0` and an upstream client `call`.
   */
  function Serve(urlMap: UrlMap, r: Request, h0: Header, call: Request -> Upstream): (o: Handled)
    ensures ServerId !in r.header ==>
              o.Completed? && o.sent == None && o.reply.status == 400 &&
              Unmarshal(o.reply.body) == Some(HeaderMissing) &&
              o.reply.header == h0["Content-Type" := ["application/json"]]
    ensures ServerId in r.header && r.header[ServerId] != [] && r.header[ServerId][0] !in urlMap ==>
              o.Completed? && o.sent == None && o.reply.status == 400 &&
              Unmarshal(o.reply.body) == Some(InvalidUrl) &&
              o.reply.header == h0["Content-Type" := ["application/json"]]
    ensures o.Panicked? <==> Decide(urlMap, r).Panic?
    ensures o.Completed? && o.sent.Some? <==> Tenant(urlMap, r.header).Some? && Tenant(urlMap, r.header).value.urls != []
    ensures o.Completed? && o.sent.Some? ==>
              o.sent.value == Request(r.verb, Tenant(urlMap, r.header).value.urls[0] + r.url, r.header, r.body)
    ensures o.Completed? && o.sent.Some? && call(o.sent.value).Unreachable? ==>
              o.reply.status == 500 && Unmarshal(o.reply.body) == Some(ServerError) &&
              o.reply.header == h0["Content-Type" := ["application/json"]]
    ensures o.Completed? && o.sent.Some? && call(o.sent.value).Responded? ==>
              var up := call(o.sent.value);
              o.reply.status == up.status && o.reply.body == up.body + "Success" &&
              o.reply.header == Relay(h0, up.header)
  {
    ErrorsPlain();
    match Decide(urlMap, r)
    case Panic => Panicked
    case Reject(status, e) => Completed(None, ErrorReply(h0, status, e))
    case Dispatch(out) =>
      match call(out)
      case Unreachable => Completed(Some(out), ErrorReply(h0, 500, ServerError))
      case Responded(status, header, body) =>
        Completed(Some(out), Reply(status, Relay(h0, header), body + "Success"))
  }

  // ---------------------------------------------------------------------
  // Header relay loop
  // ---------------------------------------------------------------------

  /** `h` after Header().Add(k, v) for each `v` of `vs`, in order. */
  function AddAll(h: Header, k: string, vs: seq<string>): (r: Header)
    ensures Get(r, k) == Get(h, k) + vs
    ensures forall j :: j != k ==> Get(r, j) == Get(h, j)
    ensures forall j :: j in r <==> j in h || (j == k && vs != [])
  {
    if vs == [] then h else h[k := Get(h, k) + vs]
  }

  /** The upstream headers the loop has already visited: all but `todo`. */
  function Visited(up: Header, todo: set<string>): (v: Header)
  {
    map k | k in up && k !in todo :: up[k]
  }

  /** Visiting one more upstream name adds its values, unless it is excluded. */
  lemma RelayVisit(h0: Header, up: Header, todo: set<string>, k: string)
    requires k in todo && k in up
    ensures Relay(h0, Visited(up, todo - {k})) ==
              if Relayable(k) then AddAll(Relay(h0, Visited(up, todo)), k, up[k])
              else Relay(h0, Visited(up, todo))
  {
    var before := Relay(h0, Visited(up, todo));
    var after := Relay(h0, Visited(up, todo - {k}));
    var expected := if Relayable(k) then AddAll(before, k, up[k]) else before;
    forall j
      ensures (j in after <==> j in expected) && Get(after, j) == Get(expected, j)
    {
      if j != k {
        assert j in Visited(up, todo - {k}) <==> j in Visited(up, todo);
        if j in Visited(up, todo) {
          assert Visited(up, todo - {k})[j] == Visited(up, todo)[j];
        }
      } else {
        assert k in Visited(up, todo - {k}) && k !in Visited(up, todo);
      }
    }
    HeaderExt(after, expected);
  }

  /** The inner loop: Header().Add(name, v) for each upstream value `v`. */
  method AddValues(w: Writer, name: string, values: seq<string>)
    modifies w`header
    ensures w.header == AddAll(old(w.header), name, values)
  {
    var i := 0;
    while i < |values|
      invariant 0 <= i <= |values|
      invariant w.header == AddAll(old(w.header), name, values[..i])
    {
      ghost var added := Get(old(w.header), name) + values[..i + 1];
      assert values[..i + 1] == values[..i] + [values[i]];
      assert Get(w.header, name) + [values[i]] == added;
      w.Add(name, values[i]);
      assert w.header == old(w.header)[name := added];
      i := i + 1;
    }
    assert values[..i] == values;
  }

  /**
   * The loop of RouteProxy that copies the upstream headers onto the
   * response, visiting the names in any order, as Go's map iteration does.
   */
  method CopyHeaders(w: Writer, up: Header)
    modifies w`header
    ensures w.header == Relay(old(w.header), up)
  {
    ghost var h0 := w.header;
    var todo := up.Keys;
    assert Visited(up, todo) == map[];
    HeaderExt(Relay(h0, map[]), h0);
    while todo != {}
      invariant todo <= up.Keys
      invariant w.header == Relay(h0, Visited(up, todo))
      decreases |todo|
    {
      var name :| name in todo;
      RelayVisit(h0, up, todo, name);
      if Relayable(name) {
        AddValues(w, name, up[name]);
      }
      todo := todo - {name};
    }
    assert Visited(up, todo) == up;
  }

  // ---------------------------------------------------------------------
  // ResponseRecorder and the handler
  // ---------------------------------------------------------------------

  /** A ResponseWriter decorator that remembers the status it was asked to write. */
  class ResponseRecorder {
    /** The embedded http.ResponseWriter; Header() and Write go straight to it. */
    const inner: Writer
    var statusCode: int

    /** The middleware starts it at http.StatusOK. */
    constructor (w: Writer)
      ensures inner == w && statusCode == 200
    {
      inner := w;
      statusCode := 200;
    }

    /** Records `code`, then hands the same code to the wrapped writer. */
    method WriteHeader(code: int)
      modifies this`statusCode, inner`wroteHeader, inner`status
      ensures statusCode == code
      ensures inner.wroteHeader
      ensures inner.status == if old(inner.wroteHeader) then old(inner.status) else code
    {
      statusCode := code;
      inner.WriteHeader(code);
    }
  }

  /** SendError: JSON content type, the status, then the JSON body. */
  method SendError(w: ResponseRecorder, status: int, e: JsonError)
    requires PlainError(e)
    modifies w, w.inner
    ensures w.statusCode == status
    ensures w.inner.header == ErrorReply(old(w.inner.header), status, e).header
    ensures w.inner.body == old(w.inner.body) + ErrorReply(old(w.inner.header), status, e).body
    ensures w.inner.wroteHeader
    ensures w.inner.status == if old(w.inner.wroteHeader) then old(w.inner.status) else status
  {
    ghost var rep := ErrorReply(w.inner.header, status, e);
    w.inner.Set("Content-Type", "application/json");
    assert w.inner.header == rep.header;
    w.WriteHeader(status);
    var data := Marshal(e);
    assert data == rep.body;
    w.inner.Write(data);
  }

  /**
   * RouteProxy, writing through the recorder the middleware hands it.
   * `sent` is the upstream request made, if any; `panicked` says the
   * handler stopped on an index out of range before writing anything.
   */
  method RouteProxy(w: ResponseRecorder, r: Request, urlMap: UrlMap, call: Request -> Upstream)
    returns (sent: Option<Request>, panicked: bool)
    modifies w, w.inner
    ensures panicked <==> Serve(urlMap, r, old(w.inner.header), call).Panicked?
    ensures panicked ==> unchanged(w, w.inner) && sent == None
    ensures !panicked ==>
              var o := Serve(urlMap, r, old(w.inner.header), call);
              sent == o.sent && w.statusCode == o.reply.status &&
              w.inner.header == o.reply.header &&
              w.inner.body == old(w.inner.body) + o.reply.body &&
              w.inner.wroteHeader &&
              w.inner.status == if old(w.inner.wroteHeader) then old(w.inner.status) else o.reply.status
  {
    ErrorsPlain();
    var path := r.url;
    if ServerId !in r.header {
      SendError(w, 400, HeaderMissing);
      return None, false;
    }
    var serverId := r.header[ServerId];
    if serverId == [] {
      return None, true;
    }
    if serverId[0] !in urlMap {
      SendError(w, 400, InvalidUrl);
      return None, false;
    }
    var project := urlMap[serverId[0]];
    if project.urls == [] {
      return None, true;
    }
    var req := Request(r.verb, project.urls[0] + path, r.header, r.body);
    sent := Some(req);
    panicked := false;
    var resp := call(req);
    if resp.Unreachable? {
      SendError(w, 500, ServerError);
      return;
    }
    CopyHeaders(w.inner, resp.header);
    w.WriteHeader(resp.status);
    w.inner.Write(resp.body);
    w.inner.Write("Success");
  }

  // ---------------------------------------------------------------------
  // Logging middleware
  // ---------------------------------------------------------------------

  /**
   * The project name logginMiddleware prints. A missing Server-Id is looked
   * up as the id "Unknown"; an unregistered id gives the literal "Unkown".
   * The value list must be non-empty, as Go indexes it.
   */
  function LogLabel(urlMap: UrlMap, h: Header): (name: string)
    requires ServerId in h ==> h[ServerId] != []
    ensures Tenant(urlMap, h).Some? ==> name == Tenant(urlMap, h).value.name
    ensures ServerId in h && h[ServerId][0] !in urlMap ==> name == "Unkown"
    ensures ServerId !in h ==> name == if "Unknown" in urlMap then urlMap["Unknown"].name else "Unkown"
  {
    var projectId := if ServerId in h then h[ServerId] else ["Unknown"];
    if projectId[0] in urlMap then urlMap[projectId[0]].name else "Unkown"
  }

  /** With the registry initUrlMap builds, the label is the tenant's name or "Unkown". */
  lemma LogLabelInitial(sahntek: string, hv: string, h: Header)
    requires ServerId in h ==> h[ServerId] != []
    ensures var m := InitialUrlMap(sahntek, hv);
            LogLabel(m, h) == if Tenant(m, h).Some? then Tenant(m, h).value.name else "Unkown"
  {
    var m := InitialUrlMap(sahntek, hv);
    assert "Unknown" !in m;
  }

  /**
   * With the registry initUrlMap builds, a handler panics only on a Server-Id
   * header with no values: every registered tenant has a URL.
   */
  lemma ServeInitial(sahntek: string, hv: string, r: Request, h0: Header, call: Request -> Upstream)
    ensures Serve(InitialUrlMap(sahntek, hv), r, h0, call).Panicked? <==>
              ServerId in r.header && r.header[ServerId] == []
    ensures var m := InitialUrlMap(sahntek, hv);
            Tenant(m, r.header).Some? ==> Serve(m, r, h0, call).sent.Some?
  {
  }

  /** One line of the request log: the project label and the recorded status. */
  datatype LogLine = LogLine(project: string, status: int)

  /**
   * logginMiddleware around RouteProxy, without its clock and console
   * output: returns what it logs after the handler returns, or None when
   * the handler panicked and nothing is logged.
   */
  method LoggingMiddleware(w: Writer, r: Request, urlMap: UrlMap, call: Request -> Upstream)
    returns (log: Option<LogLine>)
    modifies w
    ensures var o := Serve(urlMap, r, old(w.header), call);
            (log.None? <==> o.Panicked?) &&
            (o.Completed? ==>
              log.value == LogLine(LogLabel(urlMap, r.header), o.reply.status) &&
              w.header == o.reply.header &&
              w.body == old(w.body) + o.reply.body &&
              w.wroteHeader &&
              w.status == if old(w.wroteHeader) then old(w.status) else o.reply.status)
    ensures log.Some? && !old(w.wroteHeader) ==> log.value.status == w.status
    ensures log.None? ==> unchanged(w)
  {
    var recorder := new ResponseRecorder(w);
    var sent, panicked := RouteProxy(recorder, r, urlMap, call);
    if panicked {
      return None;
    }
    var projectName := LogLabel(urlMap, r.header);
    log := Some(LogLine(projectName, recorder.statusCode));
  }
}
