# gateway-balancer: a verified model of the tenant-routing proxy

gateway-balancer is a small multi-tenant reverse proxy written in Go. A request names its tenant in
the `Server-Id` header. The proxy looks the tenant up in a registry filled at startup. It forwards the
request to the tenant's first backend URL and relays the backend's answer back to the caller. A
`ResponseRecorder` wraps the response writer so that the logging middleware can print the status
that was sent, together with the tenant's name.

The model lifts the deterministic decisions out of that plumbing. It has four modules:

- `Wrappers` (`wrappers.dfy`): an `Option` type.
- `Http` (`http.dfy`): net/http reduced to values. A header map is `map<string, seq<string>>`. A
  request is a value. The response writer is a `Writer` class with `Set`, `Add`, `WriteHeader` and
  `Write`; the first status written wins, and a `Write` before any status sends 200.
- `Json` (`json.dfy`): the error body. `Marshal` is what `json.Marshal` produces for the
  `{"msg", "code"}` map in `SendError`. `Unmarshal` is a decoder for that shape. Two lemmas prove
  that they invert each other.
- `Gateway` (`gateway.dfy`): everything in `main.go`:
  - the registry (`InitialUrlMap` and the `ProjectTable` class with `InitUrlMap`);
  - the routing decision (`Decide`) and the whole reply (`Serve`);
  - the header-relay loop (`CopyHeaders` and `AddValues`), proved equal to the pure `Relay`;
  - the `ResponseRecorder` class;
  - the imperative handler `RouteProxy`, proved to write exactly what `Serve` describes;
  - the middleware's label (`LogLabel`) and `LoggingMiddleware`.

The upstream HTTP client is a parameter `call: Request -> Upstream`. It gives either `Unreachable`
(a transport error) or a whole response. "No upstream request is made" is stated as `sent == None`.
The registry is passed explicitly as a value. In the source it is a global that only `initUrlMap`
writes.

Behaviour of the code that the model keeps and that is easy to miss:

- The error body has its keys in sorted order, `{"code":…,"msg":…}`. `json.Marshal` sorts the keys
  of a Go map.
- An unset environment variable gives a tenant whose URL list is `[""]`, one empty string. It is not
  an empty list, so `urls[0]` never fails for a registered tenant (`ServeInitial`).
- A `Server-Id` header whose value list is empty makes the handler index an empty slice and panic.
  The model states this as the `Panicked` outcome.
- The fallback log label is spelled `"Unkown"`. The middleware looks a missing header up as the
  tenant id `"Unknown"`. It prints `"Unkown"` only because the registry has no `"Unknown"` key
  (`LogLabel`, `LogLabelInitial`).
- An upstream header whose value list is empty is not copied. `Add` is never called for it.

## Model

| member | source | states |
|---|---|---|
| `Gateway.InitialUrlMap` | main.go:22-25 | the initialised registry has exactly the ids HV001 and HV002, named "Sahntek" and "Hallowed Visions", each with exactly one URL, the configured value |
| `Gateway.ProjectTable.constructor` | main.go:20 | the global urlMap starts empty |
| `Gateway.ProjectTable.InitUrlMap` | main.go:22-25 | the map is updated in place with the two entries; from the empty map the result is `InitialUrlMap` |
| `Gateway.ErrorsPlain` | main.go:53-72 | the five fixed error strings (three messages, two codes) contain no character that json.Marshal escapes |
| `Gateway.Decide` | main.go:48-67 | missing `Server-Id` iff 400 "Header Missing"; present with an unregistered first value iff 400 "Invalid Url"; panic iff the value list or the tenant's URL list is empty; otherwise the outbound request has the inbound method, header map and body and the URL `urls[0] ++ path` |
| `Gateway.ErrorReply` | main.go:34-46 | the error reply has the given status and Content-Type `application/json`, leaves every other header as it was, and its body decodes back to the (msg, code) pair |
| `Json.Marshal` | main.go:38-43 | the body opens with the "code" key, which json.Marshal puts before "msg" because it sorts a Go map's keys, and its length is the two values plus the fixed JSON text; `UnmarshalMarshal` and `MarshalUnmarshal` show it is exactly the inverse of the decoder |
| `Json.UnmarshalMarshal` | main.go:38-45 | decoding the marshalled error body gives back the same msg and code |
| `Json.MarshalUnmarshal` | main.go:38-45 | every body the decoder accepts is exactly the marshalled form of what it decodes to |
| `Gateway.Relay` | main.go:78-85 | every relayable upstream header's values are appended in order after the existing ones; the two Access-Control names gain nothing; names absent upstream are unchanged; a name is new only if upstream gave it values |
| `Gateway.AddValues` | main.go:82-84 | adding each value of one upstream header in order gives `AddAll` of the old map |
| `Gateway.CopyHeaders` | main.go:78-85 | the loop, visiting the upstream names in any order, leaves the response header map equal to `Relay` of the old map and the upstream map |
| `Gateway.Serve` | main.go:48-92 | no `Server-Id`: 400, body decodes to Header Missing/INVALID_URL, the header map gets only the JSON content type, no upstream request; unregistered id: 400 Invalid Url/INVALID_URL, the same header map, no request; a request is sent iff the tenant is registered with a URL, and it is the forwarded request; unreachable upstream: 500 Internal Server Error/INVALID_SERVER and the header map gets only the content type; success: upstream status, relayed headers, upstream body followed by "Success" |
| `Gateway.ServeInitial` | main.go:22-25 | with the initialised registry the handler panics only on an empty `Server-Id` value list, and every registered tenant gets its request forwarded |
| `Gateway.ResponseRecorder.constructor` | main.go:120 | the recorder wraps the given writer and starts at status 200 |
| `Gateway.ResponseRecorder.WriteHeader` | main.go:99-103 | records the code and passes the same code to the wrapped writer |
| `Gateway.SendError` | main.go:34-46 | sets the JSON content type, writes the status through the recorder and appends the marshalled body: the writer ends in the `ErrorReply` state |
| `Gateway.RouteProxy` | main.go:48-92 | the handler panics exactly when `Serve` does and then writes nothing; otherwise the recorded status, the header map, the body and the status sent all match `Serve`'s reply, and `sent` is the one upstream request, if any |
| `Gateway.LogLabel` | main.go:123-131 | the label is the registered tenant's name; "Unkown" for an unregistered id; for a missing header, the name registered under "Unknown" if there is one, else "Unkown" |
| `Gateway.LogLabelInitial` | main.go:123-131 | with the initialised registry the label is the tenant's name when the id is registered and "Unkown" otherwise |
| `Gateway.LoggingMiddleware` | main.go:105-137 | the project-name and status lines (main.go:134-136) are not reached iff the handler panics; otherwise the response is exactly `Serve`'s reply, unchanged by the label lookup, and the logged status is the recorded one, which equals the status sent; when the handler panics the writer is unchanged |

## Left out

- Network I/O: `http.NewRequest`, `http.DefaultClient.Do` and the `io.Copy` streaming (main.go:66-69, 88) are not modelled. The upstream is a function from the outbound request to its outcome, and bodies are whole strings.
- The error that `http.NewRequest` returns is ignored at main.go:66. The URL rules it would enforce are in net/url, which is not part of this model. If it rejected `urls[0] + path`, `req` would be nil and `req.Header = r.Header` at main.go:67 would panic; `Decide` and `Serve` dispatch the request in that case instead.
- `r.URL.String()` (main.go:49): the path is taken as the string the URL renders to. The re-encoding rules of net/url are not modelled.
- Closing the upstream body (main.go:76) is not modelled. It has no effect on what the caller receives.
- The CORS layer (`rs/cors`, main.go:140-158) is a separate library and is not part of this model.
- Environment loading (`godotenv`, `os.Getenv`, main.go:23-24, 150): the two URLs are parameters.
- The logging middleware's clock, date formatting and console output (main.go:107-119, 133-136) are not modelled. It keeps only the values it logs: the label and the recorded status.
- `main`, `ListenAndServe` and the registration of `RouteProxy` on the mux (main.go:149-165) are not modelled.
- Gateway.LoggingMiddleware: the handler it wraps is `RouteProxy` itself, while in the program it wraps the `http.ServeMux` (main.go:159-163). The mux first cleans the request path: for a path with `.` or `..` segments or repeated slashes (other than on CONNECT) it replies 301 with the clean path and never calls `RouteProxy`, so no upstream request is made and status 301 is logged. That redirect is not modelled.
- Concurrency between requests is not modelled. Each request is handled on its own, and the registry is read-only once initialised.
- net/http's recovery from a handler panic is not modelled. The model stops at `Panicked`, with nothing written and the project-name and status lines (main.go:134-136) not printed; the request lines of main.go:114-117 are printed before the handler runs.
- Header-name canonicalisation by `Header().Add` and `Set` is not modelled. Names are compared as given. Upstream header names arrive canonical from the client, so `Add` leaves them as they are.
- Json.Marshal: it is defined only for strings json.Marshal copies unchanged, because `SendError` is only ever called with the five fixed strings (`ErrorsPlain`). The escaping of other characters is not modelled.
- Http.Writer: header changes made after the status is sent are kept in the map, where net/http would ignore them. `RouteProxy` always sets headers before it writes the status. Automatic headers (Content-Length, Date, sniffed Content-Type) and the range check on status codes are not modelled.
- Http.Writer: `Write` always appends, so a `Reply` is what the handler writes, not always what the caller receives. net/http drops bytes written past a declared Content-Length; `Relay` copies the upstream Content-Length, so the "Success" trailer of main.go:90 does not reach the caller when the upstream declares a length. net/http also drops body bytes for 204 and 304 replies and for HEAD requests. None of this is modelled.
