/**
 * src/server/vertx/api.js: the `login`, `logout` and `settings`
 * placeholders, the argument defaults of `application` and the option
 * building and validation of `curl`. Call arguments are the parsed JSON
 * request body; a missing key is `undefined`.
 */
module Api {
  import opened Results
  import Osjs

  /** A JSON value; numbers are integers here. */
  datatype Json = JNull | JBool(b: bool) | JNum(n: int) | JStr(s: string) | JArr(items: seq<Json>) | JObj(fields: map<string, Json>)

  /** JavaScript truthiness of a JSON value (arrays and objects are truthy). */
  predicate Truthy(v: Json)
  {
    match v
    case JNull => false
    case JBool(b) => b
    case JNum(n) => n != 0
    case JStr(s) => s != ""
    case _ => true
  }

  /** `args[key]`, `None` for `undefined`. */
  function Field(args: map<string, Json>, key: string): Option<Json>
  {
    if key in args then Some(args[key]) else None
  }

  /** `args[key] || fallback`. */
  function Or(v: Option<Json>, fallback: Json): (r: Json)
    ensures v.Some? && Truthy(v.value) ==> r == v.value
    ensures !(v.Some? && Truthy(v.value)) ==> r == fallback
  {
    if v.Some? && Truthy(v.value) then v.value else fallback
  }

  /** The arguments a callback receives; `None` for one not passed. */
  datatype Callback = Callback(error: Json, result: Option<Json>)

  const NoHandler := Callback(JStr("No handler assigned"), Some(JObj(map[])))

  /** `login`: a placeholder until a handler binds its own. */
  function Login(args: map<string, Json>): Callback
  {
    NoHandler
  }

  /** `logout`: a placeholder until a handler binds its own. */
  function Logout(args: map<string, Json>): Callback
  {
    NoHandler
  }

  /** `settings`: a placeholder until a handler binds its own. */
  function Settings(args: map<string, Json>): Callback
  {
    NoHandler
  }

  /** Whatever they are called with, the placeholders answer with an error and an empty object. */
  lemma PlaceholdersRefuse(args: map<string, Json>)
    ensures Login(args) == Logout(args) == Settings(args) == NoHandler
    ensures Truthy(NoHandler.error) && NoHandler.result == Some(JObj(map[]))
  {
  }

  const AppError := "Application API error or missing: "

  /** What `application` comes to. */
  datatype AppOutcome =
    | AppCalled(file: string, methodName: Json, arguments: Json)  // the package method answers through the callback
    | AppFailed(cb: Callback)
    | AppUnjoinable(path: Json)                                    // `_path.join` on a non-string path

  /**
   * `application`: `path` and `method` default to `null` and `arguments` to
   * `[]`; the package's `api.js` under `repodir` is loaded and its method
   * called. `load` gives the exception text when loading, the method lookup
   * or the call throws.
   */
  function Application(args: map<string, Json>, repodir: string, load: (string, Json) -> Option<string>): (o: AppOutcome)
    ensures o.AppCalled? || o.AppFailed? <==> Or(Field(args, "path"), JNull).JStr?
    ensures o.AppCalled? ==> o.methodName == Or(Field(args, "method"), JNull)
    ensures o.AppCalled? ==> o.arguments == Or(Field(args, "arguments"), JArr([]))
    ensures o.AppCalled? || o.AppFailed? ==>
      var file := Osjs.PathJoin([Osjs.PathJoin([repodir, Or(Field(args, "path"), JNull).s]), "api.js"]);
      match load(file, Or(Field(args, "method"), JNull))
      case None => o == AppCalled(file, Or(Field(args, "method"), JNull), Or(Field(args, "arguments"), JArr([])))
      case Some(e) => o == AppFailed(Callback(JStr(AppError + e), Some(JNull)))
    ensures o.AppUnjoinable? ==> o.path == Or(Field(args, "path"), JNull)
  {
    var apath := Or(Field(args, "path"), JNull);
    var ameth := Or(Field(args, "method"), JNull);
    var aargs := Or(Field(args, "arguments"), JArr([]));
    if apath.JStr? then
      var file := Osjs.PathJoin([Osjs.PathJoin([repodir, apath.s]), "api.js"]);
      match load(file, ameth)
      case None => AppCalled(file, ameth, aargs)
      case Some(e) => AppFailed(Callback(JStr(AppError + e), Some(JNull)))
    else AppUnjoinable(apath)
  }

  /** Without a path the call never reaches a package. */
  lemma ApplicationNeedsPath(args: map<string, Json>, repodir: string, load: (string, Json) -> Option<string>)
    requires "path" !in args
    ensures Application(args, repodir, load) == AppUnjoinable(JNull)
  {
  }

  /** The options `curl` builds for the (disabled) HTTP request. */
  datatype CurlOptions = CurlOptions(
    url: Json,
    httpMethod: Json,
    timeout: Option<int>,     // `None`: a non-numeric timeout, whose coercion is not modelled
    headers: Json,
    json: bool,
    body: Option<Json>,
    encodingNull: bool)

  datatype CurlOutcome =
    | CurlThrew(exception: string)
    | CurlRejected(cb: Callback)
    | CurlPrepared(opts: CurlOptions, mime: Json, cb: Callback)

  const NoUrlError := "cURL expects an 'url'"
  const Disabled := Callback(JBool(true), Some(JStr("temp disabled")))

  /** The exception of `args.routingContext.request()`: a JSON body holds no callable `request`. */
  const HeadersError := "TypeError: args.routingContext.request is not a function"

  /**
   * `curl` as written. The headers are read from `args.routingContext`,
   * which a parsed JSON body cannot make callable, so every call throws
   * before the `url` test.
   */
  function Curl(args: map<string, Json>): (o: CurlOutcome)
    ensures o == CurlThrew(HeadersError)
  {
    CurlThrew(HeadersError)
  }

  /** `timeout * 1000` for the values whose numeric coercion is modelled. */
  function Millis(timeout: Json): (ms: Option<int>)
    ensures timeout.JNum? ==> ms == Some(timeout.n * 1000)
  {
    match timeout
    case JNum(n) => Some(n * 1000)
    case JBool(b) => Some(if b then 1000 else 0)
    case JNull => Some(0)
    case _ => None
  }

  /**
   * `curl` as intended, with the headers of the request's own
   * `routingContext`: defaults, the `url` test, then the options set field
   * by field.
   */
  method CorrectedCurl(args: map<string, Json>, requestHeaders: Json) returns (o: CurlOutcome)
    ensures !o.CurlThrew?
    ensures o.CurlRejected? <==> !(Field(args, "url").Some? && Truthy(Field(args, "url").value))
    ensures o.CurlRejected? ==> o.cb == Callback(JStr(NoUrlError), None)
    ensures o.CurlPrepared? ==>
      var binary := Field(args, "binary") == Some(JBool(true));
      var m := Or(Field(args, "method"), JStr("GET"));
      && o.opts.url == args["url"]
      && o.opts.httpMethod == m
      && o.opts.timeout == Millis(Or(Field(args, "timeout"), JNum(0)))
      && o.opts.headers == Or(Some(requestHeaders), JObj(map[]))
      && (o.opts.json <==> m == JStr("POST"))
      && o.opts.body == (if m == JStr("POST") then Some(Or(Field(args, "query"), JObj(map[]))) else None)
      && (o.opts.encodingNull <==> binary)
      && o.mime == (if !Truthy(Or(Field(args, "mime"), JNull)) && binary then JStr("application/octet-stream")
                    else Or(Field(args, "mime"), JNull))
      && o.cb == Disabled
  {
    var url := Field(args, "url");
    var m := Or(Field(args, "method"), JStr("GET"));
    var query := Or(Field(args, "query"), JObj(map[]));
    var timeout := Or(Field(args, "timeout"), JNum(0));
    var binary := Field(args, "binary") == Some(JBool(true));
    var mime := Or(Field(args, "mime"), JNull);
    var headers := Or(Some(requestHeaders), JObj(map[]));

    if !Truthy(mime) && binary {
      mime := JStr("application/octet-stream");
    }
    if !(url.Some? && Truthy(url.value)) {
      return CurlRejected(Callback(JStr(NoUrlError), None));
    }
    var opts := CurlOptions(url.value, m, Millis(timeout), headers, false, None, false);
    if m == JStr("POST") {
      opts := opts.(json := true, body := Some(query));
    }
    if binary {
      opts := opts.(encodingNull := true);
    }
    o := CurlPrepared(opts, mime, Disabled);
  }
}
