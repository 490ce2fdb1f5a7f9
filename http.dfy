/**
 * The decision logic of src/server/vertx/http.js: the rewriting and
 * classification of a request path, the package test on dist resources,
 * `respondError` and `respondFile`, the upload handler and the JSON call
 * handler. Replies are values; `exists`, `unescape`, the upload move and the
 * parsed request body are inputs. `_fs.exists` is Vert.x's asynchronous form:
 * its callback runs after `respondFile` has returned, outside its `try`.
 */
module Http {
  import opened Results
  import opened JsString
  import opened VirtualPath
  import opened Handler
  import opened Registration
  import Mime
  import SrcVfs
  import Osjs

  /**
   * The `result` member of a JSON reply: `null`, or left out, as
   * `JSON.stringify` drops a `result` that is `undefined`.
   */
  datatype ResultMember = NullResult | NoResult

  /** What a reply carries: text, a `{result, error}` JSON object, or a file sent from disk. */
  datatype Body = TextBody(text: string) | JsonBody(result: ResultMember, error: Option<string>) | FileBody(file: string)

  /**
   * `respond(...)`: the code it logs, the `Content-Type` header (`None` for
   * `null`) and the body. `respond` only logs the code and never sets it on
   * the response.
   */
  datatype Reply = Reply(loggedCode: int, contentType: Option<string>, body: Body)

  const ServerErrorPrefix := "Internal Server Error (HTTP 500): "

  /** `respondError(message, json)`: always logged as 500; the JSON form prefixes the message. */
  function RespondError(message: string, json: bool): (r: Reply)
    ensures r.loggedCode == 500
    ensures json ==> r == Reply(500, Some("application/json"), JsonBody(NullResult, Some(ServerErrorPrefix + message)))
    ensures !json ==> r == Reply(500, Some("text/plain"), TextBody(message))
  {
    if json then Reply(500, Some("application/json"), JsonBody(NullResult, Some(ServerErrorPrefix + message)))
    else Reply(500, Some("text/plain"), TextBody(message))
  }

  /** The request path after `/` is rewritten to `/index.html`. */
  function RequestPath(path: string): (p: string)
    ensures path == "/" ==> p == "/index.html"
    ensures path != "/" ==> p == path
  {
    if path == "/" then "/index.html" else path
  }

  /** `/^\/FS/`. */
  predicate IsVfsCall(path: string)
  {
    StartsWith(path, "/FS")
  }

  /** Drop one leading `/`, if any. */
  function DropSlash(s: string): string
  {
    if |s| > 0 && s[0] == '/' then s[1..] else s
  }

  /** `path.replace(/^\/(FS|API)\/?/, '')`. */
  function RelPath(path: string): string
  {
    if StartsWith(path, "/FS") then DropSlash(path[3..])
    else if StartsWith(path, "/API") then DropSlash(path[4..])
    else path
  }

  /** `path.replace(/^\/(FS|API)(\/get\/)?/, '')`. */
  function FilePath(path: string): string
  {
    var rest := if StartsWith(path, "/FS") then path[3..] else if StartsWith(path, "/API") then path[4..] else path;
    if (StartsWith(path, "/FS") || StartsWith(path, "/API")) && StartsWith(rest, "/get/") then rest[5..] else rest
  }

  /** `/FS/<m>` and `/API/<m>` name the method `<m>`; `/FS/get/<p>` names the file `<p>`. */
  lemma {:induction false} PrefixesStripped(rest: string)
    ensures RelPath("/FS/" + rest) == rest && RelPath("/API/" + rest) == rest
    ensures FilePath("/FS/get/" + rest) == rest
  {
    assert ("/FS/" + rest)[..3] == "/FS";
    assert ("/FS/" + rest)[3..] == "/" + rest;
    assert ("/API/" + rest)[..3] == "/AP";
    assert ("/API/" + rest)[..4] == "/API";
    assert ("/API/" + rest)[4..] == "/" + rest;
    assert ("/FS/get/" + rest)[..3] == "/FS";
    assert ("/FS/get/" + rest)[3..] == "/get/" + rest;
    assert ("/get/" + rest)[..5] == "/get/";
  }

  /** `path.replace(/^\/+/, '')`. */
  function StripSlashes(path: string): (r: string)
    ensures |r| <= |path| && path[|path| - |r|..] == r
    ensures |r| == 0 || r[0] != '/'
    ensures forall i :: 0 <= i < |path| - |r| ==> path[i] == '/'
    decreases |path|
  {
    if |path| > 0 && path[0] == '/' then StripSlashes(path[1..]) else path
  }

  /** The handler a request selects. */
  datatype Route =
    | UploadRoute
    | CallRoute(isVfs: bool, relPath: string)
    | VfsFileRoute(path: string)
    | DistFileRoute(path: string)

  /** The POST/GET decision tree at the end of the router handler. */
  function Classify(httpMethod: string, requestPath: string): (r: Route)
    ensures var p := RequestPath(requestPath);
      (r == UploadRoute <==> httpMethod == "POST" && IsVfsCall(p) && RelPath(p) == "upload")
      && (r.CallRoute? <==> httpMethod == "POST" && !(IsVfsCall(p) && RelPath(p) == "upload"))
      && (r.CallRoute? ==> r.isVfs == IsVfsCall(p) && r.relPath == RelPath(p))
      && (r.VfsFileRoute? <==> httpMethod != "POST" && IsVfsCall(p))
      && (r.DistFileRoute? <==> httpMethod != "POST" && !IsVfsCall(p))
      && (r.VfsFileRoute? || r.DistFileRoute? ==> r.path == p)
  {
    var p := RequestPath(requestPath);
    if httpMethod == "POST" then
      if IsVfsCall(p) then
        if RelPath(p) == "upload" then UploadRoute else CallRoute(true, RelPath(p))
      else CallRoute(false, RelPath(p))
    else
      if IsVfsCall(p) then VfsFileRoute(p) else DistFileRoute(p)
  }

  /** The text before the first line terminator, the reach of a regular-expression `.*`. */
  function FirstLine(s: string): (l: string)
    ensures StartsWith(s, l)
    ensures forall i :: 0 <= i < |l| ==> !IsLineTerminator(l[i])
    ensures |l| == |s| || IsLineTerminator(s[|l|])
    decreases |s|
  {
    if |s| == 0 || IsLineTerminator(s[0]) then "" else [s[0]] + FirstLine(s[1..])
  }

  /**
   * Group 1 of `/^packages\/(.*\/.*)\/(.*)/`: the first line after
   * `packages/` up to its last `/`, when that part holds a `/` itself.
   */
  function PackageName(rpath: string): (r: Option<string>)
    ensures r.Some? ==> '/' in r.value && StartsWith(rpath, "packages/" + r.value + "/")
    ensures r.Some? ==> forall i :: 0 <= i < |r.value| ==> !IsLineTerminator(r.value[i])
  {
    if !StartsWith(rpath, "packages/") then None
    else
      var line := FirstLine(rpath[9..]);
      var k := LastIndexOf(line, '/');
      if k >= 0 && '/' in line[..k] then
        assert rpath[..9 + k + 1] == "packages/" + line[..k] + "/";
        Some(line[..k])
      else None
  }

  /** A resource under a package directory names the package (all of the path up to the file). */
  lemma PackageOfResource(name: string, file: string)
    requires '/' in name && '/' !in file
    requires forall i :: 0 <= i < |name| ==> !IsLineTerminator(name[i])
    requires forall i :: 0 <= i < |file| ==> !IsLineTerminator(file[i])
    ensures PackageName("packages/" + name + "/" + file) == Some(name)
  {
    var rpath := "packages/" + name + "/" + file;
    assert rpath[..9] == "packages/";
    var tail := rpath[9..];
    assert tail == name + "/" + file;
    FirstLineWhole(tail);
    LastIndexOfAt(tail, '/', |name|);
    assert tail[|name| + 1..] == file;
    assert tail[..|name|] == name;
  }

  lemma {:induction false} FirstLineWhole(s: string)
    requires forall i :: 0 <= i < |s| ==> !IsLineTerminator(s[i])
    ensures FirstLine(s) == s
    decreases |s|
  {
    if |s| > 0 {
      FirstLineWhole(s[1..]);
    }
  }

  /** A package resource has at least two `/` after `packages/`. */
  lemma PackageNeedsTwoSlashes(rest: string)
    ensures PackageName("packages/" + rest).Some? ==> Count(rest, '/') >= 2
  {
    var rpath := "packages/" + rest;
    var r := PackageName(rpath);
    if r.Some? {
      var n := r.value;
      var j :| 0 <= j < |n| && n[j] == '/';
      PrefixAfterPackages(rest, n);
      CountTwo(rest, j, |n|);
    }
  }

  lemma PrefixAfterPackages(rest: string, n: string)
    requires StartsWith("packages/" + rest, "packages/" + n + "/")
    ensures |n| < |rest| && rest[..|n|] == n && rest[|n|] == '/'
  {
    var rpath := "packages/" + rest;
    var pre := "packages/" + n + "/";
    assert rpath[..|pre|] == pre;
    assert forall i :: 0 <= i < |n| ==> rest[i] == rpath[9 + i] == pre[9 + i] == n[i];
    assert rest[|n|] == rpath[9 + |n|] == pre[9 + |n|];
  }

  lemma {:induction false} CountTwo(s: string, j: int, k: int)
    requires 0 <= j < k < |s| && s[j] == '/' && s[k] == '/'
    ensures Count(s, '/') >= 2
    decreases |s|
  {
    if j > 0 {
      CountTwo(s[1..], j - 1, k - 1);
      assert Count(s, '/') >= Count(s[1..], '/');
    } else {
      CountOne(s[1..], k - 1);
    }
  }

  lemma {:induction false} CountOne(s: string, k: int)
    requires 0 <= k < |s| && s[k] == '/'
    ensures Count(s, '/') >= 1
    decreases |s|
  {
    if k > 0 {
      CountOne(s[1..], k - 1);
    }
  }

  /** `/^(ftp|https?)\:\/\//`. */
  predicate IsRemote(path: string)
  {
    StartsWith(path, "ftp://") || StartsWith(path, "http://") || StartsWith(path, "https://")
  }

  /** What `respondFile` comes to. */
  datatype FileReply =
    | Sent(reply: Reply)
    | Proxied(path: string)      // handed to the global `OSjs.VFS.getRealPath` and sent
    | ProbedUndefined            // `_fs.exists` called with `undefined`
    | Escaped(exception: string) // an exception no `catch` here sees: nothing is sent

  /** A `getMime` function as the VFS namespace would hold it: the file name to its mime type. */
  type MimeFn = string -> Option<string>

  /** The exception of calling `instance.vfs.getMime` when the namespace holds none. */
  const GetMimeTypeError := "TypeError: instance.vfs.getMime is not a function"

  /**
   * Serving a real path, as written: an existing file is sent with the mime
   * type of the namespace's `getMime`, a missing one gets `404 Not Found`
   * with no content type. `getMime` is `None` when the namespace holds no
   * such function; the call then throws inside the `exists` callback, which
   * runs after the `try` around it has returned, so the exception escapes
   * and no reply is sent.
   */
  function Serve(fullPath: string, getMime: Option<MimeFn>, onDisk: string -> bool): (f: FileReply)
    ensures !onDisk(fullPath) ==> f == Sent(Reply(404, None, TextBody("404 Not Found")))
    ensures onDisk(fullPath) && getMime.None? ==> f == Escaped(GetMimeTypeError)
    ensures onDisk(fullPath) && getMime.Some? ==> f == Sent(Reply(200, getMime.value(fullPath), FileBody(fullPath)))
  {
    if !onDisk(fullPath) then Sent(Reply(404, None, TextBody("404 Not Found")))
    else match getMime
      case None => Escaped(GetMimeTypeError)
      case Some(mimeOf) => Sent(Reply(200, mimeOf(fullPath), FileBody(fullPath)))
  }

  /** The `getMime` of vfs.js, were the module to export it. */
  function TableMime(mimes: map<string, string>): MimeFn
  {
    file => Mime.GetMime(file, mimes)
  }

  /** Serving a real path as intended: `getMime` is the one vfs.js defines. */
  function CorrectedServe(fullPath: string, mimes: map<string, string>, onDisk: string -> bool): (f: FileReply)
    ensures onDisk(fullPath) ==> f == Sent(Reply(200, Mime.GetMime(fullPath, mimes), FileBody(fullPath)))
    ensures !onDisk(fullPath) ==> f == Sent(Reply(404, None, TextBody("404 Not Found")))
  {
    Serve(fullPath, Some(TableMime(mimes)), onDisk)
  }

  /**
   * The core vfs.js module exports only `getRealPath`, `exists` and
   * `scandir`; a VFS method it does not export, such as `getMime` or
   * `upload`, is in the namespace `init` builds only if the handler
   * defines it.
   */
  lemma UnexportedNeverRegistered(name: string, handlerVfs: Defs, coreVfs: Defs)
    requires name !in SrcVfs.Exported
    requires forall j :: 0 <= j < |handlerVfs| ==> handlerVfs[j].0 != name
    requires forall j :: 0 <= j < |coreVfs| ==> coreVfs[j].0 in SrcVfs.Exported
    ensures name !in Registered(Registered(map[], handlerVfs, true), coreVfs, true)
  {
    NotYetRegistered(map[], handlerVfs, true, name);
    NotYetRegistered(Registered(map[], handlerVfs, true), coreVfs, true, name);
  }

  /**
   * `respondFile` as written. A remote URL needs the proxy; a virtual path is
   * resolved with getRealPath, whose result has no `root`, so the file
   * probed is `undefined`; a path that does not resolve gets a JSON error.
   */
  function RespondFile(path: string, realPath: bool, proxy: bool, getMime: Option<MimeFn>,
                       onDisk: string -> bool): (f: FileReply)
    ensures !realPath && IsRemote(path) ==>
      f == if proxy then Proxied(path) else Sent(RespondError("VFS Proxy is disabled", false))
    ensures realPath ==> f == Serve(path, getMime, onDisk)
    ensures !realPath && !IsRemote(path) ==>
      match SrcVfs.GetRealPath(path)
      case Err(e) => f == Sent(RespondError(e, true))
      case Ok(_) => f == ProbedUndefined
  {
    if !realPath && IsRemote(path) then
      if proxy then Proxied(path) else Sent(RespondError("VFS Proxy is disabled", false))
    else if realPath then Serve(path, getMime, onDisk)
    else
      match SrcVfs.GetRealPath(path)
      case Err(e) => Sent(RespondError(e, true))
      case Ok(_) => ProbedUndefined
  }

  /**
   * `respondFile` as intended: a virtual path is served from its `full` real
   * path, and files get the mime type of vfs.js's `getMime`.
   */
  function CorrectedRespondFile(path: string, realPath: bool, proxy: bool, mimes: map<string, string>,
                                onDisk: string -> bool): (f: FileReply)
    ensures !realPath && IsRemote(path) ==>
      f == if proxy then Proxied(path) else Sent(RespondError("VFS Proxy is disabled", false))
    ensures realPath ==> f == CorrectedServe(path, mimes, onDisk)
    ensures !realPath && !IsRemote(path) ==>
      match SrcVfs.GetRealPath(path)
      case Err(e) => f == Sent(RespondError(e, true))
      case Ok(rp) => f == CorrectedServe(rp.full, mimes, onDisk)
  {
    if !realPath && IsRemote(path) then
      if proxy then Proxied(path) else Sent(RespondError("VFS Proxy is disabled", false))
    else if realPath then CorrectedServe(path, mimes, onDisk)
    else
      match SrcVfs.GetRealPath(path)
      case Err(e) => Sent(RespondError(e, true))
      case Ok(rp) => CorrectedServe(rp.full, mimes, onDisk)
  }

  /** `respondFile` as written (with the namespace's `getMime`) or as intended (with the mime table). */
  function SendFile(path: string, realPath: bool, proxy: bool, getMime: Option<MimeFn>, mimes: map<string, string>,
                    corrected: bool, onDisk: string -> bool): FileReply
  {
    if corrected then CorrectedRespondFile(path, realPath, proxy, mimes, onDisk)
    else RespondFile(path, realPath, proxy, getMime, onDisk)
  }

  /** A `home://` file that exists is never served as written, and is served from `vfs/home` as intended. */
  lemma HomeFileNotServed(rest: string, getMime: Option<MimeFn>, mimes: map<string, string>, onDisk: string -> bool)
    requires onDisk("vfs/home" + rest)
    ensures RespondFile("home://" + rest, false, false, getMime, onDisk) == ProbedUndefined
    ensures CorrectedRespondFile("home://" + rest, false, false, mimes, onDisk)
      == Sent(Reply(200, Mime.GetMime("vfs/home" + rest, mimes), FileBody("vfs/home" + rest)))
  {
    var path := "home://" + rest;
    assert path[..4] == "home";
    assert !IsRemote(path) by {
      assert !StartsWith(path, "ftp://") by { assert path[0] == 'h' && path[1] == 'o'; }
      assert !StartsWith(path, "http://") by { assert path[1] == 'o'; }
      assert !StartsWith(path, "https://") by { assert path[1] == 'o'; }
    }
    KnownMounts(rest);
  }

  /** `handleVFSFile`: the `fs` API privilege, then the file named after `/FS[/get/]`. */
  function HandleVfsFile(path: string, guards: Guards, unescape: string -> string, proxy: bool,
                         getMime: Option<MimeFn>, mimes: map<string, string>, corrected: bool,
                         onDisk: string -> bool): (f: FileReply)
    ensures guards.api("fs").Denied? ==> f == Sent(RespondError(guards.api("fs").reason, false))
    ensures guards.api("fs").Raised? ==> f == Escaped(guards.api("fs").exception)
    ensures guards.api("fs").Allowed? ==>
      f == SendFile(unescape(FilePath(path)), false, proxy, getMime, mimes, corrected, onDisk)
  {
    match guards.api("fs")
    case Denied(e) => Sent(RespondError(e, false))
    case Raised(x) => Escaped(x)
    case Allowed => SendFile(unescape(FilePath(path)), false, proxy, getMime, mimes, corrected, onDisk)
  }

  /**
   * `handleDistFile`: a package resource passes the package privilege
   * first; everything is sent as a real path under `distdir`.
   */
  function HandleDistFile(path: string, distdir: string, guards: Guards, unescape: string -> string,
                          getMime: Option<MimeFn>, mimes: map<string, string>, corrected: bool,
                          onDisk: string -> bool): (f: FileReply)
    ensures var file := unescape(Osjs.PathJoin([distdir, StripSlashes(path)]));
      var send := SendFile(file, true, false, getMime, mimes, corrected, onDisk);
      match PackageName(StripSlashes(path))
      case None => f == send
      case Some(n) =>
        match guards.pkg(n)
        case Denied(e) => f == Sent(RespondError(e, false))
        case Raised(x) => f == Escaped(x)
        case Allowed => f == send
  {
    var rpath := StripSlashes(path);
    var file := unescape(Osjs.PathJoin([distdir, rpath]));
    match PackageName(rpath)
    case None => SendFile(file, true, false, getMime, mimes, corrected, onDisk)
    case Some(n) =>
      match guards.pkg(n)
      case Denied(e) => Sent(RespondError(e, false))
      case Raised(x) => Escaped(x)
      case Allowed => SendFile(file, true, false, getMime, mimes, corrected, onDisk)
  }

  /**
   * `GET /` with `index.html` present under `distdir`: as written, with no
   * `getMime` in the namespace, the TypeError escapes and nothing is sent;
   * as intended the file is sent with its mime type.
   */
  lemma IndexNotServed(distdir: string, guards: Guards, unescape: string -> string,
                       mimes: map<string, string>, onDisk: string -> bool)
    requires onDisk(unescape(Osjs.PathJoin([distdir, "index.html"])))
    ensures var file := unescape(Osjs.PathJoin([distdir, "index.html"]));
      Classify("GET", "/") == DistFileRoute("/index.html")
      && HandleDistFile("/index.html", distdir, guards, unescape, None, mimes, false, onDisk)
         == Escaped(GetMimeTypeError)
      && HandleDistFile("/index.html", distdir, guards, unescape, None, mimes, true, onDisk)
         == Sent(Reply(200, Mime.GetMime(file, mimes), FileBody(file)))
  {
    IndexIsPlainDistFile();
  }

  /** `/index.html` is a dist file outside any package. */
  lemma IndexIsPlainDistFile()
    ensures Classify("GET", "/") == DistFileRoute("/index.html")
    ensures StripSlashes("/index.html") == "index.html" && PackageName("index.html") == None
  {
    IndexRoute();
    OneSlashStripped("index.html");
    NotUnderPackages("index.html");
  }

  lemma IndexRoute()
    ensures Classify("GET", "/") == DistFileRoute("/index.html")
  {
    var p := "/index.html";
    assert RequestPath("/") == p;
    assert !IsVfsCall(p) by { assert p[1] == 'i'; }
  }

  lemma OneSlashStripped(rest: string)
    requires |rest| > 0 && rest[0] != '/'
    ensures StripSlashes("/" + rest) == rest
  {
    assert ("/" + rest)[1..] == rest;
  }

  lemma NotUnderPackages(rpath: string)
    requires |rpath| > 0 && rpath[0] != 'p'
    ensures PackageName(rpath) == None
  {
    assert !StartsWith(rpath, "packages/") by { assert "packages/"[0] == 'p'; }
  }

  /** The multipart form as parsed: an error, or the fields and the uploaded file. */
  datatype UploadForm =
    | FormError(error: string)
    | Form(path: Option<string>, overwrite: Option<string>, tmpPath: string, fileName: string)

  /** The arguments handed to `vfs.upload`. */
  datatype UploadArgs = UploadArgs(src: string, name: string, path: Option<string>, overwrite: bool)

  datatype UploadOutcome =
    | NoReply
    | Answered(reply: Reply)
    | Thrown(exception: string)  // escapes the router handler: nothing is sent
    | Uploaded(args: UploadArgs, reply: Reply)

  /** The exception of `new _multipart.IncomingForm(...)`: no `_multipart` is in scope. */
  const MultipartError := "ReferenceError: _multipart is not defined"

  /**
   * `handleUpload` as written: `_multipart` is neither a parameter of the
   * module nor defined anywhere else, so building the form parser throws
   * before the form is read, whatever the request.
   */
  function HandleUpload(form: UploadForm, logging: bool, guards: Guards, move: UploadArgs -> Option<string>): (u: UploadOutcome)
    ensures u == Thrown(MultipartError)
  {
    Thrown(MultipartError)
  }

  /**
   * `handleUpload` with a multipart parser in scope, given the form it
   * parses: a form error is reported only with logging on; then the
   * `upload` API privilege; then the move `vfs.upload`, answered `1` or
   * with its error.
   */
  function CorrectedHandleUpload(form: UploadForm, logging: bool, guards: Guards,
                                 move: UploadArgs -> Option<string>): (u: UploadOutcome)
    ensures form.FormError? ==> u == if logging then Answered(RespondError(form.error, false)) else NoReply
    ensures form.Form? && guards.api("upload").Denied? ==> u == Answered(RespondError(guards.api("upload").reason, false))
    ensures form.Form? && guards.api("upload").Raised? ==> u == Thrown(guards.api("upload").exception)
    ensures u.Uploaded? <==> form.Form? && guards.api("upload").Allowed?
    ensures u.Uploaded? ==> (u.args.overwrite <==> form.overwrite == Some("true"))
    ensures u.Uploaded? ==> u.args.src == form.tmpPath && u.args.name == form.fileName && u.args.path == form.path
    ensures u.Uploaded? ==>
      u.reply == match move(u.args) case Some(e) => RespondError(e, false) case None => Reply(200, Some("text/plain"), TextBody("1"))
  {
    match form
    case FormError(e) => if logging then Answered(RespondError(e, false)) else NoReply
    case Form(path, overwrite, tmpPath, fileName) =>
      match guards.api("upload")
      case Denied(e) => Answered(RespondError(e, false))
      case Raised(x) => Thrown(x)
      case Allowed =>
        var args := UploadArgs(tmpPath, fileName, path, overwrite == Some("true"));
        var reply := match move(args)
          case Some(e) => RespondError(e, false)
          case None => Reply(200, Some("text/plain"), TextBody("1"));
        Uploaded(args, reply)
  }

  /**
   * A well-formed upload the `upload` privilege allows: as written nothing
   * is moved and nothing is answered; as intended the file reaches
   * `vfs.upload`, which the core modules do not register (see
   * `UnexportedNeverRegistered`), so a handler or extension must.
   */
  lemma UploadNeverParsed(path: Option<string>, overwrite: Option<string>, tmpPath: string, fileName: string,
                          logging: bool, guards: Guards, move: UploadArgs -> Option<string>)
    requires guards.api("upload").Allowed?
    ensures var form := Form(path, overwrite, tmpPath, fileName);
      HandleUpload(form, logging, guards, move) == Thrown(MultipartError)
      && CorrectedHandleUpload(form, logging, guards, move)
         == Uploaded(UploadArgs(tmpPath, fileName, path, overwrite == Some("true")),
                     match move(UploadArgs(tmpPath, fileName, path, overwrite == Some("true")))
                     case Some(e) => RespondError(e, false)
                     case None => Reply(200, Some("text/plain"), TextBody("1")))
  {
  }

  /** What `handleCall` comes to once the body is read. */
  datatype CallOutcome =
    | Swallowed                                   // caught and logged, no response
    | Replied(reply: Reply)                       // the callback's `{result, error}`
    | Running(impl: Impl, params: seq<Param>)     // the implementation answers through the callback

  /**
   * `handleCall`: parse the body, dispatch through `request`; a parse error
   * or a thrown exception is only logged, a refusal is answered as JSON.
   */
  function HandleCall(api: map<string, Entry>, vfs: map<string, Entry>, guards: Guards,
                      isVfs: bool, relPath: string, body: Option<Args>): (c: CallOutcome)
    ensures body.None? ==> c == Swallowed
    ensures body.Some? ==>
      match Osjs.Request(api, vfs, guards, isVfs, relPath, body.value)
      case Threw(_) => c == Swallowed
      case Dispatched(o) =>
        match o
        case Refused(e) => c == Replied(Reply(200, Some("application/json"), JsonBody(NoResult, Some(e))))
        case Aborted(_) => c == Swallowed
        case Called(impl, params) => c == Running(impl, params)
  {
    match body
    case None => Swallowed
    case Some(args) =>
      match Osjs.Request(api, vfs, guards, isVfs, relPath, args)
      case Threw(_) => Swallowed
      case Dispatched(o) =>
        match o
        case Refused(e) => Replied(Reply(200, Some("application/json"), JsonBody(NoResult, Some(e))))
        case Aborted(_) => Swallowed
        case Called(impl, params) => Running(impl, params)
  }

  /**
   * Without a session, a POST to the API reaches an implementation only
   * for `login`, and no POST to the VFS reaches one.
   */
  lemma NoSessionPostsRefused(api: map<string, Entry>, vfs: map<string, Entry>, env: Env, corrected: bool,
                              requestPath: string, args: Args)
    requires WellKeyed(api, false) && WellKeyed(vfs, true)
    requires !env.nw && env.user.username == ""
    requires Classify("POST", requestPath).CallRoute?
    ensures var r := Classify("POST", requestPath);
      var c := HandleCall(api, vfs, Osjs.HandlerGuards(env, corrected), r.isVfs, r.relPath, Some(args));
      c.Running? ==> !r.isVfs && r.relPath == "login"
  {
    var r := Classify("POST", requestPath);
    var d := Osjs.Request(api, vfs, Osjs.HandlerGuards(env, corrected), r.isVfs, r.relPath, args);
    if d.Dispatched? {
      Osjs.OnlyLoginWithoutSession(api, vfs, env, corrected, r.isVfs, r.relPath, args);
    }
  }
}
