# OS.js vert.x server core in Dafny

This project models the server side of OS.js-v2 running under Vert.x. It covers three areas:

- **Authorization chain** (`build/resources/main/handler.js`):
  - the group test, with its `admin` override;
  - the session check;
  - the API, VFS and package privilege checks, each run after the session check;
  - the registration step, which wraps every API and VFS method in those checks, except `login`, `getMime` and `getRealPath`;
  - `onLogin`.
- **Virtual-path resolution and directory listings**, in the three divergent copies:
  - `build/resources/main/vfs.js`;
  - `src/server/vertx/vfs.js`;
  - `build/resources/main/server.js`.

  These cover `getRealPath` and its `upOne` parent link, `getMime`, and the entries `scandir` pushes.
- **Dispatch and routing**:
  - the `request` dispatcher and `init` setup defaulting in `src/server/vertx/osjs.js`;
  - in `src/server/vertx/http.js`: route selection, the package-path regular expression, `respondFile`/`respondError`, the upload, call, VFS-file and dist-file handlers, and the event-bus address split;
  - the helpers in `src/server/vertx/api.js`: the placeholders, `application` and `curl`.

Modules:

| module | file | holds |
|---|---|---|
| `Results` | results.dfy | `Option`, `Result`, `OrElse` (`a \|\| b` on strings) |
| `JsString` | jsstring.dfy | JavaScript string operations: `split`, `join`, `lastIndexOf`, ASCII `toLowerCase`, `\w`, line terminators |
| `VirtualPath` | virtualpath.dfy | the scheme-to-mount mapping shared by all three `getRealPath` copies |
| `Mime` | mime.dfy | `getMime` (identical in both `vfs.js`) |
| `Listing` | listing.dfy | entry construction and the push/counter loop of `scandir`, shared by both `vfs.js` |
| `BuildVfs`, `SrcVfs` | vfs_build.dfy, vfs_src.dfy | each copy's `getRealPath` / `upOne` rule and `scandir` |
| `BuildServer` | server_build.dfy | server.js: its own `getRealPath`, `scandir` and `API`/`FS` switch |
| `Bus` | bus.dfy | the `url.substring(1).split('/')` address split |
| `Handler` | handler.dfy | session, group and privilege checks, `onLogin` |
| `Registration` | handler_registry.dfy | the namespaces, as a class whose maps registration updates in place; the wrappers |
| `Osjs` | osjs.dfy | `request`, `init` defaulting and the extension filter |
| `Http` | http.dfy | the router handler's decisions and the response helpers |
| `Api` | api.dfy | the placeholder methods, `application` and `curl` |

Conventions:

- **Callbacks become values.** The callbacks of the checks, of registration and of `request` run synchronously to one outcome. A check is a function returning a `Verdict`:
  - `Allowed`;
  - `Denied(reason)`, the callback's error, which is truthy (the handler's checks never produce an empty reason, and a replaced check that passes a falsy error is not modelled);
  - `Raised(exception)`, an exception thrown out of the check.
- **Filesystem callbacks are asynchronous.** The `_fs.exists` of `respondFile` is Vert.x's callback form, so its callback runs after the surrounding `try` has returned. An exception thrown inside it escapes, and no reply is sent.
- **JSON replies.** `respondError` sends `{result: null, error}` (`NullResult`); a refusal in `handleCall` calls back with no result, which `JSON.stringify` leaves out (`NoResult`).
- **Replaceable handler methods.** Deployments replace the handler's check methods, so registration and dispatch are generic over a `Guards` record holding the three checks. `Handler.DefaultGuards` is the default handler as written; `Handler.CorrectedGuards` is the same handler with the findings below corrected.
- **Inputs, not calls.** Identity (user name, groups, `setup.nw`), configuration maps, the package metadata and the filesystem (`readDir`, `props`, `exists`) are inputs.

## Model

| member | source | states |
|---|---|---|
| VirtualPath.SchemeSplit | build/resources/main/vfs.js:54-56 | splitting at a leading `\w+://` succeeds only for a non-empty word scheme, and the input is exactly scheme + `://` + rest |
| VirtualPath.ParseMount | build/resources/main/vfs.js:41-60 | there is no mount iff the path has no `\w+://` scheme; protocol + path is the whole input; the base path is the one the protocol selects |
| VirtualPath.KnownMounts | build/resources/main/vfs.js:41-51 | `osjs://x` mounts `dist-dev` and `home://x` mounts `vfs/home`, with path `x` |
| VirtualPath.OtherMount | build/resources/main/vfs.js:53-60 | any other word scheme mounts `vfs/tmp`, with protocol scheme + `://` and the rest as path |
| VirtualPath.ProtocolKey | build/resources/main/handler.js:493 | removing a trailing `://` gives a key which, with `://` put back, is the protocol; without a trailing `://` the protocol is unchanged |
| Mime.ExtensionKey | build/resources/main/vfs.js:92-93 | the key is `default` for a name without a dot; otherwise it is the lower-cased text from the last dot |
| Mime.GetMime | build/resources/main/vfs.js:91-96 | a dotless name gets the `default` entry; otherwise the lower-cased text from the last dot is looked up, and a miss or an empty value falls back to `default` (undefined without one); any result is a table value |
| Mime.MimeOfExtension | build/resources/main/vfs.js:91-96 | `stem.ext` finds the entry of `.ext` lower-cased, whatever the stem holds |
| Mime.CaseInsensitive | build/resources/main/vfs.js:95 | lower-casing the file name never changes the answer |
| Listing.FileName | build/resources/main/vfs.js:226-227 | the name is the text after the last `/` past the first character, so it holds no `/`; a top-level `/name` gives `name` |
| Listing.ChildPath | build/resources/main/vfs.js:248-252 | the entry path starts with the listed path and ends with the name; exactly one `/` is added, only when the listed path lacks a trailing one |
| Listing.ChildPathLastPiece | build/resources/main/vfs.js:226-252 | the last `/`-piece of an entry's path is its file name |
| Listing.EntryShape | build/resources/main/vfs.js:245-274 | name and path; type `dir` iff the stat fields were readable and the child is not a regular file; table mime for files and `""` for directories; size 0 and null times when the fields throw |
| Listing.Entries | build/resources/main/vfs.js:216-218 | at most one entry per child |
| Listing.ScanDir | build/resources/main/vfs.js:183-222 | a failed `readDir` sends no reply; otherwise exactly one reply, the `..` prefix followed by the entries of the stat-able children in order |
| Listing.PropsLoop | build/resources/main/vfs.js:215-279 | over a non-empty listing, the counter reaches the count exactly once, at the last child, and the single reply is the prefix followed by the entries of the stat-able children in order |
| Listing.DotDotFirst | build/resources/main/vfs.js:203-213 | the listing starts with a `..` directory entry (path `upOne`, size 0, mime `""`, null times) iff `upOne` is set |
| Listing.EmptyDirectory | build/resources/main/vfs.js:215-221 | an empty directory lists just the `..` prefix |
| Listing.FailedChildOmitted | build/resources/main/vfs.js:232-239 | a child whose `props` fails contributes nothing, wherever it stands |
| Listing.AllStatable | build/resources/main/vfs.js:241-277 | when every child can be stat'ed, entry k is exactly the entry of child k |
| BuildVfs.ComputeUpOne | build/resources/main/vfs.js:63-79 | the loop-built `upOne` equals `BuildVfs.UpOneOf`: protocol + `/` + the pieces between the first and the last, joined with `/`, and nothing for `/` or a path with a single piece |
| BuildVfs.GetRealPath | build/resources/main/vfs.js:36-88 | without a scheme the call raises a TypeError; otherwise basePath and path come from the mount, `full` is basePath + path, and `upOne` is the reference link |
| BuildVfs.SingleSegment | build/resources/main/vfs.js:63-66 | a path without any `/` has no parent link |
| BuildVfs.UpOneIsParent | build/resources/main/vfs.js:64-79 | for an absolute path other than `/`, the link is protocol + the path's parent directory |
| BuildVfs.Scandir | build/resources/main/vfs.js:175-222 | resolves, reads at `full`, and lists with that copy's `upOne`; raises before reading when the path has no scheme |
| SrcVfs.UpOneOf | src/server/vertx/vfs.js:61-65 | a link exists iff the path is not `/` and its second `/`-piece is non-empty; it is protocol + `/` + the second-to-last piece when the first piece is non-empty, and protocol + `/` when it is empty |
| SrcVfs.GetRealPath | src/server/vertx/vfs.js:34-74 | the error happens iff there is no scheme; `full` is basePath + path; protocol + path is the input; basePath follows the protocol; `upOne` is this copy's link for the path |
| SrcVfs.Scandir | src/server/vertx/vfs.js:90-137 | as the build copy, but with this copy's `upOne` |
| SrcVfs.AbsoluteLinksToRoot | src/server/vertx/vfs.js:62-64 | every absolute path below the root, however deep, links to protocol + `/` |
| SrcVfs.CopiesDiverge | src/server/vertx/vfs.js:62-64 | two levels below the root (`/dir/name`) the build copy links to protocol + `/dir` and this copy to protocol + `/`; e.g. `home:///docs/a` gives `home:///docs` and `home:///` |
| SrcVfs.CopiesAgreeOneLevel | src/server/vertx/vfs.js:62-64 | one level below the root the two copies agree: protocol + `/` |
| BuildServer.GetRealPath | build/resources/main/server.js:30-55 | `full` is basePath + fileName; without a scheme basePath is `""` and fileName is the input unchanged; otherwise both come from the mount |
| BuildServer.SameFullPath | build/resources/main/server.js:30-55 | on paths with a scheme, `full` agrees with src/server/vertx/vfs.js |
| BuildServer.EntryFor | build/resources/main/server.js:126-157 | name from the child path; type `dir` iff the child is a directory; mime `text/plain` for regular files and `""` otherwise; path by the trailing-`/` rule; size and both times from the stat |
| BuildServer.Entries | build/resources/main/server.js:133-163 | one entry per child whose stat completes |
| BuildServer.AllComplete | build/resources/main/server.js:133-163 | when every child completes, entry k is exactly the entry of child k |
| BuildServer.Completed | build/resources/main/server.js:161 | the counter never exceeds the number of children |
| BuildServer.CompletedAll | build/resources/main/server.js:135-162 | the counter reaches the number of children iff every child's stat completes |
| BuildServer.Scandir | build/resources/main/server.js:73-168 | a failed `readDir` sends nothing; an empty directory sends one `..` entry whose path is `args.path`; a non-empty one sends its entries (no `..`) once, and only if no stat fails |
| BuildServer.PropsLoop | build/resources/main/server.js:101-168 | over a non-empty listing, replies exactly once, with the entries of the completing children in order, when every child completes, and not at all otherwise |
| BuildServer.Consume | build/resources/main/server.js:171-221 | replies with the fixed user `lisa`, groups `['admin']`, iff the address is `API/login`; under `FS`, `exists` and `scandir` call that method on `args.path` and `GET` raises the missing `VFS.get`; everything else is ignored |
| Bus.TargetOf | src/server/vertx/http.js:333-335 | neither the call nor the method name holds a `/` |
| Bus.TargetOfAddress | src/server/vertx/http.js:333-335 | `/call/method`, and `/call/method/...` with anything after it, give that call and that method |
| Bus.NoMethod | src/server/vertx/http.js:333-335 | `/call` alone gives no method |
| Handler.CheckHasGroup | build/resources/main/handler.js:382-408 | the `allowed` loop computes `HasGroup`: an admin passes; otherwise every required group must be held |
| Handler.GroupTestCases | build/resources/main/handler.js:383-407 | `admin` always passes; a falsy requirement passes; a name passes iff it is empty or held; `true` passes only for `admin`; a list passes iff every element is held |
| Handler.CheckHasSession | build/resources/main/handler.js:419-427 | the error `You have no OS.js Session, please log in!` iff not `nw` and no user name; otherwise `true` |
| Handler.AfterSession | build/resources/main/handler.js:225-291 | a session error is returned unchanged and the specific check is not consulted; otherwise the specific verdict |
| Handler.HasAPIPrivilege | build/resources/main/handler.js:458-473 | denied iff the privilege is non-empty, its entry in `config.api.groups` is truthy, and the user does not hold a group named like the privilege; the reason is the API error text; never raises |
| Handler.CorrectedHasAPIPrivilege | build/resources/main/handler.js:458-473 | denied iff the privilege is non-empty and the user fails the group test on the configured entry |
| Handler.PrivilegeNamePassed | build/resources/main/handler.js:461-463 | a user holding exactly the configured group `users` for `fs` is refused as written and admitted as intended |
| Handler.HasVFSPrivilege | build/resources/main/handler.js:485-507 | raises iff `args.path \|\| args.src` does not resolve, and never denies |
| Handler.CorrectedHasVFSPrivilege | build/resources/main/handler.js:485-507 | raises on the same inputs; denied iff the path resolves and the user fails the group test on the entry for its protocol without `://` |
| Handler.VfsGroupsIgnored | build/resources/main/handler.js:488-496 | for every `home://` path, a `home` policy the user does not meet is ignored as written and enforced as intended |
| Handler.BlacklistLookup | build/resources/main/handler.js:439-449 | fails iff the lookup reports an error, with that error; otherwise it answers whether the list names the package |
| Handler.HasPackagePrivilege | build/resources/main/handler.js:518-550 | no truthy `groups` allows; a failed group test denies with the package text; after a pass, a lookup error denies with that error, and the package is allowed iff the blacklist names it |
| Handler.CorrectedHasPackagePrivilege | build/resources/main/handler.js:518-550 | as written, except that after a pass the package is denied iff the blacklist names it |
| Handler.BlacklistInverted | build/resources/main/handler.js:534-539 | a permitted package on an empty blacklist is refused as written and allowed as intended |
| Handler.NoSessionRefusesAll | build/resources/main/handler.js:225-291 | without a session, all three checks of either handler deny with the session error, whatever is asked |
| Handler.SessionPassesThrough | build/resources/main/handler.js:225-291 | with a session, each check is exactly its specific privilege check |
| Handler.AdminPassesCorrected | build/resources/main/handler.js:389-392 | with the corrected checks, an admin passes every API check, is never denied a VFS check, and is denied a package only by the blacklist |
| Handler.CorrectedLoginCallbacks | build/resources/main/handler.js:329-342 | exactly one callback, an error iff the data has no blacklist and the lookup fails |
| Handler.DoubleCallback | build/resources/main/handler.js:333-339 | a failed lookup makes an error callback followed by a success callback as written, and only the error callback as intended |
| Handler.LoginCallbacksAgree | build/resources/main/handler.js:329-340 | when the login does not fail, both versions make a single success callback |
| Handler.OnLogin | build/resources/main/handler.js:323-351 | `userSettings` defaults to `{}`; the looked-up blacklist (or `[]`) is stored only when the data has none; the callbacks are as written |
| Handler.CorrectedOnLogin | build/resources/main/handler.js:323-351 | the same updates, with the intended single callback |
| Registration.EntryOf | build/resources/main/handler.js:33-91 | the implementation is kept; it is stored unwrapped iff its name is exempt (`login`, or `getMime`/`getRealPath`); otherwise it is wrapped for its own name |
| Registration.FirstWins | build/resources/main/handler.js:43-67 | a name already present is never replaced |
| Registration.RegisteredKeys | build/resources/main/handler.js:96-103 | registration adds exactly the defined names |
| Registration.FirstDefinitionWins | build/resources/main/handler.js:96-103 | a new name is stored with the entry of its first definition |
| Registration.NotYetRegistered | build/resources/main/handler.js:96-103 | a name neither present nor defined stays absent |
| Registration.RegisteredWellKeyed | build/resources/main/handler.js:42-103 | registration keeps every stored entry the one its key and namespace call for |
| Registration.Namespaces.RegisterAPIMethod | build/resources/main/handler.js:42-63 | stores the entry under a new name only; the VFS namespace is unchanged |
| Registration.Namespaces.RegisterVFSMethod | build/resources/main/handler.js:65-92 | stores the entry under a new name only; the API namespace is unchanged |
| Registration.Namespaces.RegisterMethods | build/resources/main/handler.js:96-103 | the VFS loop, then the API loop, register each list in order |
| Registration.Namespaces.Init | build/resources/main/handler.js:596-615 | the handler's own methods first (the `nw` handler's `login`/`logout` in `nw` mode), then the core `api.js`/`vfs.js` methods |
| Registration.NwHandlerWins | build/resources/main/handler.js:561-612 | in `nw` mode, `login` is the `nw` handler's own, unwrapped, and `logout` is the `nw` handler's, wrapped |
| Registration.Gate | build/resources/main/handler.js:46-51 | an allowed check continues; a denial reaches the callback as its error; an exception propagates |
| Registration.Invoke | build/resources/main/handler.js:45-86 | the entry's own implementation is called iff it is exempt or its checks allow (`fs` then the VFS check for VFS methods); parameter order differs for VFS wrappers; the first denial is the callback's error |
| Osjs.Request | src/server/vertx/osjs.js:73-100 | dispatched iff registered (and, for VFS, not `getMime`/`getRealPath`); otherwise throws `Invalid VFS method: ` / `Invalid method: ` + name; a dispatch calls the entry once |
| Osjs.HelpersNotDispatched | src/server/vertx/osjs.js:80-87 | `getMime` and `getRealPath` always throw when requested |
| Osjs.OnlyLoginWithoutSession | src/server/vertx/osjs.js:79-99 | with registered namespaces and no session, only API `login` reaches an implementation, as written and as corrected; everything else gets the session error |
| Osjs.Setup.Init | src/server/vertx/osjs.js:125-136 | `dist` defaults to `dist`, `settings`, `repodir` and `distdir` to their joined paths; `logging` is true iff undefined or exactly `true`; `nw` overrides `repodir` and `distdir` |
| Osjs.ScriptsMembers | src/server/vertx/osjs.js:160-167 | a name is loaded iff it is listed and ends in `.js` |
| Osjs.LoadExtensions | src/server/vertx/osjs.js:160-167 | the loop loads the `.js` names, in order, and nothing without `extensions` |
| Http.RespondError | src/server/vertx/http.js:119-126 | logged as code 500; JSON `{result: null, error}` (`NullResult`) with the `Internal Server Error (HTTP 500): ` prefix, or the plain text message |
| Http.RequestPath | src/server/vertx/http.js:179-181 | `/` becomes `/index.html`; any other path is kept |
| Http.PrefixesStripped | src/server/vertx/http.js:191-266 | `relPath` of `/FS/x` and `/API/x` is `x`; the file of `/FS/get/x` is `x` |
| Http.StripSlashes | src/server/vertx/http.js:278 | the result is a suffix of the path with no leading `/`, and everything removed is `/` |
| Http.Classify | src/server/vertx/http.js:306-322 | POST to `/FS` `upload` is the upload; other POSTs are calls (VFS iff `/FS`); GET to `/FS` is a VFS file; any other GET is a dist file |
| Http.FirstLine | src/server/vertx/http.js:285 | the reach of `.*`: a prefix without line terminators, ended by one or by the end |
| Http.PackageName | src/server/vertx/http.js:285-286 | a package name always holds a `/`, has no line terminators, and the path is `packages/` + name + `/` + more |
| Http.PackageOfResource | src/server/vertx/http.js:285-286 | `packages/<repo>/<name>/<file>` names the package `<repo>/<name>` |
| Http.PackageNeedsTwoSlashes | src/server/vertx/http.js:285-286 | a resource is named a package only when at least two `/` follow `packages/` |
| Http.Serve | src/server/vertx/http.js:89-100 | an existing file is sent with the mime type of the namespace's `getMime` (logged as 200); without a `getMime` in the namespace the TypeError escapes the `exists` callback and nothing is sent; a missing file gets `404 Not Found` (logged as 404) |
| Http.CorrectedServe | src/server/vertx/http.js:89-100 | as intended, an existing file is sent with the `getMime` mime type of vfs.js; a missing one gets `404 Not Found` |
| Http.UnexportedNeverRegistered | src/server/vertx/vfs.js:26-199 | a VFS method the core module does not export (`getMime`, `upload`) is absent from the namespace unless the handler defines it |
| Http.RespondFile | src/server/vertx/http.js:58-107 | a remote URL needs the proxy or gets `VFS Proxy is disabled`; a real path is served with the namespace's `getMime`; a virtual path gets a JSON error when it does not resolve, and otherwise `undefined` is probed |
| Http.CorrectedRespondFile | src/server/vertx/http.js:58-107 | as written, except that a resolved virtual path is served from its `full` path and files get the mime type of vfs.js's `getMime` |
| Http.HomeFileNotServed | src/server/vertx/http.js:88 | an existing `home://` file is never served as written; as intended, it is sent from `vfs/home` with the mime type of vfs.js's `getMime` |
| Http.HandleVfsFile | src/server/vertx/http.js:265-274 | the `fs` API privilege comes first; a denial answers with its error; otherwise the file after `/FS/get/` goes to `respondFile`, as written or as intended |
| Http.HandleDistFile | src/server/vertx/http.js:277-302 | a package resource passes the package privilege first; every file goes to `respondFile` as a real path under `distdir`, joined with the path without leading slashes |
| Http.IndexNotServed | src/server/vertx/http.js:92 | `GET /` with `index.html` present sends nothing as written, the TypeError escaping, and sends the file with its mime type as intended |
| Http.HandleUpload | src/server/vertx/http.js:231-234 | as written every upload throws the `_multipart` ReferenceError before the form is read |
| Http.CorrectedHandleUpload | src/server/vertx/http.js:231-263 | with a parser in scope: a form error is answered only with logging on; the `upload` privilege guards the move; `overwrite` iff the field is `true`; the reply is `1` or the move's error |
| Http.UploadNeverParsed | src/server/vertx/http.js:232 | an allowed, well-formed upload throws as written and reaches `vfs.upload` with the form's fields as intended |
| Http.HandleCall | src/server/vertx/http.js:200-228 | an unparsable body or a thrown dispatch gets no reply; a refusal is answered as JSON `{error}` with no `result` (`NoResult`); otherwise the implementation runs |
| Http.NoSessionPostsRefused | src/server/vertx/http.js:200-315 | without a session, a POST reaches an implementation only for API `login` |
| Api.PlaceholdersRefuse | src/server/vertx/api.js:52-88 | `login`, `logout` and `settings` always answer `No handler assigned` with `{}` |
| Api.Application | src/server/vertx/api.js:106-124 | a package is reached iff the defaulted `path` is a string; `method` defaults to null and `arguments` to `[]`; load failures answer `Application API error or missing: ` + the exception |
| Api.ApplicationNeedsPath | src/server/vertx/api.js:107-111 | without `path` the defaulted `null` reaches `_path.join`, which is not modelled (`AppUnjoinable(null)`): no package load is attempted in the model |
| Api.Curl | src/server/vertx/api.js:148-155 | as written, every call throws reading `args.routingContext` before the `url` test |
| Api.Millis | src/server/vertx/api.js:169 | a numeric timeout becomes `timeout * 1000` |
| Api.CorrectedCurl | src/server/vertx/api.js:148-201 | never throws; refused with `cURL expects an 'url'` iff `url` is falsy; `method` defaults to `GET`, `timeout` to 0 (times 1000); POST sets `json` and `body`; `binary` only for `true`, sets the null encoding and the octet-stream default mime; the answer is `temp disabled` |

## Left out

- Vert.x plumbing is not modelled: router and SockJS setup, `listen`, response headers and `sendFile`, and the event-bus consumers. build/resources/main/http.js and src/server/vertx/server.js are plumbing only and are not part of this model.
- Filesystem calls (`readDir`, `props`, `exists`, `readFile`, `readFileBlocking`, `writeFile`) are inputs, as is `unescape`.
- Http.CorrectedHandleUpload: the parsed multipart form and the `vfs.upload` move are inputs. As written no `_multipart` is in scope (`Http.HandleUpload`), and no core module registers `upload` (`Http.UnexportedNeverRegistered`), so only a handler module or an extension could supply it.
- Cookie-based sessions (`setUserData`) and the fixed `getUserName`/`getUserGroups` (`demo`/`['admin']`) are replaced by an identity parameter.
- Dynamic `require` (handler modules, package `api.js`, extensions) is left out. It appears as a `load` parameter or as the list of names loaded.
- The commented-out curl HTTP request is not modelled.
- Asynchronous completion order in `scandir` is not modelled. Children complete in input order, one at a time.
- The data-URI `write` at build/resources/main/vfs.js:103-134 is dead code: the export is reassigned at line 136.
- The free `config` and `fs` variables of the `vfs.js` copies are explicit parameters.
- `./path` is not part of this model. `join` is taken as gluing the pieces with `/`, without normalisation. `dirname` is taken as cutting at the last `/`.
- Lower-casing and `\w` cover ASCII only.
- The proxy branch of `respondFile` uses a global `OSjs.VFS` that this server does not define. It is modelled as `Proxied(path)`.
- In src/server/vertx/http.js the event-bus consumer dispatches to `API`/`VFS` objects that the file never defines. Only the address split is modelled.
- Inherited object keys such as `toString` count as registered in JavaScript. The namespaces here are plain maps and ignore them.
- Group specifications cover unset, boolean, string and string-list values. Numbers and non-string list elements are not modelled.
- JSON numbers are integers. `Api.Millis` leaves the coercion of non-numeric timeouts (strings, arrays, objects) unmodelled.
- Exception texts are fixed strings standing for the engine's TypeError messages.
- Api.Application: a non-string defaulted `path`, including the `null` of a missing or falsy one, ends in `AppUnjoinable`, because what `_path.join` does with a non-string is not modelled. Were `join` to accept it, the `require` inside the `try` would fail and the answer would be `Application API error or missing: …`; the model does not state that answer.
- Api.ApplicationNeedsPath: states only that a missing `path` ends in `AppUnjoinable(null)`, for the reason above.
- `userSettings` values are strings.
- Logging, timestamps and the GreenGuac package are left out.
- No HTTP status is ever set: `respond` only logs its `code`, so the response keeps Vert.x's default status. `Reply.loggedCode` is that logged code.
- SrcVfs.GetRealPath: assumes a global `DEBUG` is defined, as build/resources/main/http.js:19 does for the build program. No file of src/server/vertx defines it, and reading an undeclared `DEBUG` would throw a ReferenceError on every resolved path.
- Http.Serve: the namespace's `getMime` is a parameter. A deployment's handler module or an extension may register one; `Http.UnexportedNeverRegistered` shows that the core modules alone do not.
- BuildServer.Entries: its own contract bounds only the length. The contents are stated by `BuildServer.AllComplete`.
- Listing.Entries: its own contract bounds only the length. The contents are stated by `Listing.AllStatable` and `Listing.FailedChildOmitted`.
- The package regular expression in `Http.PackageName` also matches nested resources such as `packages/default/Draw/css/x.css`. For those it takes `default/Draw/css` as the package name, so no package metadata is found and the check allows. This is modelled as written.

## Findings

| source | as written | input that shows it | evidently intended | confidence | as-written member | corrected member |
|---|---|---|---|---|---|---|
| build/resources/main/handler.js:463 | the group test receives the privilege name, not the groups configured for it | `config.api.groups = {fs: 'users'}`, user groups `['users']`, privilege `fs`: refused | test the user against `map[privilege]` | not executed | Handler.PrivilegeNamePassed | Handler.CorrectedHasAPIPrivilege |
| build/resources/main/handler.js:535 | `err \|\| !res` refuses a package that is *not* blacklisted | package `default/Draw` with groups `users`, user `['users']`, blacklist `[]`: refused | refuse iff blacklisted (`err \|\| res`) | not executed | Handler.BlacklistInverted | Handler.CorrectedHasPackagePrivilege |
| build/resources/main/handler.js:334-339 | after `callback(error)` the code falls through to `callback(false, data)` | data without `blacklistedPackages`, lookup error `e`: callbacks `e`, then success | one callback: the error | not executed | Handler.DoubleCallback | Handler.CorrectedOnLogin |
| build/resources/main/handler.js:488-494 | `getRealPath` returns no `protocol` field, so the lookup throws and the empty `catch` leaves `against` undefined; `config.vfs.groups` is never enforced | `config.vfs.groups = {home: 'admin'}`, user `['users']`, path `home://x`: allowed | look up the mount's protocol without `://` | not executed | Handler.VfsGroupsIgnored | Handler.CorrectedHasVFSPrivilege |
| src/server/vertx/api.js:155 | headers are read from `args.routingContext`, which a parsed JSON body never makes callable, so every call throws | `{url: 'http://x'}`: TypeError instead of `temp disabled`; `{}`: TypeError instead of the `url` error | read the headers of the `routingContext` parameter | not executed | Api.Curl | Api.CorrectedCurl |
| src/server/vertx/http.js:88 | the result of `getRealPath` has no `root`, so `undefined` is probed instead of the file | GET `/FS/get/home:///a.txt` with `vfs/home/a.txt` present: not served | use the result's `full` path | not executed | Http.HomeFileNotServed | Http.CorrectedRespondFile |
| src/server/vertx/http.js:92 | `respondFile` calls `instance.vfs.getMime`, but vfs.js keeps `getMime` local and exports only `getRealPath`, `exists` and `scandir`, so nothing in the namespace answers it | GET `/` with `distdir/index.html` present: no response, the TypeError escaping the `exists` callback, instead of the file | export vfs.js's `getMime` so the file is sent with its mime type | not executed | Http.IndexNotServed | Http.CorrectedServe |
| src/server/vertx/http.js:232 | `handleUpload` builds `new _multipart.IncomingForm(...)`, but `_multipart` is neither a parameter of the module (line 1, lines 419-429) nor defined elsewhere, so it throws before any form is read | any POST to `/FS/upload`: a ReferenceError and no response | pass a multipart parser into the module, and register a `vfs.upload` | not executed | Http.UploadNeverParsed | Http.CorrectedHandleUpload |

The rest of the model uses the corrected definitions:

- `Handler.CorrectedGuards`;
- `Http.CorrectedRespondFile` and `Http.CorrectedServe`, which the VFS-file and dist-file handlers use when their `corrected` flag is set;
- `Handler.CorrectedOnLogin`.

The dispatch lemmas are stated for both handlers.
