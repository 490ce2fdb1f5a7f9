/**
 * src/server/vertx/osjs.js: the `request` dispatcher over the two
 * namespaces, the defaulting of the `setup` object in `init`, and the
 * filter that picks the extension files to load.
 *
 * The `./path` module is not part of this model; its `join` is taken to
 * glue the pieces with `/` and its `dirname` to cut at the last `/`.
 */
module Osjs {
  import opened Results
  import opened JsString
  import opened Handler
  import opened Registration

  /** `request` either throws or dispatches, with whatever the entry's call comes to. */
  datatype Dispatch = Threw(message: string) | Dispatched(outcome: Outcome)

  const ExemptVfs: seq<string> := ["getMime", "getRealPath"]

  /**
   * `request(isVfs, method, ...)`: a VFS method is dispatched when it is
   * registered and not one of the two helpers, an API method when it is
   * registered; anything else throws.
   */
  function Request(api: map<string, Entry>, vfs: map<string, Entry>, guards: Guards,
                   isVfs: bool, methodName: string, args: Args): (d: Dispatch)
    ensures d.Dispatched? <==>
      if isVfs then methodName in vfs && methodName !in ExemptVfs else methodName in api
    ensures d.Threw? ==> d.message == (if isVfs then "Invalid VFS method: " else "Invalid method: ") + methodName
    ensures d.Dispatched? ==>
      d.outcome == Invoke(if isVfs then vfs[methodName] else api[methodName], guards, args)
  {
    if isVfs then
      if methodName in vfs && methodName !in ExemptVfs then Dispatched(Invoke(vfs[methodName], guards, args))
      else Threw("Invalid VFS method: " + methodName)
    else
      if methodName in api then Dispatched(Invoke(api[methodName], guards, args))
      else Threw("Invalid method: " + methodName)
  }

  /** The two path helpers stay out of reach of requests even though they are registered. */
  lemma HelpersNotDispatched(api: map<string, Entry>, vfs: map<string, Entry>, guards: Guards, args: Args)
    ensures Request(api, vfs, guards, true, "getMime", args) == Threw("Invalid VFS method: getMime")
    ensures Request(api, vfs, guards, true, "getRealPath", args) == Threw("Invalid VFS method: getRealPath")
  {
  }

  /** The default handler, as written or with its checks as intended. */
  function HandlerGuards(env: Env, corrected: bool): Guards
  {
    if corrected then CorrectedGuards(env) else DefaultGuards(env)
  }

  /**
   * With namespaces built by registration and no session, either form of
   * the default handler lets only `login` reach an API implementation and
   * no VFS method at all.
   */
  lemma OnlyLoginWithoutSession(api: map<string, Entry>, vfs: map<string, Entry>, env: Env, corrected: bool,
                                isVfs: bool, methodName: string, args: Args)
    requires WellKeyed(api, false) && WellKeyed(vfs, true)
    requires !env.nw && env.user.username == ""
    requires Request(api, vfs, HandlerGuards(env, corrected), isVfs, methodName, args).Dispatched?
    ensures var o := Request(api, vfs, HandlerGuards(env, corrected), isVfs, methodName, args).outcome;
      o.Called? ==> !isVfs && methodName == "login"
    ensures var o := Request(api, vfs, HandlerGuards(env, corrected), isVfs, methodName, args).outcome;
      !o.Called? ==> o == Refused(NoSessionError)
  {
    var e := if isVfs then vfs[methodName] else api[methodName];
    assert e == EntryOf(isVfs, methodName, e.impl);
    NoSessionRefusesAll(env, methodName, methodName, args, methodName);
    NoSessionRefusesAll(env, "fs", methodName, args, methodName);
  }

  /** `typeof x === 'undefined'`, a boolean, or any other value. */
  datatype Flag = Undefined | Boolean(b: bool) | OtherValue

  /** `_path.join` of the pieces. */
  function PathJoin(parts: seq<string>): string
  {
    Join(parts, "/")
  }

  /** `_path.dirname`: the text before the last `/`, `/` for a root entry, `.` without any `/`. */
  function Dirname(p: string): (d: string)
    ensures LastIndexOf(p, '/') > 0 ==> d + "/" == p[..LastIndexOf(p, '/') + 1]
  {
    var i := LastIndexOf(p, '/');
    if i < 0 then "." else if i == 0 then "/" else p[..i]
  }

  /** The `setup` object `init` completes in place; an empty string is a missing option. */
  class Setup {
    var dist: string
    var dirname: string
    var root: string
    var nw: bool
    var logging: Flag
    var settings: string
    var repodir: string
    var distdir: string

    constructor(dist: string, dirname: string, root: string, nw: bool, logging: Flag,
                settings: string, repodir: string, distdir: string)
      ensures this.dist == dist && this.dirname == dirname && this.root == root && this.nw == nw
      ensures this.logging == logging && this.settings == settings
      ensures this.repodir == repodir && this.distdir == distdir
    {
      this.dist := dist;
      this.dirname := dirname;
      this.root := root;
      this.nw := nw;
      this.logging := logging;
      this.settings := settings;
      this.repodir := repodir;
      this.distdir := distdir;
    }

    /** The defaulting at the head of `init`. */
    method Init()
      modifies this
      ensures dirname == old(dirname) && root == old(root) && nw == old(nw)
      ensures dist == if old(dist) != "" then old(dist) else "dist"
      ensures settings ==
        if old(settings) != "" then old(settings) else PathJoin([Dirname(old(dirname)), "settings.json"])
      ensures logging == Boolean(old(logging) == Undefined || old(logging) == Boolean(true))
      ensures repodir ==
        if nw then PathJoin([root, "packages"])
        else if old(repodir) != "" then old(repodir) else PathJoin([root, "src", "packages"])
      ensures distdir ==
        if nw then root
        else if old(distdir) != "" then old(distdir) else PathJoin([root, dist])
    {
      var d := if dist != "" then dist else "dist";
      var s := if settings != "" then settings else PathJoin([Dirname(dirname), "settings.json"]);
      var r := if repodir != "" then repodir else PathJoin([root, "src", "packages"]);
      var dd := if distdir != "" then distdir else PathJoin([root, d]);
      var l := Boolean(logging == Undefined || logging == Boolean(true));
      if nw {
        r := PathJoin([root, "packages"]);
        dd := root;
      }
      dist, settings, repodir, distdir, logging := d, s, r, dd, l;
    }
  }

  /** `/\.js$/`: the name ends in `.js`. */
  predicate IsScript(f: string)
  {
    EndsWith(f, ".js")
  }

  /** The names the extension loop loads, in order. */
  function Scripts(exts: seq<string>): (r: seq<string>)
    ensures |r| <= |exts|
    decreases |exts|
  {
    if |exts| == 0 then []
    else Scripts(exts[..|exts| - 1]) + (if IsScript(exts[|exts| - 1]) then [exts[|exts| - 1]] else [])
  }

  /** Exactly the `.js` names are loaded. */
  lemma {:induction false} ScriptsMembers(exts: seq<string>)
    ensures forall f :: f in Scripts(exts) <==> f in exts && IsScript(f)
    decreases |exts|
  {
    if |exts| > 0 {
      var init := exts[..|exts| - 1];
      ScriptsMembers(init);
      assert exts == init + [exts[|exts| - 1]];
    }
  }

  /** The `config.extensions` loop: each name ending in `.js` is loaded, in order. */
  method LoadExtensions(extensions: Option<seq<string>>) returns (loaded: seq<string>)
    ensures loaded == if extensions.Some? then Scripts(extensions.value) else []
  {
    loaded := [];
    if extensions.Some? {
      var exts := extensions.value;
      var i := 0;
      while i < |exts|
        invariant 0 <= i <= |exts|
        invariant loaded == Scripts(exts[..i])
      {
        assert exts[..i + 1][..i] == exts[..i];
        if EndsWith(exts[i], ".js") {
          loaded := loaded + [exts[i]];
        }
        i := i + 1;
      }
      assert exts[..i] == exts;
    }
  }
}
