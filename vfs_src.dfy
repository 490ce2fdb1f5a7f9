/**
 * src/server/vertx/vfs.js: the same protocol mapping and listing as the
 * build copy, but `upOne` is decided by the first two `/`-pieces of the
 * path: when both are non-empty it is `protocol + '/'` plus the
 * second-to-last piece; when only the second is, it is `protocol + '/'`.
 */
module SrcVfs {
  import opened Results
  import opened JsString
  import opened VirtualPath
  import Listing
  import BuildVfs

  /** The members of the object the module returns; `getMime` stays local to it. */
  const Exported: seq<string> := ["getRealPath", "exists", "scandir"]

  /** `upOne` as src/server/vertx/vfs.js computes it. */
  function UpOneOf(protocol: string, path: string): (u: Option<string>)
    ensures var p := Split(path, '/');
      u.Some? <==> path != "/" && |p| >= 2 && p[1] != ""
    ensures var p := Split(path, '/');
      u.Some? && p[0] != "" ==> u == Some(protocol + "/" + p[|p| - 2])
    ensures var p := Split(path, '/');
      u.Some? && p[0] == "" ==> u == Some(protocol + "/")
  {
    var ppcs := Split(path, '/');
    if path == "/" then None
    else if |ppcs| >= 2 && ppcs[0] != "" && ppcs[1] != "" then Some(protocol + "/" + ppcs[|ppcs| - 2])
    else if |ppcs| >= 2 && ppcs[1] != "" then Some(protocol + "/")
    else None
  }

  function GetRealPath(incPath: string): (r: Result<RealPath, string>)
    ensures ParseMount(incPath).None? <==> r == Err(UndefinedPathError)
    ensures r.Ok? ==> r.value.full == r.value.basePath + r.value.path
    ensures r.Ok? ==> ParseMount(incPath).value.protocol + r.value.path == incPath
    ensures r.Ok? ==> r.value.basePath == BaseFor(ParseMount(incPath).value.protocol)
    ensures r.Ok? ==> r.value.upOne == UpOneOf(ParseMount(incPath).value.protocol, r.value.path)
  {
    match ParseMount(incPath)
    case None => Err(UndefinedPathError)
    case Some(m) => Ok(RealPath(m.basePath, m.path, m.basePath + m.path, UpOneOf(m.protocol, m.path)))
  }

  /** `scandir`, as in the build copy but with this copy's `upOne`. */
  method Scandir(argsPath: string, mimes: map<string, string>, readDir: string -> Option<seq<Listing.Child>>)
    returns (r: Result<seq<seq<Listing.Entry>>, string>)
    ensures ParseMount(argsPath).None? ==> r == Err(UndefinedPathError)
    ensures ParseMount(argsPath).Some? ==>
      var m := ParseMount(argsPath).value;
      var children := readDir(m.basePath + m.path);
      r == Ok(if children.None? then []
              else [Listing.ListingOf(argsPath, UpOneOf(m.protocol, m.path), mimes, children.value)])
  {
    var paths := GetRealPath(argsPath);
    if paths.Err? {
      return Err(paths.error);
    }
    var replies := Listing.ScanDir(argsPath, paths.value.upOne, mimes, readDir(paths.value.full));
    r := Ok(replies);
  }

  /**
   * For any absolute path below the root, this copy links to the protocol
   * root, however deep the path is.
   */
  lemma AbsoluteLinksToRoot(protocol: string, path: string)
    requires |path| > 1 && path[0] == '/' && path[1] != '/'
    ensures UpOneOf(protocol, path) == Some(protocol + "/")
  {
    var rest := path[1..];
    assert path == "" + ['/'] + rest;
    SplitAppend("", '/', rest);
    var p := Split(path, '/');
    assert p == [""] + Split(rest, '/');
    assert p[1] == Split(rest, '/')[0];
    assert Split(rest, '/')[0] != "" by {
      assert rest[0] != '/';
    }
  }

  /**
   * Two levels below the root the copies diverge: the build copy links to
   * the parent directory, this one to the protocol root (so `home:///docs/a`
   * links to `home:///docs` there and to `home:///` here).
   */
  lemma CopiesDiverge(protocol: string, dir: string, name: string)
    requires dir != "" && '/' !in dir && '/' !in name
    ensures BuildVfs.UpOneOf(protocol, "/" + dir + "/" + name) == Some(protocol + "/" + dir)
    ensures UpOneOf(protocol, "/" + dir + "/" + name) == Some(protocol + "/")
  {
    BuildLinksToDir(protocol, dir, name);
    var path := "/" + dir + "/" + name;
    assert path[1] == dir[0];
    AbsoluteLinksToRoot(protocol, path);
  }

  /** The build copy links `/dir/name` to `/dir`. */
  lemma BuildLinksToDir(protocol: string, dir: string, name: string)
    requires dir != "" && '/' !in dir && '/' !in name
    ensures BuildVfs.UpOneOf(protocol, "/" + dir + "/" + name) == Some(protocol + "/" + dir)
  {
    var path := "/" + dir + "/" + name;
    var k := |dir| + 1;
    assert path[k] == '/' && path[k + 1..] == name;
    BuildVfs.UpOneIsParent(protocol, path);
    LastIndexOfAt(path, '/', k);
    assert path[..k] == "/" + dir;
    assert BuildVfs.Parent(path) == "/" + dir;
    assert protocol + ("/" + dir) == protocol + "/" + dir;
  }

  /** On an absolute path one level deep the two copies agree: the protocol root. */
  lemma CopiesAgreeOneLevel(protocol: string, name: string)
    requires name != "" && '/' !in name
    ensures BuildVfs.UpOneOf(protocol, "/" + name) == UpOneOf(protocol, "/" + name) == Some(protocol + "/")
  {
    var path := "/" + name;
    BuildVfs.UpOneIsParent(protocol, path);
    assert path[1..] == name;
    LastIndexOfAt(path, '/', 0);
    AbsoluteLinksToRoot(protocol, path);
  }
}
