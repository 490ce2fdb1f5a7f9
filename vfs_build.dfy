/**
 * build/resources/main/vfs.js: `getRealPath`, whose parent link `upOne` is
 * built by a loop that appends `'/' + piece` for every piece of the path
 * but the first and the last, and `scandir`, which resolves the path and
 * lists the directory with that link.
 */
module BuildVfs {
  import opened Results
  import opened JsString
  import opened VirtualPath
  import Listing

  /**
   * Reference definition of the link: `protocol + '/'` followed by the
   * pieces of `path` between the first and the last, joined with `/`;
   * `None` for `/` and for a path without any `/`.
   */
  function UpOneOf(protocol: string, path: string): Option<string>
  {
    var parts := Split(path, '/');
    if path == "/" || |parts| < 2 then None
    else Some(protocol + "/" + Join(parts[1..|parts| - 1], "/"))
  }

  /** The `upOne` computation of `getRealPath`, with its loop. */
  method ComputeUpOne(protocol: string, path: string) returns (upOne: Option<string>)
    ensures upOne == UpOneOf(protocol, path)
  {
    upOne := None;
    if path != "/" {
      var ppcs := Split(path, '/');
      if |ppcs| == 2 {
        assert ppcs[1..|ppcs| - 1] == [];
        assert protocol + "/" + Join([], "/") == protocol + "/";
        upOne := Some(protocol + "/");
      } else if |ppcs| > 2 {
        var acc := protocol;
        var i := 1;
        while i < |ppcs| - 1
          invariant 1 <= i <= |ppcs| - 1
          invariant i == 1 ==> acc == protocol
          invariant i > 1 ==> acc == protocol + "/" + Join(ppcs[1..i], "/")
        {
          var done := ppcs[1..i];
          assert ppcs[1..i + 1] == done + [ppcs[i]];
          JoinSnoc(done, "/", ppcs[i]);
          acc := acc + "/" + ppcs[i];
          i := i + 1;
        }
        upOne := Some(acc);
        assert upOne == UpOneOf(protocol, path);
      }
    }
  }

  /** `getRealPath(incPath)`; an input without a scheme raises a TypeError. */
  method GetRealPath(incPath: string) returns (r: Result<RealPath, string>)
    ensures ParseMount(incPath).None? ==> r == Err(UndefinedPathError)
    ensures ParseMount(incPath).Some? ==>
      var m := ParseMount(incPath).value;
      r == Ok(RealPath(m.basePath, m.path, m.basePath + m.path, UpOneOf(m.protocol, m.path)))
  {
    var mount := ParseMount(incPath);
    if mount.None? {
      return Err(UndefinedPathError);
    }
    var m := mount.value;
    var upOne := ComputeUpOne(m.protocol, m.path);
    r := Ok(RealPath(m.basePath, m.path, m.basePath + m.path, upOne));
  }

  /** The parent of an absolute path: everything before its last `/`, or `/` itself. */
  function Parent(path: string): string
  {
    var i := LastIndexOf(path, '/');
    if i <= 0 then "/" else path[..i]
  }

  /** A path without any `/` (a single piece) has no parent link. */
  lemma SingleSegment(protocol: string, path: string)
    requires '/' !in path
    ensures UpOneOf(protocol, path) == None
  {
    SplitNoSeparator(path, '/');
  }

  /**
   * For a path that starts with `/` (other than `/` itself) the link is the
   * protocol followed by the path's parent.
   */
  lemma UpOneIsParent(protocol: string, path: string)
    requires |path| > 0 && path[0] == '/' && path != "/"
    ensures UpOneOf(protocol, path) == Some(protocol + Parent(path))
  {
    InnerPieces(path);
    var parts := Split(path, '/');
    var inner := Join(parts[1..|parts| - 1], "/");
    assert protocol + "/" + inner == protocol + ("/" + inner);
  }

  /** The pieces between the first and the last of an absolute path, joined, are its parent after the leading `/`. */
  lemma InnerPieces(path: string)
    requires |path| > 0 && path[0] == '/' && path != "/"
    ensures var parts := Split(path, '/');
      |parts| >= 2 && "/" + Join(parts[1..|parts| - 1], "/") == Parent(path)
  {
    assert path[0] in path;
    var i := LastIndexOf(path, '/');
    SplitAtLast(path, '/');
    var head := path[..i];
    var parts := Split(path, '/');
    var k := |parts|;
    assert parts[1..k - 1] == Split(head, '/')[1..];
    if i == 0 {
      assert Split(head, '/') == [""];
    } else {
      assert head == "" + ['/'] + path[1..i];
      SplitAppend("", '/', path[1..i]);
      assert Split(head, '/')[1..] == Split(path[1..i], '/');
      JoinSplit(path[1..i], '/');
      assert "/" + path[1..i] == head;
    }
  }

  /**
   * `scandir`: resolve `args.path`, read the directory at `full`, and list
   * it with the `..` link `upOne`. A path the resolver rejects raises before
   * any directory is read.
   */
  method Scandir(argsPath: string, mimes: map<string, string>, readDir: string -> Option<seq<Listing.Child>>)
    returns (r: Result<seq<seq<Listing.Entry>>, string>)
    ensures ParseMount(argsPath).None? ==> r == Err(UndefinedPathError)
    ensures ParseMount(argsPath).Some? ==>
      var m := ParseMount(argsPath).value;
      var children := readDir(m.basePath + m.path);
      r == Ok(if children.None? then []
              else [Listing.ListingOf(argsPath, UpOneOf(m.protocol, m.path), mimes, children.value)])
  {
    var paths := GetRealPath(argsPath);
    if paths.Err? {
      return Err(paths.error);
    }
    var replies := Listing.ScanDir(argsPath, paths.value.upOne, mimes, readDir(paths.value.full));
    r := Ok(replies);
  }
}
