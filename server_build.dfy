/**
 * build/resources/main/server.js: its own `getRealPath` (a path with no
 * scheme passes through with an empty base), its own `scandir` (a `..`
 * entry only for an empty directory; a child that fails to stat stalls
 * the reply), and the event-bus dispatch with its fixed `login` reply.
 */
module BuildServer {
  import opened Results
  import opened JsString
  import opened VirtualPath
  import Listing
  import Bus
  import SrcVfs

  /** What this copy of `getRealPath` returns. */
  datatype ServerPath = ServerPath(basePath: string, fileName: string, full: string)

  function GetRealPath(path: string): (r: ServerPath)
    ensures r.full == r.basePath + r.fileName
    ensures ParseMount(path).None? ==> r.basePath == "" && r.fileName == path
    ensures ParseMount(path).Some? ==>
      r.basePath == ParseMount(path).value.basePath && r.fileName == ParseMount(path).value.path
  {
    match ParseMount(path)
    case None => ServerPath("", path, "" + path)
    case Some(m) => ServerPath(m.basePath, m.path, m.basePath + m.path)
  }

  /** On every path with a scheme this copy resolves to the same real path as the vfs.js copies. */
  lemma SameFullPath(path: string)
    requires ParseMount(path).Some?
    ensures SrcVfs.GetRealPath(path).Ok? && SrcVfs.GetRealPath(path).value.full == GetRealPath(path).full
  {
  }

  /** A child whose `props` succeeded and whose fields could be read; otherwise its callback stops early. */
  predicate Completes(c: Listing.Child)
  {
    c.stat.Some? && c.stat.value.fields.Some?
  }

  /** The entry this copy pushes: mime `text/plain` for regular files, type `dir` iff a directory. */
  function EntryFor(dir: string, filePath: string, st: Listing.Stat, f: Listing.StatFields): (e: Listing.Entry)
    ensures e.kind == Listing.Dir <==> st.isDirectory
    ensures e.mime == Some(if st.isRegularFile then "text/plain" else "")
    ensures e.path == Listing.ChildPath(dir, Listing.FileName(filePath))
    ensures e.filename == Listing.FileName(filePath) && e.size == f.size
    ensures e.ctime == Some(f.ctime) && e.mtime == Some(f.mtime)
  {
    var name := Listing.FileName(filePath);
    Listing.Entry(name, Listing.ChildPath(dir, name), f.size,
                  Some(if st.isRegularFile then "text/plain" else ""),
                  if st.isDirectory then Listing.Dir else Listing.File,
                  Some(f.ctime), Some(f.mtime))
  }

  function Entries(dir: string, children: seq<Listing.Child>): (es: seq<Listing.Entry>)
    ensures |es| == Completed(children)
    decreases |children|
  {
    if |children| == 0 then []
    else
      Entries(dir, children[..|children| - 1]) + Contribution(dir, children[|children| - 1])
  }

  /** What one child's callback pushes. */
  function Contribution(dir: string, c: Listing.Child): seq<Listing.Entry>
  {
    if Completes(c) then [EntryFor(dir, c.filePath, c.stat.value, c.stat.value.fields.value)] else []
  }

  /** How many children's callbacks reach the counter. */
  function Completed(children: seq<Listing.Child>): (n: nat)
    ensures n <= |children|
    decreases |children|
  {
    if |children| == 0 then 0
    else Completed(children[..|children| - 1]) + (if Completes(children[|children| - 1]) then 1 else 0)
  }

  /** When every child completes, entry k is the entry of child k. */
  lemma {:induction false} AllComplete(dir: string, children: seq<Listing.Child>)
    requires forall j :: 0 <= j < |children| ==> Completes(children[j])
    ensures |Entries(dir, children)| == |children|
    ensures forall k :: 0 <= k < |children| ==>
      (Completes(children[k]) &&
       Entries(dir, children)[k] == EntryFor(dir, children[k].filePath, children[k].stat.value, children[k].stat.value.fields.value))
    decreases |children|
  {
    CompletedAll(children);
    if |children| > 0 {
      var n := |children| - 1;
      var init, c := children[..n], children[n];
      assert children == init + [c];
      assert forall j :: 0 <= j < |init| ==> init[j] == children[j];
      AllComplete(dir, init);
      var es := Entries(dir, init);
      var one := Contribution(dir, c);
      assert Entries(dir, children) == es + one;
      assert one == [EntryFor(dir, c.filePath, c.stat.value, c.stat.value.fields.value)];
      forall k | 0 <= k < |children|
        ensures (es + one)[k] == EntryFor(dir, children[k].filePath, children[k].stat.value, children[k].stat.value.fields.value)
      {
        if k < n {
          assert init[k] == children[k];
        }
      }
    }
  }

  /** The counter reaches the number of children exactly when every child completes. */
  lemma {:induction false} CompletedAll(children: seq<Listing.Child>)
    ensures Completed(children) == |children| <==> forall j :: 0 <= j < |children| ==> Completes(children[j])
    decreases |children|
  {
    if |children| > 0 {
      var init := children[..|children| - 1];
      CompletedAll(init);
      assert forall j :: 0 <= j < |init| ==> init[j] == children[j];
    }
  }

  lemma Step(dir: string, children: seq<Listing.Child>, i: nat)
    requires i < |children|
    ensures children[..i + 1][..i] == children[..i] && children[..i + 1][i] == children[i]
    ensures Completed(children[..i + 1]) == Completed(children[..i]) + (if Completes(children[i]) then 1 else 0)
    ensures Entries(dir, children[..i + 1]) == Entries(dir, children[..i]) + Contribution(dir, children[i])
  {
    assert children[..i + 1][..i] == children[..i];
  }

  /** The `..` entry of an empty directory, whose link is the listed path itself. */
  function EmptyDirEntry(dir: string): Listing.Entry
  {
    Listing.Entry("..", dir, 0, Some(""), Listing.Dir, None, None)
  }

  /**
   * `VFS.scandir` of server.js; returns every reply sent. A non-empty
   * listing has no `..` entry and is sent only if every child completes.
   */
  method Scandir(argsPath: string, readDir: string -> Option<seq<Listing.Child>>) returns (replies: seq<seq<Listing.Entry>>)
    ensures var d := readDir(GetRealPath(argsPath).full);
      replies == if d.None? then []
                 else if |d.value| == 0 then [[EmptyDirEntry(argsPath)]]
                 else if forall j :: 0 <= j < |d.value| ==> Completes(d.value[j]) then [Entries(argsPath, d.value)]
                 else []
  {
    replies := [];
    var paths := GetRealPath(argsPath);
    var res := readDir(paths.full);
    if res.None? {
      return;
    }
    var fArray := res.value;
    if |fArray| > 0 {
      replies := PropsLoop(argsPath, fArray);
      CompletedAll(fArray);
    } else {
      replies := [[EmptyDirEntry(argsPath)]];
    }
  }

  /** The `nextStep` loop over a non-empty listing, with each `getProps` callback in turn: one reply once the counter reaches the count. */
  method PropsLoop(dir: string, fArray: seq<Listing.Child>) returns (replies: seq<seq<Listing.Entry>>)
    requires |fArray| > 0
    ensures replies == if Completed(fArray) == |fArray| then [Entries(dir, fArray)] else []
  {
    replies := [];
    var fileProps: seq<Listing.Entry> := [];
    var fileCounter := 0;
    var last := |fArray|;
    var i := 0;
    while i < |fArray|
      invariant 0 <= i <= |fArray|
      invariant fileCounter == Completed(fArray[..i]) && fileCounter <= i
      invariant fileProps == Entries(dir, fArray[..i])
      invariant replies == if fileCounter == last then [fileProps] else []
    {
      var child := fArray[i];
      Step(dir, fArray, i);
      if Completes(child) {
        fileProps := fileProps + Contribution(dir, child);
        fileCounter := fileCounter + 1;
        if fileCounter == last {
          replies := replies + [fileProps];
        }
      }
      i := i + 1;
    }
    assert fArray[..i] == fArray;
  }

  /** The reply to the fixed `login`: user `lisa`, groups `['admin']`, nothing blacklisted. */
  datatype LoginReply = LoginReply(
    blacklistedPackages: seq<string>,
    id: int,
    username: string,
    name: string,
    groups: seq<string>,
    userSettings: map<string, string>)

  const FixedLogin := LoginReply([], 0, "lisa", "Crazy Lisa", ["admin"], map[])

  /** What the `OSjsCallXHR` consumer does with a message. */
  datatype Handling =
    | LoginReplied(reply: LoginReply)
    | ExistsCalled(path: string)
    | ScandirCalled(path: string)
    | Raised(exception: string)
    | Ignored

  const MissingGetError := "TypeError: VFS.get is not a function"

  /** The `API` switch handles only `login`; the `FS` switch only `exists`, `scandir` and `GET`. */
  function Consume(url: string, argsPath: string): (h: Handling)
    ensures h.LoginReplied? <==> Bus.TargetOf(url) == Bus.Target("API", Some("login"))
    ensures h.LoginReplied? ==> h.reply.username == "lisa" && h.reply.groups == ["admin"]
    ensures h.ExistsCalled? || h.ScandirCalled? || h.Raised? ==> Bus.TargetOf(url).call == "FS"
    ensures h.Ignored? <==> (
      var t := Bus.TargetOf(url);
      !(t.call == "API" && t.methodName == Some("login"))
      && !(t.call == "FS" && t.methodName.Some? && (t.methodName.value in {"exists", "scandir", "GET"})))
    ensures var t := Bus.TargetOf(url);
      t.call == "FS" && t.methodName == Some("exists") ==> h == ExistsCalled(argsPath)
    ensures var t := Bus.TargetOf(url);
      t.call == "FS" && t.methodName == Some("scandir") ==> h == ScandirCalled(argsPath)
    ensures var t := Bus.TargetOf(url);
      t.call == "FS" && t.methodName == Some("GET") ==> h == Raised(MissingGetError)
  {
    var t := Bus.TargetOf(url);
    if t.call == "API" then
      if t.methodName == Some("login") then LoginReplied(FixedLogin) else Ignored
    else if t.call == "FS" then
      match t.methodName
      case Some("exists") => ExistsCalled(argsPath)
      case Some("scandir") => ScandirCalled(argsPath)
      case Some("GET") => Raised(MissingGetError)
      case _ => Ignored
    else Ignored
  }
}
