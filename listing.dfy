/**
 * Directory-listing construction of `scandir` in build/resources/main/vfs.js
 * and src/server/vertx/vfs.js (the two copies build entries identically;
 * they differ only in the `upOne` link their `getRealPath` computes).
 *
 * The filesystem is an input: `readDir` either fails or yields the children,
 * and each child's `props` either fails or yields a stat record whose fields
 * may be unreadable (the `try` around `size`, `creationTime()` and
 * `lastModifiedTime()`). Completion callbacks are taken in input order.
 */
module Listing {
  import opened Results
  import opened JsString
  import Mime

  datatype Kind = File | Dir

  /** One listing result; `None` times stand for JavaScript `null`. */
  datatype Entry = Entry(
    filename: string,
    path: string,
    size: int,
    mime: Option<string>,
    kind: Kind,
    ctime: Option<int>,
    mtime: Option<int>)

  /** The fields read inside the `try`; `None` when reading any of them throws. */
  datatype StatFields = StatFields(size: int, ctime: int, mtime: int)

  datatype Stat = Stat(isRegularFile: bool, isDirectory: bool, fields: Option<StatFields>)

  /** A child path as `readDir` reports it, with the outcome of `props` on it. */
  datatype Child = Child(filePath: string, stat: Option<Stat>)

  /** The synthetic parent entry pushed first when `upOne` is set. */
  function DotDot(upOne: string): Entry
  {
    Entry("..", upOne, 0, Some(""), Dir, None, None)
  }

  /** `filePath.substring(1).split('/')`, last piece: the text after the last `/` past the first character. */
  function FileName(filePath: string): (name: string)
    ensures '/' !in name
    ensures var t := if |filePath| == 0 then "" else filePath[1..];
      name == t[LastIndexOf(t, '/') + 1..]
    ensures StartsWith(filePath, "/") && '/' !in filePath[1..] ==> name == filePath[1..]
  {
    SplitLastPiece(if |filePath| == 0 then "" else filePath[1..], '/');
    var pieces := Split(if |filePath| == 0 then "" else filePath[1..], '/');
    SplitPiecesFree(if |filePath| == 0 then "" else filePath[1..], '/');
    pieces[|pieces| - 1]
  }

  /** The entry path: `dir + name` when `dir` ends in `/`, else `dir + '/' + name`. */
  function ChildPath(dir: string, name: string): (p: string)
    ensures EndsWith(p, name)
    ensures StartsWith(p, dir) && |p| == |dir| + |name| + (if EndsWith(dir, "/") then 0 else 1)
    ensures EndsWith(dir, "/") || p[|dir|] == '/'
  {
    var p := if EndsWith(dir, "/") then dir + name else dir + "/" + name;
    assert p[..|dir|] == dir;
    assert p[|p| - |name|..] == name;
    p
  }

  /** The last `/`-piece of a child's entry path is its file name. */
  lemma ChildPathLastPiece(dir: string, name: string)
    requires '/' !in name
    ensures var pieces := Split(ChildPath(dir, name), '/'); pieces[|pieces| - 1] == name
  {
    SplitNoSeparator(name, '/');
    if EndsWith(dir, "/") {
      var d := dir[..|dir| - 1];
      assert dir == d + ['/'];
      assert ChildPath(dir, name) == d + ['/'] + name;
      SplitAppend(d, '/', name);
    } else {
      assert ChildPath(dir, name) == dir + ['/'] + name;
      SplitAppend(dir, '/', name);
    }
  }

  /** The entry `getProps` pushes for a child whose `props` succeeded. */
  function EntryFor(dir: string, mimes: map<string, string>, filePath: string, st: Stat): Entry
  {
    var name := FileName(filePath);
    var path := ChildPath(dir, name);
    match st.fields
    case None => Entry(name, path, 0, Mime.GetMime(name, mimes), File, None, None)
    case Some(f) =>
      var kind := if st.isRegularFile then File else Dir;
      Entry(name, path, f.size, if kind == File then Mime.GetMime(name, mimes) else Some(""),
            kind, Some(f.ctime), Some(f.mtime))
  }

  /**
   * What a child's entry holds: its name and joined path; type `dir` only for
   * a readable non-regular file; a mime only for files; zero size and null
   * times when the stat fields could not be read.
   */
  lemma EntryShape(dir: string, mimes: map<string, string>, filePath: string, st: Stat)
    ensures var e := EntryFor(dir, mimes, filePath, st);
      && e.filename == FileName(filePath) && e.path == ChildPath(dir, e.filename)
      && (e.kind == Dir <==> st.fields.Some? && !st.isRegularFile)
      && (e.kind == File ==> e.mime == Mime.GetMime(e.filename, mimes))
      && (e.kind == Dir ==> e.mime == Some(""))
      && (st.fields.None? ==> e.size == 0 && e.ctime.None? && e.mtime.None?)
      && (st.fields.Some? ==>
            e.size == st.fields.value.size && e.ctime == Some(st.fields.value.ctime)
            && e.mtime == Some(st.fields.value.mtime))
  {
  }

  /** What one child adds to the listing: its entry, or nothing when `props` failed. */
  function Contribution(dir: string, mimes: map<string, string>, c: Child): seq<Entry>
  {
    if c.stat.Some? then [EntryFor(dir, mimes, c.filePath, c.stat.value)] else []
  }

  /** The entries of the children whose `props` succeeded, in order. */
  function Entries(dir: string, mimes: map<string, string>, children: seq<Child>): (es: seq<Entry>)
    ensures |es| <= |children|
    decreases |children|
  {
    if |children| == 0 then []
    else Entries(dir, mimes, children[..|children| - 1]) + Contribution(dir, mimes, children[|children| - 1])
  }

  lemma EntriesSnoc(dir: string, mimes: map<string, string>, init: seq<Child>, c: Child)
    ensures Entries(dir, mimes, init + [c]) == Entries(dir, mimes, init) + Contribution(dir, mimes, c)
  {
    var s := init + [c];
    assert s[..|s| - 1] == init;
  }

  lemma EntriesStep(dir: string, mimes: map<string, string>, children: seq<Child>, i: nat)
    requires i < |children|
    ensures Entries(dir, mimes, children[..i + 1]) == Entries(dir, mimes, children[..i]) + Contribution(dir, mimes, children[i])
  {
    assert children[..i + 1] == children[..i] + [children[i]];
    EntriesSnoc(dir, mimes, children[..i], children[i]);
  }

  lemma PushStep(dir: string, mimes: map<string, string>, children: seq<Child>, i: nat, prefix: seq<Entry>)
    requires i < |children|
    ensures prefix + Entries(dir, mimes, children[..i]) + Contribution(dir, mimes, children[i])
         == prefix + Entries(dir, mimes, children[..i + 1])
  {
    EntriesStep(dir, mimes, children, i);
  }

  /** The `..` prefix, present iff `upOne` is truthy. */
  function Prefix(upOne: Option<string>): seq<Entry>
  {
    if upOne.Some? then [DotDot(upOne.value)] else []
  }

  /** The reply a successful `readDir` produces. */
  function ListingOf(dir: string, upOne: Option<string>, mimes: map<string, string>, children: seq<Child>): seq<Entry>
  {
    Prefix(upOne) + Entries(dir, mimes, children)
  }

  /**
   * `scandir` after `getRealPath`: push `..` if `upOne`, then run `getProps`
   * on every child, counting completions and replying when the count reaches
   * the number of children. Returns every reply sent.
   */
  method ScanDir(dir: string, upOne: Option<string>, mimes: map<string, string>, readDir: Option<seq<Child>>)
    returns (replies: seq<seq<Entry>>)
    ensures readDir.None? ==> replies == []
    ensures readDir.Some? ==> replies == [ListingOf(dir, upOne, mimes, readDir.value)]
  {
    replies := [];
    if readDir.None? {
      return;
    }
    var fArray := readDir.value;
    var fileProps: seq<Entry> := [];
    if upOne.Some? {
      fileProps := fileProps + [DotDot(upOne.value)];
    }
    assert fileProps == Prefix(upOne);
    if |fArray| > 0 {
      replies := PropsLoop(dir, mimes, fArray, fileProps);
      assert replies == [Prefix(upOne) + Entries(dir, mimes, fArray)];
    } else {
      assert Entries(dir, mimes, fArray) == [];
      assert Prefix(upOne) + [] == fileProps;
      replies := [fileProps];
    }
  }

  /**
   * The `getProps` calls of a non-empty directory: each completion, failed
   * or not, advances the counter, and the single reply goes out when it
   * reaches the number of children.
   */
  method PropsLoop(dir: string, mimes: map<string, string>, fArray: seq<Child>, prefix: seq<Entry>)
    returns (replies: seq<seq<Entry>>)
    requires |fArray| > 0
    ensures replies == [prefix + Entries(dir, mimes, fArray)]
  {
    replies := [];
    var fileProps := prefix;
    var fileCounter := 0;
    var last := |fArray|;
    var i := 0;
    while i < |fArray|
      invariant 0 <= i <= |fArray| && fileCounter == i
      invariant fileProps == prefix + Entries(dir, mimes, fArray[..i])
      invariant replies == if i == last then [fileProps] else []
    {
      var child := fArray[i];
      PushStep(dir, mimes, fArray, i, prefix);
      fileProps := fileProps + Contribution(dir, mimes, child);  // the entry pushed when `props` succeeds
      fileCounter := fileCounter + 1;
      if fileCounter == last {
        replies := replies + [fileProps];
      }
      i := i + 1;
    }
    assert fArray[..i] == fArray;
  }

  /** The `..` entry comes first exactly when `upOne` is set; otherwise only children appear. */
  lemma DotDotFirst(dir: string, upOne: Option<string>, mimes: map<string, string>, children: seq<Child>)
    ensures var l := ListingOf(dir, upOne, mimes, children);
      (upOne.Some? ==> |l| >= 1 && l[0] == DotDot(upOne.value) && l[1..] == Entries(dir, mimes, children))
      && (upOne.None? ==> l == Entries(dir, mimes, children))
  {
  }

  /** An empty directory lists only the prefix. */
  lemma EmptyDirectory(dir: string, upOne: Option<string>, mimes: map<string, string>)
    ensures ListingOf(dir, upOne, mimes, []) == Prefix(upOne)
  {
  }

  /** A child whose `props` failed contributes nothing. */
  lemma {:induction false} FailedChildOmitted(dir: string, mimes: map<string, string>, before: seq<Child>, filePath: string, after: seq<Child>)
    ensures Entries(dir, mimes, before + [Child(filePath, None)] + after) == Entries(dir, mimes, before + after)
    decreases |after|
  {
    var x := Child(filePath, None);
    if |after| == 0 {
      assert before + [x] + after == before + [x];
      assert before + after == before;
      EntriesSnoc(dir, mimes, before, x);
    } else {
      var init, c := after[..|after| - 1], after[|after| - 1];
      assert before + [x] + after == (before + [x] + init) + [c];
      assert before + after == (before + init) + [c];
      EntriesSnoc(dir, mimes, before + [x] + init, c);
      EntriesSnoc(dir, mimes, before + init, c);
      FailedChildOmitted(dir, mimes, before, filePath, init);
    }
  }

  /** When every `props` succeeds, entry k describes child k. */
  lemma {:induction false} AllStatable(dir: string, mimes: map<string, string>, children: seq<Child>)
    requires forall j :: 0 <= j < |children| ==> children[j].stat.Some?
    ensures |Entries(dir, mimes, children)| == |children|
    ensures forall k :: 0 <= k < |children| ==>
      Entries(dir, mimes, children)[k] == EntryFor(dir, mimes, children[k].filePath, children[k].stat.value)
    decreases |children|
  {
    if |children| > 0 {
      var n := |children| - 1;
      var init, c := children[..n], children[n];
      assert children == init + [c];
      AllStatable(dir, mimes, init);
      EntriesSnoc(dir, mimes, init, c);
      var es := Entries(dir, mimes, init);
      var one := Contribution(dir, mimes, c);
      assert one == [EntryFor(dir, mimes, c.filePath, c.stat.value)];
      forall k | 0 <= k < |children|
        ensures (es + one)[k] == EntryFor(dir, mimes, children[k].filePath, children[k].stat.value)
      {
        if k < n {
          assert init[k] == children[k];
        }
      }
    }
  }

}
