/**
 * The protocol-to-mount mapping shared by the three `getRealPath` copies
 * (build/resources/main/vfs.js, src/server/vertx/vfs.js and
 * build/resources/main/server.js): `osjs://` maps to `dist-dev`, `home://`
 * to `vfs/home`, and any other `\w+://` scheme to `vfs/tmp`. The remainder
 * after the scheme is kept verbatim: no normalisation, no `..` filtering,
 * no per-user directory.
 */
module VirtualPath {
  import opened Results
  import opened JsString

  /** The longest prefix of `s` made of `\w` characters. */
  function WordPrefix(s: string): (w: string)
    ensures |w| <= |s| && w == s[..|w|]
    ensures forall i :: 0 <= i < |w| ==> IsWordChar(w[i])
    ensures |w| < |s| ==> !IsWordChar(s[|w|])
    decreases |s|
  {
    if |s| == 0 || !IsWordChar(s[0]) then "" else [s[0]] + WordPrefix(s[1..])
  }

  /** What the regular expression `^(\w+)\:\/\/` captures, with the rest of the string. */
  function SchemeSplit(s: string): (r: Option<(string, string)>)
    ensures r.Some? ==> r.value.0 != "" && s == r.value.0 + "://" + r.value.1
    ensures r.Some? ==> forall i :: 0 <= i < |r.value.0| ==> IsWordChar(r.value.0[i])
  {
    var w := WordPrefix(s);
    if |w| > 0 && StartsWith(s[|w|..], "://") then
      assert s == w + "://" + s[|w| + 3..] by {
        assert s == s[..|w|] + s[|w|..];
        assert s[|w|..] == "://" + s[|w| + 3..];
      }
      Some((w, s[|w| + 3..]))
    else None
  }

  lemma {:induction false} WordPrefixOf(w: string, t: string)
    requires forall i :: 0 <= i < |w| ==> IsWordChar(w[i])
    requires |t| == 0 || !IsWordChar(t[0])
    ensures WordPrefix(w + t) == w
    decreases |w|
  {
    if |w| > 0 {
      assert (w + t)[1..] == w[1..] + t;
      WordPrefixOf(w[1..], t);
      assert w == [w[0]] + w[1..];
    } else {
      assert w + t == t;
    }
  }

  /** Every `\w+://` decomposition of a string is the one `SchemeSplit` finds. */
  lemma SchemeSplitComplete(s: string, w: string, rest: string)
    requires w != "" && forall i :: 0 <= i < |w| ==> IsWordChar(w[i])
    requires s == w + "://" + rest
    ensures SchemeSplit(s) == Some((w, rest))
  {
    assert s == w + ("://" + rest);
    WordPrefixOf(w, "://" + rest);
    assert s[|w|..] == "://" + rest;
    assert s[|w| + 3..] == rest;
  }

  /** A resolved mount: the protocol string with its `://`, the base path, the remainder. */
  datatype Mount = Mount(protocol: string, basePath: string, path: string)

  /**
   * What the two vfs.js copies of `getRealPath` return: `full` is `basePath`
   * and `path` joined with no separator; `upOne` is the parent link, `None`
   * for JavaScript `false`.
   */
  datatype RealPath = RealPath(basePath: string, path: string, full: string, upOne: Option<string>)

  /** The exception both vfs.js copies raise for an input with no scheme (`path` is undefined). */
  const UndefinedPathError := "TypeError: path is undefined"

  /** The base directory each protocol maps to. */
  function BaseFor(protocol: string): string
  {
    if protocol == "osjs://" then "dist-dev"
    else if protocol == "home://" then "vfs/home"
    else "vfs/tmp"
  }

  /**
   * The scheme test of the `getRealPath` copies. `None` stands for an input
   * with no scheme, for which the two vfs.js copies leave `path` undefined.
   */
  function ParseMount(incPath: string): (m: Option<Mount>)
    ensures m.None? <==> SchemeSplit(incPath).None?
    ensures m.Some? ==> m.value.protocol + m.value.path == incPath
    ensures m.Some? ==> m.value.protocol == SchemeSplit(incPath).value.0 + "://"
    ensures m.Some? ==> m.value.basePath == BaseFor(m.value.protocol)
  {
    if StartsWith(incPath, "osjs://") then
      SchemeAt(incPath, "osjs");
      Some(Mount("osjs://", "dist-dev", incPath[7..]))
    else if StartsWith(incPath, "home://") then
      SchemeAt(incPath, "home");
      Some(Mount("home://", "vfs/home", incPath[7..]))
    else
      match SchemeSplit(incPath)
      case None => None
      case Some(split) =>
        assert incPath == split.0 + "://" + split.1;
        Some(Mount(split.0 + "://", "vfs/tmp", split.1))
  }

  lemma SchemeAt(incPath: string, scheme: string)
    requires scheme == "osjs" || scheme == "home"
    requires StartsWith(incPath, scheme + "://")
    ensures SchemeSplit(incPath) == Some((scheme, incPath[7..]))
  {
    assert incPath == scheme + "://" + incPath[7..];
    SchemeSplitComplete(incPath, scheme, incPath[7..]);
  }

  /** The protocol of a mount with its trailing `://` removed (`replace(/\:\/\/$/, '')`). */
  function ProtocolKey(protocol: string): (key: string)
    ensures EndsWith(protocol, "://") ==> key + "://" == protocol
    ensures !EndsWith(protocol, "://") ==> key == protocol
  {
    if EndsWith(protocol, "://") then
      assert protocol == protocol[..|protocol| - 3] + protocol[|protocol| - 3..];
      protocol[..|protocol| - 3]
    else protocol
  }

  /** `osjs://x` and `home://x` keep `x` as the remainder, with their fixed base paths. */
  lemma {:induction false} KnownMounts(rest: string)
    ensures ParseMount("osjs://" + rest) == Some(Mount("osjs://", "dist-dev", rest))
    ensures ParseMount("home://" + rest) == Some(Mount("home://", "vfs/home", rest))
  {
    assert ("osjs://" + rest)[..7] == "osjs://";
    assert ("osjs://" + rest)[7..] == rest;
    assert ("home://" + rest)[..7] == "home://";
    assert ("home://" + rest)[7..] == rest;
  }

  /** Any other `\w+://` scheme maps to `vfs/tmp` and keeps its own name as the protocol. */
  lemma OtherMount(scheme: string, rest: string)
    requires scheme != "" && forall i :: 0 <= i < |scheme| ==> IsWordChar(scheme[i])
    requires scheme != "osjs" && scheme != "home"
    ensures ParseMount(scheme + "://" + rest) == Some(Mount(scheme + "://", "vfs/tmp", rest))
  {
    SchemeSplitComplete(scheme + "://" + rest, scheme, rest);
  }
}
