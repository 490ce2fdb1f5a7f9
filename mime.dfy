/**
 * `getMime`, identical in build/resources/main/vfs.js and
 * src/server/vertx/vfs.js: the extension is the text from the last `.`
 * (the dot included), looked up in lower case in the configured table; a
 * name without a dot uses the key `default`; a miss, or an empty table
 * value, falls back to the table's `default` entry, which may itself be
 * missing (`None`, JavaScript's `undefined`).
 */
module Mime {
  import opened Results
  import opened JsString

  /** The lookup key `getMime` computes for a file name. */
  function ExtensionKey(file: string): (key: string)
    ensures '.' !in file ==> key == "default"
    ensures forall i :: 0 <= i < |file| && file[i] == '.' && '.' !in file[i + 1..] ==> key == ToLower(file[i..])
  {
    var i := LastIndexOf(file, '.');
    LastIndexOfUnique(file, '.');
    ToLower(if i == -1 then "default" else file[i..])
  }

  /** The `default` entry, or `undefined`. */
  function Default(mimes: map<string, string>): Option<string>
  {
    if "default" in mimes then Some(mimes["default"]) else None
  }

  /**
   * `getMime`: a dotless name gets the `default` entry; otherwise the text
   * from the last dot, lower-cased, is looked up, and a miss or an empty
   * value falls back to `default`.
   */
  function GetMime(file: string, mimes: map<string, string>): (r: Option<string>)
    ensures '.' !in file ==> r == Default(mimes)
    ensures forall i :: 0 <= i < |file| && file[i] == '.' && '.' !in file[i + 1..] ==>
      r == if ToLower(file[i..]) in mimes && mimes[ToLower(file[i..])] != "" then Some(mimes[ToLower(file[i..])])
           else Default(mimes)
    ensures r.Some? ==> r.value in mimes.Values
  {
    var key := ExtensionKey(file);
    if key in mimes && mimes[key] != "" then Some(mimes[key])
    else Default(mimes)
  }

  /** The text after the last dot, lower-cased, decides: e.g. `icon.PNG` finds `.png`. */
  lemma {:induction false} MimeOfExtension(stem: string, ext: string, mimes: map<string, string>)
    requires '.' !in ext
    requires ToLower("." + ext) in mimes && mimes[ToLower("." + ext)] != ""
    ensures GetMime(stem + "." + ext, mimes) == Some(mimes[ToLower("." + ext)])
  {
    var file := stem + "." + ext;
    assert file[|stem|] == '.';
    assert file[|stem| + 1..] == ext;
    LastIndexOfAt(file, '.', |stem|);
    assert file[|stem|..] == "." + ext;
    assert ExtensionKey(file) == ToLower("." + ext);
  }

  /** The file name's case never matters: only the lower-cased extension is looked up. */
  lemma CaseInsensitive(file: string, mimes: map<string, string>)
    ensures GetMime(ToLower(file), mimes) == GetMime(file, mimes)
  {
    var lower := ToLower(file);
    var j := LastIndexOf(file, '.');
    LowerKeepsDots(file);
    if j == -1 {
      assert '.' !in lower;
    } else {
      assert '.' !in lower[j + 1..];
      LastIndexOfAt(lower, '.', j);
      LowerSlice(file, j);
      LowerTwice(file[j..]);
    }
  }

  /** Lower-casing moves no dot: position k holds `.` before iff after. */
  lemma LowerKeepsDots(s: string)
    ensures forall k :: 0 <= k < |s| ==> (ToLower(s)[k] == '.' <==> s[k] == '.')
    ensures forall j :: 0 <= j <= |s| ==> ('.' in ToLower(s)[j..] <==> '.' in s[j..])
  {
    var lower := ToLower(s);
    forall j | 0 <= j <= |s|
      ensures '.' in lower[j..] <==> '.' in s[j..]
    {
      if '.' in lower[j..] {
        var k :| j <= k < |s| && lower[k] == '.';
        assert s[k] in s[j..];
      }
      if '.' in s[j..] {
        var k :| j <= k < |s| && s[k] == '.';
        assert lower[k] in lower[j..];
      }
    }
  }

  /** Lower-casing commutes with taking a suffix. */
  lemma LowerSlice(s: string, j: int)
    requires 0 <= j <= |s|
    ensures ToLower(s)[j..] == ToLower(s[j..])
  {
  }

  /** Lower-casing is idempotent. */
  lemma LowerTwice(s: string)
    ensures ToLower(ToLower(s)) == ToLower(s)
  {
  }
}
