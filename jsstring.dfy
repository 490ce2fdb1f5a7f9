/**
 * The few JavaScript string operations the server relies on, over `seq<char>`:
 * `split` on one separator character, the inverse `join`, `lastIndexOf`,
 * prefix and suffix tests, and ASCII lower-casing.
 */
module JsString {

  /** `s.split(c)`: the pieces between occurrences of `c`; never empty. */
  function Split(s: string, c: char): (parts: seq<string>)
    ensures |parts| >= 1
    decreases |s|
  {
    if |s| == 0 then [""]
    else ConsPiece(s[0], Split(s[1..], c), c)
  }

  /** `parts.join(sep)`. */
  function Join(parts: seq<string>, sep: string): string
    decreases |parts|
  {
    if |parts| == 0 then ""
    else if |parts| == 1 then parts[0]
    else parts[0] + sep + Join(parts[1..], sep)
  }

  /** Joining one more piece appends the separator and that piece. */
  lemma {:induction false} JoinSnoc(parts: seq<string>, sep: string, last: string)
    ensures Join(parts + [last], sep) == if |parts| == 0 then last else Join(parts, sep) + sep + last
    decreases |parts|
  {
    if |parts| == 0 {
      assert parts + [last] == [last];
    } else if |parts| == 1 {
      assert (parts + [last])[1..] == [last];
    } else {
      assert (parts + [last])[1..] == parts[1..] + [last];
      JoinSnoc(parts[1..], sep, last);
    }
  }

  /** Number of occurrences of `c` in `s`. */
  function Count(s: string, c: char): nat
    decreases |s|
  {
    if |s| == 0 then 0 else (if s[0] == c then 1 else 0) + Count(s[1..], c)
  }

  /** Splitting yields one more piece than there are separators. */
  lemma {:induction false} SplitLength(s: string, c: char)
    ensures |Split(s, c)| == Count(s, c) + 1
    decreases |s|
  {
    if |s| > 0 { SplitLength(s[1..], c); }
  }

  /** No piece of a split contains the separator. */
  lemma {:induction false} SplitPiecesFree(s: string, c: char)
    ensures forall i :: 0 <= i < |Split(s, c)| ==> c !in Split(s, c)[i]
    decreases |s|
  {
    if |s| > 0 {
      SplitPiecesFree(s[1..], c);
      var rest := Split(s[1..], c);
      if s[0] != c {
        assert c !in rest[0];
        assert forall x :: x in [s[0]] + rest[0] ==> x == s[0] || x in rest[0];
      }
    }
  }

  /** A string without the separator splits into itself alone. */
  lemma {:induction false} SplitNoSeparator(s: string, c: char)
    requires c !in s
    ensures Split(s, c) == [s]
    decreases |s|
  {
    if |s| > 0 {
      assert c !in s[1..] by { assert forall x :: x in s[1..] ==> x in s; }
      SplitNoSeparator(s[1..], c);
      assert s[0] != c;
      assert [s[0]] + s[1..] == s;
    }
  }

  /** Splitting a string by its first character. */
  lemma SplitCons(h: char, t: string, c: char)
    ensures Split([h] + t, c) == ConsPiece(h, Split(t, c), c)
  {
    assert ([h] + t)[1..] == t;
  }

  /** How one more leading character changes a split's pieces. */
  function ConsPiece(h: char, rest: seq<string>, c: char): seq<string>
    requires |rest| >= 1
  {
    if h == c then [""] + rest else [[h] + rest[0]] + rest[1..]
  }

  /** Adding a leading character to the first piece commutes with appending pieces. */
  lemma ConsPieceAppend(h: char, xs: seq<string>, ys: seq<string>, c: char)
    requires |xs| >= 1
    ensures ConsPiece(h, xs + ys, c) == ConsPiece(h, xs, c) + ys
  {
    if h != c {
      assert (xs + ys)[0] == xs[0];
      assert (xs + ys)[1..] == xs[1..] + ys;
    }
  }

  /** Splitting distributes over one occurrence of the separator. */
  lemma {:induction false} SplitAppend(x: string, c: char, y: string)
    ensures Split(x + [c] + y, c) == Split(x, c) + Split(y, c)
    decreases |x|
  {
    if |x| == 0 {
      assert x + [c] + y == [c] + y;
      SplitCons(c, y, c);
    } else {
      var h, t := x[0], x[1..];
      assert x == [h] + t;
      assert x + [c] + y == [h] + (t + [c] + y);
      SplitAppend(t, c, y);
      SplitCons(h, t + [c] + y, c);
      SplitCons(h, t, c);
      ConsPieceAppend(h, Split(t, c), Split(y, c), c);
    }
  }

  /** Joining the pieces of a split with the separator restores the string. */
  lemma {:induction false} JoinSplit(s: string, c: char)
    ensures Join(Split(s, c), [c]) == s
    decreases |s|
  {
    if |s| > 0 {
      JoinSplit(s[1..], c);
      var rest := Split(s[1..], c);
      if s[0] == c {
        if |rest| == 1 {
          assert Join([""] + rest, [c]) == "" + [c] + rest[0];
        } else {
          assert ([""] + rest)[1..] == rest;
        }
        assert s == [s[0]] + s[1..];
      } else {
        var parts := [[s[0]] + rest[0]] + rest[1..];
        if |rest| == 1 {
          assert Join(parts, [c]) == [s[0]] + rest[0];
        } else {
          assert parts[1..] == rest[1..];
          assert Join(rest, [c]) == rest[0] + [c] + Join(rest[1..], [c]);
        }
        assert s == [s[0]] + s[1..];
      }
    }
  }

  /** `s.lastIndexOf(c)`: the last index holding `c`, or -1. */
  function LastIndexOf(s: string, c: char): (i: int)
    ensures -1 <= i < |s|
    ensures i == -1 <==> c !in s
    ensures i >= 0 ==> s[i] == c && c !in s[i + 1..]
    decreases |s|
  {
    if |s| == 0 then -1
    else if s[|s| - 1] == c then |s| - 1
    else
      var init := s[..|s| - 1];
      var j := LastIndexOf(init, c);
      assert s == init + [s[|s| - 1]];
      SnocFacts(init, s[|s| - 1], c, j);
      j
  }

  /** Membership in, and suffixes of, a string with one more character. */
  lemma SnocFacts(init: string, last: char, c: char, j: int)
    ensures c in init + [last] <==> c in init || c == last
    ensures 0 <= j < |init| ==> (init + [last])[j + 1..] == init[j + 1..] + [last]
  {
  }

  /** `lastIndexOf` is the occurrence with no further occurrence after it. */
  lemma {:induction false} LastIndexOfAt(s: string, c: char, k: int)
    requires 0 <= k < |s| && s[k] == c && c !in s[k + 1..]
    ensures LastIndexOf(s, c) == k
    decreases |s|
  {
    if k < |s| - 1 {
      assert s[|s| - 1] in s[k + 1..];
      assert s[..|s| - 1][k + 1..] == s[k + 1..|s| - 1];
      assert s[k + 1..] == s[k + 1..|s| - 1] + [s[|s| - 1]];
      LastIndexOfAt(s[..|s| - 1], c, k);
    }
  }

  /** Any occurrence with none after it is the one `lastIndexOf` finds. */
  lemma LastIndexOfUnique(s: string, c: char)
    ensures forall k :: 0 <= k < |s| && s[k] == c && c !in s[k + 1..] ==> k == LastIndexOf(s, c)
  {
    forall k | 0 <= k < |s| && s[k] == c && c !in s[k + 1..]
      ensures k == LastIndexOf(s, c)
    {
      LastIndexOfAt(s, c, k);
    }
  }

  /** Splitting at the last separator: the pieces before it, then the rest as one piece. */
  lemma SplitAtLast(s: string, c: char)
    requires c in s
    ensures var i := LastIndexOf(s, c);
      Split(s, c) == Split(s[..i], c) + [s[i + 1..]]
  {
    var i := LastIndexOf(s, c);
    var head, tail := s[..i], s[i + 1..];
    assert s == head + [c] + tail;
    SplitAppend(head, c, tail);
    SplitNoSeparator(tail, c);
  }

  /** The last piece of a split is the text after the last separator (all of it without one). */
  lemma SplitLastPiece(s: string, c: char)
    ensures var parts := Split(s, c); parts[|parts| - 1] == s[LastIndexOf(s, c) + 1..]
  {
    if c in s {
      SplitAtLast(s, c);
    } else {
      SplitNoSeparator(s, c);
    }
  }

  predicate StartsWith(s: string, prefix: string)
  {
    |prefix| <= |s| && s[..|prefix|] == prefix
  }

  predicate EndsWith(s: string, suffix: string)
  {
    |suffix| <= |s| && s[|s| - |suffix|..] == suffix
  }

  /** ASCII lower-casing of one character (`toLowerCase` on the ASCII range). */
  function LowerChar(ch: char): char
  {
    if 'A' <= ch <= 'Z' then (ch as int + 32) as char else ch
  }

  function ToLower(s: string): (r: string)
    ensures |r| == |s|
    ensures forall i :: 0 <= i < |s| ==> r[i] == LowerChar(s[i])
  {
    seq(|s|, i requires 0 <= i < |s| => LowerChar(s[i]))
  }

  /** Characters of a regular-expression `\w` class. */
  predicate IsWordChar(ch: char)
  {
    ('a' <= ch <= 'z') || ('A' <= ch <= 'Z') || ('0' <= ch <= '9') || ch == '_'
  }

  /** Line terminators, which a regular-expression `.` does not match. */
  predicate IsLineTerminator(ch: char)
  {
    ch == '\n' || ch == '\r' || ch == '\U{2028}' || ch == '\U{2029}'
  }
}
