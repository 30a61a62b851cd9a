/**
 * The .NET string and path operations the bundle-naming rules rely on,
 * with ordinal (culture-free) comparison and ASCII case mapping.
 */
module Strings {

  /** String.StartsWith: `prefix` is an initial segment of `s`. */
  predicate StartsWith(s: string, prefix: string)
  {
    |prefix| <= |s| && s[..|prefix|] == prefix
  }

  /** String.EndsWith: `suffix` is a final segment of `s`. */
  predicate EndsWith(s: string, suffix: string)
  {
    |suffix| <= |s| && s[|s| - |suffix|..] == suffix
  }

  /** `t` occurs in `s` starting at index `i`. */
  predicate OccursAt(s: string, t: string, i: int)
  {
    0 <= i && i + |t| <= |s| && s[i..i + |t|] == t
  }

  /** `t` occurs somewhere in `s`. */
  predicate Contains(s: string, t: string)
  {
    exists i :: 0 <= i <= |s| && OccursAt(s, t, i)
  }

  /** String.IndexOf(t) searching from index `k`: the first occurrence at or after `k`, or -1. */
  function IndexOfFrom(s: string, t: string, k: nat): (r: int)
    ensures r == -1 || (k <= r && OccursAt(s, t, r))
    ensures r == -1 ==> forall i :: k <= i ==> !OccursAt(s, t, i)
    ensures r != -1 ==> forall i :: k <= i < r ==> !OccursAt(s, t, i)
    decreases |s| - k
  {
    if k + |t| > |s| then -1
    else if OccursAt(s, t, k) then k
    else IndexOfFrom(s, t, k + 1)
  }

  /** String.IndexOf(t): the first index at which `t` occurs in `s`, or -1. */
  function IndexOf(s: string, t: string): (r: int)
    ensures r >= 0 <==> Contains(s, t)
    ensures !Contains(s, t) ==> r == -1
    ensures r >= 0 ==> OccursAt(s, t, r) && forall i :: 0 <= i < r ==> !OccursAt(s, t, i)
  {
    IndexOfFrom(s, t, 0)
  }

  /** Two prefixes of one string are comparable: one is a prefix of the other. */
  lemma PrefixesAreComparable(s: string, a: string, b: string)
    requires StartsWith(s, a) && StartsWith(s, b)
    ensures StartsWith(a, b) || StartsWith(b, a)
  {
    if |a| <= |b| {
      assert b[..|a|] == s[..|b|][..|a|] == s[..|a|];
    } else {
      assert a[..|b|] == s[..|a|][..|b|] == s[..|b|];
    }
  }

  /** Being a prefix is transitive. */
  lemma StartsWithTransitive(s: string, a: string, b: string)
    requires StartsWith(s, a) && StartsWith(a, b)
    ensures StartsWith(s, b)
  {
    assert s[..|b|] == s[..|a|][..|b|];
  }

  /** A prefix of `p` stays a prefix when something is appended to `p`. */
  lemma StartsWithAppend(p: string, q: string, x: string)
    requires StartsWith(p, x)
    ensures StartsWith(p + q, x)
  {
    assert (p + q)[..|x|] == p[..|x|];
  }

  /** An occurrence inside `p` is still an occurrence, at the same index, in `p + q`. */
  lemma OccursAtAppend(p: string, q: string, t: string, i: int)
    requires OccursAt(p, t, i)
    ensures OccursAt(p + q, t, i)
  {
    assert (p + q)[i..i + |t|] == p[i..i + |t|];
  }

  /** `root/rest` starts with `root`, and what follows the separator is `rest`. */
  lemma UnderRoot(root: string, rest: string)
    ensures StartsWith(root + "/" + rest, root)
    ensures (root + "/" + rest)[|root| + 1..] == rest
  {
    assert (root + "/" + rest)[..|root|] == root;
  }

  /** char.ToLower restricted to ASCII: upper-case Latin letters map to lower case. */
  function LowerChar(ch: char): (r: char)
    ensures !('A' <= r <= 'Z')
    ensures 'A' <= ch <= 'Z' ==> r as int == ch as int + 32
    ensures !('A' <= ch <= 'Z') ==> r == ch
  {
    if 'A' <= ch <= 'Z' then (ch as int + 32) as char else ch
  }

  /** String.ToLower (ASCII only). */
  function Lower(s: string): (r: string)
    ensures |r| == |s|
    ensures forall i :: 0 <= i < |s| ==> r[i] == LowerChar(s[i])
    ensures forall i :: 0 <= i < |r| ==> !('A' <= r[i] <= 'Z')
  {
    if s == [] then [] else [LowerChar(s[0])] + Lower(s[1..])
  }

  /** Path.GetFileName with '/' as the only separator: the text after the last '/'. */
  function FileName(path: string): (r: string)
    ensures '/' !in r
    ensures EndsWith(path, r)
    ensures |r| == |path| || path[|path| - |r| - 1] == '/'
  {
    if path == [] then []
    else if path[|path| - 1] == '/' then []
    else FileName(path[..|path| - 1]) + [path[|path| - 1]]
  }

  /** The text of `s` before its last '.'. */
  function BeforeLastDot(s: string): (r: string)
    requires '.' in s
    ensures StartsWith(s, r) && |r| < |s|
    ensures s[|r|] == '.' && '.' !in s[|r| + 1..]
  {
    if s[|s| - 1] == '.' then s[..|s| - 1]
    else
      assert '.' in s[..|s| - 1] by {
        var i :| 0 <= i < |s| && s[i] == '.';
        assert s[..|s| - 1][i] == '.';
      }
      var r := BeforeLastDot(s[..|s| - 1]);
      assert s[|r| + 1..] == s[..|s| - 1][|r| + 1..] + [s[|s| - 1]];
      r
  }

  /** Path.GetFileNameWithoutExtension: the file name cut at its last '.', if it has one. */
  function FileNameWithoutExtension(path: string): (r: string)
    ensures '/' !in r
    ensures StartsWith(FileName(path), r)
    ensures '.' !in FileName(path) ==> r == FileName(path)
    ensures '.' in FileName(path) ==>
              |r| < |FileName(path)| && FileName(path)[|r|] == '.' && '.' !in FileName(path)[|r| + 1..]
  {
    var name := FileName(path);
    if '.' in name then BeforeLastDot(name) else name
  }

  /** s.Split('/')[0]: the text of `s` up to its first '/'. */
  function FirstSegment(s: string): (r: string)
    ensures '/' !in r
    ensures StartsWith(s, r)
    ensures |r| == |s| || s[|r|] == '/'
  {
    if s == [] || s[0] == '/' then [] else [s[0]] + FirstSegment(s[1..])
  }

  /** The file name of `dir/name` is `name` when `name` holds no '/'. */
  lemma {:induction false} FileNameAfterSlash(dir: string, name: string)
    requires '/' !in name
    ensures FileName(dir + "/" + name) == name
  {
    var p := dir + "/" + name;
    if name != [] {
      var init := name[..|name| - 1];
      assert p[..|p| - 1] == dir + "/" + init;
      assert '/' !in init by {
        forall i | 0 <= i < |init| ensures init[i] != '/' { assert init[i] == name[i]; }
      }
      FileNameAfterSlash(dir, init);
      assert init + [name[|name| - 1]] == name;
    }
  }

  /** Cutting `stem.ext` at its last '.' gives `stem` when `ext` holds no '.'. */
  lemma {:induction false} BeforeLastDotOfExtension(stem: string, ext: string)
    requires '.' !in ext
    ensures BeforeLastDot(stem + "." + ext) == stem
  {
    var s := stem + "." + ext;
    if ext == [] {
      assert s[..|s| - 1] == stem;
    } else {
      var init := ext[..|ext| - 1];
      assert s[..|s| - 1] == stem + "." + init;
      assert '.' !in init by {
        forall i | 0 <= i < |init| ensures init[i] != '.' { assert init[i] == ext[i]; }
      }
      BeforeLastDotOfExtension(stem, init);
    }
  }

  /** A character absent from both parts of `a.b` other than '.' is absent from `a.b`. */
  lemma NotInDotted(a: string, b: string, ch: char)
    requires ch != '.' && ch !in a && ch !in b
    ensures ch !in a + "." + b
  {
    var s := a + "." + b;
    forall i | 0 <= i < |s| ensures s[i] != ch {
      if i < |a| { assert s[i] == a[i]; }
      else if i > |a| { assert s[i] == b[i - |a| - 1]; }
    }
  }

  /** The file name without extension of `dir/stem.ext`. */
  lemma FileNameWithoutExtensionOf(dir: string, stem: string, ext: string)
    requires '/' !in stem && '/' !in ext && '.' !in ext
    ensures FileNameWithoutExtension(dir + "/" + stem + "." + ext) == stem
  {
    var name := stem + "." + ext;
    NotInDotted(stem, ext, '/');
    assert dir + "/" + stem + "." + ext == dir + "/" + name;
    FileNameAfterSlash(dir, name);
    assert name[|stem|] == '.';
    BeforeLastDotOfExtension(stem, ext);
  }

  /** The first segment of `head/tail` is `head` when `head` holds no '/'. */
  lemma {:induction false} FirstSegmentBeforeSlash(head: string, tail: string)
    requires '/' !in head
    ensures FirstSegment(head + "/" + tail) == head
  {
    var s := head + "/" + tail;
    if head != [] {
      assert s[1..] == head[1..] + "/" + tail;
      assert '/' !in head[1..] by {
        forall i | 0 <= i < |head[1..]| ensures head[1..][i] != '/' { assert head[1..][i] == head[i + 1]; }
      }
      FirstSegmentBeforeSlash(head[1..], tail);
    }
  }

  function DigitChar(d: nat): char
    requires d < 10
  {
    ('0' as int + d) as char
  }

  predicate IsDigit(ch: char)
  {
    '0' <= ch <= '9'
  }

  /** int.ToString for a non-negative number: its decimal digits, no leading zero. */
  function Decimal(n: nat): (r: string)
    ensures |r| >= 1
    ensures forall i :: 0 <= i < |r| ==> IsDigit(r[i])
    ensures r[0] == '0' ==> n == 0
    ensures n == 0 ==> r == "0"
    ensures |r| > 1 ==> r[0] != '0'
  {
    if n < 10 then [DigitChar(n)] else Decimal(n / 10) + [DigitChar(n % 10)]
  }

  /** The number a string of decimal digits denotes. */
  function DecimalValue(s: string): nat
    requires forall i :: 0 <= i < |s| ==> IsDigit(s[i])
  {
    if s == [] then 0
    else
      assert IsDigit(s[|s| - 1]);
      DecimalValue(s[..|s| - 1]) * 10 + (s[|s| - 1] as int - '0' as int)
  }

  /** Reading back the decimal text of `n` gives `n`. */
  lemma {:induction false} DecimalRoundTrip(n: nat)
    ensures DecimalValue(Decimal(n)) == n
  {
    if n >= 10 {
      var d := Decimal(n / 10);
      assert (d + [DigitChar(n % 10)])[..|d|] == d;
      DecimalRoundTrip(n / 10);
    }
  }
}
