/**
 * The java.lang.String operations the scanner uses, over seq<char>:
 * trim, replace, startsWith, endsWith, indexOf, lastIndexOf, compareTo and hashCode.
 */
module Text {

  /** String.trim removes every leading and trailing char whose code is at most U+0020. */
  predicate IsTrimmable(c: char) {
    c <= ' '
  }

  /** Drops the leading trimmable chars. */
  function TrimStart(s: string): (r: string)
    ensures |r| <= |s|
    ensures r == [] || !IsTrimmable(r[0])
    ensures s == [] || !IsTrimmable(s[0]) ==> r == s
  {
    if s != [] && IsTrimmable(s[0]) then TrimStart(s[1..]) else s
  }

  /** Drops the trailing trimmable chars. */
  function TrimEnd(s: string): (r: string)
    ensures |r| <= |s| && (r != [] ==> r[0] == s[0])
    ensures r == [] || !IsTrimmable(r[|r| - 1])
    ensures s == [] || !IsTrimmable(s[|s| - 1]) ==> r == s
  {
    if s != [] && IsTrimmable(s[|s| - 1]) then TrimEnd(s[..|s| - 1]) else s
  }

  /** String.trim: neither end of the result is trimmable, and an input with no trimmable end is kept. */
  function Trim(s: string): (r: string)
    ensures |r| <= |s|
    ensures r == [] || (!IsTrimmable(r[0]) && !IsTrimmable(r[|r| - 1]))
    ensures s == [] || (!IsTrimmable(s[0]) && !IsTrimmable(s[|s| - 1])) ==> r == s
  {
    TrimEnd(TrimStart(s))
  }

  /** r is the stretch of s starting at i, and every char of s outside that stretch is trimmable. */
  ghost predicate TrimmedAt(s: string, i: nat, r: string)
  {
    && i + |r| <= |s|
    && r == s[i..i + |r|]
    && (forall k :: 0 <= k < i ==> IsTrimmable(s[k]))
    && (forall k :: i + |r| <= k < |s| ==> IsTrimmable(s[k]))
  }

  /** TrimStart keeps a suffix of its input and drops only trimmable chars. */
  lemma {:induction false} TrimStartSuffix(s: string)
    ensures TrimStart(s) == s[|s| - |TrimStart(s)|..]
    ensures forall k :: 0 <= k < |s| - |TrimStart(s)| ==> IsTrimmable(s[k])
  {
    if s != [] && IsTrimmable(s[0]) {
      TrimStartSuffix(s[1..]);
      assert s[1..][|s| - 1 - |TrimStart(s)|..] == s[|s| - |TrimStart(s)|..];
    }
  }

  /** TrimEnd keeps a prefix of its input and drops only trimmable chars. */
  lemma {:induction false} TrimEndPrefix(s: string)
    ensures TrimEnd(s) == s[..|TrimEnd(s)|]
    ensures forall k :: |TrimEnd(s)| <= k < |s| ==> IsTrimmable(s[k])
  {
    if s != [] && IsTrimmable(s[|s| - 1]) {
      TrimEndPrefix(s[..|s| - 1]);
      assert s[..|s| - 1][..|TrimEnd(s)|] == s[..|TrimEnd(s)|];
    }
  }

  /**
   * String.trim removes only trimmable chars, and only at the two ends: its
   * result is a stretch of the input with nothing but trimmable chars on
   * either side. With Trim's own contract (no trimmable char at either end of
   * the result) this fixes the result.
   */
  lemma TrimIsStretch(s: string)
    ensures exists i: nat :: TrimmedAt(s, i, Trim(s))
  {
    var t := TrimStart(s);
    TrimStartSuffix(s);
    TrimEndPrefix(t);
    StretchOfSuffixPrefix(s, t, TrimEnd(t));
    assert TrimmedAt(s, |s| - |t|, Trim(s));
  }

  /** A prefix r of a suffix t of s, with only trimmable chars dropped at each step, is a trimmed stretch of s. */
  lemma StretchOfSuffixPrefix(s: string, t: string, r: string)
    requires |t| <= |s| && |r| <= |t|
    requires t == s[|s| - |t|..] && r == t[..|r|]
    requires forall k :: 0 <= k < |s| - |t| ==> IsTrimmable(s[k])
    requires forall k :: |r| <= k < |t| ==> IsTrimmable(t[k])
    ensures TrimmedAt(s, |s| - |t|, r)
  {
    var i := |s| - |t|;
    assert r == s[i..i + |r|];
    forall k | i + |r| <= k < |s| ensures IsTrimmable(s[k]) {
      assert t[k - i] == s[k];
    }
  }

  /** String.replace(char, char): every occurrence of `from` becomes `to`. */
  function Replace(s: string, from: char, to: char): (r: string)
    ensures |r| == |s|
    ensures forall i :: 0 <= i < |s| ==> r[i] == if s[i] == from then to else s[i]
  {
    seq(|s|, i requires 0 <= i < |s| => if s[i] == from then to else s[i])
  }

  lemma ReplaceAppend(a: string, b: string, from: char, to: char)
    ensures Replace(a + b, from, to) == Replace(a, from, to) + Replace(b, from, to)
  {
  }

  lemma ReplaceAbsent(s: string, from: char, to: char)
    requires from !in s
    ensures Replace(s, from, to) == s
  {
  }

  predicate StartsWith(s: string, prefix: string) {
    |prefix| <= |s| && s[..|prefix|] == prefix
  }

  predicate EndsWith(s: string, suffix: string) {
    |suffix| <= |s| && s[|s| - |suffix|..] == suffix
  }

  /** A prefix of a prefix is a prefix. */
  lemma StartsWithTransitive(s: string, t: string, prefix: string)
    requires StartsWith(s, t) && StartsWith(t, prefix)
    ensures StartsWith(s, prefix)
  {
    assert s[..|prefix|] == t[..|prefix|];
  }

  lemma StartsWithChar(s: string, c: char)
    ensures StartsWith(s, [c]) <==> s != [] && s[0] == c
  {
    if s != [] {
      assert s[..1] == [s[0]];
    }
  }

  lemma EndsWithChar(s: string, c: char)
    ensures EndsWith(s, [c]) <==> s != [] && s[|s| - 1] == c
  {
    if s != [] {
      assert s[|s| - 1..] == [s[|s| - 1]];
    }
  }

  /** String.indexOf(char): the first position of `c`, or -1. */
  function IndexOf(s: string, c: char): (r: int)
    ensures -1 <= r < |s|
    ensures r == -1 <==> c !in s
    ensures 0 <= r ==> s[r] == c && c !in s[..r]
  {
    if s == [] then -1
    else if s[0] == c then 0
    else
      var k := IndexOf(s[1..], c);
      if k == -1 then -1 else k + 1
  }

  /** String.lastIndexOf(char): the last position of `c`, or -1. */
  function LastIndexOf(s: string, c: char): (r: int)
    ensures -1 <= r < |s|
    ensures r == -1 <==> c !in s
    ensures 0 <= r ==> s[r] == c && c !in s[r + 1..]
  {
    if s == [] then -1
    else if s[|s| - 1] == c then |s| - 1
    else LastIndexOf(s[..|s| - 1], c)
  }

  /**
   * `s.substring(s.lastIndexOf('/') + 1)`: the last '/'-separated segment of a
   * resource name, or the whole name when it has no '/'.
   */
  function AfterLastSlash(s: string): (r: string)
    ensures |r| <= |s| && r == s[|s| - |r|..]
    ensures '/' !in r
    ensures |r| < |s| ==> s[|s| - |r| - 1] == '/'
  {
    s[LastIndexOf(s, '/') + 1..]
  }

  /** A name made of a directory part, a '/', and a segment without '/' ends in that segment. */
  lemma AfterLastSlashOfPath(dir: string, file: string)
    requires '/' !in file
    ensures AfterLastSlash(dir + "/" + file) == file
  {
    var s := dir + "/" + file;
    assert s[|dir|] == '/' && s[|dir| + 1..] == file;
  }

  /** The last '/' of a name made of a directory part, a '/', and a segment without '/' ends the directory part. */
  lemma LastSlashOfPath(dir: string, file: string)
    requires '/' !in file
    ensures LastIndexOf(dir + "/" + file, '/') == |dir|
  {
    var s := dir + "/" + file;
    assert s[|dir|] == '/' && s[|dir| + 1..] == file;
  }

  /**
   * String.compareTo: the difference of the first differing chars, or of the
   * lengths when one string is a prefix of the other. Java compares UTF-16
   * code units; here each char is one element of the sequence.
   */
  function CompareTo(a: string, b: string): (r: int) {
    if a == [] || b == [] then |a| - |b|
    else if a[0] != b[0] then a[0] as int - b[0] as int
    else CompareTo(a[1..], b[1..])
  }

  lemma {:induction false} CompareToZero(a: string, b: string)
    ensures CompareTo(a, b) == 0 <==> a == b
  {
    if a != [] && b != [] && a[0] == b[0] {
      CompareToZero(a[1..], b[1..]);
      if a[1..] == b[1..] {
        assert a == [a[0]] + a[1..];
        assert b == [b[0]] + b[1..];
      }
    }
  }

  lemma {:induction false} CompareToAntisymmetric(a: string, b: string)
    ensures CompareTo(a, b) == -CompareTo(b, a)
  {
    if a != [] && b != [] && a[0] == b[0] {
      CompareToAntisymmetric(a[1..], b[1..]);
    }
  }

  lemma {:induction false} CompareToTransitive(a: string, b: string, c: string)
    requires CompareTo(a, b) < 0 && CompareTo(b, c) < 0
    ensures CompareTo(a, c) < 0
  {
    if a != [] && b != [] && c != [] && a[0] == b[0] && b[0] == c[0] {
      CompareToTransitive(a[1..], b[1..], c[1..]);
    }
  }

  /** The string of each element, in order. */
  function MapToStrings<T>(xs: seq<T>, f: T -> string): (r: seq<string>)
    ensures |r| == |xs|
    ensures forall i :: 0 <= i < |xs| ==> r[i] == f(xs[i])
  {
    seq(|xs|, i requires 0 <= i < |xs| => f(xs[i]))
  }

  const HashModulus: int := 0x1_0000_0000

  /**
   * String.hashCode: h = 31 * h + c over the chars in order, in 32-bit
   * two's-complement arithmetic; the result is given as its unsigned bit pattern.
   */
  function HashCode(s: string): (h: int)
    ensures 0 <= h < HashModulus
  {
    if s == [] then 0 else (31 * HashCode(s[..|s| - 1]) + s[|s| - 1] as int) % HashModulus
  }
}
