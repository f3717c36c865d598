/**
 * TreeSet<String> as the scanner uses it: a strictly increasing sequence of
 * names under String.compareTo, with add, addAll and the filtering loop that
 * both scanners run over their name sets.
 */
module SortedNames {
  import opened Text

  /** `a` sorts before `b` in a TreeSet<String>. */
  predicate Less(a: string, b: string) {
    CompareTo(a, b) < 0
  }

  lemma LessIrreflexive(a: string)
    ensures !Less(a, a)
  {
    CompareToZero(a, a);
  }

  lemma LessTotal(a: string, b: string)
    ensures a == b || Less(a, b) || Less(b, a)
  {
    CompareToZero(a, b);
    CompareToAntisymmetric(a, b);
  }

  lemma LessAsymmetric(a: string, b: string)
    requires Less(a, b)
    ensures !Less(b, a)
  {
    CompareToAntisymmetric(a, b);
  }

  function Elems(s: seq<string>): set<string> {
    set x | x in s
  }

  /** The iteration order of a TreeSet: each name before every later one. */
  predicate StrictlySorted(s: seq<string>) {
    forall i, j :: 0 <= i < j < |s| ==> Less(s[i], s[j])
  }

  /** TreeSet.add. */
  function {:induction false} Insert(s: seq<string>, x: string): (r: seq<string>)
    requires StrictlySorted(s)
    ensures StrictlySorted(r)
    ensures Elems(r) == Elems(s) + {x}
  {
    if s == [] then [x]
    else if x == s[0] then s
    else if Less(x, s[0]) then
      InsertBeforeHead(s, x);
      [x] + s
    else
      LessTotal(x, s[0]);
      var rest := Insert(s[1..], x);
      InsertAfterHead(s, x, rest);
      [s[0]] + rest
  }

  /** A name below the least element goes in front. */
  lemma InsertBeforeHead(s: seq<string>, x: string)
    requires StrictlySorted(s) && s != [] && Less(x, s[0])
    ensures StrictlySorted([x] + s)
  {
    forall j | 0 < j < |s| ensures Less(x, s[j]) {
      CompareToTransitive(x, s[0], s[j]);
    }
  }

  /** A name above the least element goes into the tail: the head stays first. */
  lemma InsertAfterHead(s: seq<string>, x: string, rest: seq<string>)
    requires StrictlySorted(s) && s != [] && Less(s[0], x)
    requires StrictlySorted(rest) && Elems(rest) == Elems(s[1..]) + {x}
    ensures StrictlySorted([s[0]] + rest)
    ensures Elems([s[0]] + rest) == Elems(s) + {x}
  {
    forall y | y in rest ensures Less(s[0], y) {
      assert y in Elems(rest);
      if y != x {
        assert y in s[1..];
        var j :| 0 <= j < |s| - 1 && s[1..][j] == y;
        assert s[j + 1] == y;
      }
    }
    var r := [s[0]] + rest;
    forall j | 0 < j < |r| ensures Less(r[0], r[j]) {
      assert r[j] == rest[j - 1] && rest[j - 1] in rest;
    }
    assert s == [s[0]] + s[1..];
    assert Elems(r) == {s[0]} + Elems(rest);
  }

  /** TreeSet.addAll of any collection of names. */
  function {:induction false} AddAll(s: seq<string>, t: seq<string>): (r: seq<string>)
    requires StrictlySorted(s)
    ensures StrictlySorted(r)
    ensures Elems(r) == Elems(s) + Elems(t)
    decreases |t|
  {
    if t == [] then s
    else
      var r := AddAll(Insert(s, t[0]), t[1..]);
      assert Elems(t) == {t[0]} + Elems(t[1..]);
      r
  }

  /** A sorted, duplicate-free sequence is determined by its elements. */
  lemma {:induction false} SortedUnique(a: seq<string>, b: seq<string>)
    requires StrictlySorted(a) && StrictlySorted(b)
    requires Elems(a) == Elems(b)
    ensures a == b
  {
    if a != [] {
      assert a[0] in Elems(b);
    }
    if b != [] {
      assert b[0] in Elems(a);
    }
    if a != [] && b != [] {
      // the first element of each is the least element of the common set
      if a[0] != b[0] {
        assert b[0] in Elems(a) && a[0] in Elems(b);
        assert b[0] in a && a[0] in b;
        var i :| 0 <= i < |a| && a[i] == b[0];
        var j :| 0 <= j < |b| && b[j] == a[0];
        assert i > 0 && j > 0;
        LessAsymmetric(a[0], a[i]);
      }
      assert Elems(a[1..]) == Elems(a) - {a[0]} by {
        forall k | 1 <= k < |a| ensures a[k] != a[0] {
          LessIrreflexive(a[0]);
        }
      }
      assert Elems(b[1..]) == Elems(b) - {b[0]} by {
        forall k | 1 <= k < |b| ensures b[k] != b[0] {
          LessIrreflexive(b[0]);
        }
      }
      SortedUnique(a[1..], b[1..]);
      assert a == [a[0]] + a[1..];
      assert b == [b[0]] + b[1..];
    }
  }

  /**
   * The filtering loop of ClassPathScanner and FileSystemScanner: a new
   * TreeSet holding exactly the names the predicate accepts.
   */
  method FilterResourceNames(resourceNames: seq<string>, accept: string -> bool) returns (filtered: seq<string>)
    ensures StrictlySorted(filtered)
    ensures Elems(filtered) == set n | n in resourceNames && accept(n)
  {
    filtered := [];
    var i := 0;
    while i < |resourceNames|
      invariant 0 <= i <= |resourceNames|
      invariant StrictlySorted(filtered)
      invariant Elems(filtered) == set n | n in resourceNames[..i] && accept(n)
    {
      var resourceName := resourceNames[i];
      if accept(resourceName) {
        filtered := Insert(filtered, resourceName);
      }
      assert resourceNames[..i + 1] == resourceNames[..i] + [resourceName];
      i := i + 1;
    }
    assert resourceNames[..i] == resourceNames;
  }
}
