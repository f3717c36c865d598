/**
 * Location: a starting point to scan from, written "<prefix>:<path>" with the
 * prefix "classpath:" (the default) or "filesystem:".
 */
module Locations {
  import opened Wrappers
  import opened Text

  const ClassPathPrefix: string := "classpath:"
  const FileSystemPrefix: string := "filesystem:"

  /** A parsed location; equality, ordering and hashing go through the descriptor. */
  datatype Location = Location(prefix: string, path: string) {

    predicate IsClassPath() {
      prefix == ClassPathPrefix
    }

    predicate IsFileSystem() {
      prefix == FileSystemPrefix
    }

    /** The complete descriptor: prefix followed by path. */
    function Descriptor(): string {
      prefix + path
    }

    function ToString(): string {
      Descriptor()
    }

    predicate Equals(other: Location) {
      Descriptor() == other.Descriptor()
    }

    function CompareTo(other: Location): int {
      Text.CompareTo(Descriptor(), other.Descriptor())
    }

    function HashCode(): int {
      Text.HashCode(Descriptor())
    }
  }

  /** `before` loses exactly one leading '/', when it has one. */
  predicate LeadingSlashDropped(before: string, after: string) {
    if StartsWith(before, "/") then before == "/" + after else before == after
  }

  /** `before` loses exactly one trailing '/', when it has one. */
  predicate TrailingSlashDropped(before: string, after: string) {
    if EndsWith(before, "/") then before == after + "/" else before == after
  }

  function StripLeadingSlash(s: string): (r: string)
    ensures LeadingSlashDropped(s, r)
  {
    if StartsWith(s, "/") then s[1..] else s
  }

  function StripTrailingSlash(s: string): (r: string)
    ensures TrailingSlashDropped(s, r)
  {
    if EndsWith(s, "/") then s[..|s| - 1] else s
  }

  /** The descriptor after trimming and turning every '\' into '/'. */
  function Normalize(descriptor: string): (n: string)
    ensures '\\' !in n
  {
    Replace(Trim(descriptor), '\\', '/')
  }

  /** The prefix the constructor splits off a normalised descriptor. */
  function PrefixOf(normalized: string): string {
    var i := IndexOf(normalized, ':');
    if i >= 0 then normalized[..i + 1] else ClassPathPrefix
  }

  /** What follows the prefix in a normalised descriptor. */
  function RestOf(normalized: string): string {
    var i := IndexOf(normalized, ':');
    if i >= 0 then normalized[i + 1..] else normalized
  }

  /**
   * The Location constructor. It accepts a descriptor exactly when its
   * normalised form has no ':' or starts with "classpath:" or "filesystem:",
   * and it is a classpath location exactly in the first two cases; otherwise
   * it throws the IllegalStateException naming the normalised descriptor.
   */
  function Parse(descriptor: string): (r: Result<Location>)
    ensures var n := Normalize(descriptor);
      r.Ok? <==> ':' !in n || StartsWith(n, ClassPathPrefix) || StartsWith(n, FileSystemPrefix)
    ensures r.Err? ==> r.error == UnknownLocationPrefix(Normalize(descriptor))
    ensures r.Ok? ==> r.value.IsClassPath() || r.value.IsFileSystem()
    ensures var n := Normalize(descriptor);
      r.Ok? ==> (r.value.IsClassPath() <==> ':' !in n || StartsWith(n, ClassPathPrefix))
    ensures r.Ok? ==> '\\' !in r.value.path
    ensures r.Ok? && r.value.IsClassPath() ==> '.' !in r.value.path
  {
    NormalizedAcceptsExactly(Normalize(descriptor));
    ParseNormalized(Normalize(descriptor))
  }

  /** The path of a classpath location: dots become '/', then one leading and one trailing '/' go. */
  function ClassPathPath(rest: string): (path: string)
    requires '\\' !in rest
    ensures '\\' !in path && '.' !in path
  {
    var slashed := Replace(rest, '.', '/');
    assert '.' !in slashed && '\\' !in slashed;
    StripTrailingSlash(StripLeadingSlash(slashed))
  }

  /** The path of a filesystem location: one trailing '/' goes. */
  function FileSystemPath(rest: string): (path: string)
    requires '\\' !in rest
    ensures '\\' !in path
  {
    StripTrailingSlash(rest)
  }

  /** The constructor after its first line has trimmed the descriptor and replaced '\' by '/'. */
  function ParseNormalized(normalized: string): (r: Result<Location>)
    requires '\\' !in normalized
    ensures r.Err? <==> PrefixOf(normalized) != ClassPathPrefix && PrefixOf(normalized) != FileSystemPrefix
    ensures r.Err? ==> r.error == UnknownLocationPrefix(normalized)
    ensures r.Ok? ==> r.value.prefix == PrefixOf(normalized)
    ensures r.Ok? ==> '\\' !in r.value.path
    ensures r.Ok? && r.value.IsClassPath() ==> '.' !in r.value.path
  {
    var prefix := PrefixOf(normalized);
    var rest := RestOf(normalized);
    assert '\\' !in rest;
    if prefix == ClassPathPrefix then Ok(Location(prefix, ClassPathPath(rest)))
    else if prefix == FileSystemPrefix then Ok(Location(prefix, FileSystemPath(rest)))
    else Err(UnknownLocationPrefix(normalized))
  }

  /** A normalised descriptor that starts with a known prefix splits right after that prefix. */
  lemma SplitAtKnownPrefix(n: string, p: string)
    requires p == ClassPathPrefix || p == FileSystemPrefix
    requires StartsWith(n, p)
    ensures PrefixOf(n) == p && RestOf(n) == n[|p|..]
  {
    assert n[|p| - 1] == ':';
    assert n[..|p| - 1] == p[..|p| - 1];
    assert ':' !in p[..|p| - 1];
    assert IndexOf(n, ':') == |p| - 1;
  }

  /** Normalisation leaves alone a descriptor that trim leaves alone and that has no '\'. */
  lemma NormalizeIdentity(d: string)
    requires Trim(d) == d && '\\' !in d
    ensures Normalize(d) == d
  {
    ReplaceAbsent(d, '\\', '/');
  }

  /** Without a ':' the whole normalised descriptor is a classpath path. */
  lemma SplitWithoutColon(n: string)
    requires ':' !in n
    ensures PrefixOf(n) == ClassPathPrefix && RestOf(n) == n
  {
  }

  /**
   * After normalisation the constructor accepts exactly the descriptors with
   * no ':' or with a known prefix, and makes a classpath location of the first
   * two kinds.
   */
  lemma NormalizedAcceptsExactly(n: string)
    requires '\\' !in n
    ensures ParseNormalized(n).Ok? <==> ':' !in n || StartsWith(n, ClassPathPrefix) || StartsWith(n, FileSystemPrefix)
    ensures ParseNormalized(n).Ok? ==>
      (ParseNormalized(n).value.IsClassPath() <==> ':' !in n || StartsWith(n, ClassPathPrefix))
  {
    if ':' !in n {
      SplitWithoutColon(n);
    } else if StartsWith(n, ClassPathPrefix) {
      SplitAtKnownPrefix(n, ClassPathPrefix);
    } else if StartsWith(n, FileSystemPrefix) {
      SplitAtKnownPrefix(n, FileSystemPrefix);
    } else {
      var i := IndexOf(n, ':');
      assert PrefixOf(n) == n[..i + 1];
    }
  }

  /**
   * A filesystem location keeps its dots and any leading '/', and loses exactly
   * one trailing '/'.
   */
  lemma ParseFileSystemPath(descriptor: string)
    requires StartsWith(Normalize(descriptor), FileSystemPrefix)
    ensures Parse(descriptor).Ok? && Parse(descriptor).value.IsFileSystem()
    ensures TrailingSlashDropped(Normalize(descriptor)[|FileSystemPrefix|..], Parse(descriptor).value.path)
  {
    SplitAtKnownPrefix(Normalize(descriptor), FileSystemPrefix);
  }

  /**
   * A classpath location has every '.' turned into '/', then loses exactly one
   * leading '/' and exactly one trailing '/'.
   */
  lemma ParseClassPathPath(descriptor: string)
    requires var n := Normalize(descriptor); StartsWith(n, ClassPathPrefix) || ':' !in n
    ensures Parse(descriptor).Ok? && Parse(descriptor).value.IsClassPath()
    ensures var n := Normalize(descriptor);
      var rest := if ':' in n then n[|ClassPathPrefix|..] else n;
      var dotted := Replace(rest, '.', '/');
      var path := Parse(descriptor).value.path;
      if StartsWith(dotted, "/") then TrailingSlashDropped(dotted[1..], path) else TrailingSlashDropped(dotted, path)
  {
    var n := Normalize(descriptor);
    if ':' in n {
      SplitAtKnownPrefix(n, ClassPathPrefix);
    } else {
      SplitWithoutColon(n);
    }
  }

  /** A classpath path without '.', '\' and slashes at either end is its own classpath path. */
  lemma ClassPathPathIdentity(p: string)
    requires '.' !in p && '\\' !in p
    requires p == [] || (p[0] != '/' && p[|p| - 1] != '/')
    ensures ClassPathPath(p) == p
  {
    ReplaceAbsent(p, '.', '/');
    StartsWithChar(p, '/');
    EndsWithChar(p, '/');
  }

  /** A filesystem path without '\' and without a trailing slash is its own filesystem path. */
  lemma FileSystemPathIdentity(p: string)
    requires '\\' !in p
    requires p == [] || p[|p| - 1] != '/'
    ensures FileSystemPath(p) == p
  {
    EndsWithChar(p, '/');
  }

  /** A normalised descriptor with a known prefix parses to that prefix and the path made from what follows it. */
  lemma ParseNormalizedKnownPrefix(n: string, p: string)
    requires p == ClassPathPrefix || p == FileSystemPrefix
    requires StartsWith(n, p) && '\\' !in n
    ensures ParseNormalized(n) == Ok(Location(p, if p == ClassPathPrefix then ClassPathPath(n[|p|..]) else FileSystemPath(n[|p|..])))
  {
    SplitAtKnownPrefix(n, p);
  }

  /** The descriptor of a location with a "clean" path is its own normal form. */
  lemma DescriptorIsNormal(loc: Location)
    requires loc.prefix == ClassPathPrefix || loc.prefix == FileSystemPrefix
    requires '\\' !in loc.path
    requires loc.path != [] ==> !IsTrimmable(loc.path[|loc.path| - 1])
    ensures Normalize(loc.Descriptor()) == loc.Descriptor()
  {
    var d := loc.Descriptor();
    assert d[0] == loc.prefix[0];
    assert d[|d| - 1] == if loc.path == [] then ':' else loc.path[|loc.path| - 1];
    assert Trim(d) == d;
    assert '\\' !in d;
    NormalizeIdentity(d);
  }

  /**
   * A location whose path has no '\', does not end in '/' or in a char that
   * trim removes and, for a classpath location, has no '.' and does not start
   * with '/', is what its own descriptor parses to.
   */
  lemma ParseCleanDescriptor(loc: Location)
    requires loc.prefix == ClassPathPrefix || loc.prefix == FileSystemPrefix
    requires '\\' !in loc.path
    requires loc.path != [] ==> loc.path[|loc.path| - 1] != '/' && !IsTrimmable(loc.path[|loc.path| - 1])
    requires loc.IsClassPath() ==> '.' !in loc.path && (loc.path != [] ==> loc.path[0] != '/')
    ensures Parse(loc.Descriptor()) == Ok(loc)
  {
    var d := loc.Descriptor();
    DescriptorIsNormal(loc);
    assert d[..|loc.prefix|] == loc.prefix && d[|loc.prefix|..] == loc.path;
    ParseNormalizedKnownPrefix(d, loc.prefix);
    if loc.IsClassPath() {
      ClassPathPathIdentity(loc.path);
    } else {
      FileSystemPathIdentity(loc.path);
    }
  }

  /**
   * Parsing the descriptor of a parsed location gives the same location back,
   * provided its path does not end in '/' or in a char that trim removes and,
   * for a classpath location, does not start with '/'. The side conditions are
   * needed: see NotIdempotentOnDoubleSlash.
   */
  lemma ParseDescriptorRoundTrip(descriptor: string)
    requires Parse(descriptor).Ok?
    requires var loc := Parse(descriptor).value;
      && (loc.path != [] ==> loc.path[|loc.path| - 1] != '/' && !IsTrimmable(loc.path[|loc.path| - 1]))
      && (loc.IsClassPath() && loc.path != [] ==> loc.path[0] != '/')
    ensures Parse(Parse(descriptor).value.Descriptor()) == Parse(descriptor)
  {
    ParseCleanDescriptor(Parse(descriptor).value);
  }

  /** A descriptor without ':' that normalisation leaves alone is a classpath location. */
  lemma ParseWithoutColon(d: string)
    requires Normalize(d) == d && ':' !in d
    ensures Parse(d) == Ok(Location(ClassPathPrefix, ClassPathPath(d)))
  {
    SplitWithoutColon(d);
  }

  lemma DoubleSlashTrimmed(p: string)
    requires p != [] && !IsTrimmable(p[|p| - 1])
    ensures Trim("//" + p) == "//" + p
  {
    var d := "//" + p;
    assert d[|d| - 1] == p[|p| - 1];
    assert d[0] == '/';
  }

  lemma DoubleSlashNormal(p: string)
    requires p != [] && !IsTrimmable(p[|p| - 1]) && '\\' !in p
    ensures Normalize("//" + p) == "//" + p
  {
    DoubleSlashTrimmed(p);
    assert '\\' !in "//" + p;
    NormalizeIdentity("//" + p);
  }

  lemma DoubleSlashClassPathPath(p: string)
    requires p != [] && p[|p| - 1] != '/' && '.' !in p && '\\' !in p
    ensures ClassPathPath("//" + p) == "/" + p
  {
    var d := "//" + p;
    assert '.' !in d;
    ReplaceAbsent(d, '.', '/');
    StartsWithChar(d, '/');
    assert StripLeadingSlash(d) == "/" + p;
    EndsWithChar("/" + p, '/');
  }

  /** "//" followed by a plain path p is a classpath location whose path keeps one leading '/'. */
  lemma ParseDoubleSlash(p: string)
    requires p != [] && p[|p| - 1] != '/' && !IsTrimmable(p[|p| - 1])
    requires '.' !in p && '\\' !in p && ':' !in p
    ensures Parse("//" + p) == Ok(Location(ClassPathPrefix, "/" + p))
  {
    DoubleSlashNormal(p);
    assert ':' !in "//" + p;
    ParseWithoutColon("//" + p);
    DoubleSlashClassPathPath(p);
  }

  lemma LeadingSlashClassPathPath(p: string)
    requires p != [] && p[|p| - 1] != '/' && '.' !in p && '\\' !in p
    ensures ClassPathPath("/" + p) == p
  {
    var d := "/" + p;
    assert '.' !in d;
    ReplaceAbsent(d, '.', '/');
    StartsWithChar(d, '/');
    assert StripLeadingSlash(d) == p;
    EndsWithChar(p, '/');
  }

  /** "classpath:/" followed by a plain path p is the classpath location of p. */
  lemma ParseClassPathLeadingSlash(p: string)
    requires p != [] && p[|p| - 1] != '/' && !IsTrimmable(p[|p| - 1])
    requires '.' !in p && '\\' !in p
    ensures Parse(Location(ClassPathPrefix, "/" + p).Descriptor()) == Ok(Location(ClassPathPrefix, p))
  {
    var loc := Location(ClassPathPrefix, "/" + p);
    var d := loc.Descriptor();
    assert loc.path[|loc.path| - 1] == p[|p| - 1];
    DescriptorIsNormal(loc);
    assert d[..|ClassPathPrefix|] == ClassPathPrefix && d[|ClassPathPrefix|..] == "/" + p;
    ParseNormalizedKnownPrefix(d, ClassPathPrefix);
    LeadingSlashClassPathPath(p);
  }

  /**
   * Re-parsing is not idempotent: "//" followed by a plain path p parses to the
   * path "/p", and the descriptor of that location parses to the path p.
   */
  lemma NotIdempotentOnDoubleSlash(p: string)
    requires p != [] && p[|p| - 1] != '/' && !IsTrimmable(p[|p| - 1])
    requires '.' !in p && '\\' !in p && ':' !in p
    ensures Parse("//" + p).Ok?
    ensures Parse(Parse("//" + p).value.Descriptor()) == Ok(Location(ClassPathPrefix, p))
    ensures Parse(Parse("//" + p).value.Descriptor()) != Parse("//" + p)
  {
    ParseDoubleSlash(p);
    ParseClassPathLeadingSlash(p);
    assert "/" + p != p by {
      assert |"/" + p| != |p|;
    }
  }

  /** Two parsed locations have the same descriptor exactly when they are the same location. */
  lemma DescriptorDeterminesLocation(d1: string, d2: string)
    requires Parse(d1).Ok? && Parse(d2).Ok?
    ensures Parse(d1).value.Equals(Parse(d2).value) <==> Parse(d1) == Parse(d2)
  {
    var a, b := Parse(d1).value, Parse(d2).value;
    if a.Descriptor() == b.Descriptor() {
      assert a.Descriptor()[0] == a.prefix[0] && b.Descriptor()[0] == b.prefix[0];
      assert a.prefix == b.prefix;
      assert a.path == a.Descriptor()[|a.prefix|..];
      assert b.path == b.Descriptor()[|b.prefix|..];
    }
  }

  /** compareTo is 0 exactly when equals holds, and swapping the operands flips its sign. */
  lemma CompareToConsistentWithEquals(a: Location, b: Location)
    ensures a.CompareTo(b) == 0 <==> a.Equals(b)
    ensures a.CompareTo(b) == -b.CompareTo(a)
  {
    CompareToZero(a.Descriptor(), b.Descriptor());
    CompareToAntisymmetric(a.Descriptor(), b.Descriptor());
  }

  /** LocationTest: a descriptor without prefix is a classpath location. */
  lemma ParseDefaultsToClassPath(d: string)
    requires d == "db/migration"
    ensures Parse(d) == Ok(Location(ClassPathPrefix, d))
    ensures Parse(d).value.Descriptor() == ClassPathPrefix + d
  {
    DbMigrationChars(d);
    assert Trim(d) == d;
    NormalizeIdentity(d);
    ParseWithoutColon(d);
    ClassPathPathIdentity(d);
  }

  /** The chars of the example path that the constructor treats specially. */
  lemma DbMigrationChars(d: string)
    requires d == "db/migration"
    ensures '\\' !in d && ':' !in d && '.' !in d
    ensures d[0] == 'd' && d[|d| - 1] == 'n'
  {
  }

  /** LocationTest: a filesystem location keeps its leading '/'. */
  lemma ParseFileSystemAbsolute()
    ensures Parse(FileSystemPrefix + "/db/migration") == Ok(Location(FileSystemPrefix, "/db/migration"))
  {
    var loc := Location(FileSystemPrefix, "/db/migration");
    assert '\\' !in loc.path;
    ParseCleanDescriptor(loc);
  }
}
