/**
 * OsgiClassPathLocationScanner: the resource names under a location inside an
 * OSGi bundle, taken from Bundle.findEntries.
 */
module OsgiScanner {
  import opened Wrappers
  import opened Text
  import opened SortedNames
  import opened Platform

  predicate IsDigit(c: char) {
    '0' <= c <= '9'
  }

  /** The longest run of decimal digits at the start of `s` (what "^\d+" finds). */
  function LeadingDigits(s: string): (digits: string)
    ensures |digits| <= |s| && digits == s[..|digits|]
    ensures forall i :: 0 <= i < |digits| ==> IsDigit(digits[i])
    ensures |digits| < |s| ==> !IsDigit(s[|digits|])
  {
    if s != [] && IsDigit(s[0]) then [s[0]] + LeadingDigits(s[1..]) else []
  }

  /** The value of a string of decimal digits. */
  function DigitsValue(digits: string): nat
    requires forall i :: 0 <= i < |digits| ==> IsDigit(digits[i])
  {
    if digits == [] then 0
    else
      var last := digits[|digits| - 1];
      assert IsDigit(last);
      10 * DigitsValue(digits[..|digits| - 1]) + (last as int - '0' as int)
  }

  /** The decimal digits of n, most significant first, without leading zeros. */
  function DecimalString(n: nat): (s: string)
    ensures s != [] && forall i :: 0 <= i < |s| ==> IsDigit(s[i])
  {
    if n < 10 then [('0' as int + n) as char]
    else DecimalString(n / 10) + [('0' as int + n % 10) as char]
  }

  lemma {:induction false} DigitsValueOfDecimalString(n: nat)
    ensures DigitsValue(DecimalString(n)) == n
  {
    if n >= 10 {
      DigitsValueOfDecimalString(n / 10);
      var s := DecimalString(n);
      assert s[..|s| - 1] == DecimalString(n / 10);
    }
  }

  /**
   * bundleId: the value of the leading digit run of the URL host; a host that
   * does not start with a digit is the IllegalArgumentException.
   */
  function BundleId(host: string): (r: Result<nat>)
    ensures r.Err? <==> host == [] || !IsDigit(host[0])
    ensures r.Err? ==> r.error == NoBundleId(host)
  {
    var digits := LeadingDigits(host);
    if digits == [] then Err(NoBundleId(host)) else Ok(DigitsValue(digits))
  }

  /** A host made of a bundle id and anything not starting with a digit yields that id. */
  lemma BundleIdOfHost(id: nat, rest: string)
    requires rest == [] || !IsDigit(rest[0])
    ensures BundleId(DecimalString(id) + rest) == Ok(id)
  {
    var d := DecimalString(id);
    var host := d + rest;
    LeadingDigitsOfDigitsThen(d, rest);
    DigitsValueOfDecimalString(id);
  }

  lemma {:induction false} LeadingDigitsOfDigitsThen(d: string, rest: string)
    requires forall i :: 0 <= i < |d| ==> IsDigit(d[i])
    requires rest == [] || !IsDigit(rest[0])
    ensures LeadingDigits(d + rest) == d
  {
    if d != [] {
      assert (d + rest)[1..] == d[1..] + rest;
      LeadingDigitsOfDigitsThen(d[1..], rest);
      assert d == [d[0]] + d[1..];
    } else {
      assert d + rest == rest;
    }
  }

  /**
   * targetBundleOrCurrent: the bundle named by the URL host, or the current
   * bundle when the host has no id, the lookup finds nothing, or it throws.
   */
  function TargetBundleOrCurrent(framework: OsgiFramework, locationUrl: Url): (b: Bundle)
    ensures var id := BundleId(locationUrl.host);
      b == framework.current || (id.Ok? && framework.getBundle(id.value) == Found(b))
    ensures var id := BundleId(locationUrl.host);
      id.Ok? && framework.getBundle(id.value).Found? ==> b == framework.getBundle(id.value).bundle
  {
    match BundleId(locationUrl.host)
    case Err(_) => framework.current
    case Ok(id) =>
      match framework.getBundle(id)
      case Found(target) => target
      case _ => framework.current
  }

  /** pathWithoutLeadingSlash: the entry's path, less one leading '/'. */
  function PathWithoutLeadingSlash(entry: Url): (path: string)
    ensures StartsWith(entry.path, "/") ==> entry.path == "/" + path
    ensures !StartsWith(entry.path, "/") ==> path == entry.path
  {
    if StartsWith(entry.path, "/") then entry.path[1..] else entry.path
  }

  /** The names findResourceNames promises: every entry's path less its leading '/'. */
  function EntryNames(entries: seq<Url>): set<string> {
    set e | e in entries :: PathWithoutLeadingSlash(e)
  }

  /** The entries the scanner drains: those under the URL path in the target bundle, or none. */
  function EntriesFor(framework: OsgiFramework, locationUrl: Url): seq<Url> {
    var bundle := TargetBundleOrCurrent(framework, locationUrl);
    match framework.findEntries(bundle, locationUrl.path)
    case None => []
    case Some(entries) => entries
  }

  /**
   * findResourceNames: drains the enumeration into a TreeSet. The location
   * string is not used; the URL path decides what is listed.
   */
  method FindResourceNames(framework: OsgiFramework, location: string, locationUrl: Url) returns (resourceNames: seq<string>)
    ensures StrictlySorted(resourceNames)
    ensures Elems(resourceNames) == EntryNames(EntriesFor(framework, locationUrl))
  {
    resourceNames := [];
    var bundle := TargetBundleOrCurrent(framework, locationUrl);
    var entries := framework.findEntries(bundle, locationUrl.path);
    if entries.Some? {
      var all := entries.value;
      var i := 0;
      while i < |all|
        invariant 0 <= i <= |all|
        invariant StrictlySorted(resourceNames)
        invariant Elems(resourceNames) == EntryNames(all[..i])
      {
        resourceNames := Insert(resourceNames, PathWithoutLeadingSlash(all[i]));
        assert all[..i + 1] == all[..i] + [all[i]];
        i := i + 1;
      }
      assert all[..i] == all;
    }
  }
}
