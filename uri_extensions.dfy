/**
 * UriExtensions.ToRegionEndpoint: resolve a URI to a region, either with a
 * caller-supplied parser or by taking the first region of the catalog whose
 * SystemName occurs, ignoring case, in the URI's host.
 */
module UriExtensions {
  import opened Wrappers
  import opened AwsTypes

  /** System.Uri: an absolute URI has a host; asking a relative one for its host raises. */
  datatype Uri = Absolute(host: string) | Relative(text: string)

  /** ArgumentNullException (with the parameter name) and InvalidOperationException. */
  datatype UriError = ArgumentNull(paramName: string) | InvalidOperation

  /** A parser from a URI to a region; it may answer null or raise. */
  type RegionParser = Uri -> Result<Option<RegionEndpoint>, UriError>

  /** ASCII case folding, the model of StringComparison.OrdinalIgnoreCase. */
  function FoldChar(c: char): char
  {
    if 'A' <= c <= 'Z' then (c as int + 32) as char else c
  }

  function Fold(s: string): string
  {
    seq(|s|, i requires 0 <= i < |s| => FoldChar(s[i]))
  }

  /*
   * Host names and SystemName values are plain `string`s here. Unlike the
   * message-size estimate, nothing below counts characters: containment of one
   * well-formed string in another is the same whether a string is read as code
   * points or as UTF-16 code units.
   */

  /** `t` occurs in `s` as a contiguous run (String.IndexOf(t) >= 0; the empty string occurs everywhere). */
  predicate Occurs(t: string, s: string)
    decreases |s|
  {
    |t| <= |s| && (t <= s || Occurs(t, s[1..]))
  }

  /** Occurs means: `t` is a prefix of some suffix of `s`. */
  lemma {:induction false} OccursMeaning(t: string, s: string)
    ensures Occurs(t, s) <==> exists i :: 0 <= i <= |s| && t <= s[i..]
    decreases |s|
  {
    if |t| <= |s| && !(t <= s) {
      OccursMeaning(t, s[1..]);
      if Occurs(t, s[1..]) {
        var i :| 0 <= i <= |s[1..]| && t <= s[1..][i..];
        assert s[1..][i..] == s[i + 1..];
      }
      if exists i :: 0 <= i <= |s| && t <= s[i..] {
        var i :| 0 <= i <= |s| && t <= s[i..];
        assert i != 0;
        assert s[1..][i - 1..] == s[i..];
      }
    } else if |t| > |s| {
      forall i | 0 <= i <= |s|
        ensures !(t <= s[i..])
      {
        assert |s[i..]| < |t|;
      }
    } else {
      assert s[0..] == s;
    }
  }

  /** Cuemon's ContainsAll(host, OrdinalIgnoreCase, region.SystemName). */
  predicate HostNames(host: string, region: RegionEndpoint)
  {
    Occurs(Fold(region.systemName), Fold(host))
  }

  /** The position of the first element satisfying `p`, or -1. */
  function FirstWhere<T>(s: seq<T>, p: T -> bool): (k: int)
    ensures -1 <= k < |s|
    ensures k == -1 <==> forall i :: 0 <= i < |s| ==> !p(s[i])
    ensures 0 <= k ==> p(s[k]) && forall i :: 0 <= i < k ==> !p(s[i])
  {
    if |s| == 0 then -1
    else if p(s[0]) then 0
    else
      var k := FirstWhere(s[1..], p);
      assert forall i :: 1 <= i < |s| ==> s[i] == s[1..][i - 1];
      if k == -1 then -1 else k + 1
  }

  /** Enumerable.FirstOrDefault for a reference type: the first element satisfying `p`, or null. */
  function FirstOrDefault<T>(s: seq<T>, p: T -> bool): (r: Option<T>)
    ensures r.None? <==> forall x :: x in s ==> !p(x)
    ensures r.Some? ==> r.value in s && p(r.value)
    ensures r.Some? ==> exists k :: 0 <= k < |s| && s[k] == r.value && forall i :: 0 <= i < k ==> !p(s[i])
  {
    var k := FirstWhere(s, p);
    if k == -1 then None else Some(s[k])
  }

  /**
   * The parser the one-argument overload passes on: first catalog region named
   * in the host. The host is read only inside the predicate, so a relative URI
   * raises only when there is a catalog region to test it against.
   */
  function CatalogParser(catalog: seq<RegionEndpoint>): RegionParser
  {
    (uri: Uri) =>
      if uri.Relative? then
        (if |catalog| == 0 then Success(None) else Failure(InvalidOperation))
      else Success(FirstOrDefault(catalog, region => HostNames(uri.host, region)))
  }

  /** ToRegionEndpoint(endpoint, parser): the null checks, then the parser's answer unchanged. */
  function ToRegionEndpointWith(endpoint: Option<Uri>, parser: Option<RegionParser>)
    : (r: Result<Option<RegionEndpoint>, UriError>)
    ensures endpoint.None? ==> r == Failure(ArgumentNull("endpoint"))
    ensures endpoint.Some? && parser.None? ==> r == Failure(ArgumentNull("parser"))
    ensures endpoint.Some? && parser.Some? ==> r == parser.value(endpoint.value)
  {
    if endpoint.None? then Failure(ArgumentNull("endpoint"))
    else if parser.None? then Failure(ArgumentNull("parser"))
    else parser.value(endpoint.value)
  }

  /**
   * ToRegionEndpoint(endpoint): the catalog (the SDK's RegionEndpoint static
   * fields, enumerated once) is the parameter `catalog`.
   */
  function ToRegionEndpoint(endpoint: Option<Uri>, catalog: seq<RegionEndpoint>)
    : (r: Result<Option<RegionEndpoint>, UriError>)
    ensures endpoint.None? ==> r == Failure(ArgumentNull("endpoint"))
    ensures endpoint.Some? && endpoint.value.Relative? && |catalog| > 0 ==> r == Failure(InvalidOperation)
    ensures endpoint.Some? && endpoint.value.Relative? && |catalog| == 0 ==> r == Success(None)
    ensures endpoint.Some? && endpoint.value.Absolute? ==> r.Success?
    ensures endpoint.Some? && endpoint.value.Absolute? ==>
              (r.value.None? <==>
                 forall region :: region in catalog ==> !HostNames(endpoint.value.host, region))
    ensures r.Success? && r.value.Some? ==>
              endpoint.Some? && endpoint.value.Absolute? &&
              r.value.value in catalog && HostNames(endpoint.value.host, r.value.value) &&
              exists k :: 0 <= k < |catalog| && catalog[k] == r.value.value &&
                forall i :: 0 <= i < k ==> !HostNames(endpoint.value.host, catalog[i])
  {
    ToRegionEndpointWith(endpoint, Some(CatalogParser(catalog)))
  }

  /** A host that names a catalog region resolves to a region (the first such one). */
  lemma ResolvesNamedRegion(host: string, catalog: seq<RegionEndpoint>, k: int)
    requires 0 <= k < |catalog| && Occurs(Fold(catalog[k].systemName), Fold(host))
    ensures ToRegionEndpoint(Some(Absolute(host)), catalog).Success?
    ensures ToRegionEndpoint(Some(Absolute(host)), catalog).value.Some?
  {
    assert HostNames(host, catalog[k]);
  }
}
