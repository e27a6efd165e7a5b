/**
 * Tenant slugs and request hosts (models.py, Service.SLUG_RE, split_request_host,
 * build_host). A tenant is addressed by the first dot-separated label of the
 * request's Host header; the rest of the host, dot included, is the suffix
 * shared by every tenant.
 */
module Hosts {
  import opened Outcomes

  predicate IsAlnum(c: char) {
    'a' <= c <= 'z' || 'A' <= c <= 'Z' || '0' <= c <= '9'
  }

  /**
   * The group of SLUG_RE: one alphanumeric character, or alphanumerics and
   * dashes between an alphanumeric first and last character.
   */
  predicate IsSlugBody(s: string) {
    && |s| >= 1
    && IsAlnum(s[0])
    && IsAlnum(s[|s| - 1])
    && forall i :: 0 < i < |s| - 1 ==> IsAlnum(s[i]) || s[i] == '-'
  }

  /**
   * SLUG_RE.match(s). Python's `$` (without MULTILINE) also matches just before
   * a newline that ends the string, so one trailing newline is accepted.
   */
  function IsSlug(s: string): (r: bool)
    ensures r ==> s != [] && IsAlnum(s[0]) && '.' !in s && '/' !in s
  {
    || IsSlugBody(s)
    || (|s| >= 2 && s[|s| - 1] == '\n' && IsSlugBody(s[..|s| - 1]))
  }

  /** The index of the first `c` in `s`, or |s| when there is none. */
  function IndexOf(s: string, c: char): (i: nat)
    ensures i <= |s|
    ensures i < |s| ==> s[i] == c
    ensures forall j :: 0 <= j < i ==> s[j] != c
  {
    if s == [] then 0
    else if s[0] == c then 0
    else 1 + IndexOf(s[1..], c)
  }

  /** Python's `s.split(sep, 1)`: one piece when `sep` does not occur, else two. */
  function SplitOnce(s: string, sep: char): (pieces: seq<string>)
    ensures |pieces| == 1 || |pieces| == 2
    ensures sep !in pieces[0]
    ensures |pieces| == 1 ==> pieces[0] == s
    ensures |pieces| == 2 ==> pieces[0] + [sep] + pieces[1] == s
  {
    var i := IndexOf(s, sep);
    if i == |s| then [s] else [s[..i], s[i + 1..]]
  }

  /** The first dot-separated label of a host: what split_request_host tests against SLUG_RE. */
  function Label(host: string): string {
    SplitOnce(host, '.')[0]
  }

  /** The part of a host after its first label. */
  function Suffix(host: string): string {
    host[|Label(host)|..]
  }

  datatype HostPieces = HostPieces(slug: string, suffix: string)

  /**
   * Service.split_request_host: the first label must be a slug (else Http404);
   * the second piece gets its dot back, or is the empty string.
   */
  method SplitRequestHost(host: string) returns (r: Result<HostPieces>)
    ensures r.Err? <==> !IsSlug(Label(host))
    ensures r.Err? ==> r.error == NotFound
    ensures r.Ok? ==> IsSlug(r.value.slug) && '.' !in r.value.slug
    ensures r.Ok? ==> r.value.slug + r.value.suffix == host
    ensures r.Ok? ==> r.value.suffix == [] || r.value.suffix[0] == '.'
  {
    var pieces := SplitOnce(host, '.');
    if !IsSlug(pieces[0]) {
      return Err(NotFound);
    }
    if |pieces| < 2 {
      pieces := pieces + [""];
    } else {
      pieces := pieces[1 := "." + pieces[1]];
    }
    assert pieces[0] + pieces[1] == host;
    return Ok(HostPieces(pieces[0], pieces[1]));
  }

  /**
   * A host splits in exactly one way into a dot-free label and a suffix that is
   * empty or starts with a dot: those are Label and Suffix.
   */
  lemma {:induction false} DecompositionIsUnique(host: string, a: string, b: string)
    requires a + b == host && '.' !in a && (b == [] || b[0] == '.')
    ensures a == Label(host) && b == Suffix(host)
  {
    var i := IndexOf(host, '.');
    assert forall j :: 0 <= j < |a| ==> host[j] == a[j];
    assert |a| < |host| ==> host[|a|] == b[0] == '.';
    assert |a| == i;
    assert Label(host) == host[..i];
  }

  /** Service.build_host: a slug followed by the suffix of the request's host. */
  method BuildHost(slug: string, host: string) returns (r: Result<string>)
    ensures r.Err? <==> !IsSlug(Label(host))
    ensures r.Ok? ==> r.value == slug + Suffix(host)
    ensures r.Ok? && slug == Label(host) ==> r.value == host
  {
    var pieces :- SplitRequestHost(host);
    DecompositionIsUnique(host, pieces.slug, pieces.suffix);
    return Ok(slug + pieces.suffix);
  }
}
