/**
 * The part of `urllib.parse.urlparse` that `_base_url_from_location` uses:
 * the scheme and the network location (host and port) of a URL.
 */
module Urls {
  import opened Wrappers
  import opened Text

  predicate IsAsciiAlpha(c: char) {
    'a' <= c <= 'z' || 'A' <= c <= 'Z'
  }

  /** Letters, digits, `+`, `-` and `.`: what a URL scheme may consist of. */
  predicate IsSchemeChar(c: char) {
    IsAsciiAlpha(c) || '0' <= c <= '9' || c == '+' || c == '-' || c == '.'
  }

  /** The C0 controls and space, which `urlsplit` strips from the front of a URL. */
  predicate IsC0OrSpace(c: char) {
    c <= ' '
  }

  /** Tab, CR and LF, which `urlsplit` deletes wherever they occur. */
  predicate IsUnsafe(c: char) {
    c == '\t' || c == '\r' || c == '\n'
  }

  /** `/`, `?` and `#` end the network location. */
  predicate IsNetlocDelimiter(c: char) {
    c == '/' || c == '?' || c == '#'
  }

  function StripLeadingC0(s: string): string {
    if |s| > 0 && IsC0OrSpace(s[0]) then StripLeadingC0(s[1..]) else s
  }

  function RemoveUnsafe(s: string): (r: string)
    ensures forall k :: 0 <= k < |r| ==> !IsUnsafe(r[k])
  {
    if s == [] then [] else (if IsUnsafe(s[0]) then [] else [s[0]]) + RemoveUnsafe(s[1..])
  }

  lemma {:induction false} RemoveUnsafeKeepsSafe(s: string)
    requires forall k :: 0 <= k < |s| ==> !IsUnsafe(s[k])
    ensures RemoveUnsafe(s) == s
  {
    if s != [] {
      RemoveUnsafeKeepsSafe(s[1..]);
      assert s == [s[0]] + s[1..];
    }
  }

  /** `s.find(c)`: the first index holding `c`, or -1. */
  function IndexOf(s: string, c: char): (i: int)
    ensures -1 <= i < |s|
    ensures 0 <= i ==> s[i] == c && forall k :: 0 <= k < i ==> s[k] != c
    ensures i < 0 ==> forall k :: 0 <= k < |s| ==> s[k] != c
  {
    if s == [] then -1
    else if s[0] == c then 0
    else
      var j := IndexOf(s[1..], c);
      if j < 0 then -1 else j + 1
  }

  /**
   * The scheme step of `urlsplit`: text before the first `:` is the scheme
   * (lower-cased) when it starts with an ASCII letter and consists of scheme
   * characters; otherwise the scheme is empty and nothing is cut off.
   */
  function SplitScheme(url: string): (string, string) {
    var i := IndexOf(url, ':');
    if i > 0 && IsAsciiAlpha(url[0]) && forall k :: 0 <= k < i ==> IsSchemeChar(url[k])
    then (Lower(url[..i]), url[i + 1..])
    else ("", url)
  }

  /** The first index at or after `start` holding a netloc delimiter, or `|s|`. */
  function DelimiterFrom(s: string, start: nat): (d: nat)
    requires start <= |s|
    ensures start <= d <= |s|
    ensures forall k :: start <= k < d ==> !IsNetlocDelimiter(s[k])
    ensures d < |s| ==> IsNetlocDelimiter(s[d])
    decreases |s| - start
  {
    if start == |s| || IsNetlocDelimiter(s[start]) then start else DelimiterFrom(s, start + 1)
  }

  /** The netloc step of `urlsplit`: after a leading `//`, the text up to the first delimiter. */
  function SplitNetloc(rest: string): (string, string) {
    if StartsWith(rest, "//") then
      var d := DelimiterFrom(rest, 2);
      (rest[2..d], rest[d..])
    else ("", rest)
  }

  /**
   * `_base_url_from_location`: `scheme://netloc` of the parsed location, or
   * None where `urlparse` raises ValueError because the netloc holds only one
   * of `[` and `]`.
   */
  function BaseUrlFromLocation(location: string): (r: Option<string>)
    ensures r.Some? ==> forall k :: 0 <= k < |r.value| ==> !IsUnsafe(r.value[k])
  {
    var url := RemoveUnsafe(StripLeadingC0(location));
    var (scheme, rest) := SplitScheme(url);
    var (netloc, _) := SplitNetloc(rest);
    if ('[' in netloc) != (']' in netloc) then None
    else Some(scheme + "://" + netloc)
  }

  /** The first `c` after a prefix free of `c` is found right after that prefix. */
  lemma {:induction false} IndexOfAfterPrefix(prefix: string, c: char, suffix: string)
    requires forall k :: 0 <= k < |prefix| ==> prefix[k] != c
    ensures IndexOf(prefix + [c] + suffix, c) == |prefix|
  {
    var s := prefix + [c] + suffix;
    if prefix != [] {
      assert s[1..] == prefix[1..] + [c] + suffix;
      IndexOfAfterPrefix(prefix[1..], c, suffix);
    }
  }

  /** A valid scheme followed by a colon is cut off and lower-cased. */
  lemma SchemeIsCut(scheme: string, rest: string)
    requires |scheme| > 0 && IsAsciiAlpha(scheme[0])
    requires forall k :: 0 <= k < |scheme| ==> IsSchemeChar(scheme[k])
    ensures SplitScheme(scheme + ":" + rest) == (Lower(scheme), rest)
  {
    var url := scheme + ":" + rest;
    IndexOfAfterPrefix(scheme, ':', rest);
    assert url[..|scheme|] == scheme;
    assert url[|scheme| + 1..] == rest;
  }

  /** After `//`, a host free of delimiters is the whole network location. */
  lemma NetlocIsHost(host: string, path: string)
    requires forall k :: 0 <= k < |host| ==> !IsNetlocDelimiter(host[k])
    requires path == [] || IsNetlocDelimiter(path[0])
    ensures SplitNetloc("//" + host + path).0 == host
  {
    var rest := "//" + host + path;
    assert rest[..2] == "//";
    assert forall k :: 2 <= k < 2 + |host| ==> rest[k] == host[k - 2];
    assert 2 + |host| < |rest| ==> rest[2 + |host|] == path[0];
    assert rest[2..2 + |host|] == host;
  }

  /**
   * A location `scheme://host<path>` has base URL `scheme://host` with the
   * scheme lower-cased, whatever path, query or fragment follows the host.
   */
  lemma BaseUrlOfHostUrl(scheme: string, host: string, path: string)
    requires |scheme| > 0 && IsAsciiAlpha(scheme[0])
    requires forall k :: 0 <= k < |scheme| ==> IsSchemeChar(scheme[k])
    requires forall k :: 0 <= k < |host| ==> !IsNetlocDelimiter(host[k])
    requires path == [] || IsNetlocDelimiter(path[0])
    requires forall k :: 0 <= k < |scheme + "://" + host + path| ==> !IsUnsafe((scheme + "://" + host + path)[k])
    requires ('[' in host) == (']' in host)
    ensures BaseUrlFromLocation(scheme + "://" + host + path) == Some(Lower(scheme) + "://" + host)
  {
    var url := scheme + "://" + host + path;
    var rest := "//" + host + path;
    assert url == scheme + ":" + rest;
    assert url[0] == scheme[0];
    assert StripLeadingC0(url) == url;
    RemoveUnsafeKeepsSafe(url);
    SchemeIsCut(scheme, rest);
    NetlocIsHost(host, path);
  }
}
