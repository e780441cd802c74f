/** The part of Python's `urllib.parse` the application uses: `urlsplit`,
    `urlparse` (which also splits off `;params`) and the `hostname`
    attribute of their results. */
module Urls {
  import opened Wrappers
  import opened Text

  datatype SplitResult = SplitResult(scheme: string, netloc: string, path: string, query: string, fragment: string)

  /** The characters `urlsplit` strips from the left: C0 controls and space. */
  predicate IsC0OrSpace(c: char) {
    c <= ' '
  }

  function DropC0Prefix(s: string): (r: string)
    ensures r == [] || !IsC0OrSpace(r[0])
    ensures EndsWith(s, r)
  {
    if |s| > 0 && IsC0OrSpace(s[0]) then
      var r := DropC0Prefix(s[1..]);
      assert s[1..][|s| - 1 - |r|..] == s[|s| - |r|..];
      r
    else s
  }

  predicate IsAsciiLetter(c: char) {
    ('a' <= c <= 'z') || ('A' <= c <= 'Z')
  }

  /** `urllib.parse.scheme_chars`. */
  predicate IsSchemeChar(c: char) {
    IsAsciiLetter(c) || ('0' <= c <= '9') || c == '+' || c == '-' || c == '.'
  }

  /** Position of the first of '/', '?', '#' at or after `start`, or `|s|`. */
  function NetlocEnd(s: string, start: nat): (e: nat)
    requires start <= |s|
    ensures start <= e <= |s|
    ensures forall k :: start <= k < e ==> s[k] != '/' && s[k] != '?' && s[k] != '#'
    decreases |s| - start
  {
    if start == |s| || s[start] == '/' || s[start] == '?' || s[start] == '#' then start
    else NetlocEnd(s, start + 1)
  }

  /** Python's `s.split(c, 1)` when `c in s`. */
  function SplitFirst(s: string, c: char): (r: (string, string))
    requires c in s
    ensures c !in r.0
    ensures r.0 + [c] + r.1 == s
  {
    var i := Find(s, c);
    (s[..i], s[i + 1..])
  }

  /** `urlsplit(url)`; the only error it raises here is the "Invalid IPv6
      URL" `ValueError` for a network location with one bracket but not the
      other. */
  function UrlSplit(url0: string): (r: Result<SplitResult, string>)
    ensures r.Ok? ==> |r.value.scheme| <= |url0|
  {
    var url1 := DropC0Prefix(url0);
    var url2 := RemoveChar(RemoveChar(RemoveChar(url1, '\t'), '\r'), '\n');
    var i := Find(url2, ':');
    var hasScheme := i > 0 && IsAsciiLetter(url2[0]) && forall k :: 0 <= k < i ==> IsSchemeChar(url2[k]);
    var scheme := if hasScheme then Lower(url2[..i]) else "";
    var rest := if hasScheme then url2[i + 1..] else url2;
    var hasNetloc := StartsWith(rest, "//");
    var e := if hasNetloc then NetlocEnd(rest, 2) else 0;
    var netloc := if hasNetloc then rest[2..e] else "";
    var afterNetloc := if hasNetloc then rest[e..] else rest;
    if ('[' in netloc) != (']' in netloc) then
      Err("Invalid IPv6 URL")
    else
      var (beforeFragment, fragment) := if '#' in afterNetloc then SplitFirst(afterNetloc, '#') else (afterNetloc, "");
      var (path, query) := if '?' in beforeFragment then SplitFirst(beforeFragment, '?') else (beforeFragment, "");
      Ok(SplitResult(scheme, netloc, path, query, fragment))
  }

  /** `urllib.parse.uses_params`: the schemes whose last path segment may
      carry `;params`. */
  const USES_PARAMS: set<string> :=
    {"", "ftp", "hdl", "prospero", "http", "imap", "https", "shttp", "rtsp", "rtspu", "sip", "sips", "mms", "sftp", "tel"}

  /** `_splitparams`: the path without the `;params` of its last segment. */
  function PathWithoutParams(path: string): string {
    var slash := RFind(path, '/');
    if slash >= 0 then
      var semi := Find(path[slash..], ';');
      if semi < 0 then path else path[..slash + semi]
    else
      var semi := Find(path, ';');
      if semi < 0 then path else path[..semi]
  }

  /** The `path` attribute of `urlparse(url)`. */
  function UrlParsePath(url: string): Result<string, string> {
    match UrlSplit(url)
    case Err(e) => Err(e)
    case Ok(r) =>
      Ok(if r.scheme in USES_PARAMS && ';' in r.path then PathWithoutParams(r.path) else r.path)
  }

  /** The `hostname` attribute: the network location without user
      information and port (or the text inside IPv6 brackets), lower-cased
      before any '%' zone suffix, or None when that is empty. */
  function Hostname(r: SplitResult): Option<string> {
    var at := RFind(r.netloc, '@');
    var hostinfo := r.netloc[at + 1..];
    var host :=
      if '[' in hostinfo then
        var bracketed := hostinfo[Find(hostinfo, '[') + 1..];
        if ']' in bracketed then bracketed[..Find(bracketed, ']')] else bracketed
      else if ':' in hostinfo then hostinfo[..Find(hostinfo, ':')]
      else hostinfo;
    if host == [] then None
    else if '%' in host then
      var p := Find(host, '%');
      Some(Lower(host[..p]) + host[p..])
    else Some(Lower(host))
  }

  /** The last '/'-separated segment of a path (`path.split('/')[-1]`). */
  function LastSegment(path: string): (r: string)
    ensures '/' !in r
    ensures EndsWith(path, r)
    ensures |r| < |path| ==> path[|path| - |r| - 1] == '/'
  {
    Basename(path)
  }
}
