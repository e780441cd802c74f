/** The Python `str` operations the application relies on, over `seq<char>`
    (a Dafny char is a Unicode scalar value, as a Python code point is). */
module Text {
  import opened Wrappers

  /** Python's `str.isspace()` for one character: the characters whose
      bidirectional class is WS, B or S, or whose category is Zs. */
  predicate IsSpace(c: char) {
    || ('\t' <= c <= '\r')
    || ('\U{1C}' <= c <= '\U{1F}')
    || c == ' ' || c == '\U{85}' || c == '\U{A0}' || c == '\U{1680}'
    || ('\U{2000}' <= c <= '\U{200A}')
    || c == '\U{2028}' || c == '\U{2029}' || c == '\U{202F}' || c == '\U{205F}'
    || c == '\U{3000}'
  }

  predicate StartsWith(s: string, prefix: string) {
    |prefix| <= |s| && s[..|prefix|] == prefix
  }

  predicate EndsWith(s: string, suffix: string) {
    |suffix| <= |s| && s[|s| - |suffix|..] == suffix
  }

  /** Python's `sub in s`. */
  predicate Contains(s: string, sub: string)
    decreases |s|
  {
    StartsWith(s, sub) || (|s| > 0 && Contains(s[1..], sub))
  }

  /** `sub in s` holds exactly when `sub` occurs at some offset of `s`. */
  lemma {:induction false} ContainsAt(s: string, sub: string, i: nat)
    requires i + |sub| <= |s| && s[i..i + |sub|] == sub
    ensures Contains(s, sub)
    decreases i
  {
    if i > 0 {
      assert s[1..][i - 1..i - 1 + |sub|] == sub;
      ContainsAt(s[1..], sub, i - 1);
    }
  }

  /** Every occurrence found by `Contains` lies at some offset. */
  lemma {:induction false} ContainsOffset(s: string, sub: string) returns (i: nat)
    requires Contains(s, sub)
    ensures i + |sub| <= |s| && s[i..i + |sub|] == sub
    decreases |s|
  {
    if StartsWith(s, sub) {
      i := 0;
    } else {
      var j := ContainsOffset(s[1..], sub);
      assert s[1..][j..j + |sub|] == s[j + 1..j + 1 + |sub|];
      i := j + 1;
    }
  }

  /** A substring of a substring is a substring. */
  lemma ContainsInSlice(s: string, lo: nat, hi: nat, sub: string)
    requires lo <= hi <= |s| && Contains(s[lo..hi], sub)
    ensures Contains(s, sub)
  {
    var i := ContainsOffset(s[lo..hi], sub);
    var t := s[lo..hi];
    assert i + |sub| <= |t|;
    forall k | 0 <= k < |sub| ensures s[lo + i + k] == sub[k] {
      assert t[i..i + |sub|][k] == t[i + k] == s[lo + i + k];
    }
    assert s[lo + i..lo + i + |sub|] == sub;
    ContainsAt(s, sub, lo + i);
  }

  /** Python's `str.lower()` on the ASCII letters; every other character
      is left as it is. */
  function LowerChar(c: char): char {
    if 'A' <= c <= 'Z' then (c as int + 32) as char else c
  }

  function Lower(s: string): string {
    seq(|s|, i requires 0 <= i < |s| => LowerChar(s[i]))
  }

  lemma LowerIdempotent(s: string)
    ensures Lower(Lower(s)) == Lower(s)
  {
  }

  lemma LowerSlice(s: string, lo: nat, hi: nat)
    requires lo <= hi <= |s|
    ensures Lower(s[lo..hi]) == Lower(s)[lo..hi]
  {
  }

  lemma LowerSplit(s: string, n: nat)
    requires n <= |s|
    ensures Lower(s[..n]) == Lower(s)[..n] && Lower(s[n..]) == Lower(s)[n..]
  {
  }

  /** Number of whitespace characters `str.lstrip()` removes. */
  function LeadingSpaces(s: string): (n: nat)
    ensures n <= |s|
    ensures forall i :: 0 <= i < n ==> IsSpace(s[i])
    ensures n < |s| ==> !IsSpace(s[n])
  {
    if |s| > 0 && IsSpace(s[0]) then 1 + LeadingSpaces(s[1..]) else 0
  }

  /** Number of whitespace characters `str.rstrip()` removes. */
  function TrailingSpaces(s: string): (n: nat)
    ensures n <= |s|
    ensures forall i :: |s| - n <= i < |s| ==> IsSpace(s[i])
    ensures n < |s| ==> !IsSpace(s[|s| - n - 1])
  {
    if |s| > 0 && IsSpace(s[|s| - 1]) then 1 + TrailingSpaces(s[..|s| - 1]) else 0
  }

  function StripLeft(s: string): string {
    s[LeadingSpaces(s)..]
  }

  function StripRight(s: string): string {
    s[..|s| - TrailingSpaces(s)]
  }

  /** Python's `str.strip()`. */
  function Strip(s: string): (r: string)
    ensures |r| <= |s|
    ensures r == [] || (!IsSpace(r[0]) && !IsSpace(r[|r| - 1]))
  {
    StripRight(StripLeft(s))
  }

  /** A string with no whitespace at either end is its own strip. */
  lemma StripUnchanged(s: string)
    requires s == [] || (!IsSpace(s[0]) && !IsSpace(s[|s| - 1]))
    ensures Strip(s) == s
  {
    assert LeadingSpaces(s) == 0;
    assert TrailingSpaces(s) == 0;
  }

  lemma StripIdempotent(s: string)
    ensures Strip(Strip(s)) == Strip(s)
  {
    StripUnchanged(Strip(s));
  }

  /** `strip()` removes nothing but whitespace: what it drops from the left
      and the right are runs of whitespace around the stripped string. */
  lemma StripBounds(s: string) returns (lo: nat, hi: nat)
    ensures lo <= hi <= |s| && Strip(s) == s[lo..hi]
    ensures forall i :: 0 <= i < lo ==> IsSpace(s[i])
    ensures forall i :: hi <= i < |s| ==> IsSpace(s[i])
  {
    lo := LeadingSpaces(s);
    var t := s[lo..];
    hi := lo + |t| - TrailingSpaces(t);
    assert Strip(s) == t[..|t| - TrailingSpaces(t)];
    forall i | hi <= i < |s| ensures IsSpace(s[i]) {
      assert s[i] == t[i - lo];
    }
  }

  /** `strip()` keeps only characters of its input. */
  lemma StripSubset(s: string)
    ensures forall x :: x in Strip(s) ==> x in s
  {
    var lo, hi := StripBounds(s);
    forall x | x in Strip(s) ensures x in s {
      var k :| 0 <= k < |Strip(s)| && Strip(s)[k] == x;
      assert s[lo + k] == x;
    }
  }

  /** Lower-casing never creates or removes whitespace, so it commutes with
      counting it. */
  lemma {:induction false} LowerLeadingSpaces(s: string)
    ensures LeadingSpaces(Lower(s)) == LeadingSpaces(s)
    decreases |s|
  {
    if |s| > 0 {
      assert Lower(s)[1..] == Lower(s[1..]);
      LowerLeadingSpaces(s[1..]);
    }
  }

  lemma {:induction false} LowerTrailingSpaces(s: string)
    ensures TrailingSpaces(Lower(s)) == TrailingSpaces(s)
    decreases |s|
  {
    if |s| > 0 {
      assert Lower(s)[..|s| - 1] == Lower(s[..|s| - 1]);
      LowerTrailingSpaces(s[..|s| - 1]);
    }
  }

  /** `s.lower().strip() == s.strip().lower()`. */
  lemma LowerStripCommute(s: string)
    ensures Strip(Lower(s)) == Lower(Strip(s))
  {
    LowerLeadingSpaces(s);
    var t := s[LeadingSpaces(s)..];
    assert Lower(s)[LeadingSpaces(s)..] == Lower(t);
    LowerTrailingSpaces(t);
  }

  /** Normalising with `lower().strip()` twice is the same as once. */
  lemma NormalizeIdempotent(s: string)
    ensures Strip(Lower(Strip(Lower(s)))) == Strip(Lower(s))
  {
    LowerStripCommute(Strip(Lower(s)));
    LowerIdempotent(Strip(Lower(s)));
    StripIdempotent(Lower(s));
    LowerStripCommute(s);
    LowerIdempotent(s);
    LowerStripCommute(Lower(s));
  }

  /** Length of the run of non-whitespace characters that starts `s`. */
  function NonSpaceRun(s: string): (n: nat)
    ensures n <= |s|
    ensures forall i :: 0 <= i < n ==> !IsSpace(s[i])
    ensures n < |s| ==> IsSpace(s[n])
  {
    if |s| > 0 && !IsSpace(s[0]) then 1 + NonSpaceRun(s[1..]) else 0
  }

  /** Python's `s.split(maxsplit=1)`: the first whitespace-delimited token
      and, when anything but whitespace follows it, the rest of the string
      after the whitespace run (trailing whitespace kept). The first token
      is also `s.split()[0]`. */
  function SplitOnce(s: string): (parts: seq<string>)
    ensures |parts| <= 2
    ensures forall k :: 0 <= k < |parts| ==> parts[k] != []
  {
    var t := StripLeft(s);
    if t == [] then []
    else
      var n := NonSpaceRun(t);
      var rest := StripLeft(t[n..]);
      if rest == [] then [t[..n]] else [t[..n], rest]
  }

  /** What `split(maxsplit=1)` returns. The string falls into leading
      whitespace `s[..lo]`, the first token `s[lo..hi]` (the longest run
      without whitespace), the whitespace `s[hi..mid]` after it and the
      rest `s[mid..]`, which starts with a non-whitespace character. A
      blank string gives no part, a string whose rest is empty gives the
      token, and any other gives the token and the rest. */
  lemma {:induction false} SplitOnceParts(s: string) returns (lo: nat, hi: nat, mid: nat)
    ensures lo <= hi <= mid <= |s|
    ensures forall k :: 0 <= k < lo ==> IsSpace(s[k])
    ensures forall k :: lo <= k < hi ==> !IsSpace(s[k])
    ensures hi < |s| ==> IsSpace(s[hi])
    ensures forall k :: hi <= k < mid ==> IsSpace(s[k])
    ensures mid < |s| ==> !IsSpace(s[mid])
    ensures lo < |s| ==> lo < hi
    ensures SplitOnce(s) == if lo == |s| then [] else if mid == |s| then [s[lo..hi]] else [s[lo..hi], s[mid..]]
  {
    lo := LeadingSpaces(s);
    if lo == |s| {
      hi, mid := lo, lo;
      assert StripLeft(s) == [];
    } else {
      var n := NonSpaceRun(s[lo..]);
      var m := LeadingSpaces(s[lo + n..]);
      hi, mid := lo + n, lo + n + m;
      SplitOnceSpaces(s, lo, n, m);
      SplitOnceAt(s, lo, n, m);
    }
  }

  /** `split(maxsplit=1)` in terms of the lengths of the leading
      whitespace, the first token and the whitespace after it. */
  lemma {:induction false} SplitOnceAt(s: string, lo: nat, n: nat, m: nat)
    requires lo == LeadingSpaces(s) && lo < |s|
    requires n == NonSpaceRun(s[lo..]) && m == LeadingSpaces(s[lo + n..])
    ensures lo + n + m <= |s|
    ensures SplitOnce(s) == if lo + n + m == |s| then [s[lo..lo + n]] else [s[lo..lo + n], s[lo + n + m..]]
  {
    var t := s[lo..];
    assert StripLeft(s) == t;
    SliceOfSlice(s, lo, n);
    SliceOfSlice(s, lo + n, m);
    assert StripLeft(t[n..]) == s[lo + n + m..];
  }

  /** Slicing twice is slicing once. */
  lemma SliceOfSlice(s: string, a: nat, b: nat)
    requires a + b <= |s|
    ensures s[a..][b..] == s[a + b..] && s[a..][..b] == s[a..a + b]
  {
  }

  /** The first token of `s`, which starts at `lo` and is `n` long, has
      no whitespace and ends at whitespace or at the end; the run after it
      is whitespace and ends at a non-whitespace character or at the end. */
  lemma {:induction false} SplitOnceSpaces(s: string, lo: nat, n: nat, m: nat)
    requires lo < |s| && n == NonSpaceRun(s[lo..]) && m == LeadingSpaces(s[lo + n..])
    ensures lo + n + m <= |s|
    ensures forall k :: lo <= k < lo + n ==> !IsSpace(s[k])
    ensures lo + n < |s| ==> IsSpace(s[lo + n])
    ensures forall k :: lo + n <= k < lo + n + m ==> IsSpace(s[k])
    ensures lo + n + m < |s| ==> !IsSpace(s[lo + n + m])
  {
    var t := s[lo..];
    forall k | lo <= k < lo + n ensures !IsSpace(s[k]) {
      assert s[k] == t[k - lo];
    }
    if lo + n < |s| {
      assert s[lo + n] == t[n];
    }
    var u := s[lo + n..];
    forall k | lo + n <= k < lo + n + m ensures IsSpace(s[k]) {
      assert s[k] == u[k - lo - n];
    }
    if lo + n + m < |s| {
      assert s[lo + n + m] == u[m];
    }
  }

  /** A string that starts with a non-whitespace character has a first
      token, and it is the longest prefix without whitespace. */
  lemma SplitOnceFirst(s: string)
    requires |s| > 0 && !IsSpace(s[0])
    ensures |SplitOnce(s)| >= 1
    ensures SplitOnce(s)[0] == s[..NonSpaceRun(s)]
    ensures forall c :: c in SplitOnce(s)[0] ==> !IsSpace(c)
  {
    assert LeadingSpaces(s) == 0;
    assert StripLeft(s) == s;
  }

  /** Index of the last `c` in `s`, -1 when there is none (`str.rfind`). */
  function RFind(s: string, c: char): (i: int)
    ensures -1 <= i < |s|
    ensures i >= 0 ==> s[i] == c
    ensures forall k :: i < k < |s| ==> s[k] != c
  {
    if |s| == 0 then -1
    else if s[|s| - 1] == c then |s| - 1
    else RFind(s[..|s| - 1], c)
  }

  /** The properties of `RFind` determine it. */
  lemma RFindUnique(s: string, c: char, i: int)
    requires -1 <= i < |s|
    requires i >= 0 ==> s[i] == c
    requires forall k :: i < k < |s| ==> s[k] != c
    ensures RFind(s, c) == i
  {
  }

  /** Index of the first `c` in `s`, -1 when there is none (`str.find`). */
  function Find(s: string, c: char): (i: int)
    ensures -1 <= i < |s|
    ensures i < 0 ==> c !in s
    ensures i >= 0 ==> s[i] == c && c !in s[..i]
  {
    if |s| == 0 then -1
    else if s[0] == c then 0
    else
      var j := Find(s[1..], c);
      assert s[1..] == s[1..][..] && (j >= 0 ==> s[1..][..j] == s[1..j + 1]);
      if j < 0 then -1 else j + 1
  }

  /** The properties of `Find` determine it. */
  lemma FindAt(s: string, c: char, j: nat)
    requires j < |s| && s[j] == c && c !in s[..j]
    ensures Find(s, c) == j
  {
  }

  /** `posixpath.basename`: everything after the last '/'. */
  function Basename(p: string): (r: string)
    ensures '/' !in r
    ensures EndsWith(p, r)
    ensures |r| < |p| ==> p[|p| - |r| - 1] == '/'
  {
    p[RFind(p, '/') + 1..]
  }

  /** `posixpath.splitext`: the extension starts at the last '.' of the last
      path component, unless that component is nothing but leading dots
      before it (so ".env" has no extension). */
  function SplitExt(p: string): (r: (string, string))
    ensures r.0 + r.1 == p
    ensures r.1 == [] || (r.1[0] == '.' && '/' !in r.1 && '.' !in r.1[1..])
  {
    var sep := RFind(p, '/');
    var dot := RFind(p, '.');
    if dot > sep && exists k :: sep + 1 <= k < dot && p[k] != '.' then
      (p[..dot], p[dot..])
    else
      (p, "")
  }

  /** Lower-casing leaves every '.' and '/' where it is. */
  lemma LowerKeepsMarks(p: string)
    ensures |Lower(p)| == |p|
    ensures forall k :: 0 <= k < |p| ==> (Lower(p)[k] == '.' <==> p[k] == '.') && (Lower(p)[k] == '/' <==> p[k] == '/')
  {
  }

  /** Two paths with their '.' and '/' at the same places are split at the
      same place. */
  lemma SplitExtSameMarks(p: string, q: string)
    requires |q| == |p|
    requires forall k :: 0 <= k < |p| ==> (q[k] == '.' <==> p[k] == '.') && (q[k] == '/' <==> p[k] == '/')
    ensures |SplitExt(p).0| == |SplitExt(q).0|
  {
    var sep, dot := RFind(p, '/'), RFind(p, '.');
    RFindUnique(q, '/', sep);
    RFindUnique(q, '.', dot);
    if dot > sep && exists k :: sep + 1 <= k < dot && p[k] != '.' {
      var k :| sep + 1 <= k < dot && p[k] != '.';
      assert q[k] != '.';
    } else {
      assert !(dot > sep && exists k :: sep + 1 <= k < dot && q[k] != '.');
    }
  }

  /** Lower-casing leaves '.' and '/' where they are, so `splitext` of the
      lower-cased path is the lower-cased `splitext`. */
  lemma SplitExtLower(p: string)
    ensures SplitExt(Lower(p)) == (Lower(SplitExt(p).0), Lower(SplitExt(p).1))
  {
    var q := Lower(p);
    LowerKeepsMarks(p);
    SplitExtSameMarks(p, q);
    var (stem, ext) := SplitExt(p);
    var n := |stem|;
    assert stem == p[..n] && ext == p[n..];
    LowerSplit(p, n);
    assert SplitExt(q).0 == q[..n] && SplitExt(q).1 == q[n..];
  }

  /** Python's `s.replace(c, '')` for one character. */
  function RemoveChar(s: string, c: char): (r: string)
    ensures c !in r
    ensures |r| <= |s|
    ensures forall x :: x in r ==> x in s
    ensures c !in s ==> r == s
    ensures multiset(r) == multiset(s)[c := 0]
  {
    if s == [] then []
    else
      assert s == [s[0]] + s[1..];
      (if s[0] == c then [] else [s[0]]) + RemoveChar(s[1..], c)
  }

  /** Removal works piece by piece, so the characters kept stay in their
      order. */
  lemma {:induction false} RemoveCharAppend(a: string, b: string, c: char)
    ensures RemoveChar(a + b, c) == RemoveChar(a, c) + RemoveChar(b, c)
    decreases |a|
  {
    if a != [] {
      var head := if a[0] == c then [] else [a[0]];
      assert (a + b)[0] == a[0] && (a + b)[1..] == a[1..] + b;
      assert RemoveChar(a + b, c) == head + RemoveChar(a[1..] + b, c);
      RemoveCharAppend(a[1..], b, c);
      assert RemoveChar(a, c) == head + RemoveChar(a[1..], c);
    } else {
      assert a + b == b;
    }
  }

  /** No two dots in a row. */
  predicate NoDotPair(s: string) {
    forall i :: 0 <= i < |s| - 1 ==> !(s[i] == '.' && s[i + 1] == '.')
  }

  /** Python's `s.replace('..', '')`: occurrences are removed left to right
      without overlapping. */
  function RemoveDotDot(s: string): (r: string)
    ensures |r| <= |s|
    ensures forall x :: x in r ==> x in s
    ensures s != [] && s[0] != '.' ==> r != [] && r[0] == s[0]
    ensures NoDotPair(r)
  {
    if |s| >= 2 && s[0] == '.' && s[1] == '.' then RemoveDotDot(s[2..])
    else if s == [] then []
    else [s[0]] + RemoveDotDot(s[1..])
  }

  /** Python's `s[:n]`. */
  function Take(s: string, n: nat): (r: string)
    ensures |r| == if n < |s| then n else |s|
    ensures StartsWith(s, r)
  {
    if n < |s| then s[..n] else s
  }

  /** Python's `sep.join(parts)`. */
  function Join(parts: seq<string>, sep: string): string {
    if parts == [] then ""
    else if |parts| == 1 then parts[0]
    else parts[0] + sep + Join(parts[1..], sep)
  }

  /** Python's `str.split(sep)` for a one-character separator. */
  function SplitOn(s: string, sep: char): (parts: seq<string>)
    ensures |parts| >= 1
    ensures forall p :: p in parts ==> sep !in p
    decreases |s|
  {
    var i := Find(s, sep);
    if i < 0 then [s] else [s[..i]] + SplitOn(s[i + 1..], sep)
  }

  /** Joining the parts of a split with the separator gives back the
      string. */
  lemma {:induction false} JoinSplitOn(s: string, sep: char)
    ensures Join(SplitOn(s, sep), [sep]) == s
    decreases |s|
  {
    var i := Find(s, sep);
    if i >= 0 {
      JoinSplitOn(s[i + 1..], sep);
      JoinSplitStep(s, sep, i);
    }
  }

  /** One separator of a split: the join puts it back between the first
      part and the rest. */
  lemma JoinSplitStep(s: string, sep: char, i: int)
    requires i == Find(s, sep) && i >= 0
    ensures Join(SplitOn(s, sep), [sep]) == s[..i] + [sep] + Join(SplitOn(s[i + 1..], sep), [sep])
    ensures s == s[..i] + [sep] + s[i + 1..]
  {
    var rest := SplitOn(s[i + 1..], sep);
    SplitOnStep(s, sep, i);
    JoinCons(s[..i], rest, [sep]);
    SplitAround(s, i);
  }

  /** The split of a string with a separator at `i`, unfolded once. */
  lemma SplitOnStep(s: string, sep: char, i: int)
    requires i == Find(s, sep) && i >= 0
    ensures SplitOn(s, sep) == [s[..i]] + SplitOn(s[i + 1..], sep)
  {
  }

  /** A string around one of its characters. */
  lemma SplitAround(s: string, i: nat)
    requires i < |s|
    ensures s == s[..i] + [s[i]] + s[i + 1..]
  {
  }

  /** Joining a part in front of a non-empty list. */
  lemma JoinCons(a: string, parts: seq<string>, sep: string)
    requires parts != []
    ensures Join([a] + parts, sep) == a + sep + Join(parts, sep)
  {
    assert ([a] + parts)[0] == a && ([a] + parts)[1..] == parts;
  }

  /** Splitting a join on its separator gives back the parts, provided no
      part contains the separator. */
  lemma {:induction false} SplitOnJoin(parts: seq<string>, sep: char)
    requires |parts| >= 1
    requires forall k :: 0 <= k < |parts| ==> sep !in parts[k]
    ensures SplitOn(Join(parts, [sep]), sep) == parts
    decreases |parts|
  {
    if |parts| == 1 {
      assert Find(parts[0], sep) == -1;
    } else {
      var s := Join(parts, [sep]);
      var p := parts[0];
      var t := Join(parts[1..], [sep]);
      assert s == p + [sep] + t;
      assert Find(s, sep) == |p| by {
        assert sep !in parts[0];
        assert s[..|p|] == p;
        FindAt(s, sep, |p|);
      }
      assert SplitOn(s, sep) == [p] + SplitOn(t, sep) by {
        assert s[..|p|] == p;
        assert s[|p| + 1..] == t;
      }
      SplitOnJoin(parts[1..], sep);
      assert parts == [p] + parts[1..];
    }
  }

  /** Decimal digits of a natural number, as Python's `str(n)`. */
  function NatToString(n: nat): (r: string)
    ensures |r| >= 1
    ensures forall c :: c in r ==> '0' <= c <= '9'
    ensures forall k :: 0 <= k < |r| ==> '0' <= r[k] <= '9'
  {
    if n < 10 then [(48 + n) as char]
    else NatToString(n / 10) + [(48 + n % 10) as char]
  }

  /** The number a string of decimal digits denotes, as Python's `int(s)`
      reads it. */
  function DigitsValue(s: string): nat
    requires forall k :: 0 <= k < |s| ==> '0' <= s[k] <= '9'
  {
    if s == [] then 0 else DigitsValue(s[..|s| - 1]) * 10 + (s[|s| - 1] as int - 48)
  }

  /** `int(str(n)) == n`: the digits denote the number. */
  lemma {:induction false} NatToStringValue(n: nat)
    ensures DigitsValue(NatToString(n)) == n
    decreases n
  {
    var r := NatToString(n);
    if n >= 10 {
      assert r[..|r| - 1] == NatToString(n / 10);
      NatToStringValue(n / 10);
    }
  }

  /** Python's `str(n)` for an integer. */
  function IntToString(n: int): string {
    if n < 0 then "-" + NatToString(-n) else NatToString(n)
  }
}
