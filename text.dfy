/** Text helpers standing for the Python `str` operations the core uses:
    `startswith`, the `in` substring test, `strip()`, `lower()` and `", ".join(...)`. */
module Text {

  /** `s.startswith(prefix)` */
  predicate StartsWith(s: string, prefix: string) {
    |prefix| <= |s| && s[..|prefix|] == prefix
  }

  /** `sub in s` for two strings */
  predicate Contains(s: string, sub: string) {
    exists i | 0 <= i <= |s| :: StartsWith(s[i..], sub)
  }

  /** The index of the first occurrence of `sub` in `s`, as `str.find` would report it. */
  function IndexOf(s: string, sub: string): (r: Search)
    ensures r.Found? ==> r.index <= |s| && StartsWith(s[r.index..], sub)
    ensures r.Found? ==> forall j | 0 <= j < r.index :: !StartsWith(s[j..], sub)
    ensures r.Missing? <==> !Contains(s, sub)
    decreases |s|
  {
    if StartsWith(s, sub) then Found(0)
    else if |s| == 0 then Missing
    else
      match IndexOf(s[1..], sub)
      case Missing =>
        assert forall j | 1 <= j <= |s| :: s[j..] == s[1..][j - 1..];
        Missing
      case Found(k) =>
        assert forall j | 1 <= j <= |s| :: s[j..] == s[1..][j - 1..];
        Found(k + 1)
  }

  /** Result of a search: the position found, if any. */
  datatype Search = Missing | Found(index: nat)

  lemma ContainsAt(s: string, i: nat, sub: string)
    requires i <= |s| && StartsWith(s[i..], sub)
    ensures Contains(s, sub)
  {
  }

  /** A substring of a part is a substring of the whole. */
  lemma {:induction false} ContainsInConcat(x: string, a: string, y: string, sub: string)
    requires Contains(a, sub)
    ensures Contains(x + a + y, sub)
  {
    var i :| 0 <= i <= |a| && StartsWith(a[i..], sub);
    var w := x + a + y;
    assert w[|x| + i..][..|sub|] == a[i..][..|sub|];
    ContainsAt(w, |x| + i, sub);
  }

  lemma ContainsSelf(s: string)
    ensures Contains(s, s)
  {
    assert StartsWith(s[0..], s);
  }

  /** The characters Python's `str.isspace` accepts, which `strip()` removes. */
  predicate IsSpace(c: char) {
    c == ' ' || c == '\t' || c == '\n' || c == '\r' || c == '\U{000B}' || c == '\U{000C}'
    || ('\U{001C}' <= c <= '\U{001F}') || c == '\U{0085}' || c == '\U{00A0}' || c == '\U{1680}'
    || ('\U{2000}' <= c <= '\U{200A}') || c == '\U{2028}' || c == '\U{2029}' || c == '\U{202F}'
    || c == '\U{205F}' || c == '\U{3000}'
  }

  /** Every character of `s` from `lo` up to (not including) `hi` is whitespace. */
  predicate SpaceBetween(s: string, lo: int, hi: int)
    requires 0 <= lo <= hi <= |s|
  {
    forall k | lo <= k < hi :: IsSpace(s[k])
  }

  /** `s.lstrip()`: whitespace is dropped from the front. */
  function TrimStart(s: string): string
    decreases |s|
  {
    if |s| > 0 && IsSpace(s[0]) then TrimStart(s[1..]) else s
  }

  /** `s.rstrip()`: whitespace is dropped from the back. */
  function TrimEnd(s: string): string
    decreases |s|
  {
    if |s| > 0 && IsSpace(s[|s| - 1]) then TrimEnd(s[..|s| - 1]) else s
  }

  /** `lstrip()` leaves the longest suffix of `s` that does not start with whitespace. */
  lemma {:induction false} TrimStartShape(s: string)
    ensures var r := TrimStart(s); |r| <= |s| && r == s[|s| - |r|..]
    ensures var r := TrimStart(s); SpaceBetween(s, 0, |s| - |r|)
    ensures var r := TrimStart(s); r == [] || !IsSpace(r[0])
    decreases |s|
  {
    if |s| > 0 && IsSpace(s[0]) {
      TrimStartShape(s[1..]);
      var r := TrimStart(s[1..]);
      assert s[1..][|s| - 1 - |r|..] == s[|s| - |r|..];
      forall k | 0 <= k < |s| - |r| ensures IsSpace(s[k]) {
        if k > 0 {
          assert s[k] == s[1..][k - 1];
        }
      }
    }
  }

  /** `rstrip()` leaves the longest prefix of `s` that does not end with whitespace. */
  lemma {:induction false} TrimEndShape(s: string)
    ensures var r := TrimEnd(s); |r| <= |s| && r == s[..|r|]
    ensures var r := TrimEnd(s); SpaceBetween(s, |r|, |s|)
    ensures var r := TrimEnd(s); r == [] || !IsSpace(r[|r| - 1])
    decreases |s|
  {
    if |s| > 0 && IsSpace(s[|s| - 1]) {
      var p := s[..|s| - 1];
      TrimEndShape(p);
      var r := TrimEnd(p);
      assert p[..|r|] == s[..|r|];
      forall k | |r| <= k < |s| ensures IsSpace(s[k]) {
        if k < |s| - 1 {
          assert s[k] == p[k];
        }
      }
    }
  }

  /** `s.strip()` */
  function Strip(s: string): (r: string)
    ensures |r| <= |s|
    ensures r == [] || (!IsSpace(r[0]) && !IsSpace(r[|r| - 1]))
  {
    TrimStartShape(s);
    TrimEndShape(TrimStart(s));
    TrimEnd(TrimStart(s))
  }

  /** What `strip()` promises: `s` is some whitespace, then the result, then some
      whitespace, and the result neither starts nor ends with whitespace. */
  lemma StripShape(s: string)
    ensures var r := Strip(s); var i := |s| - |TrimStart(s)|;
      0 <= i && i + |r| <= |s| && s[i..i + |r|] == r && SpaceBetween(s, 0, i) && SpaceBetween(s, i + |r|, |s|)
    ensures var r := Strip(s); r == [] || (!IsSpace(r[0]) && !IsSpace(r[|r| - 1]))
  {
    var t := TrimStart(s);
    TrimStartShape(s);
    var r := TrimEnd(t);
    TrimEndShape(t);
    TrimBoth(s, t, r);
  }

  /** Whitespace cut from the front of `s`, then from the back of what remains. */
  lemma TrimBoth(s: string, t: string, r: string)
    requires |t| <= |s| && t == s[|s| - |t|..] && SpaceBetween(s, 0, |s| - |t|)
    requires t == [] || !IsSpace(t[0])
    requires |r| <= |t| && r == t[..|r|] && SpaceBetween(t, |r|, |t|)
    requires r == [] || !IsSpace(r[|r| - 1])
    ensures var i := |s| - |t|;
      0 <= i && i + |r| <= |s| && s[i..i + |r|] == r && SpaceBetween(s, 0, i) && SpaceBetween(s, i + |r|, |s|)
    ensures r == [] || (!IsSpace(r[0]) && !IsSpace(r[|r| - 1]))
  {
    var i := |s| - |t|;
    assert s[i..i + |r|] == r by {
      assert t == s[i..];
      assert r == t[..|r|];
    }
    SpaceBetweenOfSuffix(s, i, |r|, |t|);
    assert r == [] || !IsSpace(r[0]) by {
      if r != [] {
        assert r[0] == t[0];
      }
    }
  }

  /** Whitespace in a suffix of `s` is whitespace in `s`, at shifted positions. */
  lemma SpaceBetweenOfSuffix(s: string, i: nat, lo: nat, hi: nat)
    requires i <= |s| && lo <= hi <= |s| - i && SpaceBetween(s[i..], lo, hi)
    ensures SpaceBetween(s, i + lo, i + hi)
  {
    forall k | i + lo <= k < i + hi ensures IsSpace(s[k]) {
      assert s[k] == s[i..][k - i];
    }
  }

  /** Stripping text that has no surrounding whitespace changes nothing. */
  lemma StripUnpadded(s: string)
    requires s == [] || (!IsSpace(s[0]) && !IsSpace(s[|s| - 1]))
    ensures Strip(s) == s
  {
  }

  /** `c.lower()` for one character; only the ASCII letters are mapped. */
  function LowerChar(c: char): char {
    if 'A' <= c <= 'Z' then (c as int + 32) as char else c
  }

  /** `s.lower()` with ASCII case mapping. */
  function Lower(s: string): (r: string)
    ensures |r| == |s|
  {
    seq(|s|, i requires 0 <= i < |s| => LowerChar(s[i]))
  }

  /** Lower-casing twice is lower-casing once. */
  lemma LowerIdempotent(s: string)
    ensures Lower(Lower(s)) == Lower(s)
  {
  }

  /** Text without ASCII capitals is its own lower case. */
  lemma LowerOfLowercase(s: string)
    requires forall i | 0 <= i < |s| :: !('A' <= s[i] <= 'Z')
    ensures Lower(s) == s
  {
  }

  /** `sep.join(items)` */
  function Join(items: seq<string>, sep: string): string
    decreases |items|
  {
    if |items| == 0 then ""
    else if |items| == 1 then items[0]
    else items[0] + sep + Join(items[1..], sep)
  }

  /** Every joined item occurs in the joined text. */
  lemma {:induction false} JoinContainsItems(items: seq<string>, sep: string, k: nat)
    requires k < |items|
    ensures Contains(Join(items, sep), items[k])
    decreases |items|
  {
    if |items| == 1 {
      ContainsSelf(items[0]);
    } else if k == 0 {
      ContainsSelf(items[0]);
      ContainsInConcat("", items[0], sep + Join(items[1..], sep), items[0]);
      assert "" + items[0] + (sep + Join(items[1..], sep)) == Join(items, sep);
    } else {
      JoinContainsItems(items[1..], sep, k - 1);
      ContainsInConcat(items[0] + sep, Join(items[1..], sep), "", items[k]);
      assert items[0] + sep + Join(items[1..], sep) + "" == Join(items, sep);
    }
  }
}
