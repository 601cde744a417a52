/** Operations on strings that the TypeScript code calls on `string`:
    `startsWith`, `endsWith`, `includes`, `toLowerCase`, the decimal
    rendering of a number inside a template literal, and `Array.join`. */
module Text {

  /** `s.startsWith(prefix)` */
  predicate StartsWith(s: string, prefix: string) {
    |prefix| <= |s| && s[..|prefix|] == prefix
  }

  /** A string starting with `p + q` starts with `p`. */
  lemma StartsWithShorter(s: string, p: string, q: string)
    requires StartsWith(s, p + q)
    ensures StartsWith(s, p)
  {
    assert s[..|p|] == s[..|p + q|][..|p|];
  }

  /** `s.endsWith(suffix)` */
  predicate EndsWith(s: string, suffix: string) {
    |suffix| <= |s| && s[|s| - |suffix|..] == suffix
  }

  /** One differing character rules out a prefix. */
  lemma NotStartsWithAt(s: string, prefix: string, i: nat)
    requires i < |prefix| && i < |s| && s[i] != prefix[i]
    ensures !StartsWith(s, prefix)
  {
    if |prefix| <= |s| {
      assert s[..|prefix|][i] == s[i];
    }
  }

  /** `w` occurs in `s` starting at index `i`. */
  predicate OccursAt(s: string, w: string, i: int) {
    0 <= i && i + |w| <= |s| && s[i..i + |w|] == w
  }

  /** `s.includes(w)` (case-sensitive). */
  predicate Contains(s: string, w: string) {
    exists i :: 0 <= i <= |s| - |w| && OccursAt(s, w, i)
  }

  /** Exhibits an occurrence. */
  lemma ContainsAt(s: string, w: string, i: int)
    requires OccursAt(s, w, i)
    ensures Contains(s, w)
  {
  }

  /** A string `p` none of whose characters is the first character of `w`
      cannot hold, nor straddle, an occurrence of `w`: glueing `p` in front of
      `s` neither creates nor destroys an occurrence. */
  lemma ContainsAfterPrefix(p: string, s: string, w: string)
    requires |w| > 0
    requires forall k :: 0 <= k < |p| ==> p[k] != w[0]
    ensures Contains(p + s, w) <==> Contains(s, w)
  {
    if Contains(p + s, w) {
      var i :| 0 <= i <= |p + s| - |w| && OccursAt(p + s, w, i);
      assert (p + s)[i] == w[0];
      assert forall k :: 0 <= k < |p| ==> (p + s)[k] == p[k];
      assert i >= |p|;
      assert (p + s)[i..i + |w|] == s[i - |p|..i - |p| + |w|];
      assert OccursAt(s, w, i - |p|);
    }
    if Contains(s, w) {
      var j :| 0 <= j <= |s| - |w| && OccursAt(s, w, j);
      assert (p + s)[j + |p|..j + |p| + |w|] == s[j..j + |w|];
      assert OccursAt(p + s, w, j + |p|);
    }
  }

  /** An occurrence in `s` is still an occurrence after text is appended. */
  lemma ContainsBeforeSuffix(s: string, t: string, w: string)
    requires Contains(s, w)
    ensures Contains(s + t, w)
  {
    var i :| 0 <= i <= |s| - |w| && OccursAt(s, w, i);
    assert (s + t)[i..i + |w|] == s[i..i + |w|];
    assert OccursAt(s + t, w, i);
  }

  /** An occurrence in `s` is still an occurrence after text is prepended. */
  lemma ContainsAfterAnyPrefix(p: string, s: string, w: string)
    requires Contains(s, w)
    ensures Contains(p + s, w)
  {
    var j :| 0 <= j <= |s| - |w| && OccursAt(s, w, j);
    assert (p + s)[|p| + j..|p| + j + |w|] == s[j..j + |w|];
    assert OccursAt(p + s, w, |p| + j);
  }

  /** A word occurs in any text that has it in the middle. */
  lemma ContainsMiddle(a: string, w: string, b: string)
    ensures Contains(a + w + b, w)
  {
    assert (a + w + b)[|a|..|a| + |w|] == w;
    assert OccursAt(a + w + b, w, |a|);
  }

  /** ASCII case folding of one character; other characters are kept. */
  function LowerChar(c: char): (d: char)
    ensures 'A' <= c <= 'Z' ==> d != c && 'a' <= d <= 'z'
    ensures !('A' <= c <= 'Z') ==> d == c
  {
    if 'A' <= c <= 'Z' then (c as int + 32) as char else c
  }

  /** `s.toLowerCase()`, restricted to ASCII letters. */
  function Lower(s: string): (r: string)
    ensures |r| == |s|
    ensures forall i :: 0 <= i < |s| ==> r[i] == LowerChar(s[i])
  {
    seq(|s|, i requires 0 <= i < |s| => LowerChar(s[i]))
  }

  /** A string without upper-case ASCII letters is its own lower-case form. */
  lemma LowerKeepsLowerCase(s: string)
    requires forall i :: 0 <= i < |s| ==> !('A' <= s[i] <= 'Z')
    ensures Lower(s) == s
  {
  }

  /** Lower-casing a lower-cased string changes nothing. */
  lemma LowerIdempotent(s: string)
    ensures Lower(Lower(s)) == Lower(s)
  {
  }

  predicate IsDigit(c: char) {
    '0' <= c <= '9'
  }

  function DigitChar(d: nat): (c: char)
    requires d < 10
    ensures IsDigit(c) && c as int - '0' as int == d
  {
    ('0' as int + d) as char
  }

  /** The value of a string of decimal digits, read most significant first. */
  function DecimalValue(s: string): nat
    requires forall k :: 0 <= k < |s| ==> IsDigit(s[k])
  {
    if s == [] then 0
    else
      assert IsDigit(s[|s| - 1]);
      10 * DecimalValue(s[..|s| - 1]) + (s[|s| - 1] as int - '0' as int)
  }

  /** `${n}` for a non-negative integer: its decimal digits without leading
      zeros. */
  function NatToString(n: nat): (r: string)
    ensures |r| > 0
    ensures forall k :: 0 <= k < |r| ==> IsDigit(r[k])
    ensures |r| > 1 ==> r[0] != '0'
  {
    if n < 10 then [DigitChar(n)] else NatToString(n / 10) + [DigitChar(n % 10)]
  }

  /** Reading back the digits gives the number again. */
  lemma {:induction false} NatToStringRoundTrip(n: nat)
    ensures DecimalValue(NatToString(n)) == n
  {
    if n >= 10 {
      NatToStringRoundTrip(n / 10);
      var s := NatToString(n);
      assert s[..|s| - 1] == NatToString(n / 10);
    }
  }

  /** `parts.join(sep)` */
  function Join(parts: seq<string>, sep: string): (r: string)
    ensures |parts| == 0 ==> r == ""
    ensures |parts| > 0 ==> StartsWith(r, parts[0])
  {
    if |parts| == 0 then ""
    else if |parts| == 1 then parts[0]
    else parts[0] + sep + Join(parts[1..], sep)
  }

  /** Every part of a join appears in the joined text. */
  lemma {:induction false} JoinContainsParts(parts: seq<string>, sep: string, k: nat)
    requires k < |parts|
    ensures Contains(Join(parts, sep), parts[k])
  {
    var r := Join(parts, sep);
    if k == 0 {
      assert OccursAt(r, parts[0], 0);
    } else {
      JoinContainsParts(parts[1..], sep, k - 1);
      var tail := Join(parts[1..], sep);
      var i :| 0 <= i <= |tail| - |parts[k]| && OccursAt(tail, parts[k], i);
      var off := |parts[0] + sep|;
      assert r == parts[0] + sep + tail;
      assert r[off + i..off + i + |parts[k]|] == tail[i..i + |parts[k]|];
      assert OccursAt(r, parts[k], off + i);
    }
  }
}
