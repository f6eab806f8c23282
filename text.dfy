/**
 * Character classes and string operations shared by the JavaScript and the
 * Python scraper: the two runtimes disagree on what whitespace is, so both
 * sets are spelled out, and every search is stated as "the first index at
 * which a predicate holds".
 */
module Text {

  datatype Option<+T> = None | Some(value: T)

  datatype Result<+T, +E> = Success(value: T) | Failure(error: E)

  predicate IsDigit(c: char) { '0' <= c <= '9' }

  predicate IsLetter(c: char) { 'A' <= c <= 'Z' || 'a' <= c <= 'z' }

  predicate AllDigits(s: string) { forall i :: 0 <= i < |s| ==> IsDigit(s[i]) }

  /** JavaScript's `\s` class, which is also the set `String.prototype.trim` removes:
      the WhiteSpace and LineTerminator code points of ECMAScript. */
  predicate IsJsSpace(c: char) {
    var n := c as int;
    (0x09 <= n <= 0x0D) || n == 0x20 || n == 0xA0 || n == 0x1680
    || (0x2000 <= n <= 0x200A) || n == 0x2028 || n == 0x2029 || n == 0x202F
    || n == 0x205F || n == 0x3000 || n == 0xFEFF
  }

  /** Python's `str.isspace`, which is also what `\s` matches in a `str` pattern
      and what `str.strip()` and `str.split()` treat as whitespace. */
  predicate IsPySpace(c: char) {
    var n := c as int;
    (0x09 <= n <= 0x0D) || (0x1C <= n <= 0x20) || n == 0x85 || n == 0xA0 || n == 0x1680
    || (0x2000 <= n <= 0x200A) || n == 0x2028 || n == 0x2029 || n == 0x202F
    || n == 0x205F || n == 0x3000
  }

  /** ASCII upper-casing of one character. */
  function UpperChar(c: char): char {
    if 'a' <= c <= 'z' then (c as int - 32) as char else c
  }

  /** `toUpperCase()` / `upper()`, restricted to the ASCII letters. */
  function Upper(s: string): (r: string)
    ensures |r| == |s|
    ensures forall i :: 0 <= i < |s| ==> r[i] == UpperChar(s[i])
  {
    seq(|s|, i requires 0 <= i < |s| => UpperChar(s[i]))
  }

  /** `pat` occurs in `s` at index `k`, character for character. */
  predicate OccursAt(s: string, pat: string, k: nat) {
    k + |pat| <= |s| && s[k..k + |pat|] == pat
  }

  /** `pat` occurs in `s` at index `k` when ASCII case is ignored (a regex `i` flag). */
  predicate OccursAtIgnoringCase(s: string, pat: string, k: nat) {
    k + |pat| <= |s| && forall i :: 0 <= i < |pat| ==> UpperChar(s[k + i]) == UpperChar(pat[i])
  }

  /** The least index in [lo, hi) at which `f` holds. */
  function FindFirst(f: nat -> bool, lo: nat, hi: nat): (r: Option<nat>)
    ensures r.Some? ==> lo <= r.value < hi && f(r.value)
    ensures r.Some? ==> forall k :: lo <= k < r.value ==> !f(k)
    ensures r.None? ==> forall k :: lo <= k < hi ==> !f(k)
    decreases hi - lo
  {
    if lo >= hi then None
    else if f(lo) then Some(lo)
    else FindFirst(f, lo + 1, hi)
  }

  /** `s.indexOf(pat, from)`, with "not found" as None rather than -1. */
  function IndexOf(s: string, pat: string, from: nat): (r: Option<nat>)
    ensures r.Some? ==> from <= r.value && OccursAt(s, pat, r.value)
    ensures r.Some? ==> forall k :: from <= k < r.value ==> !OccursAt(s, pat, k)
    ensures r.None? ==> forall k :: from <= k ==> !OccursAt(s, pat, k)
  {
    var f := (k: nat) => OccursAt(s, pat, k);
    assert forall k: nat :: f(k) == OccursAt(s, pat, k);
    FindFirst(f, from, |s| + 1)
  }

  /** End of the run of characters satisfying `p` that starts at `from`. */
  function SkipWhile(s: string, from: nat, p: char -> bool): (r: nat)
    requires from <= |s|
    ensures from <= r <= |s|
    ensures forall i :: from <= i < r ==> p(s[i])
    ensures r < |s| ==> !p(s[r])
    decreases |s| - from
  {
    if from == |s| || !p(s[from]) then from else SkipWhile(s, from + 1, p)
  }

  /** Length of `s` once the trailing run of characters satisfying `ws` is cut off. */
  function TrimmedEnd(s: string, ws: char -> bool): (r: nat)
    ensures r <= |s|
    ensures forall i :: r <= i < |s| ==> ws(s[i])
    ensures r > 0 ==> !ws(s[r - 1])
    decreases |s|
  {
    if |s| == 0 || !ws(s[|s| - 1]) then |s| else TrimmedEnd(s[..|s| - 1], ws)
  }

  /** `trim()` / `strip()` with the whitespace class `ws`: the part of `s` left when
      the leading and the trailing whitespace runs are removed. */
  function Strip(s: string, ws: char -> bool): (r: string)
    ensures r == "" <==> forall i :: 0 <= i < |s| ==> ws(s[i])
    ensures r != "" ==> !ws(r[0]) && !ws(r[|r| - 1])
    ensures var a := SkipWhile(s, 0, ws);
            a + |r| <= |s| && r == s[a..a + |r|]
            && forall i :: a + |r| <= i < |s| ==> ws(s[i])
  {
    var a := SkipWhile(s, 0, ws);
    if a == |s| then "" else s[a..TrimmedEnd(s, ws)]
  }

  /** `n` copies of `c`. */
  function Repeat(c: char, n: nat): (r: string)
    ensures |r| == n && forall i :: 0 <= i < n ==> r[i] == c
  {
    seq(n, _ => c)
  }

  /** JavaScript `s.padStart(n, c)` for a one-character pad string. */
  function PadStart(s: string, n: nat, c: char): (r: string)
    ensures |r| == if |s| >= n then |s| else n
    ensures |r| >= |s| && r[|r| - |s|..] == s
    ensures forall i :: 0 <= i < |r| - |s| ==> r[i] == c
  {
    if |s| >= n then s else Repeat(c, n - |s|) + s
  }

  /** Python `s.zfill(width)`: zeros go after a leading sign character. */
  function Zfill(s: string, width: nat): (r: string)
    ensures |r| == if |s| >= width then |s| else width
    ensures |s| >= width ==> r == s
    ensures |s| < width && |s| > 0 && s[0] in "+-" ==>
              r[0] == s[0] && r[1..] == Repeat('0', width - |s|) + s[1..]
    ensures |s| < width && !(|s| > 0 && s[0] in "+-") ==> r == Repeat('0', width - |s|) + s
  {
    if |s| >= width then s
    else if |s| > 0 && s[0] in "+-" then [s[0]] + Repeat('0', width - |s|) + s[1..]
    else Repeat('0', width - |s|) + s
  }

  /** JavaScript `s.replace(/c/g, '')` / Python `s.replace(c, '')` for one character. */
  function RemoveChar(s: string, c: char): (r: string)
    ensures c !in r
    ensures |r| <= |s|
    ensures forall x :: x in r ==> x in s
    decreases |s|
  {
    if s == [] then []
    else if s[0] == c then RemoveChar(s[1..], c)
    else [s[0]] + RemoveChar(s[1..], c)
  }

  lemma {:induction false} RemoveCharAppend(a: string, b: string, c: char)
    ensures RemoveChar(a + b, c) == RemoveChar(a, c) + RemoveChar(b, c)
    decreases |a|
  {
    if a == [] {
      assert a + b == b;
    } else {
      assert (a + b)[1..] == a[1..] + b;
      RemoveCharAppend(a[1..], b, c);
    }
  }

  /** Removing a character that does not occur changes nothing. */
  lemma {:induction false} RemoveCharAbsent(s: string, c: char)
    requires c !in s
    ensures RemoveChar(s, c) == s
    decreases |s|
  {
    if s != [] {
      RemoveCharAbsent(s[1..], c);
    }
  }

  /** `s.endsWith(suffix)`. */
  predicate EndsWith(s: string, suffix: string) {
    |suffix| <= |s| && s[|s| - |suffix|..] == suffix
  }

  /** `s.includes(pat)` / `pat in s`. */
  predicate Contains(s: string, pat: string) {
    IndexOf(s, pat, 0).Some?
  }

  function DigitChar(d: nat): (c: char)
    requires d < 10
    ensures IsDigit(c)
  {
    ('0' as int + d) as char
  }

  function DigitValue(c: char): (d: nat)
    requires IsDigit(c)
    ensures d < 10 && DigitChar(d) == c
  {
    c as int - '0' as int
  }

  /** `String(n)` for a non-negative integer: its decimal digits, without leading zeros. */
  function DecimalString(n: nat): (r: string)
    ensures |r| >= 1 && AllDigits(r)
    ensures r[0] == '0' <==> n == 0
    decreases n
  {
    if n < 10 then [DigitChar(n)] else DecimalString(n / 10) + [DigitChar(n % 10)]
  }

  /** The number a string of decimal digits denotes (`parseInt(s, 10)` on such a string). */
  function DecimalValue(s: string): nat
    requires AllDigits(s)
    decreases |s|
  {
    if s == [] then 0 else DecimalValue(s[..|s| - 1]) * 10 + DigitValue(s[|s| - 1])
  }

  /** Reading back the decimal string of `n` gives `n`. */
  lemma {:induction false} DecimalRoundTrip(n: nat)
    ensures DecimalValue(DecimalString(n)) == n
    decreases n
  {
    if n >= 10 {
      var s := DecimalString(n);
      assert s[..|s| - 1] == DecimalString(n / 10);
      DecimalRoundTrip(n / 10);
    }
  }

  /** Leading zeros do not change the value of a digit string. */
  lemma {:induction false} LeadingZerosIgnored(z: string, s: string)
    requires forall i :: 0 <= i < |z| ==> z[i] == '0'
    requires AllDigits(s)
    ensures AllDigits(z + s)
    ensures DecimalValue(z + s) == DecimalValue(s)
    decreases |s| + |z|
  {
    if s == [] {
      assert z + s == z;
      if z != [] {
        assert z[..|z| - 1] + [] == z[..|z| - 1];
        LeadingZerosIgnored(z[..|z| - 1], []);
      }
    } else {
      assert (z + s)[..|z + s| - 1] == z + s[..|s| - 1];
      LeadingZerosIgnored(z, s[..|s| - 1]);
    }
  }
}
