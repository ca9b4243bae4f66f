/**
 * The few string operations of Python's `str` that the modelled code relies on:
 * `str(n)` of a non-negative integer, substring search, and `s.split(sep)` for a
 * non-empty separator.
 */
module Text {
  import opened Wrappers

  predicate IsDigit(c: char) {
    '0' <= c <= '9'
  }

  function DigitChar(d: nat): (c: char)
    requires d < 10
    ensures IsDigit(c)
  {
    (48 + d) as char
  }

  function DigitValue(c: char): (d: nat)
    requires IsDigit(c)
    ensures d < 10 && DigitChar(d) == c
  {
    c as int - 48
  }

  /** `str(n)` for an int `n >= 0`: its decimal digits, without leading zeros. */
  function DecimalString(n: nat): (s: string)
    ensures |s| >= 1
    ensures forall i :: 0 <= i < |s| ==> IsDigit(s[i])
    ensures s[0] == '0' ==> n == 0
    decreases n
  {
    if n < 10 then [DigitChar(n)] else DecimalString(n / 10) + [DigitChar(n % 10)]
  }

  /** The value of a string of decimal digits (`int(s)` on such a string). */
  function DecimalValue(s: string): nat
    requires forall i :: 0 <= i < |s| ==> IsDigit(s[i])
  {
    if |s| == 0 then 0 else DecimalValue(s[..|s| - 1]) * 10 + DigitValue(s[|s| - 1])
  }

  /** Reading back what `str(n)` printed gives `n`. */
  lemma {:induction false} DecimalRoundTrip(n: nat)
    ensures DecimalValue(DecimalString(n)) == n
    decreases n
  {
    var s := DecimalString(n);
    if n < 10 {
      assert s[..0] == [];
    } else {
      assert s[..|s| - 1] == DecimalString(n / 10);
      DecimalRoundTrip(n / 10);
    }
  }

  /** `pat` occurs in `s` starting at index `i`. */
  predicate OccursAt(s: string, pat: string, i: nat) {
    i + |pat| <= |s| && s[i..i + |pat|] == pat
  }

  /** `pat in s` for strings. */
  ghost predicate Contains(s: string, pat: string) {
    exists i: nat :: OccursAt(s, pat, i)
  }

  /** The first occurrence of `pat` in `s` at or after `from` (`s.find(pat, from)`). */
  function Find(s: string, pat: string, from: nat): (r: Option<nat>)
    ensures r.Some? ==> from <= r.value && OccursAt(s, pat, r.value)
    ensures r.Some? ==> forall j: nat :: from <= j < r.value ==> !OccursAt(s, pat, j)
    ensures r.None? ==> forall j: nat :: from <= j ==> !OccursAt(s, pat, j)
    decreases |s| - from
  {
    if from + |pat| > |s| then None
    else if s[from..from + |pat|] == pat then Some(from)
    else Find(s, pat, from + 1)
  }

  lemma OccursInPrefix(s: string, pat: string, n: nat, j: nat)
    requires n <= |s| && OccursAt(s[..n], pat, j)
    ensures OccursAt(s, pat, j)
  {
  }

  /** `sep.join(parts)`. */
  function Join(parts: seq<string>, sep: string): string {
    if |parts| == 0 then ""
    else if |parts| == 1 then parts[0]
    else parts[0] + sep + Join(parts[1..], sep)
  }

  /**
   * `s.split(sep)` for a non-empty `sep`: cut `s` at every occurrence of `sep`,
   * scanning from the left. Joining the parts again gives back `s`, and no part
   * contains the separator; the first cut is at the leftmost occurrence, which
   * pins the parts down also for a separator that overlaps itself.
   */
  function Split(s: string, sep: string): (parts: seq<string>)
    requires |sep| > 0
    ensures |parts| >= 1
    ensures forall p :: p in parts ==> !Contains(p, sep)
    ensures Join(parts, sep) == s
    ensures Find(s, sep, 0).None? ==> parts == [s]
    ensures Find(s, sep, 0).Some? ==> |parts| >= 2 && |parts[0]| == Find(s, sep, 0).value
    decreases |s|
  {
    match Find(s, sep, 0)
    case None => [s]
    case Some(i) =>
      var head, tail := s[..i], s[i + |sep|..];
      assert !Contains(head, sep) by {
        forall j: nat | OccursAt(head, sep, j) ensures false {
          OccursInPrefix(s, sep, i, j);
        }
      }
      assert s == head + sep + tail by {
        assert s[i..i + |sep|] == sep;
      }
      [head] + Split(tail, sep)
  }

  /** `parts[-1]`. */
  function Last(parts: seq<string>): string
    requires |parts| >= 1
  {
    parts[|parts| - 1]
  }

  lemma {:induction false} JoinLast(parts: seq<string>, sep: string)
    requires |parts| >= 2
    ensures Join(parts, sep) == Join(parts[..|parts| - 1], sep) + sep + Last(parts)
    decreases |parts|
  {
    if |parts| > 2 {
      JoinLast(parts[1..], sep);
      assert parts[1..][..|parts| - 2] == parts[..|parts| - 1][1..];
    }
  }

  /**
   * `s.split(c)[-1]` for a one-character separator is the text after the last
   * `c` of `s`, or all of `s` when `s` holds no `c`.
   */
  lemma LastSegment(s: string, c: char)
    ensures var seg := Last(Split(s, [c]));
      && (forall i :: 0 <= i < |seg| ==> seg[i] != c)
      && |seg| <= |s| && s[|s| - |seg|..] == seg
      && (seg == s || s[|s| - |seg| - 1] == c)
  {
    var parts := Split(s, [c]);
    var seg := Last(parts);
    assert !Contains(seg, [c]);
    forall i | 0 <= i < |seg| ensures seg[i] != c {
      assert !OccursAt(seg, [c], i);
      assert seg[i..i + 1] == [seg[i]];
    }
    if |parts| >= 2 {
      JoinLast(parts, [c]);
      var front := Join(parts[..|parts| - 1], [c]);
      assert s == front + [c] + seg;
      assert s[|s| - |seg|..] == seg;
    } else {
      assert seg == s;
    }
  }
}
