/**
 * The Python string operations the core relies on: `lower`/`upper`, the `in`
 * substring test, `find`, slicing with negative indices, `strip`, `split`
 * counts and the decimal formatting used by f-strings (`{n}` and `{n:02d}`).
 * Case mapping is modelled for ASCII letters only.
 */
module Text {

  function LowerChar(c: char): char {
    if 'A' <= c <= 'Z' then (c as int + 32) as char else c
  }

  function UpperChar(c: char): char {
    if 'a' <= c <= 'z' then (c as int - 32) as char else c
  }

  /** `s.lower()` */
  function Lower(s: string): (r: string)
    ensures |r| == |s|
    ensures forall i :: 0 <= i < |s| ==> r[i] == LowerChar(s[i])
  {
    seq(|s|, i requires 0 <= i < |s| => LowerChar(s[i]))
  }

  /** `s.upper()` */
  function Upper(s: string): (r: string)
    ensures |r| == |s|
    ensures forall i :: 0 <= i < |s| ==> r[i] == UpperChar(s[i])
  {
    seq(|s|, i requires 0 <= i < |s| => UpperChar(s[i]))
  }

  lemma LowerAppend(a: string, b: string)
    ensures Lower(a + b) == Lower(a) + Lower(b)
  {
  }

  /** Lower-casing a text cut into four pieces, piece by piece. */
  lemma Lower4(a: string, b: string, c: string, d: string)
    ensures Lower(a + b + c + d) == Lower(a) + Lower(b) + Lower(c) + Lower(d)
  {
    LowerAppend(a, b);
    LowerAppend(a + b, c);
    LowerAppend(a + b + c, d);
  }

  /** `p` occurs in `s` at position `i`. */
  predicate MatchAt(s: string, p: string, i: nat) {
    i + |p| <= |s| && s[i..i + |p|] == p
  }

  /** Python's `p in s` for strings. */
  predicate Contains(s: string, p: string) {
    exists i: nat :: i <= |s| && MatchAt(s, p, i)
  }

  lemma MatchChar(s: string, p: string, i: nat, k: nat)
    requires k < |p|
    ensures MatchAt(s, p, i) ==> i + k < |s| && s[i + k] == p[k]
  {
    if MatchAt(s, p, i) {
      assert s[i..i + |p|][k] == p[k];
    }
  }

  /** If one character of `p` never occurs in `s`, then `p` does not occur in `s`. */
  lemma {:induction false} AbsentChar(s: string, p: string, k: nat)
    requires k < |p| && p[k] !in s
    ensures !Contains(s, p)
  {
    forall i: nat | MatchAt(s, p, i)
      ensures false
    {
      MatchChar(s, p, i, k);
    }
  }

  /** A character of `p` missing from each of four pieces shows that `p` is not in the whole. */
  lemma AbsentChar4(w: string, x: string, y: string, z: string, p: string, k: nat)
    requires k < |p| && p[k] !in w && p[k] !in x && p[k] !in y && p[k] !in z
    ensures !Contains(w + x + y + z, p)
  {
    AbsentChar(w + x + y + z, p, k);
  }

  /** No two adjacent characters of `s` are `a` followed by `b`. */
  predicate NoPair(s: string, a: char, b: char) {
    forall i :: 0 <= i < |s| - 1 ==> !(s[i] == a && s[i + 1] == b)
  }

  lemma NoPairConcat(x: string, y: string, a: char, b: char)
    requires NoPair(x, a, b) && NoPair(y, a, b)
    requires x == [] || y == [] || !(x[|x| - 1] == a && y[0] == b)
    ensures NoPair(x + y, a, b)
  {
    var s := x + y;
    forall i | 0 <= i < |s| - 1 ensures !(s[i] == a && s[i + 1] == b) {
      if i + 1 < |x| {
        assert s[i] == x[i] && s[i + 1] == x[i + 1];
      } else if i >= |x| {
        assert s[i] == y[i - |x|] && s[i + 1] == y[i + 1 - |x|];
      }
    }
  }

  /** A pair absent from four non-empty pieces and from their three joins is absent from the whole. */
  lemma NoPair4(w: string, x: string, y: string, z: string, a: char, b: char)
    requires w != [] && x != [] && y != [] && z != []
    requires NoPair(w, a, b) && NoPair(x, a, b) && NoPair(y, a, b) && NoPair(z, a, b)
    requires !(w[|w| - 1] == a && x[0] == b)
    requires !(x[|x| - 1] == a && y[0] == b)
    requires !(y[|y| - 1] == a && z[0] == b)
    ensures NoPair(w + x + y + z, a, b)
  {
    NoPairConcat(w, x, a, b);
    NoPairConcat(w + x, y, a, b);
    NoPairConcat(w + x + y, z, a, b);
  }

  /** If two adjacent characters of `p` never occur together in `s`, then `p` does not occur in `s`. */
  lemma {:induction false} AbsentPair(s: string, p: string, k: nat)
    requires k + 1 < |p| && NoPair(s, p[k], p[k + 1])
    ensures !Contains(s, p)
  {
    forall i: nat | MatchAt(s, p, i)
      ensures false
    {
      MatchChar(s, p, i, k);
      MatchChar(s, p, i, k + 1);
    }
  }

  /** A witness position shows that `p` occurs in `s`. */
  lemma Witness(s: string, p: string, i: nat)
    requires MatchAt(s, p, i)
    ensures Contains(s, p)
  {
  }

  lemma ContainsInLeft(a: string, b: string, p: string)
    requires Contains(a, p)
    ensures Contains(a + b, p)
  {
    var i: nat :| i <= |a| && MatchAt(a, p, i);
    assert (a + b)[i..i + |p|] == a[i..i + |p|];
    assert MatchAt(a + b, p, i);
  }

  lemma ContainsInRight(a: string, b: string, p: string)
    requires Contains(b, p)
    ensures Contains(a + b, p)
  {
    var i: nat :| i <= |b| && MatchAt(b, p, i);
    assert (a + b)[|a| + i..|a| + i + |p|] == b[i..i + |p|];
    assert MatchAt(a + b, p, |a| + i);
  }

  /** A phrase found in one of four pieces is found in the whole. */
  lemma Contains4(w: string, x: string, y: string, z: string, p: string)
    requires Contains(w, p) || Contains(x, p) || Contains(y, p) || Contains(z, p)
    ensures Contains(w + x + y + z, p)
  {
    if Contains(w, p) {
      ContainsInLeft(w, x, p);
    } else if Contains(x, p) {
      ContainsInRight(w, x, p);
    }
    if Contains(w + x, p) {
      ContainsInLeft(w + x, y, p);
    } else if Contains(y, p) {
      ContainsInRight(w + x, y, p);
    }
    if Contains(w + x + y, p) {
      ContainsInLeft(w + x + y, z, p);
    } else {
      ContainsInRight(w + x + y, z, p);
    }
  }

  /** The text ends in ": ". */
  predicate ColonEnded(s: string) {
    |s| >= 2 && s[|s| - 2] == ':' && s[|s| - 1] == ' '
  }

  /**
   * After a text ending in ": ", a phrase with no ':' that does not start with
   * a space cannot straddle the boundary: it occurs in the whole exactly when
   * it occurs in one of the parts.
   */
  lemma {:induction false} ContainsAfterColon(a: string, b: string, p: string)
    requires ColonEnded(a)
    requires p != [] && p[0] != ' ' && ':' !in p
    ensures Contains(a + b, p) <==> Contains(a, p) || Contains(b, p)
  {
    if Contains(a + b, p) {
      var i: nat :| i <= |a + b| && MatchAt(a + b, p, i);
      if i + |p| <= |a| {
        assert (a + b)[i..i + |p|] == a[i..i + |p|];
        assert MatchAt(a, p, i);
      } else if i >= |a| {
        assert (a + b)[i..i + |p|] == b[i - |a|..i - |a| + |p|];
        assert MatchAt(b, p, i - |a|);
      } else if i < |a| - 1 {
        MatchChar(a + b, p, i, |a| - 2 - i);
      }
    }
    if Contains(a, p) {
      ContainsInLeft(a, b, p);
    }
    if Contains(b, p) {
      ContainsInRight(a, b, p);
    }
  }

  /**
   * Python's `s.find(p, start)` for a non-empty `p` and `start >= 0`: the
   * lowest position at or after `start` where `p` occurs, or -1.
   */
  function Find(s: string, p: string, start: nat): (r: int)
    requires p != []
    decreases |s| - start
    ensures r == -1 || (start <= r && MatchAt(s, p, r))
    ensures r == -1 ==> forall j: nat :: start <= j ==> !MatchAt(s, p, j)
    ensures r != -1 ==> forall j: nat :: start <= j < r ==> !MatchAt(s, p, j)
  {
    if start + |p| > |s| then -1
    else if MatchAt(s, p, start) then start
    else Find(s, p, start + 1)
  }

  lemma FindFoundIff(s: string, p: string)
    requires p != []
    ensures Find(s, p, 0) != -1 <==> Contains(s, p)
  {
  }

  /** Python's clamping of one slice bound against a sequence of length `n`. */
  function SliceBound(b: int, n: nat): (r: nat)
    ensures r <= n
  {
    if b < 0 then (if b + n < 0 then 0 else b + n)
    else if b > n then n
    else b
  }

  /** Python's `s[a:b]`: negative bounds count from the end, bounds are clamped, and a reversed range is empty. */
  function PySlice(s: string, a: int, b: int): (r: string)
    ensures |r| <= |s|
    ensures 0 <= a <= b <= |s| ==> r == s[a..b]
  {
    var lo := SliceBound(a, |s|);
    var hi := SliceBound(b, |s|);
    if lo >= hi then [] else s[lo..hi]
  }

  /** The characters Python's `str.isspace` accepts (those in the Basic Multilingual Plane). */
  predicate IsSpace(c: char) {
    ('\t' <= c <= '\r') || ('\U{1c}' <= c <= ' ') || c == '\U{85}' || c == '\U{a0}'
    || c == '\U{1680}' || ('\U{2000}' <= c <= '\U{200a}') || c == '\U{2028}' || c == '\U{2029}'
    || c == '\U{202f}' || c == '\U{205f}' || c == '\U{3000}'
  }

  /** Number of leading whitespace characters. */
  function LeadingSpace(s: string): (n: nat)
    ensures n <= |s|
    ensures forall i :: 0 <= i < n ==> IsSpace(s[i])
    ensures n < |s| ==> !IsSpace(s[n])
  {
    if s == [] || !IsSpace(s[0]) then 0 else 1 + LeadingSpace(s[1..])
  }

  /** Number of trailing whitespace characters. */
  function TrailingSpace(s: string): (n: nat)
    ensures n <= |s|
    ensures forall i :: |s| - n <= i < |s| ==> IsSpace(s[i])
    ensures n < |s| ==> !IsSpace(s[|s| - n - 1])
  {
    if s == [] || !IsSpace(s[|s| - 1]) then 0 else 1 + TrailingSpace(s[..|s| - 1])
  }

  /** Python's `s.strip()`. */
  function Strip(s: string): (r: string)
    ensures |r| <= |s|
    ensures r != [] ==> !IsSpace(r[0]) && !IsSpace(r[|r| - 1])
    ensures exists i: nat, j: nat :: (i <= j <= |s| && r == s[i..j]
      && (forall k :: 0 <= k < i ==> IsSpace(s[k])) && (forall k :: j <= k < |s| ==> IsSpace(s[k])))
  {
    var i := LeadingSpace(s);
    var rest := s[i..];
    var n := TrailingSpace(rest);
    var r := rest[..|rest| - n];
    assert r == s[i..i + |rest| - n];
    assert r != [] ==> r[0] == s[i] && r[|r| - 1] == rest[|rest| - n - 1];
    r
  }

  /** `s.strip() == ""` exactly when every character of `s` is whitespace. */
  lemma {:induction false} StripEmptyIff(s: string)
    ensures Strip(s) == [] <==> forall k :: 0 <= k < |s| ==> IsSpace(s[k])
  {
    var i := LeadingSpace(s);
    if Strip(s) == [] {
      var rest := s[i..];
      var n := TrailingSpace(rest);
      assert |rest| - n == 0;
      forall k | 0 <= k < |s| ensures IsSpace(s[k]) {
      }
    } else {
      var r := Strip(s);
      assert r[0] == s[i];
    }
  }

  /** Number of occurrences of `c` in `s`. */
  function CountChar(s: string, c: char): (n: nat)
    ensures n <= |s|
    ensures n == 0 <==> c !in s
  {
    if s == [] then 0 else (if s[0] == c then 1 else 0) + CountChar(s[1..], c)
  }

  /** `len(s.split(sep))` for a one-character separator. */
  function SplitCount(s: string, sep: char): (n: nat)
    ensures n >= 2 <==> sep in s
  {
    CountChar(s, sep) + 1
  }

  function DigitChar(d: nat): char
    requires d < 10
  {
    "0123456789"[d]
  }

  function DigitValue(c: char): nat
    requires '0' <= c <= '9'
  {
    c as nat - '0' as nat
  }

  predicate AllDigits(s: string) {
    forall i :: 0 <= i < |s| ==> '0' <= s[i] <= '9'
  }

  /** Lower-casing leaves digits alone. */
  lemma LowerDigits(s: string)
    requires AllDigits(s)
    ensures Lower(s) == s
  {
  }

  /**
   * Digits after ": " add no occurrence of a phrase that starts with a
   * letter and has no ':'.
   */
  lemma {:induction false} DigitsAfterColon(a: string, digits: string, p: string)
    requires ColonEnded(a) && AllDigits(digits)
    requires p != [] && 'a' <= p[0] <= 'z' && ':' !in p
    ensures Contains(a + digits, p) <==> Contains(a, p)
  {
    ContainsAfterColon(a, digits, p);
    AbsentChar(digits, p, 0);
  }

  /** Value of a string of decimal digits. */
  function DecimalValue(s: string): nat
    requires AllDigits(s)
  {
    if s == [] then 0 else DecimalValue(s[..|s| - 1]) * 10 + DigitValue(s[|s| - 1])
  }

  /** Python's `str(n)` for a natural number. */
  function NatToString(n: nat): (r: string)
    ensures r != [] && AllDigits(r) && DecimalValue(r) == n
    ensures n < 10 ==> |r| == 1
    ensures 10 <= n < 100 ==> |r| == 2
    ensures 1000 <= n < 10000 ==> |r| == 4
  {
    if n < 10 then [DigitChar(n)]
    else
      var r := NatToString(n / 10) + [DigitChar(n % 10)];
      assert r[..|r| - 1] == NatToString(n / 10);
      r
  }

  /** Python's `f"{n:02d}"` for `n < 100`: zero-padded to two digits. */
  function Pad2(n: nat): (r: string)
    requires n < 100
    ensures |r| == 2 && AllDigits(r) && DecimalValue(r) == n
  {
    if n < 10 then
      var r := "0" + NatToString(n);
      assert r[..1] == "0";
      r
    else NatToString(n)
  }
}
