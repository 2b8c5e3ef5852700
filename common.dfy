/** Shared vocabulary of the model: optional values and error results, the
    handful of Python string operations the core relies on (ASCII case
    mapping, substring search, `str.strip`, `str.join`, slicing with a possibly
    negative bound, `int()` on decimal text) and sums over real sequences. */
module Common {

  datatype Option<T> = None | Some(value: T)

  /** A value or the text of the exception that replaced it. */
  datatype Result<T> = Ok(value: T) | Err(error: string)

  /** `d.get(key, default)` on an optional entry. */
  function GetOr<T>(o: Option<T>, default: T): T
  {
    if o.Some? then o.value else default
  }

  // ---------------------------------------------------------------------
  // Characters and case mapping (ASCII only)
  // ---------------------------------------------------------------------

  predicate IsUpperChar(c: char) { 'A' <= c <= 'Z' }
  predicate IsLowerChar(c: char) { 'a' <= c <= 'z' }
  predicate IsLetter(c: char) { IsUpperChar(c) || IsLowerChar(c) }
  predicate IsDigit(c: char) { '0' <= c <= '9' }
  predicate IsSpace(c: char) { c == ' ' || c == '\t' || c == '\n' || c == '\r' || c as int == 11 || c as int == 12 }

  function LowerChar(c: char): (r: char)
    ensures !IsUpperChar(r)
    ensures IsUpperChar(c) || r == c
  {
    if IsUpperChar(c) then (c as int + 32) as char else c
  }

  function UpperChar(c: char): (r: char)
    ensures !IsLowerChar(r)
    ensures IsLowerChar(c) || r == c
  {
    if IsLowerChar(c) then (c as int - 32) as char else c
  }

  /** Python's `str.lower` on ASCII text. */
  function Lower(s: string): (r: string)
    ensures |r| == |s|
    ensures forall i :: 0 <= i < |s| ==> r[i] == LowerChar(s[i])
  {
    seq(|s|, i requires 0 <= i < |s| => LowerChar(s[i]))
  }

  /** Python's `str.upper` on ASCII text. */
  function Upper(s: string): (r: string)
    ensures |r| == |s|
    ensures forall i :: 0 <= i < |s| ==> r[i] == UpperChar(s[i])
  {
    seq(|s|, i requires 0 <= i < |s| => UpperChar(s[i]))
  }

  predicate HasNoUpper(s: string) { forall i :: 0 <= i < |s| ==> !IsUpperChar(s[i]) }

  /** Text without upper-case letters is its own lower-case form. */
  lemma LowerOfLowerCase(s: string)
    requires HasNoUpper(s)
    ensures Lower(s) == s
  {
  }

  // ---------------------------------------------------------------------
  // Substrings
  // ---------------------------------------------------------------------

  /** `sub` occurs in `s` starting at position `i`. */
  predicate OccursAt(s: string, sub: string, i: int)
  {
    0 <= i && i + |sub| <= |s| && s[i..i + |sub|] == sub
  }

  /** Python's `sub in s` for strings. */
  predicate Contains(s: string, sub: string)
  {
    exists i | 0 <= i <= |s| - |sub| :: OccursAt(s, sub, i)
  }

  /** A string contains every string it begins with. */
  lemma ContainsPrefix(s: string, p: string)
    requires |p| <= |s| && s[..|p|] == p
    ensures Contains(s, p)
  {
    assert OccursAt(s, p, 0);
  }

  /** A string contains each of its slices. */
  lemma ContainsSlice(s: string, i: nat, j: nat)
    requires i <= j <= |s|
    ensures Contains(s, s[i..j])
  {
    assert OccursAt(s, s[i..j], i);
  }

  /** A non-empty substring forces its first character into the string. */
  lemma ContainsFirstChar(s: string, sub: string)
    requires |sub| > 0 && Contains(s, sub)
    ensures sub[0] in s
  {
    var i :| 0 <= i <= |s| - |sub| && OccursAt(s, sub, i);
    assert s[i] == s[i..i + |sub|][0] == sub[0];
  }

  /** A substring of a substring is a substring. */
  lemma ContainsTransitive(s: string, mid: string, sub: string)
    requires Contains(s, mid) && Contains(mid, sub)
    ensures Contains(s, sub)
  {
    var i :| 0 <= i <= |s| - |mid| && OccursAt(s, mid, i);
    var j :| 0 <= j <= |mid| - |sub| && OccursAt(mid, sub, j);
    var m := s[i..i + |mid|];
    forall k | 0 <= k < |sub|
      ensures s[i + j..i + j + |sub|][k] == sub[k]
    {
      assert s[i + j..i + j + |sub|][k] == s[i + j + k] == m[j + k];
      assert m[j..j + |sub|][k] == m[j + k];
    }
    assert s[i + j..i + j + |sub|] == sub;
    assert OccursAt(s, sub, i + j);
  }

  // ---------------------------------------------------------------------
  // Joining, stripping, slicing
  // ---------------------------------------------------------------------

  /** Python's `sep.join(parts)`. */
  function Join(sep: string, parts: seq<string>): string
  {
    if |parts| == 0 then ""
    else if |parts| == 1 then parts[0]
    else parts[0] + sep + Join(sep, parts[1..])
  }

  function TrimLeft(s: string): (r: string)
    ensures |r| <= |s|
    decreases |s|
  {
    if |s| > 0 && IsSpace(s[0]) then TrimLeft(s[1..]) else s
  }

  function TrimRight(s: string): (r: string)
    ensures |r| <= |s|
    decreases |s|
  {
    if |s| > 0 && IsSpace(s[|s| - 1]) then TrimRight(s[..|s| - 1]) else s
  }

  /** Python's `str.strip()` for ASCII white space. */
  function Strip(s: string): string { TrimRight(TrimLeft(s)) }

  /** Python's `s[:k]`: a negative bound counts from the end, and the
      slice never runs past either end. */
  function SliceTo<T>(s: seq<T>, k: int): (r: seq<T>)
    ensures |r| <= |s|
    ensures r == s[..|r|]
    ensures k >= 0 ==> |r| == if k <= |s| then k else |s|
  {
    if k >= 0 then (if k <= |s| then s[..k] else s)
    else if |s| + k >= 0 then s[..|s| + k]
    else []
  }

  function Min(a: int, b: int): int { if a <= b then a else b }
  function Max(a: int, b: int): int { if a >= b then a else b }
  function MinReal(a: real, b: real): real { if a <= b then a else b }
  function MaxReal(a: real, b: real): real { if a >= b then a else b }

  // ---------------------------------------------------------------------
  // Numbers as text
  // ---------------------------------------------------------------------

  function DigitChar(d: nat): char
    requires d < 10
  {
    ('0' as int + d) as char
  }

  /** Decimal rendering of a natural number, as Python's `str(n)`. */
  function NatToString(n: nat): (r: string)
    ensures |r| > 0
    ensures forall i :: 0 <= i < |r| ==> IsDigit(r[i])
  {
    if n < 10 then [DigitChar(n)] else NatToString(n / 10) + [DigitChar(n % 10)]
  }

  function DigitsValue(s: string): nat
    requires forall i :: 0 <= i < |s| ==> IsDigit(s[i])
  {
    if |s| == 0 then 0
    else
      assert IsDigit(s[|s| - 1]);
      DigitsValue(s[..|s| - 1]) * 10 + (s[|s| - 1] as int - '0' as int)
  }

  predicate AllDigits(s: string) { |s| > 0 && forall i :: 0 <= i < |s| ==> IsDigit(s[i]) }

  /** Python's `int(text)` on decimal text: surrounding white space and one
      sign are allowed; anything else raises ValueError (here: None). */
  function ParseInt(text: string): (r: Option<int>)
    ensures r.Some? ==> |Strip(text)| > 0
  {
    var t := Strip(text);
    if |t| > 0 && (t[0] == '-' || t[0] == '+') then
      var digits := t[1..];
      if AllDigits(digits) then
        Some(if t[0] == '-' then -(DigitsValue(digits) as int) else DigitsValue(digits) as int)
      else None
    else if AllDigits(t) then Some(DigitsValue(t) as int)
    else None
  }

  lemma {:induction false} DigitsValueOfNatToString(n: nat)
    ensures DigitsValue(NatToString(n)) == n
  {
    if n >= 10 {
      DigitsValueOfNatToString(n / 10);
      var s := NatToString(n);
      assert s[..|s| - 1] == NatToString(n / 10);
    }
  }

  lemma {:induction false} TrimLeftOfDigits(s: string)
    requires AllDigits(s)
    ensures TrimLeft(s) == s
  {
  }

  lemma {:induction false} TrimRightOfDigits(s: string)
    requires AllDigits(s)
    ensures TrimRight(s) == s
  {
  }

  /** `int(str(n)) == n`: the decimal rendering reads back as the number. */
  lemma ParseIntOfNatToString(n: nat)
    ensures ParseInt(NatToString(n)) == Some(n)
  {
    var s := NatToString(n);
    TrimLeftOfDigits(s);
    TrimRightOfDigits(s);
    assert Strip(s) == s;
    DigitsValueOfNatToString(n);
  }

  // ---------------------------------------------------------------------
  // Sums over reals
  // ---------------------------------------------------------------------

  function Sum(s: seq<real>): real
  {
    if |s| == 0 then 0.0 else Sum(s[..|s| - 1]) + s[|s| - 1]
  }

  /** The arithmetic mean of a non-empty sequence (`sum(s) / len(s)`). */
  function Mean(s: seq<real>): real
    requires |s| > 0
  {
    Sum(s) / (|s| as real)
  }

  lemma {:induction false} SumBounds(s: seq<real>, lo: real, hi: real)
    requires forall i :: 0 <= i < |s| ==> lo <= s[i] <= hi
    ensures (|s| as real) * lo <= Sum(s) <= (|s| as real) * hi
  {
    if |s| > 0 {
      SumBounds(s[..|s| - 1], lo, hi);
    }
  }

  /** The mean lies between the least and the greatest element. */
  lemma MeanBounds(s: seq<real>, lo: real, hi: real)
    requires |s| > 0
    requires forall i :: 0 <= i < |s| ==> lo <= s[i] <= hi
    ensures lo <= Mean(s) <= hi
  {
    SumBounds(s, lo, hi);
    var n := |s| as real;
    assert n * lo <= Sum(s) <= n * hi;
    assert Sum(s) / n >= lo by {
      assert Sum(s) >= n * lo;
    }
    assert Sum(s) / n <= hi by {
      assert Sum(s) <= n * hi;
    }
  }

  // ---------------------------------------------------------------------
  // Rounding
  // ---------------------------------------------------------------------

  /** `round(x, 2)`: the nearest multiple of 0.01, ties to the even one. */
  function Round2(x: real): real
  {
    var n := (x * 100.0).Floor;
    var f := x * 100.0 - n as real;
    var k := if f > 0.5 then n + 1 else if f < 0.5 then n else if n % 2 == 0 then n else n + 1;
    k as real / 100.0
  }

  /** Rounding moves a value by at most half a hundredth. */
  lemma Round2Close(x: real)
    ensures x - 0.005 <= Round2(x) <= x + 0.005
  {
    var n := (x * 100.0).Floor;
    assert n as real <= x * 100.0 < n as real + 1.0;
  }

  /** A multiple of a hundredth rounds to itself. */
  lemma Round2OfHundredths(k: int)
    ensures Round2(k as real / 100.0) == k as real / 100.0
  {
    var x := k as real / 100.0;
    assert x * 100.0 == k as real;
    assert (x * 100.0).Floor == k;
  }

  /** Rounding keeps the order of its inputs. */
  lemma {:induction false} Round2Monotone(x: real, y: real)
    requires x <= y
    ensures Round2(x) <= Round2(y)
  {
    var n := (x * 100.0).Floor;
    var m := (y * 100.0).Floor;
    assert n as real <= x * 100.0 < n as real + 1.0;
    assert m as real <= y * 100.0 < m as real + 1.0;
    assert n <= m;
    if n == m {
      assert x * 100.0 - n as real <= y * 100.0 - m as real;
    }
  }

  /** A value between two hundredths rounds to a value between them. */
  lemma Round2Within(x: real, lo: int, hi: int)
    requires lo as real / 100.0 <= x <= hi as real / 100.0
    ensures lo as real / 100.0 <= Round2(x) <= hi as real / 100.0
  {
    Round2Monotone(lo as real / 100.0, x);
    Round2Monotone(x, hi as real / 100.0);
    Round2OfHundredths(lo);
    Round2OfHundredths(hi);
  }

  // ---------------------------------------------------------------------
  // Products of two unknowns
  // ---------------------------------------------------------------------

  /** The product of two reals. Every product of two unknowns in this
      module goes through this function, and the handful of algebraic
      identities the proofs use are stated below one at a time; the
      solver then reasons about sums of such products linearly. */
  function Prod(a: real, b: real): real { a * b }

  lemma SameSignProduct(a: real, b: real)
    requires (a > 0.0 && b > 0.0) || (a < 0.0 && b < 0.0)
    ensures Prod(a, b) > 0.0
  {
    if a < 0.0 {
      assert a * b == (-a) * (-b);
    }
  }

  lemma ProductNonNegative(a: real, b: real)
    requires a >= 0.0 && b >= 0.0
    ensures Prod(a, b) >= 0.0
    ensures a > 0.0 && b > 0.0 ==> Prod(a, b) > 0.0
  {
  }

  lemma ProductNonPositive(a: real, b: real)
    requires a <= 0.0 && b >= 0.0
    ensures Prod(a, b) <= 0.0
  {
    assert a * b == -((-a) * b);
  }

  lemma SquarePositive(d: real)
    requires d != 0.0
    ensures Prod(d, d) > 0.0
  {
    SameSignProduct(d, d);
  }

  lemma SquareNonNegative(d: real)
    ensures Prod(d, d) >= 0.0
  {
    if d != 0.0 {
      SquarePositive(d);
    }
  }

  lemma ProdCommutes(a: real, b: real)
    ensures Prod(a, b) == Prod(b, a)
  {
  }

  lemma ProdSwap(u: real, v: real, w: real)
    ensures Prod(u, Prod(v, w)) == Prod(v, Prod(u, w))
  {
    assert u * (v * w) == v * (u * w);
  }

  lemma ProdAdd(b: real, u: real, v: real)
    ensures Prod(b, u + v) == Prod(b, u) + Prod(b, v)
  {
    assert b * (u + v) == b * u + b * v;
  }

  lemma ProdSub(b: real, u: real, v: real)
    ensures Prod(b, u - v) == Prod(b, u) - Prod(b, v)
  {
    assert b * (u - v) == b * u - b * v;
  }

  lemma ProdAddLeft(u: real, v: real, a: real)
    ensures Prod(u + v, a) == Prod(u, a) + Prod(v, a)
  {
    assert (u + v) * a == u * a + v * a;
  }

  lemma SquareOfProduct(b: real, d: real)
    ensures Prod(Prod(b, d), Prod(b, d)) == Prod(Prod(b, b), Prod(d, d))
  {
    assert (b * d) * (b * d) == (b * b) * (d * d);
  }

  lemma ProdOne(a: real)
    ensures Prod(1.0, a) == a && Prod(a, 1.0) == a
  {
  }

  lemma ProdZero(a: real)
    ensures Prod(0.0, a) == 0.0 && Prod(a, 0.0) == 0.0
  {
  }

  /** A non-zero factor cancels. */
  lemma CancelLeft(n: real, u: real, v: real)
    requires n != 0.0 && Prod(n, u) == Prod(n, v)
    ensures u == v
  {
    ProdSub(n, u, v);
    if u != v {
      if (n > 0.0) == (u - v > 0.0) {
        SameSignProduct(n, u - v);
      } else {
        ProdNegate(n, u - v);
        SameSignProduct(-n, u - v);
      }
    }
  }

  lemma ProdNegate(a: real, b: real)
    ensures Prod(-a, b) == -Prod(a, b)
  {
    assert (-a) * b == -(a * b);
  }

  /** `(a / d)·d == a`. */
  lemma QuotientTimesDivisor(a: real, d: real)
    requires d != 0.0
    ensures Prod(a / d, d) == a
  {
  }

  lemma QuotientNonNegative(a: real, d: real)
    requires a >= 0.0 && d > 0.0
    ensures a / d >= 0.0
  {
  }

  lemma QuotientPositive(a: real, d: real)
    requires a > 0.0 && d > 0.0
    ensures a / d > 0.0
  {
  }
}
