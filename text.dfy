/** The string primitives the Go code takes from its standard library:
    `strings.HasPrefix/HasSuffix/Contains`, `strings.Split(s, sep)[0]`,
    a single-character `strings.Replacer`, `fmt`'s `%d` and `strconv.Atoi`.
    Strings are sequences of characters; every character the code looks
    for is ASCII, so working on characters instead of bytes changes nothing. */
module Text {
  import opened Wrappers

  const MinInt64: int := -0x8000_0000_0000_0000
  const MaxInt64: int := 0x7fff_ffff_ffff_ffff
  const MaxUint64: int := 0xffff_ffff_ffff_ffff

  /** Two's-complement wrap-around of an integer into `int64`. */
  function WrapInt64(x: int): (r: int)
    ensures MinInt64 <= r <= MaxInt64
    ensures (r - x) % 0x1_0000_0000_0000_0000 == 0
    ensures MinInt64 <= x <= MaxInt64 ==> r == x
  {
    (x - MinInt64) % 0x1_0000_0000_0000_0000 + MinInt64
  }

  predicate HasPrefix(s: string, p: string) {
    |p| <= |s| && s[..|p|] == p
  }

  predicate HasSuffix(s: string, p: string) {
    |p| <= |s| && s[|s| - |p|..] == p
  }

  /** `p` occurs in `s` at position `i`. */
  predicate OccursAt(s: string, p: string, i: int) {
    0 <= i <= |s| - |p| && s[i..i + |p|] == p
  }

  /** `strings.Contains`: `p` occurs somewhere in `s`. */
  predicate Contains(s: string, p: string) {
    exists i | 0 <= i <= |s| - |p| :: OccursAt(s, p, i)
  }

  /** A pattern cannot occur in a text that lacks one of its characters. */
  lemma NoOccurrenceWithoutChar(s: string, p: string, k: nat)
    requires k < |p| && p[k] !in s
    ensures !Contains(s, p)
  {
  }

  /** A pattern found in `a + t + [x]` lies inside `t` when `a` lacks the
      pattern's first character and `x` is not one of its characters. */
  lemma {:induction false} ContainsInfix(a: string, t: string, x: char, p: string)
    requires |p| > 0 && p[0] !in a && x !in p
    ensures Contains(a + t + [x], p) <==> Contains(t, p)
  {
    var s := a + t + [x];
    if Contains(t, p) {
      var i :| 0 <= i <= |t| - |p| && OccursAt(t, p, i);
      assert s[|a| + i..|a| + i + |p|] == t[i..i + |p|];
      assert OccursAt(s, p, |a| + i);
    }
    if Contains(s, p) {
      var i :| 0 <= i <= |s| - |p| && OccursAt(s, p, i);
      assert 0 <= i <= |s| - |p|;
      assert s[i..i + |p|] == p;
      assert s[i..i + |p|][0] == s[i];
      assert i >= |a|;
      assert s[|s| - 1] == x && p[|p| - 1] in p;
      assert s[i..i + |p|][|p| - 1] == s[i + |p| - 1];
      assert i + |p| <= |a| + |t|;
      assert t[i - |a|..i - |a| + |p|] == s[i..i + |p|];
      assert OccursAt(t, p, i - |a|);
    }
  }

  predicate IsDigit(c: char) {
    '0' <= c <= '9'
  }

  predicate AllDigits(s: string) {
    forall i | 0 <= i < |s| :: IsDigit(s[i])
  }

  function DigitChar(d: nat): (c: char)
    requires d < 10
    ensures IsDigit(c)
  {
    ('0' as int + d) as char
  }

  /** The decimal digits of `n`, most significant first, without leading zeros. */
  function Digits(n: nat): (s: string)
    ensures |s| > 0 && AllDigits(s)
    ensures n >= 10 ==> s[0] != '0'
    decreases n
  {
    if n < 10 then [DigitChar(n)] else Digits(n / 10) + [DigitChar(n % 10)]
  }

  /** `fmt`'s `%d` rendering of an integer: a minus sign before the digits
      of a negative number, the digits alone otherwise. */
  function Decimal(n: int): (s: string)
    ensures n < 0 ==> |s| > 1 && s[0] == '-' && AllDigits(s[1..])
    ensures n >= 0 ==> |s| > 0 && AllDigits(s)
  {
    if n < 0 then "-" + Digits(-n) else Digits(n)
  }

  /** The number a digit string denotes (leading zeros allowed). */
  function DigitsValue(s: string): nat
    requires AllDigits(s)
  {
    if |s| == 0 then 0 else DigitsValue(s[..|s| - 1]) * 10 + (s[|s| - 1] as int - '0' as int)
  }

  lemma DigitsValueSnoc(s: string, c: char)
    requires AllDigits(s) && IsDigit(c)
    ensures AllDigits(s + [c]) && DigitsValue(s + [c]) == DigitsValue(s) * 10 + (c as int - '0' as int)
  {
    assert (s + [c])[..|s|] == s;
  }

  lemma {:induction false} DigitsValueOfDigits(n: nat)
    ensures DigitsValue(Digits(n)) == n
    decreases n
  {
    if n >= 10 {
      DigitsValueOfDigits(n / 10);
      DigitsValueSnoc(Digits(n / 10), DigitChar(n % 10));
    }
  }

  /** The length of the run of digits that starts `s`. */
  function LeadingDigits(s: string): (k: nat)
    ensures k <= |s| && AllDigits(s[..k])
    ensures k < |s| ==> !IsDigit(s[k])
  {
    if |s| == 0 || !IsDigit(s[0]) then 0
    else
      var k := 1 + LeadingDigits(s[1..]);
      assert s[..k] == [s[0]] + s[1..][..k - 1];
      k
  }

  lemma {:induction false} LeadingDigitsOfDigits(s: string)
    requires AllDigits(s)
    ensures LeadingDigits(s) == |s|
  {
    if |s| > 0 {
      LeadingDigitsOfDigits(s[1..]);
    }
  }

  /** How `strconv.Atoi` fails. */
  datatype NumError = Syntax | Range

  /** `strconv.Atoi` on a 64-bit platform: an optional sign, then one or
      more decimal digits, with a value that fits in `int64`. A run of
      leading digits that overflows `uint64` is reported as a range error
      even when a non-digit follows it, because the scan stops at the
      overflow. */
  function Atoi(s: string): (r: Result<int, NumError>)
    ensures r.Success? ==> MinInt64 <= r.value <= MaxInt64
    ensures r.Success? ==> |s| > 0 && (IsDigit(s[0]) || s[0] == '+' || s[0] == '-')
  {
    var signed := |s| > 0 && (s[0] == '+' || s[0] == '-');
    var body := if signed then s[1..] else s;
    var negative := signed && s[0] == '-';
    var k := LeadingDigits(body);
    if |body| == 0 then Failure(Syntax)
    else if DigitsValue(body[..k]) > MaxUint64 then Failure(Range)
    else if k < |body| then Failure(Syntax)
    else
      assert body[..k] == body;
      var u := DigitsValue(body);
      if !negative && u > MaxInt64 then Failure(Range)
      else if negative && u > -MinInt64 then Failure(Range)
      else
        var v: int := if negative then -(u as int) else u;
        Success(v)
  }

  /** Only digit strings with an optional sign parse. */
  lemma AtoiNeedsDigits(s: string)
    requires Atoi(s).Success?
    ensures var body := if s[0] == '+' || s[0] == '-' then s[1..] else s;
            |body| > 0 && AllDigits(body)
  {
    var body := if s[0] == '+' || s[0] == '-' then s[1..] else s;
    assert LeadingDigits(body) == |body|;
    assert body[..|body|] == body;
  }

  /** An unsigned run of digits parses to its value when that fits. */
  lemma AtoiUnsigned(d: string)
    requires |d| > 0 && AllDigits(d) && DigitsValue(d) <= MaxInt64
    ensures Atoi(d) == Success(DigitsValue(d))
  {
    assert IsDigit(d[0]);
    LeadingDigitsOfDigits(d);
    var k := LeadingDigits(d);
    assert d[..k] == d;
    var u := DigitsValue(d);
    assert DigitsValue(d[..k]) == u <= MaxUint64;
  }

  /** A run of digits after a minus sign parses to its negated value when that fits. */
  lemma AtoiNegative(d: string)
    requires |d| > 0 && AllDigits(d) && DigitsValue(d) <= -MinInt64
    ensures Atoi("-" + d) == Success(-(DigitsValue(d) as int))
  {
    var s := "-" + d;
    assert s[0] == '-';
    assert s[1..] == d;
    LeadingDigitsOfDigits(d);
    var k := LeadingDigits(d);
    assert d[..k] == d;
    var u := DigitsValue(d);
    assert DigitsValue(d[..k]) == u <= MaxUint64;
  }

  /** `strconv.Atoi` reads back what `%d` writes, for every `int64`. */
  lemma AtoiDecimal(n: int)
    requires MinInt64 <= n <= MaxInt64
    ensures Atoi(Decimal(n)) == Success(n)
  {
    if n < 0 {
      DigitsValueOfDigits(-n);
      AtoiNegative(Digits(-n));
    } else {
      DigitsValueOfDigits(n);
      AtoiUnsigned(Digits(n));
    }
  }

  /** The text of the `*strconv.NumError` that `strconv.Atoi` returns. The
      input is quoted without the escaping `strconv.Quote` applies to
      special characters. */
  function AtoiMessage(s: string, e: NumError): string {
    "strconv.Atoi: parsing \"" + s + "\": " + (if e.Syntax? then "invalid syntax" else "value out of range")
  }

  /** `strings.Split(s, string(c))[0]`: the text before the first `c`, or all of `s`. */
  function BeforeFirst(s: string, c: char): (r: string)
    ensures c !in r && HasPrefix(s, r)
    ensures |r| < |s| ==> s[|r|] == c
  {
    if |s| == 0 || s[0] == c then []
    else
      var r := [s[0]] + BeforeFirst(s[1..], c);
      assert s[..|r|] == [s[0]] + s[1..][..|r| - 1];
      r
  }

  lemma {:induction false} BeforeFirstOfJoin(a: string, c: char, b: string)
    requires c !in a
    ensures BeforeFirst(a + [c] + b, c) == a
  {
    if |a| > 0 {
      assert (a + [c] + b)[1..] == a[1..] + [c] + b;
      BeforeFirstOfJoin(a[1..], c, b);
    }
  }

  /** A `strings.Replacer` that maps each character of `cs` to "": `s` with those characters removed. */
  function Without(s: string, cs: set<char>): (r: string)
    ensures |r| <= |s|
    ensures forall i | 0 <= i < |r| :: r[i] !in cs
  {
    if |s| == 0 then []
    else (if s[0] in cs then [] else [s[0]]) + Without(s[1..], cs)
  }

  /** Exactly the characters of `s` outside `cs` are kept. */
  lemma {:induction false} WithoutKeeps(s: string, cs: set<char>)
    ensures forall c :: c in Without(s, cs) <==> c in s && c !in cs
  {
    if |s| > 0 {
      WithoutKeeps(s[1..], cs);
      assert s == [s[0]] + s[1..];
    }
  }

  lemma {:induction false} WithoutOfJoin(a: string, b: string, cs: set<char>)
    ensures Without(a + b, cs) == Without(a, cs) + Without(b, cs)
  {
    if |a| == 0 {
      assert a + b == b;
    } else {
      assert (a + b)[0] == a[0];
      assert (a + b)[1..] == a[1..] + b;
      WithoutOfJoin(a[1..], b, cs);
    }
  }
}
