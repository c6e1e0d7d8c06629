/** Decimal numerals as text, and the bytewise order in which SQLite compares TEXT columns. */
module DecimalText {
  import opened Wrappers

  predicate IsDigit(c: char) { '0' <= c <= '9' }

  predicate AllDigits(s: string) { forall i :: 0 <= i < |s| ==> IsDigit(s[i]) }

  function DigitValue(c: char): nat
    requires IsDigit(c)
  {
    c as int - '0' as int
  }

  function DigitChar(d: nat): (c: char)
    requires d < 10
    ensures IsDigit(c) && DigitValue(c) == d
  {
    ('0' as int + d) as char
  }

  function Pow10(n: nat): nat { if n == 0 then 1 else 10 * Pow10(n - 1) }

  /** The number a digit string denotes, most significant digit first. */
  function Value(s: string): nat
    requires AllDigits(s)
  {
    if s == "" then 0 else 10 * Value(s[..|s| - 1]) + DigitValue(s[|s| - 1])
  }

  /** fmt's %0{width}d, for the numbers that fit the width. */
  function Padded(n: nat, width: nat): string
    requires n < Pow10(width)
  {
    if width == 0 then "" else Padded(n / 10, width - 1) + [DigitChar(n % 10)]
  }

  lemma {:induction false} PaddedDenotes(n: nat, width: nat)
    requires n < Pow10(width)
    ensures |Padded(n, width)| == width && AllDigits(Padded(n, width))
    ensures Value(Padded(n, width)) == n
  {
    if width == 0 {
    } else {
      PaddedDenotes(n / 10, width - 1);
      var s := Padded(n, width);
      assert s[..|s| - 1] == Padded(n / 10, width - 1);
    }
  }

  /** Bytewise comparison of text: a proper prefix comes first. */
  predicate TextLess(a: string, b: string) {
    b != "" && (a == "" || a[0] < b[0] || (a[0] == b[0] && TextLess(a[1..], b[1..])))
  }

  lemma {:induction false} TextLessConcat(p: string, q: string, s: string, t: string)
    requires |p| == |q|
    ensures TextLess(p + s, q + t) <==> TextLess(p, q) || (p == q && TextLess(s, t))
  {
    if p == "" {
      assert p + s == s && q + t == t;
    } else {
      TextLessConcat(p[1..], q[1..], s, t);
      assert (p + s)[1..] == p[1..] + s && (q + t)[1..] == q[1..] + t;
      assert p == [p[0]] + p[1..] && q == [q[0]] + q[1..];
    }
  }

  lemma {:induction false} TextLessDigits(p: string, q: string, x: nat, y: nat)
    requires |p| == |q| && x < 10 && y < 10
    ensures TextLess(p + [DigitChar(x)], q + [DigitChar(y)]) <==> TextLess(p, q) || (p == q && x < y)
    ensures p + [DigitChar(x)] == q + [DigitChar(y)] <==> p == q && x == y
  {
    var (s, t) := ([DigitChar(x)], [DigitChar(y)]);
    TextLessConcat(p, q, s, t);
    assert TextLess(s[1..], t[1..]) == false;
    if p + s == q + t {
      assert (p + s)[..|p|] == p && (q + t)[..|q|] == q;
      assert (p + s)[|p|] == s[0] && (q + t)[|q|] == t[0];
    }
  }

  /** On numerals padded to one width, text order is numeric order. */
  lemma {:induction false} PaddedOrder(m: nat, n: nat, width: nat)
    requires m < Pow10(width) && n < Pow10(width)
    ensures TextLess(Padded(m, width), Padded(n, width)) <==> m < n
    ensures Padded(m, width) == Padded(n, width) <==> m == n
  {
    if width == 0 {
    } else {
      PaddedOrder(m / 10, n / 10, width - 1);
      PaddedDenotes(m / 10, width - 1);
      PaddedDenotes(n / 10, width - 1);
      TextLessDigits(Padded(m / 10, width - 1), Padded(n / 10, width - 1), m % 10, n % 10);
    }
  }

  lemma {:induction false} TextLessIrreflexive(a: string)
    ensures !TextLess(a, a)
  {
    if a != "" { TextLessIrreflexive(a[1..]); }
  }

  lemma {:induction false} TextLessTransitive(a: string, b: string, c: string)
    requires TextLess(a, b) && TextLess(b, c)
    ensures TextLess(a, c)
  {
    if a != "" && a[0] == b[0] && b[0] == c[0] { TextLessTransitive(a[1..], b[1..], c[1..]); }
  }

  lemma {:induction false} TextLessTotal(a: string, b: string)
    ensures TextLess(a, b) || a == b || TextLess(b, a)
  {
    if a != "" && b != "" && a[0] == b[0] {
      TextLessTotal(a[1..], b[1..]);
      assert a == [a[0]] + a[1..] && b == [b[0]] + b[1..];
    }
  }

  /** strconv.ParseUint in base 10: digits only, at least one, below the bound. */
  function ParseUint(s: string, bound: nat): (r: Option<nat>)
    ensures r.Some? ==> r.value < bound
  {
    if s != "" && AllDigits(s) && Value(s) < bound then Some(Value(s)) else None
  }

  /** strconv.ParseInt in base 10 at 64 bits: an optional sign, then an unsigned numeral in range. */
  function ParseInt64(s: string): Option<int> {
    var bound := 0x8000_0000_0000_0000;
    if s != "" && s[0] == '-' then
      (match ParseUint(s[1..], bound + 1) case Some(v) => Some(-(v as int)) case None => None)
    else
      var digits := if s != "" && s[0] == '+' then s[1..] else s;
      match ParseUint(digits, bound) case Some(v) => Some(v) case None => None
  }

  function IndexOf(s: string, c: char): (i: nat)
    ensures i <= |s| && (i < |s| ==> s[i] == c)
    ensures forall j :: 0 <= j < i ==> s[j] != c
  {
    if s == "" || s[0] == c then 0 else 1 + IndexOf(s[1..], c)
  }

  /** strconv.Itoa, for numbers that are not negative. */
  function Itoa(n: nat): string {
    if n < 10 then [DigitChar(n)] else Itoa(n / 10) + [DigitChar(n % 10)]
  }

  lemma {:induction false} ItoaDenotes(n: nat)
    ensures Itoa(n) != "" && IsDigit(Itoa(n)[0]) && AllDigits(Itoa(n)) && Value(Itoa(n)) == n
  {
    var s := Itoa(n);
    if n < 10 {
      assert s[..|s| - 1] == "";
    } else {
      ItoaDenotes(n / 10);
      assert s[..|s| - 1] == Itoa(n / 10);
    }
  }

  /** Printed numbers parse back. */
  lemma {:induction false} ParseItoa(n: nat, bound: nat)
    requires n < bound
    ensures ParseUint(Itoa(n), bound) == Some(n)
    ensures n < 0x8000_0000_0000_0000 ==> ParseInt64(Itoa(n)) == Some(n)
  {
    ItoaDenotes(n);
  }
}
