/** Decimal numerals: digit strings, powers of ten, and the number grammar of
    section 6 of RFC 8259 with its exact value. */
module Decimal {

  datatype Option<+T> = None | Some(value: T)

  predicate IsDigit(c: char) { '0' <= c <= '9' }

  predicate AllDigits(s: string) { forall i :: 0 <= i < |s| ==> IsDigit(s[i]) }

  function DigitVal(c: char): nat requires IsDigit(c) { c as int - '0' as int }

  function Val(s: string): nat
    requires AllDigits(s)
  {
    if s == "" then 0 else Val(s[..|s|-1]) * 10 + DigitVal(s[|s|-1])
  }

  function Pow10(n: nat): (p: nat)
    ensures p > 0
  {
    if n == 0 then 1 else 10 * Pow10(n - 1)
  }

  /** Decimal digits of `n`, without superfluous leading zeros. */
  function Digits(n: nat): (s: string)
    ensures s != "" && AllDigits(s)
    ensures Val(s) == n
    ensures |s| > 1 ==> s[0] != '0'
    ensures |s| > 1 ==> n >= Pow10(|s| - 1)
    ensures n < Pow10(|s|)
  {
    if n < 10 then
      var s := [(n + '0' as int) as char];
      assert s[..0] == "";
      assert Pow10(1) == 10 && Pow10(0) == 1;
      s
    else
      var head := Digits(n / 10);
      var s := head + [(n % 10 + '0' as int) as char];
      assert s[..|s|-1] == head;
      s
  }

  lemma {:induction false} Pow10Add(a: nat, b: nat)
    ensures Pow10(a + b) == Pow10(a) * Pow10(b)
  {
    if a == 0 {
    } else {
      Pow10Add(a - 1, b);
    }
  }

  lemma Pow10Monotone(a: nat, b: nat)
    requires a <= b
    ensures Pow10(a) <= Pow10(b)
    decreases b
  {
    if a < b { Pow10Monotone(a, b - 1); }
  }

  lemma {:induction false} ValAppend(a: string, b: string)
    requires AllDigits(a) && AllDigits(b)
    ensures AllDigits(a + b)
    ensures Val(a + b) == Val(a) * Pow10(|b|) + Val(b)
  {
    if b == "" {
      assert a + b == a;
    } else {
      var b' := b[..|b|-1];
      ValAppend(a, b');
      assert (a + b)[..|a + b| - 1] == a + b';
      ShiftOne(Val(a), Pow10(|b'|), Val(b'), DigitVal(b[|b|-1]));
    }
  }

  lemma ShiftOne(a: nat, p: nat, b: nat, d: nat)
    ensures (a * p + b) * 10 + d == a * (10 * p) + (b * 10 + d)
  {}

  lemma {:induction false} ValBound(s: string)
    requires AllDigits(s)
    ensures Val(s) < Pow10(|s|)
  {
    if s == "" {
    } else {
      ValBound(s[..|s|-1]);
    }
  }

  function Zeros(n: nat): (s: string)
    ensures |s| == n && AllDigits(s) && Val(s) == 0
  {
    if n == 0 then "" else
      var z := Zeros(n - 1);
      var s := z + "0";
      assert s[..|s|-1] == z;
      s
  }

  /** `n` in exactly `w` digits, for n below 10^w. */
  function Padded(n: nat, w: nat): (s: string)
    requires n < Pow10(w) && w > 0
    ensures |s| == w && AllDigits(s) && Val(s) == n
  {
    var d := Digits(n);
    assert |d| <= w by {
      if |d| > w { Pow10Monotone(w, |d| - 1); }
    }
    ValAppend(Zeros(w - |d|), d);
    Zeros(w - |d|) + d
  }

  // ---------------------------------------------------------------------
  // Numerals

  datatype Exponent = NoExp | Exp(mark: char, sign: string, digits: string) {
    predicate Valid() {
      Exp? ==> (mark == 'e' || mark == 'E') && sign in {"", "+", "-"} && digits != "" && AllDigits(digits)
    }
    function Text(): string { if NoExp? then "" else [mark] + sign + digits }
    function Amount(): int requires Valid() {
      if NoExp? then 0 else if sign == "-" then -(Val(digits) as int) else Val(digits)
    }
  }

  datatype Numeral = Numeral(neg: bool, whole: string, frac: Option<string>, exp: Exponent) {
    predicate Valid() {
      && whole != "" && AllDigits(whole) && (|whole| > 1 ==> whole[0] != '0')
      && (frac.Some? ==> frac.value != "" && AllDigits(frac.value))
      && exp.Valid()
    }
    function Base(): string { (if neg then "-" else "") + whole + (if frac.Some? then "." + frac.value else "") }
    function Text(): string { Base() + exp.Text() }
    function Places(): nat { if frac.Some? then |frac.value| else 0 }
    function Mantissa(): nat requires Valid() { Val(whole + if frac.Some? then frac.value else "") }
    /** The exact rational the text denotes. */
    function Value(): real requires Valid() {
      var m := TimesPow10(Mantissa(), exp.Amount() - Places());
      if neg then -m else m
    }
  }

  /** m times ten to the e, one decimal shift at a time. */
  function TimesPow10(m: nat, e: int): (x: real)
    ensures x >= 0.0
    decreases if e < 0 then -e else e
  {
    if e == 0 then m as real else if e > 0 then TimesPow10(10 * m, e - 1) else TimesPow10(m, e + 1) / 10.0
  }

  function Over(m: nat, p: nat): (x: real)
    requires p > 0
    ensures x >= 0.0 && x * p as real == m as real
  {
    m as real / p as real
  }

  lemma OverUnique(x: real, m: nat, p: nat)
    requires p > 0 && x * p as real == m as real
    ensures Over(m, p) == x
  {
    var y := Over(m, p);
    assert (x - y) * p as real == 0.0;
  }

  lemma {:induction false} TimesPow10Up(m: nat, e: nat)
    ensures TimesPow10(m, e) == (m * Pow10(e)) as real
    decreases e
  {
    if e == 0 {
    } else {
      TimesPow10Up(10 * m, e - 1);
      assert 10 * m * Pow10(e - 1) == m * (10 * Pow10(e - 1));
    }
  }

  lemma {:induction false} TimesPow10Down(m: nat, e: nat)
    ensures TimesPow10(m, -(e as int)) == Over(m, Pow10(e))
  {
    if e == 0 {
      OverUnique(m as real, m, 1);
    } else {
      TimesPow10Down(m, e - 1);
      TenthOf(m, Pow10(e - 1));
    }
  }

  lemma TenthOf(m: nat, p: nat)
    requires p > 0
    ensures Over(m, p) / 10.0 == Over(m, 10 * p)
  {
    var x := Over(m, p) / 10.0;
    assert x * (10 * p) as real == Over(m, p) * p as real;
    OverUnique(x, m, 10 * p);
  }

  lemma PlainValue(n: Numeral)
    requires n.Valid() && !n.neg && n.exp.NoExp?
    ensures n.Value() == Over(n.Mantissa(), Pow10(n.Places()))
  {
    TimesPow10Down(n.Mantissa(), n.Places());
  }

  function SpanDigits(s: string): (n: nat)
    ensures n <= |s| && AllDigits(s[..n])
    ensures n < |s| ==> !IsDigit(s[n])
  {
    if s == "" || !IsDigit(s[0]) then 0 else
      var n := SpanDigits(s[1..]);
      assert s[..n + 1] == [s[0]] + s[1..][..n];
      n + 1
  }

  lemma {:induction false} SpanOf(d: string, rest: string)
    requires AllDigits(d) && (rest == "" || !IsDigit(rest[0]))
    ensures SpanDigits(d + rest) == |d|
  {
    if d == "" {
      assert d + rest == rest;
    } else {
      assert (d + rest)[1..] == d[1..] + rest;
      SpanOf(d[1..], rest);
    }
  }

  function ParseExponent(s: string): (r: Option<Exponent>)
    ensures r.Some? ==> r.value.Valid()
  {
    if s == "" then Some(NoExp)
    else if s[0] != 'e' && s[0] != 'E' then None
    else
      var sign := if |s| > 1 && (s[1] == '+' || s[1] == '-') then [s[1]] else "";
      var digits := s[1 + |sign|..];
      if digits != "" && AllDigits(digits) then Some(Exp(s[0], sign, digits)) else None
  }

  datatype Tail = Tail(frac: Option<string>, exp: Exponent) {
    predicate Valid() { (frac.Some? ==> frac.value != "" && AllDigits(frac.value)) && exp.Valid() }
    function Text(): string { (if frac.Some? then "." + frac.value else "") + exp.Text() }
  }

  function ParseTail(s: string): (r: Option<Tail>)
    ensures r.Some? ==> r.value.Valid()
  {
    if s != "" && s[0] == '.' then
      var k := SpanDigits(s[1..]);
      var e := ParseExponent(s[1..][k..]);
      if k == 0 || e.None? then None else Some(Tail(Some(s[1..][..k]), e.value))
    else
      var e := ParseExponent(s);
      if e.None? then None else Some(Tail(None, e.value))
  }

  function ParseUnsigned(s: string, neg: bool): (r: Option<Numeral>)
    ensures r.Some? ==> r.value.Valid() && r.value.neg == neg
  {
    var n := SpanDigits(s);
    var t := ParseTail(s[n..]);
    if n == 0 || (n > 1 && s[0] == '0') || t.None? then None
    else Some(Numeral(neg, s[..n], t.value.frac, t.value.exp))
  }

  /** The number a text spells, if it is one by RFC 8259. */
  function Parse(t: string): (r: Option<Numeral>)
    ensures r.Some? ==> r.value.Valid()
  {
    if t != "" && t[0] == '-' then ParseUnsigned(t[1..], true) else ParseUnsigned(t, false)
  }

  lemma TailOfParse(s: string)
    requires ParseTail(s).Some?
    ensures ParseTail(s).value.Text() == s
  {
    if s != "" && s[0] == '.' {
      assert s == "." + s[1..];
      TailAfterPoint(s[1..]);
    } else {
      TextOfExponent(s);
    }
  }

  lemma TailAfterPoint(u: string)
    requires ParseTail("." + u).Some?
    ensures ParseTail("." + u).value.Text() == "." + u
  {
    var s, k := "." + u, SpanDigits(u);
    assert s[1..] == u;
    TextOfExponent(u[k..]);
    var t := ParseTail(s).value;
    assert t.frac == Some(u[..k]) && t.exp.Text() == u[k..];
    assert u == u[..k] + u[k..];
  }

  lemma TextOfExponent(s: string)
    requires ParseExponent(s).Some?
    ensures ParseExponent(s).value.Text() == s
  {
    if s != "" {
      var sign := if |s| > 1 && (s[1] == '+' || s[1] == '-') then [s[1]] else "";
      assert s == [s[0]] + sign + s[1 + |sign|..];
    }
  }

  lemma TextSplit(n: Numeral)
    ensures n.Text() == (if n.neg then "-" else "") + (n.whole + Tail(n.frac, n.exp).Text())
  {
    if n.frac.Some? {
      assert ("." + n.frac.value) + n.exp.Text() == "." + (n.frac.value + n.exp.Text());
    }
  }

  lemma TextOfUnsigned(s: string, neg: bool)
    requires ParseUnsigned(s, neg).Some?
    ensures ParseUnsigned(s, neg).value.Text() == (if neg then "-" else "") + s
  {
    var n, k := ParseUnsigned(s, neg).value, SpanDigits(s);
    TailOfParse(s[k..]);
    SpelledOut(n, neg, s[..k], s[k..]);
    assert s == s[..k] + s[k..];
  }

  lemma SpelledOut(n: Numeral, neg: bool, whole: string, rest: string)
    requires n.neg == neg && n.whole == whole && Tail(n.frac, n.exp).Text() == rest
    ensures n.Text() == (if neg then "-" else "") + (whole + rest)
  {
    TextSplit(n);
  }

  /** What parses is spelled out again by the numeral's text. */
  lemma TextOfParse(t: string)
    requires Parse(t).Some?
    ensures Parse(t).value.Text() == t
  {
    if t != "" && t[0] == '-' {
      TextOfUnsigned(t[1..], true);
      assert t == "-" + t[1..];
    } else {
      TextOfUnsigned(t, false);
    }
  }

  lemma ParseExponentText(e: Exponent)
    requires e.Valid()
    ensures ParseExponent(e.Text()) == Some(e)
  {
    if e.Exp? {
      var s := e.Text();
      assert s[1 + |e.sign|..] == e.digits;
      if e.sign == "" { assert s[1] == e.digits[0]; } else { assert s[1] == e.sign[0]; assert e.sign == [e.sign[0]]; }
    }
  }

  lemma ParseTailText(t: Tail)
    requires t.Valid()
    ensures ParseTail(t.Text()) == Some(t)
  {
    ParseExponentText(t.exp);
    if t.frac.Some? { ParsePoint(t.frac.value, t.exp); } else { assert t.Text() == t.exp.Text(); }
  }

  lemma ParsePoint(frac: string, exp: Exponent)
    requires frac != "" && AllDigits(frac) && exp.Valid() && ParseExponent(exp.Text()) == Some(exp)
    ensures ParseTail("." + frac + exp.Text()) == Some(Tail(Some(frac), exp))
  {
    var e, s := exp.Text(), "." + frac + exp.Text();
    assert s[1..] == frac + e;
    SpanOf(frac, e);
    assert (frac + e)[..|frac|] == frac && (frac + e)[|frac|..] == e;
  }

  lemma ParseUnsignedText(n: Numeral)
    requires n.Valid()
    ensures ParseUnsigned(n.whole + Tail(n.frac, n.exp).Text(), n.neg) == Some(n)
  {
    var t := Tail(n.frac, n.exp);
    ParseTailText(t);
    var u := t.Text();
    var s := n.whole + u;
    assert u == "" || !IsDigit(u[0]);
    SpanOf(n.whole, u);
    assert s[..|n.whole|] == n.whole && s[|n.whole|..] == u;
  }

  /** The grammar is unambiguous: a valid numeral is what its own text parses to. */
  lemma ParseText(n: Numeral)
    requires n.Valid()
    ensures Parse(n.Text()) == Some(n)
  {
    var s := n.whole + Tail(n.frac, n.exp).Text();
    TextSplit(n);
    ParseUnsignedText(n);
    if n.neg { assert n.Text()[1..] == s; } else { assert n.Text() == s && s[0] == n.whole[0]; }
  }
}
