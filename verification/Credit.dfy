/** The request-local credit tally: exact decimal sums of provider debits, printed
    at a tracked scale. */
module Credit {
  import opened Decimal

  const MAX_TEXT := 64
  const MAX_PLACES := 18

  /** What the `credit` field of one event's raw usage decodes to. */
  datatype RawCredit =
    | BadUsage              // usage does not decode, or credit is not a number or string
    | Absent                // missing or null
    | Quoted(s: string)     // a JSON string, which Go's json.Number would also take
    | Literal(text: string) // the bytes of a JSON number

  // ---------------------------------------------------------------------
  // Which events count, and for how much.

  /** What one accepted event adds: an exact amount and the decimal places it needs. */
  datatype Debit = Debit(amount: real, places: nat)

  /** The contribution of a number, read off the grammar; `None` when it is refused. */
  function NumeralDebit(n: Numeral): (d: Option<Debit>)
    requires n.Valid()
  {
    DebitFor(n.exp.Amount(), n.Places() - n.exp.Amount(), n.Value())
  }

  function DebitFor(exponent: int, places: int, v: real): (d: Option<Debit>) {
    if -18 <= exponent <= 18 && places <= MAX_PLACES && v >= 0.0
    then Some(Debit(v, if places > 0 then places else 0))
    else None
  }

  function DebitOf(e: RawCredit): (d: Option<Debit>) {
    if e.Literal? && Parse(e.text).Some? && |e.text| <= MAX_TEXT then NumeralDebit(Parse(e.text).value) else None
  }

  function Map<T, U>(f: T -> U, s: seq<T>): (r: seq<U>)
    ensures |r| == |s| && forall i :: 0 <= i < |s| ==> r[i] == f(s[i])
  {
    seq(|s|, i requires 0 <= i < |s| => f(s[i]))
  }

  function Debits(es: seq<RawCredit>): seq<Option<Debit>> { Map(DebitOf, es) }

  function Amount(d: Option<Debit>): real { if d.Some? then d.value.amount else 0.0 }
  function Places(d: Option<Debit>): nat { if d.Some? then d.value.places else 0 }

  function Total(ds: seq<Option<Debit>>): real {
    if ds == [] then 0.0 else Total(ds[..|ds|-1]) + Amount(ds[|ds|-1])
  }

  function Scale(ds: seq<Option<Debit>>): nat {
    if ds == [] then 0 else Max(Scale(ds[..|ds|-1]), Places(ds[|ds|-1]))
  }

  function Max(a: nat, b: nat): nat { if b > a then b else a }

  function Known(ds: seq<Option<Debit>>): nat {
    if ds == [] then 0 else Known(ds[..|ds|-1]) + if ds[|ds|-1].Some? then 1 else 0
  }

  // ---------------------------------------------------------------------
  // The code's own scan of the text.

  function Lower(s: string): (r: string)
    ensures |r| == |s|
    ensures forall i :: 0 <= i < |s| ==> r[i] == if 'A' <= s[i] <= 'Z' then (s[i] as int + 32) as char else s[i]
  {
    seq(|s|, i requires 0 <= i < |s| => if 'A' <= s[i] <= 'Z' then (s[i] as int + 32) as char else s[i])
  }

  function IndexOf(s: string, c: char): (i: nat)
    ensures i <= |s|
    ensures i < |s| ==> s[i] == c
    ensures forall k :: 0 <= k < i ==> s[k] != c
  {
    if s == "" || s[0] == c then 0 else 1 + IndexOf(s[1..], c)
  }

  /** `strings.FieldsFunc` splitting on 'e': maximal runs without it. */
  function FieldsE(s: string): seq<string>
    decreases |s|
  {
    var i := IndexOf(s, 'e');
    var rest := if i < |s| then FieldsE(s[i + 1..]) else [];
    if i == 0 then rest else [s[..i]] + rest
  }

  const INT64_MAX := 0x7fff_ffff_ffff_ffff

  /** `strconv.Atoi` on a 64-bit platform. */
  function Atoi(s: string): Option<int> {
    var signed := s != "" && (s[0] == '+' || s[0] == '-');
    var d := if signed then s[1..] else s;
    if d == "" || !AllDigits(d) then None
    else if signed && s[0] == '-' then (if Val(d) <= INT64_MAX + 1 then Some(-(Val(d) as int)) else None)
    else if Val(d) <= INT64_MAX then Some(Val(d)) else None
  }

  lemma FieldsEOnce(a: string, b: string)
    requires a != "" && 'e' !in a && 'e' !in b
    ensures FieldsE(a) == [a]
    ensures b != "" ==> FieldsE(a + "e" + b) == [a, b]
  {
    var i := IndexOf(a, 'e');
    assert i == |a| && a[..i] == a;
    if b != "" {
      var t := a + "e" + b;
      var j := IndexOf(t, 'e');
      assert t[|a|] == 'e' && forall k :: 0 <= k < |a| ==> t[k] == a[k] && a[k] in a;
      assert j == |a|;
      assert t[..j] == a && t[j + 1..] == b;
      var k := IndexOf(b, 'e');
      assert k == |b| && b[..k] == b;
    }
  }

  lemma BaseChars(n: Numeral)
    requires n.Valid()
    ensures var b := n.Base(); b != "" && forall i :: 0 <= i < |b| ==> IsDigit(b[i]) || b[i] == '-' || b[i] == '.'
    ensures IndexOf(n.Base(), '.') == if n.frac.Some? then |n.Base()| - n.Places() - 1 else |n.Base()|
  {
    var head := (if n.neg then "-" else "") + n.whole;
    var b := n.Base();
    assert forall i :: 0 <= i < |head| ==> head[i] != '.' && b[i] == head[i];
    var i := IndexOf(b, '.');
    if n.frac.Some? {
      assert b == head + "." + n.frac.value;
      assert b[|head|] == '.';
      assert i == |head|;
    } else {
      assert b == head;
      assert i == |b|;
    }
  }

  lemma LowerConcat(a: string, b: string)
    ensures Lower(a + b) == Lower(a) + Lower(b)
  {}

  lemma LowerSame(s: string)
    requires forall i :: 0 <= i < |s| ==> !('A' <= s[i] <= 'Z')
    ensures Lower(s) == s
  {}

  lemma LowerMark(c: char)
    requires c == 'e' || c == 'E'
    ensures Lower([c]) == "e"
  {}

  lemma LowerText(n: Numeral)
    requires n.Valid()
    ensures n.exp.NoExp? ==> Lower(n.Text()) == n.Base()
    ensures n.exp.Exp? ==> Lower(n.Text()) == n.Base() + "e" + (n.exp.sign + n.exp.digits)
    ensures 'e' !in n.Base()
    ensures n.exp.Exp? ==> 'e' !in n.exp.sign + n.exp.digits
  {
    BaseChars(n);
    LowerSame(n.Base());
    if n.exp.NoExp? {
      assert n.Text() == n.Base();
    } else {
      LowerTail(n.exp);
      LowerConcat(n.Base(), n.exp.Text());
      assert n.Base() + ("e" + (n.exp.sign + n.exp.digits)) == n.Base() + "e" + (n.exp.sign + n.exp.digits);
    }
  }

  lemma LowerTail(e: Exponent)
    requires e.Valid() && e.Exp?
    ensures Lower(e.Text()) == "e" + (e.sign + e.digits) && 'e' !in e.sign + e.digits
  {
    var x := e.sign + e.digits;
    assert forall i :: 0 <= i < |x| ==> IsDigit(x[i]) || x[i] == '+' || x[i] == '-';
    assert e.Text() == [e.mark] + x;
    LowerConcat([e.mark], x);
    LowerMark(e.mark);
    LowerSame(x);
  }

  lemma AtoiReadsExponent(x: Exponent)
    requires x.Valid() && x.Exp?
    ensures match Atoi(x.sign + x.digits)
            case Some(v) => v == x.Amount()
            case None => x.Amount() < -18 || 18 < x.Amount()
  {
    var s := x.sign + x.digits;
    if x.sign == "" { assert s == x.digits && IsDigit(s[0]); } else { assert s[1..] == x.digits && s[0] == x.sign[0]; }
  }

  /** The pieces around the exponent mark are those of the grammar, and search and integer
      conversion find in them the decimal point and the exponent. */
  predicate ReadsAs(parts: seq<string>, n: Numeral)
    requires n.Valid()
  {
    && parts == (if n.exp.Exp? then [n.Base(), n.exp.sign + n.exp.digits] else [n.Base()])
    && IndexOf(n.Base(), '.') == (if n.frac.Some? then |n.Base()| - n.Places() - 1 else |n.Base()|)
    && (n.exp.Exp? ==> match Atoi(n.exp.sign + n.exp.digits)
                       case Some(v) => v == n.exp.Amount()
                       case None => n.exp.Amount() < -18 || 18 < n.exp.Amount())
  }

  /** The scan by split, search and integer conversion reads exactly what the grammar says. */
  lemma ScanMatchesGrammar(n: Numeral)
    requires n.Valid()
    ensures ReadsAs(FieldsE(Lower(n.Text())), n)
  {
    BaseChars(n);
    LowerText(n);
    FieldsEOnce(n.Base(), if n.exp.Exp? then n.exp.sign + n.exp.digits else "");
    if n.exp.Exp? { AtoiReadsExponent(n.exp); }
  }

  // ---------------------------------------------------------------------
  // Printing

  /** `big.Rat.FloatString`: round half up to `prec` digits after the point. */
  function FloatString(x: real, prec: nat): string
    requires x >= 0.0
  {
    var p := Pow10(prec);
    var q: nat := x.Floor;
    var scaled := Fraction(x, p);
    var r: nat := scaled.Floor;
    var r1 := if 2.0 * (scaled - r as real) >= 1.0 then r + 1 else r;
    var q2, r2 := if r1 >= p then q + 1 else q, if r1 >= p then 0 else r1;
    Digits(q2) + if prec > 0 then "." + Padded(r2, prec) else ""
  }

  function Part(x: real): (f: real)
    ensures 0.0 <= f < 1.0
  {
    x - x.Floor as real
  }

  /** A fraction of one, in units of 1/p. */
  function InUnits(f: real, p: nat): (u: real)
    requires 0.0 <= f < 1.0 && p > 0
    ensures 0.0 <= u < p as real
  {
    f * p as real
  }

  function Fraction(x: real, p: nat): (f: real)
    requires p > 0
    ensures 0.0 <= f < p as real
  {
    InUnits(Part(x), p)
  }

  predicate IsInt(u: real) { u.Floor as real == u }

  /** `x` is a multiple of 1/p. */
  predicate Multiple(x: real, p: nat) { IsInt(x * p as real) }

  /** `x` has at most `s` decimal places. */
  predicate OnGrid(x: real, s: nat) { Multiple(x, Pow10(s)) }

  lemma IntEq(u: real, v: real)
    requires u == v && IsInt(u)
    ensures IsInt(v)
  {}

  lemma IntTimes(u: real, d: nat, v: real)
    requires IsInt(u) && v == u * d as real
    ensures IsInt(v)
  {
    assert v == (u.Floor * d) as real;
  }

  lemma MultipleAdd(x: real, y: real, p: nat)
    requires Multiple(x, p) && Multiple(y, p)
    ensures Multiple(x + y, p)
  {
    assert (x + y) * p as real == x * p as real + y * p as real;
    var a, b := (x * p as real).Floor, (y * p as real).Floor;
    assert (x + y) * p as real == (a + b) as real;
  }

  lemma MultipleFiner(x: real, p: nat, d: nat)
    requires Multiple(x, p)
    ensures Multiple(x, p * d)
  {
    assert (p * d) as real == p as real * d as real;
    assert x * (p * d) as real == (x * p as real) * d as real;
    IntTimes(x * p as real, d, x * (p * d) as real);
  }

  lemma OverIsMultiple(m: nat, a: nat, b: nat)
    requires a > 0
    ensures Multiple(Over(m, a), a * b)
  {
    var x := Over(m, a);
    IntEq(m as real, x * a as real);
    MultipleFiner(x, a, b);
  }

  lemma IntIsMultiple(n: nat, p: nat)
    ensures Multiple(n as real, p)
  {
    IntTimes(n as real, p, n as real * p as real);
  }

  lemma GridFiner(x: real, s: nat, t: nat)
    requires OnGrid(x, s) && s <= t
    ensures OnGrid(x, t)
  {
    Pow10Add(s, t - s);
    MultipleFiner(x, Pow10(s), Pow10(t - s));
  }

  lemma TimesPow10Grid(m: nat, e: int, s: nat)
    requires s >= -e
    ensures OnGrid(TimesPow10(m, e), s)
  {
    if e >= 0 {
      TimesPow10Up(m, e);
      IntIsMultiple(m * Pow10(e), Pow10(s));
    } else {
      TimesPow10Down(m, -e);
      Pow10Add(-e, s + e);
      OverIsMultiple(m, Pow10(-e), Pow10(s + e));
    }
  }

  /** Every debit is a non-negative multiple of its own last place, and bounded. */
  predicate Sane(d: Option<Debit>) {
    d.Some? ==>
      && 0.0 <= d.value.amount < Pow10(82) as real
      && OnGrid(d.value.amount, d.value.places)
      && d.value.places <= MAX_PLACES
  }

  lemma AmountSane(m: nat, k: int)
    requires m < Pow10(64) && k <= 18
    ensures 0.0 <= TimesPow10(m, k) < Pow10(82) as real && OnGrid(TimesPow10(m, k), if -k > 0 then -k else 0)
  {
    AmountBound(m, k);
    AmountGrid(m, k);
  }

  lemma AmountBound(m: nat, k: int)
    requires m < Pow10(64) && k <= 18
    ensures TimesPow10(m, k) < Pow10(82) as real
  { TimesPow10Bound(m, k, 64, 18); }

  /** A shift to the left needs no decimal places, one to the right as many as it is wide. */
  lemma AmountGrid(m: nat, k: int)
    ensures OnGrid(TimesPow10(m, k), if -k > 0 then -k else 0)
  { if k >= 0 { TimesPow10Grid(m, k, 0); } else { TimesPow10Grid(m, k, -k); } }

  /** A minus sign is only accepted in front of zero. */
  lemma DebitForSane(e: int, places: int, neg: bool, x: real, v: real)
    requires 0.0 <= x < Pow10(82) as real && OnGrid(x, if places > 0 then places else 0)
    requires v == if neg then -x else x
    ensures Sane(DebitFor(e, places, v))
  {
    if v >= 0.0 { assert v == x; }
  }

  lemma PartsSane(e: int, places: nat, m: nat, neg: bool, v: real)
    requires Bounded(m) && v == if neg then -TimesPow10(m, e - places) else TimesPow10(m, e - places)
    ensures Sane(DebitFor(e, places - e, v))
  {
    if e <= 18 {
      AmountSane(m, e - places);
      DebitForSane(e, places - e, neg, TimesPow10(m, e - places), v);
    }
  }

  lemma NumeralDebitSane(n: Numeral)
    requires n.Valid() && |n.Text()| <= MAX_TEXT
    ensures Sane(NumeralDebit(n))
  {
    MantissaBound(n);
    ValueSane(n);
  }

  /** No more digits than a debit's text may have. */
  predicate Bounded(m: nat) { m < Pow10(64) }

  lemma ValueSane(n: Numeral)
    requires n.Valid() && Bounded(n.Mantissa())
    ensures Sane(NumeralDebit(n))
  {
    ValueOfParts(n);
    PartsSane(n.exp.Amount(), n.Places(), n.Mantissa(), n.neg, n.Value());
    DebitOfParts(n);
  }

  lemma ValueOfParts(n: Numeral)
    requires n.Valid()
    ensures var x := TimesPow10(n.Mantissa(), n.exp.Amount() - n.Places());
            n.Value() == if n.neg then -x else x
  {}

  lemma DebitOfParts(n: Numeral)
    requires n.Valid()
    ensures NumeralDebit(n) == DebitFor(n.exp.Amount(), n.Places() - n.exp.Amount(), n.Value())
  {}

  lemma MantissaBound(n: Numeral)
    requires n.Valid() && |n.Text()| <= MAX_TEXT
    ensures Bounded(n.Mantissa())
  {
    var digits := n.whole + if n.frac.Some? then n.frac.value else "";
    assert |digits| <= |n.Base()| <= |n.Text()|;
    ValBound(digits);
    Pow10Monotone(|digits|, 64);
  }

  lemma TimesPow10Bound(m: nat, k: int, a: nat, b: nat)
    requires m < Pow10(a) && k <= b
    ensures TimesPow10(m, k) < Pow10(a + b) as real
  {
    Pow10Add(a, b);
    if k >= 0 { BoundUp(m, k, a, b); } else { BoundDown(m, -k, a, b); }
  }

  lemma BoundUp(m: nat, k: nat, a: nat, b: nat)
    requires m < Pow10(a) && k <= b
    ensures TimesPow10(m, k) < (Pow10(a) * Pow10(b)) as real
  {
    TimesPow10Up(m, k);
    Pow10Monotone(k, b);
    Product(m, Pow10(k), Pow10(a), Pow10(b));
  }

  lemma BoundDown(m: nat, k: nat, a: nat, b: nat)
    requires m < Pow10(a)
    ensures TimesPow10(m, -(k as int)) < (Pow10(a) * Pow10(b)) as real
  {
    TimesPow10Down(m, k);
    OverShrinks(m, Pow10(k));
    Product(m, 1, Pow10(a), Pow10(b));
  }

  lemma Product(a: nat, b: nat, c: nat, d: nat)
    requires a < c && 0 < b <= d
    ensures a * b < c * d
  {
    assert a * b <= a * d && a * d < c * d;
  }

  lemma OverShrinks(m: nat, p: nat)
    requires p > 0
    ensures Over(m, p) <= m as real
  {
    assert Over(m, p) * (p as real - 1.0) >= 0.0;
  }

  lemma DebitsSane(es: seq<RawCredit>)
    ensures forall d :: d in Debits(es) ==> Sane(d)
  {
    forall d | d in Debits(es) ensures Sane(d) {
      var i :| 0 <= i < |es| && Debits(es)[i] == d;
      DebitSane(es[i]);
    }
  }

  lemma DebitSane(e: RawCredit)
    ensures Sane(DebitOf(e))
  {
    if e.Literal? && Parse(e.text).Some? && |e.text| <= MAX_TEXT {
      TextOfParse(e.text);
      NumeralDebitSane(Parse(e.text).value);
    }
  }

  /** The debits that count: JSON numbers of at most 64 bytes with exponent and decimals within
      18, and not below zero. An explicit zero is one. */
  predicate Acceptable(e: RawCredit, n: Numeral) {
    && e.Literal? && n.Valid() && n.Text() == e.text && |e.text| <= 64
    && -18 <= n.exp.Amount() <= 18 && n.Places() - n.exp.Amount() <= 18 && n.Value() >= 0.0
  }

  /** Nothing else counts, and what counts does so exactly, with the decimals it needs. */
  lemma AcceptedIff(e: RawCredit)
    ensures DebitOf(e).Some? <==> exists n :: Acceptable(e, n)
    ensures forall n :: Acceptable(e, n) ==> DebitOf(e) == Some(Debit(n.Value(), PlacesOf(n)))
  {
    forall n | Acceptable(e, n) ensures DebitOf(e) == Some(Debit(n.Value(), PlacesOf(n))) { AcceptedAs(e, n); }
    if DebitOf(e).Some? { CountsIfDebit(e); }
  }

  /** The decimals a number needs. */
  function PlacesOf(n: Numeral): nat
    requires n.Valid()
  {
    if n.Places() > n.exp.Amount() then n.Places() - n.exp.Amount() else 0
  }

  lemma AcceptedAs(e: RawCredit, n: Numeral)
    requires Acceptable(e, n)
    ensures DebitOf(e) == Some(Debit(n.Value(), PlacesOf(n)))
  {
    ParseText(n);
    DebitOfParts(n);
  }

  lemma CountsIfDebit(e: RawCredit)
    requires DebitOf(e).Some?
    ensures Acceptable(e, Parse(e.text).value)
  {
    TextOfParse(e.text);
    DebitOfParts(Parse(e.text).value);
  }

  /** The sum never leaves the grid of its own scale, and the scale is bounded. */
  lemma {:induction false} TotalOnGrid(ds: seq<Option<Debit>>)
    requires forall d :: d in ds ==> Sane(d)
    ensures Total(ds) >= 0.0 && OnGrid(Total(ds), Scale(ds)) && Scale(ds) <= MAX_PLACES
  {
    if ds == [] {
      assert 0.0 * Pow10(0) as real == 0.0;
    } else {
      var front, d := ds[..|ds|-1], ds[|ds|-1];
      assert d in ds && forall x :: x in front ==> x in ds;
      TotalOnGrid(front);
      GridFiner(Total(front), Scale(front), Scale(ds));
      if d.Some? {
        GridFiner(Amount(d), Places(d), Scale(ds));
        MultipleAdd(Total(front), Amount(d), Pow10(Scale(ds)));
      }
    }
  }

  lemma NoRemainder(x: real, p: nat)
    requires x >= 0.0 && p > 0 && Multiple(x, p)
    ensures IsInt(Fraction(x, p)) && x * p as real == (x.Floor * p + Fraction(x, p).Floor) as real
  {
    var u, q := (x * p as real).Floor, x.Floor;
    assert (x - q as real) * p as real == x * p as real - q as real * p as real;
    assert Fraction(x, p) == (u - q * p) as real;
  }

  /** The units of the last decimal in a number of `q` wholes and `r` such units. */
  function Joined(q: nat, r: nat, p: nat): nat { q * p + r }

  function FixedText(q: nat, r: nat, prec: nat): string
    requires r < Pow10(prec)
  {
    Digits(q) + if prec > 0 then "." + Padded(r, prec) else ""
  }

  lemma GridDigits(x: real, prec: nat) returns (q: nat, r: nat)
    requires x >= 0.0 && OnGrid(x, prec)
    ensures r < Pow10(prec) && x == Over(Joined(q, r, Pow10(prec)), Pow10(prec))
    ensures FloatString(x, prec) == FixedText(q, r, prec)
  {
    var p := Pow10(prec);
    NoRemainder(x, p);
    q, r := x.Floor, Fraction(x, p).Floor;
    OverUnique(x, q * p + r, p);
  }

  /** On its grid a number prints without rounding, as a plain JSON number with exactly
      `prec` decimals that denotes it. */
  lemma PrintsExactly(x: real, prec: nat)
    requires x >= 0.0 && OnGrid(x, prec)
    ensures var n := Parse(FloatString(x, prec));
            && n.Some? && n.value.Value() == x
            && !n.value.neg && n.value.exp.NoExp? && n.value.Places() == prec
  {
    var q, r := GridDigits(x, prec);
    var n := FixedPoint(q, r, prec);
    ParseText(n);
  }

  lemma FixedPoint(q: nat, r: nat, prec: nat) returns (n: Numeral)
    requires r < Pow10(prec)
    ensures n.Valid() && n.Text() == FixedText(q, r, prec)
    ensures n.Value() == Over(Joined(q, r, Pow10(prec)), Pow10(prec))
    ensures !n.neg && n.exp.NoExp? && n.Places() == prec
  {
    if prec > 0 {
      n := WithPoint(Digits(q), Padded(r, prec));
    } else {
      n := Numeral(false, Digits(q), None, NoExp);
      assert Digits(q) + "" == Digits(q);
      PlainValue(n);
    }
  }

  lemma WithPoint(whole: string, frac: string) returns (n: Numeral)
    requires whole != "" && AllDigits(whole) && (|whole| > 1 ==> whole[0] != '0') && frac != "" && AllDigits(frac)
    ensures n.Valid() && n.Text() == whole + ("." + frac) && !n.neg && n.exp.NoExp? && n.Places() == |frac|
    ensures n.Value() == Over(Joined(Val(whole), Val(frac), Pow10(|frac|)), Pow10(|frac|))
  {
    n := Numeral(false, whole, Some(frac), NoExp);
    PlainValue(n);
    ValAppend(whole, frac);
    assert n.Base() == "" + whole + ("." + frac);
  }

  /** What a client parses out of the printed credit is the exact sum of the accepted debits. */
  lemma PrintedTotalIsTheSum(es: seq<RawCredit>)
    ensures var ds := Debits(es);
            && Total(ds) >= 0.0
            && var n := Parse(FloatString(Total(ds), Scale(ds)));
               n.Some? && n.value.Value() == Total(ds) && n.value.Places() == Scale(ds) <= MAX_PLACES
                   && n.value.exp.NoExp?
  {
    DebitsSane(es);
    TotalOnGrid(Debits(es));
    PrintsExactly(Total(Debits(es)), Scale(Debits(es)));
  }

  lemma TotalIsNotNegative(es: seq<RawCredit>)
    ensures Total(Debits(es)) >= 0.0
  {
    PrintedTotalIsTheSum(es);
  }

  // ---------------------------------------------------------------------
  // Order independence

  lemma {:induction false} RemoveOne(ds: seq<Option<Debit>>, i: nat)
    requires i < |ds|
    ensures var rest := ds[..i] + ds[i + 1..];
            && Total(ds) == Total(rest) + Amount(ds[i])
            && Known(ds) == Known(rest) + (if ds[i].Some? then 1 else 0)
            && Scale(ds) == Max(Scale(rest), Places(ds[i]))
    decreases |ds|
  {
    var rest, last := ds[..i] + ds[i + 1..], |ds| - 1;
    if i == last {
      assert rest == ds[..last];
    } else {
      RemoveOne(ds[..last], i);
      assert rest[..|rest| - 1] == ds[..last][..i] + ds[..last][i + 1..];
      assert rest[|rest| - 1] == ds[last];
    }
  }

  /** Two sequences with the same elements: the last of one can be taken out of both. */
  lemma TakeOut<T>(a: seq<T>, b: seq<T>) returns (i: nat)
    requires multiset(a) == multiset(b) && a != []
    ensures |a| == |b| && i < |b| && b[i] == a[|a| - 1]
    ensures multiset(a[..|a| - 1]) == multiset(b[..i] + b[i + 1..])
  {
    assert |multiset(a)| == |a| && |multiset(b)| == |b|;
    var last := a[|a| - 1];
    assert last in multiset(b);
    i :| 0 <= i < |b| && b[i] == last;
    assert a == a[..|a| - 1] + [last];
    assert b == b[..i] + [last] + b[i + 1..];
    assert multiset(b) == multiset(b[..i]) + multiset{last} + multiset(b[i + 1..]);
    assert multiset(a) == multiset(a[..|a| - 1]) + multiset{last};
    assert multiset(b) - multiset{last} == multiset(b[..i]) + multiset(b[i + 1..]);
    assert multiset(a) - multiset{last} == multiset(a[..|a| - 1]);
  }

  lemma {:induction false} DebitOrder(a: seq<Option<Debit>>, b: seq<Option<Debit>>)
    requires multiset(a) == multiset(b)
    ensures Total(a) == Total(b) && Scale(a) == Scale(b) && Known(a) == Known(b)
    decreases |a|
  {
    if a == [] {
      assert |multiset(b)| == |b|;
    } else {
      var i := TakeOut(a, b);
      DebitOrder(a[..|a| - 1], b[..i] + b[i + 1..]);
      RemoveOne(b, i);
    }
  }

  lemma MapSplit<T, U>(f: T -> U, b: seq<T>, i: nat)
    requires i < |b|
    ensures multiset(Map(f, b)) == multiset(Map(f, b[..i] + b[i + 1..])) + multiset{f(b[i])}
  {
    var l, r := Map(f, b[..i]), Map(f, b[i + 1..]);
    assert Map(f, b) == l + [f(b[i])] + r;
    assert Map(f, b[..i] + b[i + 1..]) == l + r;
  }

  lemma {:induction false} MapMultiset<T, U>(f: T -> U, a: seq<T>, b: seq<T>)
    requires multiset(a) == multiset(b)
    ensures multiset(Map(f, a)) == multiset(Map(f, b))
    decreases |a|
  {
    if a == [] {
      assert |multiset(b)| == |b|;
    } else {
      var i := TakeOut(a, b);
      MapMultiset(f, a[..|a| - 1], b[..i] + b[i + 1..]);
      MapSplit(f, b, i);
      MapSplit(f, a, |a| - 1);
      assert a[..|a| - 1] + a[|a|..] == a[..|a| - 1];
    }
  }

  /** Concurrent hooks may record in any order: total, scale and counts come out the same. */
  lemma OrderDoesNotMatter(a: seq<RawCredit>, b: seq<RawCredit>)
    requires multiset(a) == multiset(b)
    ensures |a| == |b|
    ensures Total(Debits(a)) == Total(Debits(b)) && Scale(Debits(a)) == Scale(Debits(b))
            && Known(Debits(a)) == Known(Debits(b))
  {
    assert |multiset(a)| == |a| && |multiset(b)| == |b|;
    MapMultiset(DebitOf, a, b);
    DebitOrder(Debits(a), Debits(b));
  }

  lemma {:induction false} KnownCounts(ds: seq<Option<Debit>>)
    ensures Known(ds) <= |ds|
    ensures Known(ds) == |ds| <==> forall d :: d in ds ==> d.Some?
    ensures Known(ds) > 0 <==> exists d :: d in ds && d.Some?
  {
    if ds == [] {
    } else {
      var front, last := ds[..|ds|-1], ds[|ds|-1];
      KnownCounts(front);
      MembersOf(ds);
      if last.Some? { assert last in ds; }
    }
  }

  lemma MembersOf<T>(s: seq<T>)
    requires s != []
    ensures forall x :: x in s <==> x in s[..|s|-1] || x == s[|s|-1]
  {
    assert s == s[..|s|-1] + [s[|s|-1]];
  }

  // ---------------------------------------------------------------------
  // Output size

  lemma Distribute(k: nat, p: nat)
    ensures (k + 1) * p == k * p + p
  {}

  lemma {:induction false} TotalBound(ds: seq<Option<Debit>>)
    requires forall d :: d in ds ==> Sane(d)
    ensures Total(ds) <= (Known(ds) * Pow10(82)) as real
  {
    if ds == [] {
    } else {
      var front, d := ds[..|ds|-1], ds[|ds|-1];
      assert d in ds && forall x :: x in front ==> x in ds;
      TotalBound(front);
      Distribute(Known(front), Pow10(82));
    }
  }

  lemma DigitsFit(n: nat, w: nat)
    requires n < Pow10(w) && w > 0
    ensures |Digits(n)| <= w
  {
    if |Digits(n)| > w { Pow10Monotone(w, |Digits(n)| - 1); }
  }

  lemma PrintedLength(x: real, prec: nat)
    requires x >= 0.0 && OnGrid(x, prec)
    ensures |FloatString(x, prec)| <= |Digits(x.Floor)| + 1 + prec
  {
    NoRemainder(x, Pow10(prec));
  }

  /** A hostile provider cannot make the printed credit long: at most 82 digits more
      than the number of attempts itself takes, plus the point and 18 decimals. */
  lemma PrintedLengthBound(es: seq<RawCredit>)
    ensures var ds := Debits(es);
            && Total(ds) >= 0.0
            && |FloatString(Total(ds), Scale(ds))| <= |Digits(Known(ds))| + 82 + 1 + MAX_PLACES
  {
    var ds := Debits(es);
    DebitsSane(es);
    TotalOnGrid(ds);
    TotalBound(ds);
    var x, k, prec := Total(ds), Known(ds), Scale(ds);
    var w := |Digits(k)| + 82;
    Pow10Add(|Digits(k)|, 82);
    Product(k, Pow10(82), Pow10(|Digits(k)|), Pow10(82));
    PrintedLength(x, prec);
    DigitsFit(x.Floor, w);
  }

  // ---------------------------------------------------------------------
  // The tally itself

  /** The credit part of a usage object. */
  datatype CreditUsage = CreditUsage(credit: Option<string>, reportId: string, complete: bool,
                                     attempts: nat, known: nat)

  lemma AppendDebit(es: seq<RawCredit>, e: RawCredit)
    ensures Debits(es + [e]) == Debits(es) + [DebitOf(e)]
    ensures var ds, d := Debits(es), DebitOf(e);
            && Total(Debits(es + [e])) == Total(ds) + Amount(d)
            && Scale(Debits(es + [e])) == Max(Scale(ds), Places(d))
            && Known(Debits(es + [e])) == Known(ds) + if d.Some? then 1 else 0
  {
    AppendMap(DebitOf, es, e);
    var ds := Debits(es + [e]);
    assert ds[..|ds|-1] == Debits(es);
  }

  lemma AppendMap<T, U>(f: T -> U, s: seq<T>, x: T)
    ensures Map(f, s + [x]) == Map(f, s) + [f(x)]
  {}

  /** The usage metadata for a list of recorded events under one report id. */
  function Report(es: seq<RawCredit>, id: string): CreditUsage {
    var ds := Debits(es);
    TotalIsNotNegative(es);
    CreditUsage(if Known(ds) > 0 then Some(FloatString(Total(ds), Scale(ds))) else None, id,
                |es| > 0 && Known(ds) == |es|, |es|, Known(ds))
  }

  /** What the metadata tells a client: an exact sum iff some debit was reported, and
      "complete" iff there was an attempt and every attempt reported one. */
  lemma ReportMeaning(es: seq<RawCredit>, id: string)
    ensures var u := Report(es, id);
            && (u.credit.Some? <==> exists e :: e in es && DebitOf(e).Some?)
            && (u.credit.Some? ==>
                  Parse(u.credit.value).Some? && Parse(u.credit.value).value.Value() == Total(Debits(es)))
            && (u.complete <==> es != [] && forall e :: e in es ==> DebitOf(e).Some?)
  {
    var ds := Debits(es);
    PrintedTotalIsTheSum(es);
    KnownCounts(ds);
    DebitMembers(es);
  }

  lemma DebitMembers(es: seq<RawCredit>)
    ensures (exists d :: d in Debits(es) && d.Some?) <==> (exists e :: e in es && DebitOf(e).Some?)
    ensures (forall d :: d in Debits(es) ==> d.Some?) <==> (forall e :: e in es ==> DebitOf(e).Some?)
  {
    var ds := Debits(es);
    if d :| d in ds && d.Some? { var i :| 0 <= i < |ds| && ds[i] == d; assert es[i] in es; }
    if e :| e in es && DebitOf(e).Some? { var i :| 0 <= i < |es| && es[i] == e; assert ds[i] in ds; }
    if d :| d in ds && d.None? { var i :| 0 <= i < |ds| && ds[i] == d; assert es[i] in es; }
    if e :| e in es && DebitOf(e).None? { var i :| 0 <= i < |es| && es[i] == e; assert ds[i] in ds; }
  }

  /** What a client reads in a report: the number it states, and with how many decimals. */
  function Stated(u: CreditUsage): real {
    if u.credit.Some? && Parse(u.credit.value).Some? then Parse(u.credit.value).value.Value() else 0.0
  }

  function Decimals(u: CreditUsage): nat {
    if u.credit.Some? && Parse(u.credit.value).Some? then Parse(u.credit.value).value.Places() else 0
  }

  lemma NothingReported(id: string)
    ensures Report([], id) == CreditUsage(None, id, false, 0, 0)
  {}

  lemma StatedIsTotal(es: seq<RawCredit>, id: string)
    ensures var u, ds := Report(es, id), Debits(es);
            Stated(u) == Total(ds) && Decimals(u) == Scale(ds) && (u.credit.Some? <==> u.known > 0)
  {
    PrintedTotalIsTheSum(es);
    if Known(Debits(es)) == 0 { NoneKnown(Debits(es)); }
  }

  lemma {:induction false} NoneKnown(ds: seq<Option<Debit>>)
    requires Known(ds) == 0
    ensures Total(ds) == 0.0 && Scale(ds) == 0
  {
    if ds == [] {
    } else {
      NoneKnown(ds[..|ds|-1]);
    }
  }

  /** One more event: another attempt, whose debit, if it counts, is added to the last decimal,
      and leaves the report incomplete if it does not. */
  lemma ReportGrows(es: seq<RawCredit>, e: RawCredit, id: string)
    ensures var u, v := Report(es, id), Report(es + [e], id);
            && v.attempts == u.attempts + 1 && v.reportId == id && (v.complete <==> v.known == v.attempts)
            && (forall n :: Acceptable(e, n) ==>
                  && v.known == u.known + 1 && v.credit.Some? && Stated(v) == Stated(u) + n.Value()
                  && Decimals(v) == if PlacesOf(n) > Decimals(u) then PlacesOf(n) else Decimals(u))
            && ((forall n :: !Acceptable(e, n)) ==> v.known == u.known && v.credit == u.credit)
  {
    AcceptedIff(e);
    AppendDebit(es, e);
    StatedIsTotal(es, id);
    StatedIsTotal(es + [e], id);
  }

  /** Free is not unknown: a single explicit zero is a complete report of "0". */
  lemma ZeroIsReported(id: string)
    ensures Report([Literal("0")], id) == CreditUsage(Some("0"), id, true, 1, 1)
  {
    var n := Numeral(false, "0", None, NoExp);
    assert n.Text() == "0";
    assert Acceptable(Literal("0"), n);
    AcceptedIff(Literal("0"));
    AppendDebit([], Literal("0"));
    assert [] + [Literal("0")] == [Literal("0")];
    assert FloatString(0.0, 0) == "0";
  }

  class CreditTally {
    var total: real
    var scale: nat
    var id: string
    var attempts: nat
    var known: nat
    ghost var events: seq<RawCredit>

    ghost predicate Valid() reads this {
      var ds := Debits(events);
      total == Total(ds) && scale == Scale(ds) && attempts == |events| && known == Known(ds)
    }

    constructor ()
      ensures Valid() && events == [] && id == ""
    {
      total, scale, id, attempts, known, events := 0.0, 0, "", 0, 0, [];
    }

    method Record(e: RawCredit)
      requires Valid()
      modifies this
      ensures Valid() && events == old(events) + [e] && id == old(id)
      ensures attempts == old(attempts) + 1
      ensures forall n :: Acceptable(e, n) ==> known == old(known) + 1 && total == old(total) + n.Value()
      ensures (forall n :: !Acceptable(e, n)) ==> known == old(known) && total == old(total)
    {
      AcceptedIff(e);
      var d := ReadNext(e, events);
      events := events + [e];
      attempts := attempts + 1;
      if d.None? { return; }
      if d.value.places > scale { scale := d.value.places; }
      total := total + d.value.amount;
      known := known + 1;
    }

    /** `apply`, with the random report id it would draw passed in. */
    method Apply(drawn: string) returns (u: CreditUsage)
      requires Valid() && drawn != ""
      modifies this`id
      ensures Valid() && id == (if old(id) == "" then drawn else old(id)) && id != ""
      ensures u == Report(events, id)
    {
      if id == "" { id := drawn; }
      TotalIsNotNegative(events);
      var credit := if known > 0 then Some(FloatString(total, scale)) else None;
      u := CreditUsage(credit, id, attempts > 0 && known == attempts, attempts, known);
    }
  }

  /** The part of `record` before the running sums change: every early return is a `None`. */
  method ReadDebit(e: RawCredit) returns (d: Option<Debit>)
    ensures d == DebitOf(e)
    ensures d.Some? <==> exists n :: Acceptable(e, n)
    ensures forall n :: Acceptable(e, n) ==> d.Some? && d.value.amount == n.Value()
  {
    AcceptedIff(e);
    if !e.Literal? { return None; }
    var n := Parse(e.text);
    if n.None? || |e.text| > MAX_TEXT { return None; }
    TextOfParse(e.text);
    d := ScanDebit(e.text, n.value);
  }

  method ReadNext(e: RawCredit, ghost es: seq<RawCredit>) returns (d: Option<Debit>)
    ensures d == DebitOf(e)
    ensures var ds, more := Debits(es), Debits(es + [e]);
            && Total(more) == Total(ds) + Amount(d) && Scale(more) == Max(Scale(ds), Places(d))
            && Known(more) == Known(ds) + if d.Some? then 1 else 0
  {
    d := ReadDebit(e);
    AppendDebit(es, e);
  }

  method ScanDebit(text: string, n: Numeral) returns (d: Option<Debit>)
    requires n.Valid() && text == n.Text()
    ensures d == NumeralDebit(n)
  {
    var places := ScanText(text, n);
    if places.None? || places.value > MAX_PLACES { return None; }
    var v := n.Value();
    if v < 0.0 { return None; }
    d := Some(Debit(v, if places.value > 0 then places.value else 0));
  }

  method ScanText(text: string, n: Numeral) returns (r: Option<int>)
    requires n.Valid() && text == n.Text()
    ensures r == if -18 <= n.exp.Amount() <= 18 then Some(n.Places() - n.exp.Amount()) else None
  {
    var parts := FieldsE(Lower(text));
    ScanMatchesGrammar(n);
    r := ScanPlaces(parts, n);
  }

  method ScanPlaces(parts: seq<string>, n: Numeral) returns (r: Option<int>)
    requires n.Valid() && ReadsAs(parts, n)
    ensures r == if -18 <= n.exp.Amount() <= 18 then Some(n.Places() - n.exp.Amount()) else None
  {
    var places: int := 0;
    var dot := IndexOf(parts[0], '.');
    if dot < |parts[0]| { places := |parts[0]| - dot - 1; }
    if |parts| == 2 {
      var x := Atoi(parts[1]);
      if x.None? || x.value < -18 || x.value > 18 { return None; }
      places := places - x.value;
    }
    r := Some(places);
  }
}
