/**
 A bandwidth quantity in bits per second, standing for the `resource.Quantity`
 values that limit ranges and pod annotations carry.

 The value zero doubles as "not set" (`IsZero`). Quantities are read from and
 written to annotation strings in decimal-SI notation: a run of decimal digits
 followed by at most one of the suffixes k, M, G, T, P, E (powers of 1000).
 `Render` produces the canonical form (as many trailing groups of three zeros
 as possible folded into the suffix) and `Parse` reads any such string; the
 round trip `Parse(Render(q)) == Some(q)` is proved below.
 */
module Quantity {
  import opened Common

  type Quantity = nat

  /** The absolute bounds every set policy value must lie in: 1k and 1P. */
  const MinRsrc: Quantity := 1000
  const MaxRsrc: Quantity := 1_000_000_000_000_000

  /** Zero is how an unset quantity reads. */
  predicate IsZero(q: Quantity) {
    q == 0
  }

  /** Decimal-SI suffixes, indexed by their power of 1000. */
  const Suffixes: seq<char> := ['k', 'M', 'G', 'T', 'P', 'E']

  function Pow1000(e: nat): (p: nat)
    ensures p >= 1
  {
    if e == 0 then 1 else 1000 * Pow1000(e - 1)
  }

  predicate IsDigit(c: char) {
    '0' <= c <= '9'
  }

  predicate AllDigits(s: string) {
    forall i :: 0 <= i < |s| ==> IsDigit(s[i])
  }

  function DigitChar(d: nat): (c: char)
    requires d < 10
    ensures IsDigit(c) && c as int - '0' as int == d
  {
    ('0' as int + d) as char
  }

  /** The decimal digits of `n`, most significant first, without leading zeros. */
  function Digits(n: nat): (s: string)
    ensures |s| >= 1 && AllDigits(s)
  {
    if n < 10 then [DigitChar(n)] else Digits(n / 10) + [DigitChar(n % 10)]
  }

  /** The number a string of decimal digits denotes. */
  function DigitsValue(s: string): nat
    requires AllDigits(s)
  {
    if s == [] then 0
    else 10 * DigitsValue(s[..|s| - 1]) + (s[|s| - 1] as int - '0' as int)
  }

  /** Index of `c` in `Suffixes`, plus one (so 0 means "no suffix"). */
  function SuffixExponent(c: char): (e: nat)
    ensures e <= |Suffixes|
    ensures e > 0 ==> Suffixes[e - 1] == c
    ensures e == 0 ==> c !in Suffixes
  {
    if c == 'k' then 1
    else if c == 'M' then 2
    else if c == 'G' then 3
    else if c == 'T' then 4
    else if c == 'P' then 5
    else if c == 'E' then 6
    else 0
  }

  /** A run of decimal digits, optionally followed by one decimal-SI suffix. */
  predicate DecimalSI(s: string) {
    && |s| >= 1
    && (|| AllDigits(s)
        || (|s| >= 2 && s[|s| - 1] in Suffixes && AllDigits(s[..|s| - 1])))
  }

  /** Reads a decimal-SI quantity string; `None` for anything else. */
  function Parse(s: string): (r: Option<Quantity>)
    ensures r.Some? <==> DecimalSI(s)
    ensures s != [] && AllDigits(s) ==> r == Some(DigitsValue(s))
  {
    if s == [] then None
    else
      var e := SuffixExponent(s[|s| - 1]);
      var mantissa := if e == 0 then s else s[..|s| - 1];
      if mantissa != [] && AllDigits(mantissa)
      then Some(DigitsValue(mantissa) * Pow1000(e))
      else None
  }

  /** Canonical rendering of `m * 1000^e`, folding trailing groups of 000 into the suffix. */
  function RenderScaled(m: nat, e: nat): string
    requires e <= |Suffixes|
    decreases |Suffixes| - e
  {
    if m != 0 && m % 1000 == 0 && e < |Suffixes| then RenderScaled(m / 1000, e + 1)
    else if e == 0 then Digits(m)
    else Digits(m) + [Suffixes[e - 1]]
  }


  lemma {:induction false} DigitsRoundTrip(n: nat)
    ensures DigitsValue(Digits(n)) == n
  {
    if n >= 10 {
      DigitsRoundTrip(n / 10);
      var s := Digits(n);
      assert s[..|s| - 1] == Digits(n / 10);
    }
  }

  lemma ParseDigits(m: nat)
    ensures Parse(Digits(m)) == Some(m)
  {
    DigitsRoundTrip(m);
    var d := Digits(m);
    assert SuffixExponent(d[|d| - 1]) == 0;
  }

  lemma ParseDigitsWithSuffix(m: nat, e: nat)
    requires 1 <= e <= |Suffixes|
    ensures Parse(Digits(m) + [Suffixes[e - 1]]) == Some(m * Pow1000(e))
  {
    DigitsRoundTrip(m);
    var d := Digits(m);
    var s := d + [Suffixes[e - 1]];
    assert SuffixExponent(s[|s| - 1]) == e;
    assert s[..|s| - 1] == d;
  }

  lemma ScaleStep(m: nat, e: nat)
    requires m % 1000 == 0
    ensures (m / 1000) * Pow1000(e + 1) == m * Pow1000(e)
  {
    var k := m / 1000;
    assert m == k * 1000;
    assert Pow1000(e + 1) == 1000 * Pow1000(e);
    calc {
      k * Pow1000(e + 1);
      k * (1000 * Pow1000(e));
      (k * 1000) * Pow1000(e);
    }
  }

  /** One folding step of the canonical rendering. */
  lemma RenderFolds(m: nat, e: nat)
    requires e < |Suffixes| && m != 0 && m % 1000 == 0
    ensures RenderScaled(m, e) == RenderScaled(m / 1000, e + 1)
  {
  }

  /** Where no more folding happens, the rendering is the digits and the suffix. */
  lemma RenderStops(m: nat, e: nat)
    requires e <= |Suffixes|
    requires !(m != 0 && m % 1000 == 0 && e < |Suffixes|)
    ensures Parse(RenderScaled(m, e)) == Some(m * Pow1000(e))
  {
    if e == 0 {
      assert RenderScaled(m, e) == Digits(m);
      assert m * Pow1000(e) == m;
      ParseDigits(m);
    } else {
      assert RenderScaled(m, e) == Digits(m) + [Suffixes[e - 1]];
      ParseDigitsWithSuffix(m, e);
    }
  }

  lemma {:induction false} RenderScaledRoundTrip(m: nat, e: nat)
    requires e <= |Suffixes|
    ensures Parse(RenderScaled(m, e)) == Some(m * Pow1000(e))
    decreases |Suffixes| - e
  {
    if m != 0 && m % 1000 == 0 && e < |Suffixes| {
      RenderFolds(m, e);
      RenderScaledRoundTrip(m / 1000, e + 1);
      ScaleStep(m, e);
    } else {
      RenderStops(m, e);
    }
  }

  /** The canonical string of a quantity, as written into annotations; reading it back gives the same quantity. */
  function Render(q: Quantity): (r: string)
    ensures DecimalSI(r)
    ensures Parse(r) == Some(q)
  {
    RenderScaledRoundTrip(q, 0);
    RenderScaled(q, 0)
  }
}
