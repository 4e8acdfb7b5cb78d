/** Conversion between currencies through the rouble (apps/backend/src/currency/currency.service.ts). */
module Currency {
  import opened Prelude

  type Rates = map<string, real>

  ghost predicate Positive(rates: Rates) {
    forall code: string :: code in rates ==> rates[code] > 0.0
  }

  datatype RateRow = RateRow(code: string, rate: real)

  /** The latest rate: rows come newest first. */
  function FirstRate(rows: seq<RateRow>, code: string): Option<real> {
    if rows == [] then None else if rows[0].code == code then Some(rows[0].rate) else FirstRate(rows[1..], code)
  }

  /** That is the rate of a row no earlier row of its code comes before. */
  lemma {:induction false} FirstRateIff(rows: seq<RateRow>, code: string, rate: real)
    ensures FirstRate(rows, code) == Some(rate)
            <==> exists i :: 0 <= i < |rows| && rows[i] == RateRow(code, rate)
                             && forall j :: 0 <= j < i ==> rows[j].code != code
    ensures FirstRate(rows, code) == None <==> forall i :: 0 <= i < |rows| ==> rows[i].code != code
  {
    if rows != [] {
      FirstRateIff(rows[1..], code, rate);
      assert forall i :: 0 < i < |rows| ==> rows[i] == rows[1..][i - 1];
      if FirstRate(rows[1..], code) == Some(rate) && rows[0].code != code {
        var i :| 0 <= i < |rows[1..]| && rows[1..][i] == RateRow(code, rate)
                 && forall j :: 0 <= j < i ==> rows[1..][j].code != code;
        assert rows[i + 1] == RateRow(code, rate);
      }
    }
  }

  /** The rouble is 1 whatever the rows say; every other currency has its newest row's rate. */
  method GetRubRates(rows: seq<RateRow>) returns (rates: Rates)
    ensures forall code: string ::
              (if code == "RUB" then Some(1.0) else FirstRate(rows, code))
              == if code in rates then Some(rates[code]) else None
  {
    rates := map["RUB" := 1.0];
    for i := 0 to |rows|
      invariant forall code: string ::
                  (if code == "RUB" then Some(1.0) else FirstRate(rows, code))
                  == if code in rates then Some(rates[code]) else FirstRate(rows[i..], code)
      invariant "RUB" in rates && rates["RUB"] == 1.0
    {
      assert rows[i..][1..] == rows[i + 1..] && rows[i..][0] == rows[i];
      if rows[i].code !in rates {
        rates := rates[rows[i].code := rows[i].rate];
      }
    }
  }

  /** Best effort: an amount without a rate on either side is left unchanged. */
  function Convert(amount: real, from: string, toBase: string, rates: Rates): real
    requires Positive(rates)
  {
    if from == toBase || from !in rates || toBase !in rates then amount
    else amount * rates[from] / rates[toBase]
  }

  /** Conversion is one positive factor per pair of currencies. */
  function Factor(from: string, toBase: string, rates: Rates): (f: real)
    requires Positive(rates)
    ensures f > 0.0
  {
    if from == toBase || from !in rates || toBase !in rates then 1.0
    else
      PositiveQuotient(rates[from], rates[toBase]);
      rates[from] / rates[toBase]
  }

  lemma PositiveQuotient(x: real, y: real)
    requires x > 0.0 && y > 0.0
    ensures x / y > 0.0
  {
    var q := x / y;
    assert q * y == x;
  }

  lemma ConvertIsFactor(amount: real, from: string, toBase: string, rates: Rates)
    requires Positive(rates)
    ensures Convert(amount, from, toBase, rates) == amount * Factor(from, toBase, rates)
  {
    if !(from == toBase || from !in rates || toBase !in rates) {
      MulDiv(amount, rates[from], rates[toBase], Factor(from, toBase, rates));
    }
  }

  lemma MulDiv(a: real, x: real, y: real, q: real)
    requires y > 0.0 && q == x / y
    ensures a * x / y == a * q
  {
    assert q * y == x;
    assert a * q * y == a * x;
  }

  /** A rate is the price of one unit in roubles: a converted amount is worth the same there. */
  lemma ConvertKeepsValue(amount: real, from: string, toBase: string, rates: Rates)
    requires Positive(rates)
    ensures var converted := Convert(amount, from, toBase, rates);
            if from in rates && toBase in rates then converted * rates[toBase] == amount * rates[from]
            else converted == amount
  {
  }

  lemma ConvertSubtracts(a: real, b: real, from: string, toBase: string, rates: Rates)
    requires Positive(rates)
    ensures Convert(a - b, from, toBase, rates) == Convert(a, from, toBase, rates) - Convert(b, from, toBase, rates)
  {
    hide Convert, Factor;
    ConvertIsFactor(a, from, toBase, rates);
    ConvertIsFactor(b, from, toBase, rates);
    ConvertIsFactor(a - b, from, toBase, rates);
  }

  lemma ConvertKeepsSign(a: real, from: string, toBase: string, rates: Rates)
    requires Positive(rates)
    ensures Convert(a, from, toBase, rates) >= 0.0 <==> a >= 0.0
  {
    hide Convert, Factor;
    ConvertIsFactor(a, from, toBase, rates);
    SignOfProduct(a, Factor(from, toBase, rates));
  }

  lemma SignOfProduct(a: real, f: real)
    requires f > 0.0
    ensures a * f >= 0.0 <==> a >= 0.0
  {
  }

  // ---------------------------------------------------------------- going through a third currency

  /**
   * Two of the three currencies have a rate, the third has none, and the two rates differ: then
   * one of the conversions is done and another silently is not.
   */
  predicate HalfKnown(from: string, via: string, to: string, rates: Rates) {
    && from != via && via != to && from != to
    && ((from in rates && via in rates && to !in rates && rates[from] != rates[via])
        || (from !in rates && via in rates && to in rates && rates[via] != rates[to])
        || (from in rates && via !in rates && to in rates && rates[from] != rates[to]))
  }

  lemma QuotientIsOne(x: real, y: real)
    requires y > 0.0
    ensures x / y == 1.0 <==> x == y
  {
  }

  lemma QuotientsCancel(x: real, y: real, z: real)
    requires x > 0.0 && y > 0.0 && z > 0.0
    ensures x / y * (y / z) == x / z
  {
    var q := y / z;
    MulDiv(x / y, y, z, q);
    assert x / y * y == x;
  }

  lemma FactorsComposeIff(from: string, via: string, to: string, rates: Rates, f: real, g: real, h: real)
    requires Positive(rates)
    requires f == Factor(from, via, rates) && g == Factor(via, to, rates) && h == Factor(from, to, rates)
    ensures f * g == h <==> !HalfKnown(from, via, to, rates)
  {
    if from != via && via != to {
      if from in rates && via in rates && to in rates {
        QuotientsCancel(rates[from], rates[via], rates[to]);
        QuotientIsOne(rates[from], rates[to]);
      } else if from in rates && via in rates {
        QuotientIsOne(rates[from], rates[via]);
      } else if via in rates && to in rates {
        QuotientIsOne(rates[via], rates[to]);
      } else if from in rates && to in rates {
        QuotientIsOne(rates[from], rates[to]);
      }
    }
  }

  /** Converting in two steps gives what one step gives, exactly unless the triangle is half known. */
  lemma TriangleIff(amount: real, from: string, via: string, to: string, rates: Rates)
    requires Positive(rates)
    ensures Convert(Convert(amount, from, via, rates), via, to, rates) == Convert(amount, from, to, rates)
            <==> amount == 0.0 || !HalfKnown(from, via, to, rates)
  {
    hide Convert, Factor, HalfKnown;
    var f, g, h := Factor(from, via, rates), Factor(via, to, rates), Factor(from, to, rates);
    var halfway := Convert(amount, from, via, rates);
    ConvertIsFactor(amount, from, via, rates);
    ConvertIsFactor(halfway, via, to, rates);
    ConvertIsFactor(amount, from, to, rates);
    FactorsComposeIff(from, via, to, rates, f, g, h);
    Cancel(amount, halfway, f, g, h);
  }

  lemma Cancel(a: real, b: real, f: real, g: real, h: real)
    requires b == a * f
    ensures b * g == a * h <==> a == 0.0 || f * g == h
  {
    assert b * g == a * (f * g);
    assert a * (f * g - h) == b * g - a * h;
  }
}
