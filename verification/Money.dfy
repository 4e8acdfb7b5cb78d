/** Decimal strings and whole cents (apps/frontend/src/utils/money.ts). */
module Money {
  import opened Prelude
  import opened Sums
  import opened Numerals
  import opened Text

  /** A matched number: sign, digits before and digits after the point. */
  datatype Decimal = Decimal(negative: bool, whole: string, frac: string)

  ghost predicate Matches(d: Decimal) {
    d.whole != [] && AllDigits(d.whole) && AllDigits(d.frac)
  }

  /** The length of the longest run of digits `s` starts with. */
  function DigitRun(s: string): (n: nat)
    ensures n <= |s| && AllDigits(s[..n]) && (n < |s| ==> !IsDigit(s[n]))
  {
    if s == [] || !IsDigit(s[0]) then 0 else 1 + DigitRun(s[1..])
  }

  /** The regular expression: an optional minus, digits, and optionally a point with digits. */
  function Match(v: string): (d: Option<Decimal>)
    ensures d.Some? ==> Matches(d.value)
  {
    var negative := v != [] && v[0] == '-';
    var rest := if negative then v[1..] else v;
    var n := DigitRun(rest);
    if n == 0 then None
    else if n == |rest| then Some(Decimal(negative, rest, []))
    else
      var frac := rest[n + 1..];
      if rest[n] == '.' && frac != [] && DigitRun(frac) == |frac| then Some(Decimal(negative, rest[..n], frac))
      else None
  }

  /** How a number is written: a minus if it is negative, its digits, and a point before any fraction. */
  ghost predicate Written(v: string, d: Decimal) {
    && Matches(d)
    && v == Sign(d.negative) + d.whole + Point(d.frac)
  }

  function Sign(negative: bool): string {
    if negative then "-" else ""
  }

  function Point(frac: string): string {
    if frac == [] then "" else "." + frac
  }

  lemma WrittenIsMatched(v: string, d: Decimal)
    requires Written(v, d)
    ensures Match(v) == Some(d)
  {
    hide Match, AllDigits;
    if d.frac == [] {
      WholeIsMatched(v, d);
    } else {
      MatchPrinted(d.negative, d.whole, d.frac);
      assert v == (if d.negative then "-" else "") + d.whole + "." + d.frac;
    }
  }

  lemma WholeIsMatched(v: string, d: Decimal)
    requires Matches(d) && d.frac == [] && v == Sign(d.negative) + d.whole
    ensures Match(v) == Some(d)
  {
    RunToTheEnd(d.whole);
    assert IsDigit(d.whole[0]);
    hide DigitRun, AllDigits;
    assert v == if d.negative then "-" + d.whole else d.whole;
    assert (if d.negative then v[1..] else v) == d.whole;
  }

  /** The expression matches exactly the numbers, and each in one way. */
  lemma MatchIff(v: string, d: Decimal)
    ensures Match(v) == Some(d) <==> Written(v, d)
  {
    if Written(v, d) {
      WrittenIsMatched(v, d);
    }
    if Match(v) == Some(d) {
      MatchedIsWritten(v);
    }
  }

  lemma MatchShape(v: string)
    ensures Match(v).Some? ==>
              var d := Match(v).value;
              && Matches(d) && (d.negative <==> v != [] && v[0] == '-')
              && (if d.negative then v[1..] else v) == d.whole + Point(d.frac)
  {
    var negative := v != [] && v[0] == '-';
    var rest := if negative then v[1..] else v;
    var n := DigitRun(rest);
    hide DigitRun, Matches;
    if 0 < n < |rest| {
      PointBetween(rest, n);
    } else {
      assert rest + "" == rest;
    }
  }

  lemma MatchedIsWritten(v: string)
    ensures Match(v).Some? ==> Written(v, Match(v).value)
  {
    MatchShape(v);
    hide Match, Matches, Sign, Point;
    if Match(v).Some? {
      var d := Match(v).value;
      SignInFront(v, d.negative);
      Associate(Sign(d.negative), d.whole, Point(d.frac));
    }
  }

  lemma SignInFront(v: string, negative: bool)
    requires negative <==> v != [] && v[0] == '-'
    ensures v == Sign(negative) + if negative then v[1..] else v
  {
  }

  lemma Associate(a: string, b: string, c: string)
    ensures a + (b + c) == a + b + c
  {
  }

  lemma PointBetween(rest: string, n: nat)
    requires n < |rest|
    ensures rest[n] == '.' ==> rest == rest[..n] + ("." + rest[n + 1..])
    ensures rest[n + 1..][..|rest[n + 1..]|] == rest[n + 1..]
  {
    assert rest == rest[..n] + ([rest[n]] + rest[n + 1..]);
  }

  /** The exact value in cents. */
  ghost function ExactCents(d: Decimal): real
    requires Matches(d)
  {
    var magnitude := 100.0 * Parse(d.whole) as real + 100.0 * Parse(d.frac) as real / Pow10(|d.frac|) as real;
    if d.negative then -magnitude else magnitude
  }

  /** The nearest integer, a half going away from zero. */
  ghost function RoundHalfAway(x: real): (r: int)
    ensures Abs(r as real - x) <= 0.5
  {
    if x >= 0.0 then (x + 0.5).Floor else -((-x + 0.5).Floor)
  }

  /** A hundred times what the digits say, read without the point and moved back by as many places. */
  lemma ExactCentsIs(d: Decimal)
    requires Matches(d)
    ensures AllDigits(d.whole + d.frac)
    ensures ExactCents(d) * Pow10(|d.frac|) as real
            == (if d.negative then -100.0 else 100.0) * Parse(d.whole + d.frac) as real
  {
    hide Parse, Pow10, ExactCents, MovedBack;
    ParseConcat(d.whole, d.frac);
    ExactCentsParts(d);
    hide AllDigits;
    MovedBackIs(d.negative, Parse(d.whole), Parse(d.frac), Pow10(|d.frac|));
  }

  lemma ExactCentsParts(d: Decimal)
    requires Matches(d)
    ensures ExactCents(d) == MovedBack(d.negative, Parse(d.whole), Parse(d.frac), Pow10(|d.frac|))
  {
    hide Parse, Pow10;
  }

  ghost function MovedBack(negative: bool, w: nat, f: nat, p: nat): real
    requires p > 0
  {
    var magnitude := 100.0 * w as real + 100.0 * f as real / p as real;
    if negative then -magnitude else magnitude
  }

  lemma MovedBackIs(negative: bool, w: nat, f: nat, p: nat)
    requires p > 0
    ensures MovedBack(negative, w, f, p) * p as real == (if negative then -100.0 else 100.0) * (w * p + f) as real
  {
    var q, r := 100.0 * f as real / p as real, p as real;
    assert q * r == 100.0 * f as real;
    assert (w * p) as real == w as real * r;
    assert (100.0 * w as real + q) * r == 100.0 * (w as real * r) + q * r;
    assert -(100.0 * w as real + q) * r == -((100.0 * w as real + q) * r);
  }

  /** Nothing else is as near, and of two whole numbers equally near it is the one away from zero. */
  lemma RoundHalfAwayIff(x: real, r: int)
    ensures r == RoundHalfAway(x)
            <==> Abs(r as real - x) <= 0.5 && (Abs(r as real - x) == 0.5 ==> Abs(r as real) > Abs(x))
  {
  }

  /** What `toCents` means: the exact value rounded to cents; None for a string that is no number. */
  ghost function Cents(value: string): Option<int> {
    var d := Match(Trim(value));
    if d.None? then None else Some(RoundHalfAway(ExactCents(d.value)))
  }

  method ToCents(value: string) returns (r: Option<int>)
    ensures r == Cents(value)
  {
    hide Match, Trim, ExactCents, RoundHalfAway;
    var d := Match(Trim(value));
    if d.None? {
      return None;
    }
    var frac := d.value.frac;
    var two := (frac + "00")[..2];
    var cents := Parse(d.value.whole) * 100 + Parse(two);
    if |frac| > 2 && DigitValue(frac[2]) >= 5 {
      cents := cents + 1;
    }
    ThirdDigitDecides(d.value);
    return Some(if d.value.negative then -cents else cents);
  }

  /** The cents read off the first three fraction digits. */
  function ReadCents(d: Decimal): (cents: int)
    requires Matches(d)
  {
    Parse(d.whole) * 100 + Parse((d.frac + "00")[..2]) + if |d.frac| > 2 && DigitValue(d.frac[2]) >= 5 then 1 else 0
  }

  /** Three digits suffice, however long the fraction: they give the rounding of the exact value. */
  lemma ThirdDigitDecides(d: Decimal)
    requires Matches(d)
    ensures RoundHalfAway(ExactCents(d)) == if d.negative then -ReadCents(d) else ReadCents(d)
  {
    var whole, f, two := Parse(d.whole), d.frac, Parse((d.frac + "00")[..2]);
    var rest := 100.0 * Parse(f) as real / Pow10(|f|) as real;
    if |f| <= 2 {
      ShortFraction(f);
    } else {
      LongFraction(f);
    }
    assert rest - two as real >= 0.0;
  }

  lemma {:induction false} ShortFraction(f: string)
    requires AllDigits(f) && |f| <= 2
    ensures 100.0 * Parse(f) as real / Pow10(|f|) as real == Parse((f + "00")[..2]) as real
  {
    hide Parse, Pow10;
    TwoZeros();
    if |f| == 0 {
      assert (f + "00")[..2] == "00" && f == [];
    } else if |f| == 1 {
      assert (f + "00")[..2] == f + "0";
      ParseConcat(f, "0");
      assert 100.0 * Parse(f) as real / 10.0 == 10.0 * Parse(f) as real;
    } else {
      assert (f + "00")[..2] == f;
      assert 100.0 * Parse(f) as real / 100.0 == Parse(f) as real;
    }
  }

  lemma TwoZeros()
    ensures Parse([]) == 0 && Parse("0") == 0 && Parse("00") == 0
    ensures Pow10(0) == 1 && Pow10(1) == 10 && Pow10(2) == 100
  {
    assert "0"[..0] == [] && "00"[..1] == "0";
    assert Pow10(1) == 10 * Pow10(0) && Pow10(2) == 10 * Pow10(1);
  }

  lemma {:induction false} SplitAtThird(f: string)
    requires AllDigits(f) && |f| > 2
    ensures Parse(f) == (10 * Parse(f[..2]) + DigitValue(f[2])) * Pow10(|f| - 3) + Parse(f[3..])
    ensures Parse(f[3..]) < Pow10(|f| - 3) && Pow10(|f|) == 1000 * Pow10(|f| - 3)
  {
    var head, tail := f[..3], f[3..];
    assert f == head + tail && head[..2] == f[..2];
    assert Parse(head) == 10 * Parse(f[..2]) + DigitValue(f[2]);
    ThreeDigitsMore(|f|);
    hide Parse, Pow10, DigitValue;
    ParseConcat(head, tail);
    ParseBelowPower(tail);
  }

  lemma ThreeDigitsMore(n: nat)
    requires n > 2
    ensures Pow10(n) == 1000 * Pow10(n - 3)
  {
    assert Pow10(n) == 10 * Pow10(n - 1) && Pow10(n - 1) == 10 * Pow10(n - 2) && Pow10(n - 2) == 10 * Pow10(n - 3);
  }

  /** The value past the two cent digits is at least a half exactly when the third digit is 5 or more. */
  lemma {:induction false} LongFraction(f: string)
    requires AllDigits(f) && |f| > 2
    ensures var over := 100.0 * Parse(f) as real / Pow10(|f|) as real - Parse((f + "00")[..2]) as real;
            0.0 <= over < 1.0 && (over >= 0.5 <==> DigitValue(f[2]) >= 5)
  {
    hide Parse, Pow10;
    assert (f + "00")[..2] == f[..2];
    SplitAtThird(f);
    ThirdDigit(Parse(f[..2]), DigitValue(f[2]), Parse(f[3..]), Pow10(|f| - 3), Parse(f));
  }

  lemma ThirdDigit(a: nat, d: nat, c: nat, p: nat, n: nat)
    requires d < 10 && c < p && n == (10 * a + d) * p + c
    ensures var over := 100.0 * n as real / (1000 * p) as real - a as real;
            0.0 <= over < 1.0 && (over >= 0.5 <==> d >= 5)
  {
    var t, q := 100.0 * n as real / (1000 * p) as real, p as real;
    assert n as real == (10.0 * a as real + d as real) * q + c as real by {
      assert ((10 * a + d) * p) as real == (10 * a + d) as real * q;
    }
    Quotient(100.0 * n as real, (1000 * p) as real, t);
    assert (1000 * p) as real == 1000.0 * q;
    assert t * q * 10.0 == n as real;
    var over := t - a as real;
    assert over * q * 10.0 == d as real * q + c as real;
    Compare(over * 10.0, q, d as real, c as real);
  }

  lemma Quotient(x: real, y: real, t: real)
    requires y > 0.0 && t == x / y
    ensures t * y == x
  {
  }

  /** `z * q` lies `c` above `d * q`, less than one more `q`, so `z` lies in [d, d + 1). */
  lemma Compare(z: real, q: real, d: real, c: real)
    requires 0.0 <= c < q && z * q == d * q + c
    ensures d <= z < d + 1.0
  {
    assert (z - d) * q == c;
    assert z - d < 0.0 ==> (z - d) * q < 0.0;
    assert z - d >= 1.0 ==> (z - d - 1.0) * q >= 0.0;
  }

  // ---------------------------------------------------------------- printing cents

  function PadTwo(s: string): string {
    if |s| < 2 then seq(2 - |s|, i => '0') + s else s
  }

  function FromCents(cents: int): string {
    var magnitude: nat := if cents < 0 then -cents else cents;
    (if cents < 0 then "-" else "") + Print(magnitude / 100) + "." + PadTwo(Print(magnitude % 100))
  }

  /** Printing and reading back is the identity on every amount of cents. */
  lemma CentsRoundTrip(cents: int)
    ensures Cents(FromCents(cents)) == Some(cents)
  {
    hide ExactCents, RoundHalfAway, Print, PadTwo, Match, Trim;
    var magnitude: nat := if cents < 0 then -cents else cents;
    var whole, frac := Print(magnitude / 100), PadTwo(Print(magnitude % 100));
    PaddedPair(magnitude % 100);
    ParsePrint(magnitude / 100);
    var s := FromCents(cents);
    NumberIsTrimmed(s);
    MatchPrinted(cents < 0, whole, frac);
    assert s == (if cents < 0 then "-" else "") + whole + "." + frac;
    var d := Decimal(cents < 0, whole, frac);
    assert (frac + "00")[..2] == frac;
    ThirdDigitDecides(d);
  }

  /** An amount is printed with two digits after the point, a minus only if it is negative, and no other padding. */
  lemma PrintedForm(cents: int)
    ensures exists d :: && Match(FromCents(cents)) == Some(d)
                        && |d.frac| == 2 && (d.negative <==> cents < 0) && d.whole == Print(Parse(d.whole))
  {
    hide Print, PadTwo, Match, Parse;
    var magnitude: nat := if cents < 0 then -cents else cents;
    var whole, frac := Print(magnitude / 100), PadTwo(Print(magnitude % 100));
    PaddedPair(magnitude % 100);
    ParsePrint(magnitude / 100);
    MatchPrinted(cents < 0, whole, frac);
    assert Match(FromCents(cents)) == Some(Decimal(cents < 0, whole, frac));
  }

  lemma {:induction false} PaddedPair(n: nat)
    requires n < 100
    ensures var s := PadTwo(Print(n)); |s| == 2 && AllDigits(s) && Parse(s) == n
  {
    ParsePrint(n);
    if n < 10 {
      var s := PadTwo(Print(n));
      assert s == "0" + Print(n);
      assert "0"[..0] == [] && Parse("0") == 0;
      ParseConcat("0", Print(n));
    } else {
      assert |Print(n / 10)| == 1;
    }
  }

  lemma NumberIsTrimmed(s: string)
    requires s != [] && !IsSpace(s[0]) && !IsSpace(s[|s| - 1])
    ensures Trim(s) == s
  {
  }

  lemma {:induction false} RunOfDigits(a: string, b: string)
    requires AllDigits(a) && (b == [] || !IsDigit(b[0]))
    ensures DigitRun(a + b) == |a|
  {
    if a == [] {
      assert a + b == b;
    } else {
      assert (a + b)[1..] == a[1..] + b;
      RunOfDigits(a[1..], b);
    }
  }

  lemma MatchPrinted(negative: bool, whole: string, frac: string)
    requires whole != [] && frac != [] && AllDigits(whole) && AllDigits(frac)
    ensures Match((if negative then "-" else "") + whole + "." + frac) == Some(Decimal(negative, whole, frac))
  {
    RunOfDigits(whole, "." + frac);
    RunToTheEnd(frac);
    assert IsDigit(whole[0]);
    var v, rest := (if negative then "-" else "") + whole + "." + frac, whole + ("." + frac);
    hide DigitRun, AllDigits;
    SignApart(negative, whole, frac);
    assert rest[|whole|] == '.' && rest[|whole| + 1..] == frac && rest[..|whole|] == whole;
    MatchParts(v, rest, negative, whole, frac);
  }

  lemma SignApart(negative: bool, whole: string, frac: string)
    requires whole != []
    ensures var v := (if negative then "-" else "") + whole + "." + frac;
            v != [] && v[0] == (if negative then '-' else whole[0])
            && (if negative then v[1..] else v) == whole + ("." + frac)
  {
    if negative {
      assert ("-" + whole + "." + frac)[1..] == whole + ("." + frac);
    } else {
      assert "" + whole + "." + frac == whole + ("." + frac);
    }
  }

  lemma {:induction false} MatchParts(v: string, rest: string, negative: bool, whole: string, frac: string)
    requires whole != [] && frac != [] && v != [] && (v[0] == '-' <==> negative)
    requires rest == (if negative then v[1..] else v) && |whole| < |rest|
    requires rest[..|whole|] == whole && rest[|whole|] == '.' && rest[|whole| + 1..] == frac
    requires DigitRun(rest) == |whole| && DigitRun(frac) == |frac|
    ensures Match(v) == Some(Decimal(negative, whole, frac))
  {
    hide DigitRun, Matches, AllDigits;
  }

  lemma {:induction false} RunToTheEnd(frac: string)
    requires AllDigits(frac)
    ensures DigitRun(frac) == |frac|
  {
    RunOfDigits(frac, []);
    assert frac + [] == frac;
  }

  /** Round a decimal string to two places; anything else passes through. */
  ghost function RoundMoney(value: string): string {
    var c := Cents(value);
    if c.None? then value else FromCents(c.value)
  }

  /** A number is shown as its cents, printed; anything else as it is. */
  lemma RoundMoneyShows(value: string)
    ensures Cents(value).Some? ==> exists cents :: RoundMoney(value) == FromCents(cents) && Cents(value) == Some(cents)
    ensures (forall d :: !Written(Trim(value), d)) ==> RoundMoney(value) == value
  {
    hide Trim, ExactCents, RoundHalfAway, FromCents;
    if Match(Trim(value)).Some? {
      MatchedIsWritten(Trim(value));
    }
  }

  lemma RoundMoneyIdempotent(value: string)
    ensures RoundMoney(RoundMoney(value)) == RoundMoney(value)
  {
    if Cents(value).Some? {
      CentsRoundTrip(Cents(value).value);
    }
  }

  /** What is displayed is within half a cent of what was given, for fractions of any length. */
  lemma RoundMoneyWithinHalfCent(value: string)
    requires Match(Trim(value)).Some?
    ensures Cents(RoundMoney(value)).Some?
    ensures Abs(Cents(RoundMoney(value)).value as real - ExactCents(Match(Trim(value)).value)) <= 0.5
  {
    CentsRoundTrip(Cents(value).value);
  }

  // ---------------------------------------------------------------- captions

  ghost function TotalCents(values: seq<string>): int {
    if values == [] then 0
    else
      var c := Cents(values[|values| - 1]);
      TotalCents(values[..|values| - 1]) + if c.Some? then c.value else 0
  }

  ghost function CentsOr0(): string -> real {
    (v: string) => if Cents(v).Some? then Cents(v).value as real else 0.0
  }

  lemma {:induction false} TotalCentsIsSum(values: seq<string>)
    ensures TotalCents(values) as real == SumOver(values, CentsOr0())
  {
    hide Cents;
    if values != [] {
      TotalCentsIsSum(values[..|values| - 1]);
    }
  }

  method SumMoney(values: seq<string>) returns (r: string)
    ensures r == FromCents(TotalCents(values))
  {
    var total := 0;
    for i := 0 to |values|
      invariant total == TotalCents(values[..i])
    {
      assert values[..i + 1][..i] == values[..i];
      var c := ToCents(values[i]);
      total := total + if c.Some? then c.value else 0;
    }
    assert values[..|values|] == values;
    r := FromCents(total);
  }

  ghost function Displayed(values: seq<string>): seq<string> {
    seq(|values|, i requires 0 <= i < |values| => RoundMoney(values[i]))
  }

  lemma {:induction false} DisplayedTotal(values: seq<string>)
    ensures TotalCents(Displayed(values)) == TotalCents(values)
  {
    hide Cents, FromCents;
    if values != [] {
      var n := |values| - 1;
      assert Displayed(values)[..n] == Displayed(values[..n]);
      DisplayedTotal(values[..n]);
      if Cents(values[n]).Some? {
        CentsRoundTrip(Cents(values[n]).value);
      }
    }
  }

  lemma TotalOneMore(values: seq<string>)
    requires values != []
    ensures var n := |values| - 1; var c := Cents(values[n]);
            TotalCents(values) == TotalCents(values[..n]) + if c.Some? then c.value else 0
  {
    hide Cents;
  }

  lemma {:induction false} TotalWithout(values: seq<string>, i: nat)
    requires i < |values|
    ensures var c := Cents(values[i]);
            TotalCents(values) == TotalCents(values[..i] + values[i + 1..]) + if c.Some? then c.value else 0
  {
    hide Cents, TotalCents;
    var n, rest := |values| - 1, values[..i] + values[i + 1..];
    TotalOneMore(values);
    if i < n {
      TotalWithout(values[..n], i);
      TotalOneMore(rest);
      assert rest[..|rest| - 1] == values[..n][..i] + values[..n][i + 1..];
    } else {
      assert rest == values[..n];
    }
  }

  lemma {:induction false} TotalOfPermutation(a: seq<string>, b: seq<string>)
    requires multiset(a) == multiset(b)
    ensures TotalCents(a) == TotalCents(b)
  {
    hide Cents;
    if a == [] {
      assert |multiset(b)| == 0;
    } else {
      var n := |a| - 1;
      var i := PartnerOfLast(a, b);
      assert a[..n] + a[n + 1..] == a[..n];
      TotalOfPermutation(a[..n], b[..i] + b[i + 1..]);
      TotalWithout(b, i);
    }
  }

  /** The caption parses back to the sum of its parts as displayed, in whatever order they come. */
  lemma {:induction false} CaptionIsSumOfDisplayedParts(values: seq<string>, shuffled: seq<string>)
    requires multiset(shuffled) == multiset(Displayed(values))
    ensures Cents(FromCents(TotalCents(values))) == Some(TotalCents(shuffled))
  {
    DisplayedTotal(values);
    TotalOfPermutation(shuffled, Displayed(values));
    CentsRoundTrip(TotalCents(values));
  }
}
