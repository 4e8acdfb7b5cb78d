/**
 * Authenticator codes (apps/backend/src/connectors/common/totp.ts): base32 by section 6 of
 * RFC 4648, truncation by section 5.3 of RFC 4226, time steps by section 4 of RFC 6238.
 */
module Totp {
  import opened Prelude
  import opened Numerals
  import opened Text

  // ---------------------------------------------------------------- bits

  type Bits = seq<bool>

  function Mask5(j: nat): bv5 {
    if j == 0 then 1 else if j == 1 then 2 else if j == 2 then 4 else if j == 3 then 8 else 16
  }

  function Mask8(j: nat): bv8 {
    if j == 0 then 1 else if j == 1 then 2 else if j == 2 then 4 else if j == 3 then 8
    else if j == 4 then 16 else if j == 5 then 32 else if j == 6 then 64 else 128
  }

  predicate Test5(v: bv5, mask: bv5) {
    v & mask != 0
  }

  predicate Test8(v: bv8, mask: bv8) {
    v & mask != 0
  }

  /** The five bits of a base32 digit, most significant first. */
  function Bits5(v: bv5): (b: Bits)
    ensures |b| == 5
  {
    seq(5, i requires 0 <= i < 5 => Test5(v, Mask5(4 - i)))
  }

  function Bits8(v: bv8): (b: Bits)
    ensures |b| == 8
  {
    seq(8, i requires 0 <= i < 8 => Test8(v, Mask8(7 - i)))
  }

  function Weight5(b: bool, w: bv5): bv5 {
    if b then w else 0
  }

  function Weight8(b: bool, w: bv8): bv8 {
    if b then w else 0
  }

  function Digit(b: Bits): bv5
    requires |b| == 5
  {
    Weight5(b[0], 16) | Weight5(b[1], 8) | Weight5(b[2], 4) | Weight5(b[3], 2) | Weight5(b[4], 1)
  }

  function Octet(b: Bits): bv8
    requires |b| == 8
  {
    Weight8(b[0], 128) | Weight8(b[1], 64) | Weight8(b[2], 32) | Weight8(b[3], 16)
    | Weight8(b[4], 8) | Weight8(b[5], 4) | Weight8(b[6], 2) | Weight8(b[7], 1)
  }

  lemma BitsOfDigit(b: Bits)
    requires |b| == 5
    ensures Bits5(Digit(b)) == b
  {
  }

  lemma OctetOfBits(v: bv8)
    ensures Octet(Bits8(v)) == v
  {
  }

  /** Any bit string read as whole octets, a remainder of fewer than eight bits dropped. */
  function Octets(bits: Bits): seq<bv8> {
    if |bits| < 8 then [] else [Octet(bits[..8])] + Octets(bits[8..])
  }

  function DigitBits(digits: seq<bv5>): (bits: Bits)
    ensures |bits| == 5 * |digits|
  {
    if digits == [] then [] else Bits5(digits[0]) + DigitBits(digits[1..])
  }

  lemma {:induction false} DigitBitsAppend(digits: seq<bv5>, d: bv5)
    ensures DigitBits(digits + [d]) == DigitBits(digits) + Bits5(d)
  {
    if digits == [] {
      assert digits + [d] == [d];
      assert DigitBits([]) == [];
    } else {
      assert (digits + [d])[1..] == digits[1..] + [d];
      DigitBitsAppend(digits[1..], d);
    }
  }

  function ByteBits(bytes: seq<bv8>): (bits: Bits)
    ensures |bits| == 8 * |bytes|
  {
    if bytes == [] then [] else Bits8(bytes[0]) + ByteBits(bytes[1..])
  }

  /** Octets of a longer string: whole octets first, then those of the rest. */
  lemma {:induction false} OctetsExtend(bits: Bits, more: Bits)
    requires |bits| % 8 == 0
    ensures Octets(bits + more) == Octets(bits) + Octets(more)
  {
    if bits == [] {
      assert bits + more == more;
    } else {
      assert (bits + more)[..8] == bits[..8] && (bits + more)[8..] == bits[8..] + more;
      OctetsExtend(bits[8..], more);
    }
  }

  lemma {:induction false} OctetsOfBytes(bytes: seq<bv8>, pad: Bits)
    requires |pad| < 8
    ensures Octets(ByteBits(bytes) + pad) == bytes
  {
    if bytes == [] {
      assert ByteBits(bytes) + pad == pad;
    } else {
      var bits := ByteBits(bytes) + pad;
      OctetOfBits(bytes[0]);
      assert bits[..8] == Bits8(bytes[0]) && bits[8..] == ByteBits(bytes[1..]) + pad;
      OctetsOfBytes(bytes[1..], pad);
    }
  }

  // ---------------------------------------------------------------- the alphabet

  const ALPHABET: string := "ABCDEFGHIJKLMNOPQRSTUVWXYZ234567"

  /** `alphabet.indexOf`; None stands for -1. */
  function IndexOf(c: char): Option<bv5> {
    if 'A' <= c <= 'Z' then Some((c as int - 'A' as int) as bv5)
    else if '2' <= c <= '7' then Some((c as int - '2' as int + 26) as bv5)
    else None
  }

  function CharOf(v: bv5): char {
    if v < 26 then (v as int + 'A' as int) as char else (v as int - 26 + '2' as int) as char
  }

  /** Every digit stands in the alphabet at its own place, and is found there. */
  lemma CharRoundTrip(v: bv5)
    ensures ALPHABET[v as int] == CharOf(v) && IndexOf(CharOf(v)) == Some(v)
  {
    PlaceInAlphabet(v as int);
    var n := v as int;
    if n < 26 {
      assert CharOf(v) == ('A' as int + n) as char;
    } else {
      assert CharOf(v) == ('2' as int + n - 26) as char;
    }
  }

  lemma PlaceInAlphabet(n: nat)
    requires n < 32
    ensures ALPHABET[n] == if n < 26 then ('A' as int + n) as char else ('2' as int + n - 26) as char
  {
  }

  /**
   * `toUpperCase` of one character, as far as the alphabet can tell: besides a-z these are all
   * characters whose upper case holds a letter from A to Z. The others may as well stay.
   */
  function Upper(c: char): string {
    if 'a' <= c <= 'z' then [(c as int - 32) as char]
    else if c < '\U{00DF}' then [c]
    else if c == '\U{00DF}' then "SS"
    else if c == '\U{0131}' then "I"
    else if c == '\U{0149}' then "\U{02BC}N"
    else if c == '\U{017F}' then "S"
    else if c == '\U{01F0}' then "J\U{030C}"
    else if '\U{1E96}' <= c <= '\U{1E9A}' then UpperMarked(c)
    else if '\U{FB00}' <= c <= '\U{FB06}' then UpperLigature(c)
    else [c]
  }

  /** h, t, w, y and a with a mark that stays a character of its own. */
  function UpperMarked(c: char): string
    requires '\U{1E96}' <= c <= '\U{1E9A}'
  {
    if c == '\U{1E96}' then "H\U{0331}" else if c == '\U{1E97}' then "T\U{0308}"
    else if c == '\U{1E98}' then "W\U{030A}" else if c == '\U{1E99}' then "Y\U{030A}" else "A\U{02BE}"
  }

  function UpperLigature(c: char): string
    requires '\U{FB00}' <= c <= '\U{FB06}'
  {
    if c == '\U{FB00}' then "FF" else if c == '\U{FB01}' then "FI" else if c == '\U{FB02}' then "FL"
    else if c == '\U{FB03}' then "FFI" else if c == '\U{FB04}' then "FFL" else "ST"
  }

  /** White space and padding are removed, the rest is upper-cased. */
  function Cleaned(secret: string): string {
    if secret == [] then [] else Cleaned(secret[..|secret| - 1]) + Kept(secret[|secret| - 1])
  }

  function Kept(c: char): string {
    if IsSpace(c) || c == '=' then [] else Upper(c)
  }

  /** The digits a text holds; characters outside the alphabet are passed over. */
  function DigitsOf(text: string): seq<bv5> {
    if text == [] then []
    else
      var idx := IndexOf(text[|text| - 1]);
      DigitsOf(text[..|text| - 1]) + if idx.Some? then [idx.value] else []
  }

  /** What decoding means: the digits' bits in a row, cut into octets. */
  function Decoded(secret: string): seq<bv8> {
    Octets(DigitBits(DigitsOf(Cleaned(secret))))
  }

  // ---------------------------------------------------------------- the 32-bit register

  predicate Test(v: bv32, mask: bv32) {
    v & mask != 0
  }

  function Mask(j: nat): bv32 {
    if j == 0 then 1 else if j == 1 then 2 else if j == 2 then 4 else if j == 3 then 8
    else if j == 4 then 16 else if j == 5 then 32 else if j == 6 then 64 else if j == 7 then 128
    else if j == 8 then 256 else if j == 9 then 512 else if j == 10 then 1024 else 2048
  }

  /** The low twelve bits of the register, the only ones that ever matter. */
  function LowBits(v: bv32): (b: Bits)
    ensures |b| == 12
  {
    seq(12, i requires 0 <= i < 12 => Test(v, Mask(11 - i)))
  }

  /** The low end of the register holds `bits`, whatever lies above. */
  ghost predicate Holds(v: bv32, bits: Bits) {
    |bits| <= 12 && bits == LowBits(v)[12 - |bits|..]
  }

  /** `(value << 5) | idx` on a 32-bit register: the top five bits fall off. */
  function Append5(v: bv32, d: bv5): bv32 {
    (v << 5) | (d as bv32)
  }

  /** `(value >>> k) & 0xff` */
  function OctetAbove(v: bv32, k: nat): bv8
    requires k <= 4
  {
    ((v >> k) & 0xff) as bv8
  }

  lemma AppendedHighBits(v: bv32, d: bv5)
    ensures var w := Append5(v, d);
            && Test(w, 2048) == Test(v, 64) && Test(w, 1024) == Test(v, 32) && Test(w, 512) == Test(v, 16)
            && Test(w, 256) == Test(v, 8) && Test(w, 128) == Test(v, 4) && Test(w, 64) == Test(v, 2)
            && Test(w, 32) == Test(v, 1)
  {
  }

  lemma AppendedLowBits(v: bv32, d: bv5)
    ensures var w := Append5(v, d);
            && Test(w, 16) == Test5(d, 16) && Test(w, 8) == Test5(d, 8) && Test(w, 4) == Test5(d, 4)
            && Test(w, 2) == Test5(d, 2) && Test(w, 1) == Test5(d, 1)
  {
  }

  /** The bits of the register move up by five places, and the digit's bits come in below. */
  lemma AppendedBits(v: bv32, d: bv5)
    ensures LowBits(Append5(v, d)) == LowBits(v)[5..] + Bits5(d)
  {
    hide Append5, Test, Bits5, Mask;
    var after, before := LowBits(Append5(v, d)), LowBits(v);
    forall i | 0 <= i < 12 ensures after[i] == (before[5..] + Bits5(d))[i] {
      AppendedBit(v, d, i);
    }
  }

  lemma AppendedBit(v: bv32, d: bv5, i: nat)
    requires i < 12
    ensures Test(Append5(v, d), Mask(11 - i)) == if i < 7 then Test(v, Mask(6 - i)) else Bits5(d)[i - 7]
  {
    hide Append5, Test, Test5;
    if i < 7 {
      AppendedHighBits(v, d);
    } else {
      AppendedLowBits(v, d);
    }
  }

  lemma ShiftIn(v: bv32, bits: Bits, d: bv5)
    requires Holds(v, bits) && |bits| < 8
    ensures Holds(Append5(v, d), bits + Bits5(d))
  {
    hide LowBits, Bits5, Append5;
    AppendedBits(v, d);
  }

  lemma LowOctet(v: bv32, b: Bits)
    requires |b| == 8
    requires b[0] == Test(v, 128) && b[1] == Test(v, 64) && b[2] == Test(v, 32) && b[3] == Test(v, 16)
    requires b[4] == Test(v, 8) && b[5] == Test(v, 4) && b[6] == Test(v, 2) && b[7] == Test(v, 1)
    ensures (v & 0xff) as bv8 == Octet(b)
  {
  }

  lemma LowOctetOfBits(v: bv32)
    ensures OctetAbove(v, 0) == Octet(LowBits(v)[4..12])
  {
    hide Test, Octet;
    LowOctet(v, LowBits(v)[4..12]);
  }

  /** Halving the register drops its lowest bit. */
  lemma HalvedBits(v: bv32)
    ensures LowBits(v >> 1)[1..] == LowBits(v)[..11]
  {
    hide Test;
    HalvedTopTests(v);
    HalvedHighTests(v);
    HalvedLowTests(v);
  }

  lemma HalvedTopTests(v: bv32)
    ensures var w := v >> 1; Test(w, 1024) == Test(v, 2048) && Test(w, 512) == Test(v, 1024)
  {
  }

  lemma HalvedHighTests(v: bv32)
    ensures var w := v >> 1;
            Test(w, 256) == Test(v, 512) && Test(w, 128) == Test(v, 256) && Test(w, 64) == Test(v, 128)
  {
  }

  lemma HalvedLowTests(v: bv32)
    ensures var w := v >> 1;
            && Test(w, 32) == Test(v, 64) && Test(w, 16) == Test(v, 32) && Test(w, 8) == Test(v, 16)
            && Test(w, 4) == Test(v, 8) && Test(w, 2) == Test(v, 4) && Test(w, 1) == Test(v, 2)
  {
  }

  lemma HalveOnce(v: bv32, k: nat)
    requires k < 4
    ensures OctetAbove(v, k + 1) == OctetAbove(v >> 1, k)
  {
    assert k == 0 ==> v >> (k + 1) == v >> 1 && (v >> 1) >> k == v >> 1;
    assert k == 1 ==> v >> (k + 1) == v >> 2 && (v >> 1) >> k == v >> 2;
    assert k == 2 ==> v >> (k + 1) == v >> 3 && (v >> 1) >> k == v >> 3;
    assert k == 3 ==> v >> (k + 1) == v >> 4 && (v >> 1) >> k == v >> 4;
  }

  /** The octet `k` bits above the low end of the register. */
  lemma {:induction false} OctetAboveBits(v: bv32, k: nat)
    requires k <= 4
    ensures OctetAbove(v, k) == Octet(LowBits(v)[4 - k..12 - k])
    decreases k
  {
    hide Octet, LowBits, OctetAbove;
    if k == 0 {
      LowOctetOfBits(v);
    } else {
      HalveOnce(v, k - 1);
      OctetAboveBits(v >> 1, k - 1);
      HalvedBits(v);
      var a, b := LowBits(v >> 1), LowBits(v);
      assert a[5 - k..13 - k] == a[1..][4 - k..12 - k];
      assert b[4 - k..12 - k] == b[..11][4 - k..12 - k];
    }
  }

  lemma TopOctet(v: bv32, bits: Bits)
    requires Holds(v, bits) && 8 <= |bits|
    ensures OctetAbove(v, |bits| - 8) == Octet(bits[..8])
    ensures Holds(v, bits[8..])
  {
    hide LowBits, Octet, OctetAbove;
    var k := |bits| - 8;
    OctetAboveBits(v, k);
    assert bits[..8] == LowBits(v)[4 - k..12 - k];
  }

  /** What has been read: whole octets already put out, and the bits still in the register. */
  ghost predicate Reading(digits: seq<bv5>, out: seq<bv8>, rest: Bits) {
    |rest| < 8
    && exists whole: Bits :: |whole| == 8 * |out| && Octets(whole) == out && DigitBits(digits) == whole + rest
  }

  /** One more digit: its bits join the rest, and a full octet leaves it. */
  lemma ReadDigit(digits: seq<bv5>, out: seq<bv8>, rest: Bits, d: bv5)
    requires Reading(digits, out, rest)
    ensures var more := rest + Bits5(d);
            if |more| >= 8 then Reading(digits + [d], out + [Octet(more[..8])], more[8..])
            else Reading(digits + [d], out, more)
  {
    hide Bits5, Octet, DigitBits, Octets;
    var whole: Bits :| |whole| == 8 * |out| && Octets(whole) == out && DigitBits(digits) == whole + rest;
    var more := rest + Bits5(d);
    DigitBitsAppend(digits, d);
    assert whole + rest + Bits5(d) == whole + more;
    if |more| >= 8 {
      OneOctetMore(whole, out, more[..8]);
      assert whole + more == (whole + more[..8]) + more[8..];
    }
  }

  lemma {:induction false} OneOctetMore(whole: Bits, out: seq<bv8>, octet: Bits)
    requires |whole| == 8 * |out| && Octets(whole) == out && |octet| == 8
    ensures |whole + octet| == 8 * |out + [Octet(octet)]| && Octets(whole + octet) == out + [Octet(octet)]
  {
    hide Octets, Octet;
    SingleOctet(octet);
    assert |whole| % 8 == 0;
    OctetsExtend(whole, octet);
  }

  lemma {:induction false} SingleOctet(bits: Bits)
    requires |bits| == 8
    ensures Octets(bits) == [Octet(bits)]
  {
    assert bits[..8] == bits;
  }

  lemma {:induction false} ReadingDone(digits: seq<bv5>, out: seq<bv8>, rest: Bits)
    requires Reading(digits, out, rest)
    ensures out == Octets(DigitBits(digits))
  {
    hide DigitBits;
    var whole: Bits :| |whole| == 8 * |out| && Octets(whole) == out && DigitBits(digits) == whole + rest;
    assert |whole| % 8 == 0 && Octets(rest) == [];
    hide Octets;
    OctetsExtend(whole, rest);
  }

  /** The never-masked 32-bit accumulator decodes exactly, for secrets of any length. */
  method Base32Decode(secret: string) returns (out: seq<bv8>)
    ensures out == Decoded(secret)
  {
    hide Bits5, Octet, LowBits, Reading, Append5, OctetAbove, IndexOf, DigitBits, Octets;
    var text := Cleaned(secret);
    var bits: nat, value: bv32 := 0, 0;
    out := [];
    ghost var rest: Bits := [];
    StartReading(value);
    for i := 0 to |text|
      invariant bits == |rest| < 8 && Holds(value, rest)
      invariant Reading(DigitsOf(text[..i]), out, rest)
    {
      assert text[..i + 1][..i] == text[..i];
      var idx := IndexOf(text[i]);
      if idx.None? {
        assert DigitsOf(text[..i + 1]) == DigitsOf(text[..i]);
        continue;
      }
      assert DigitsOf(text[..i + 1]) == DigitsOf(text[..i]) + [idx.value];
      ShiftIn(value, rest, idx.value);
      ReadDigit(DigitsOf(text[..i]), out, rest, idx.value);
      value := Append5(value, idx.value);
      bits := bits + 5;
      rest := rest + Bits5(idx.value);
      if bits >= 8 {
        TopOctet(value, rest);
        out := out + [OctetAbove(value, bits - 8)];
        bits := bits - 8;
        rest := rest[8..];
      }
    }
    assert text[..|text|] == text;
    ReadingDone(DigitsOf(text), out, rest);
  }

  lemma StartReading(v: bv32)
    ensures Holds(v, []) && Reading([], [], [])
  {
    assert Octets([]) == [] && DigitBits([]) == [] && DigitBits([]) == [] + [];
  }

  // ---------------------------------------------------------------- encoding, by RFC 4648

  /** Five bits at a time; a last short group is filled up with zero bits. */
  function Grouped(bits: Bits): seq<bv5> {
    if bits == [] then []
    else if |bits| < 5 then [Digit(bits + seq(5 - |bits|, i => false))]
    else [Digit(bits[..5])] + Grouped(bits[5..])
  }

  /** The encoded characters, padded with '=' to a multiple of eight. */
  function Encoded(bytes: seq<bv8>): string {
    var digits := Grouped(ByteBits(bytes));
    Chars(digits) + Padding((8 - |digits| % 8) % 8)
  }

  function Chars(digits: seq<bv5>): string {
    seq(|digits|, i requires 0 <= i < |digits| => CharOf(digits[i]))
  }

  function Padding(n: nat): string {
    seq(n, i => '=')
  }

  lemma {:induction false} GroupedBits(bits: Bits) returns (pad: Bits)
    ensures |pad| < 5 && DigitBits(Grouped(bits)) == bits + pad
  {
    hide Bits5, Digit;
    if bits == [] {
      pad := [];
    } else if |bits| < 5 {
      pad := seq(5 - |bits|, i => false);
      BitsOfDigit(bits + pad);
      FirstDigitBits(Digit(bits + pad), []);
    } else {
      BitsOfDigit(bits[..5]);
      pad := GroupedBits(bits[5..]);
      FirstDigitBits(Digit(bits[..5]), Grouped(bits[5..]));
      assert bits == bits[..5] + bits[5..];
    }
  }

  lemma {:induction false} FirstDigitBits(d: bv5, rest: seq<bv5>)
    ensures DigitBits([d] + rest) == Bits5(d) + DigitBits(rest)
  {
    hide Bits5;
    assert ([d] + rest)[1..] == rest;
  }

  /** A character the decoder passes over: white space, padding, anything without a letter of the alphabet. */
  predicate Ignored(c: char) {
    IsSpace(c) || c == '=' || forall i :: 0 <= i < |Upper(c)| ==> IndexOf(Upper(c)[i]) == None
  }

  /** `text` spells `digits` in upper or lower case, with ignored characters anywhere between. */
  ghost predicate Spells(text: string, digits: seq<bv5>) {
    if text == [] then digits == []
    else
      var n, c := |text| - 1, text[|text| - 1];
      || (Ignored(c) && Spells(text[..n], digits))
      || (digits != [] && Upper(c) == [CharOf(digits[|digits| - 1])] && Spells(text[..n], digits[..|digits| - 1]))
  }

  lemma DigitsOfOne(c: char)
    ensures DigitsOf([c]) == if IndexOf(c).Some? then [IndexOf(c).value] else []
  {
    assert [c][..0] == [] && DigitsOf([]) == [];
  }

  lemma {:induction false} DigitsOfConcat(a: string, b: string)
    ensures DigitsOf(a + b) == DigitsOf(a) + DigitsOf(b)
  {
    hide IndexOf;
    if b == [] {
      assert a + b == a;
    } else {
      var n := |b| - 1;
      assert (a + b)[..|a + b| - 1] == a + b[..n];
      DigitsOfConcat(a, b[..n]);
    }
  }

  lemma {:induction false} NoDigits(text: string)
    requires forall i :: 0 <= i < |text| ==> IndexOf(text[i]) == None
    ensures DigitsOf(text) == []
  {
    hide IndexOf;
    if text != [] {
      NoDigits(text[..|text| - 1]);
    }
  }

  lemma DigitsOfIgnored(c: char)
    requires Ignored(c)
    ensures DigitsOf(Kept(c)) == []
  {
    hide IndexOf, Upper, IsSpace;
    NoDigits(Kept(c));
  }

  lemma KeptLetter(c: char, u: char)
    requires Upper(c) == [u] && IndexOf(u).Some?
    ensures Kept(c) == [u]
  {
    hide Upper, IsSpace, IndexOf;
    if IsSpace(c) || c == '=' {
      SpacesStay(c);
      assert false;
    }
  }

  lemma SpacesStay(c: char)
    requires IsSpace(c) || c == '='
    ensures Upper(c) == [c] && IndexOf(c).None?
  {
    hide UpperMarked, UpperLigature;
  }

  lemma DigitsOfSpelling(c: char, d: bv5)
    requires Upper(c) == [CharOf(d)]
    ensures DigitsOf(Kept(c)) == [d]
  {
    hide Upper, Kept, DigitsOf, CharOf, IndexOf;
    CharRoundTrip(d);
    KeptLetter(c, CharOf(d));
    DigitsOfOne(CharOf(d));
  }

  /** One more character of the text adds the digits its upper case holds. */
  lemma {:induction false} CharAdds(text: string)
    requires text != []
    ensures var n := |text| - 1;
            DigitsOf(Cleaned(text)) == DigitsOf(Cleaned(text[..n])) + DigitsOf(Kept(text[n]))
  {
    hide Kept, DigitsOf;
    DigitsOfConcat(Cleaned(text[..|text| - 1]), Kept(text[|text| - 1]));
  }

  lemma {:induction false} SpelledDigits(text: string, digits: seq<bv5>)
    requires Spells(text, digits)
    ensures DigitsOf(Cleaned(text)) == digits
  {
    hide Spells, Ignored, CharOf, Kept, Upper, DigitsOf, Cleaned;
    if text == [] {
      NothingSpelled(digits);
    } else {
      LastSpelled(text, digits);
      var n, c := |text| - 1, text[|text| - 1];
      CharAdds(text);
      if Ignored(c) && Spells(text[..n], digits) {
        SpelledDigits(text[..n], digits);
        DigitsOfIgnored(c);
      } else {
        var m := |digits| - 1;
        SpelledDigits(text[..n], digits[..m]);
        DigitsOfSpelling(c, digits[m]);
        assert digits == digits[..m] + [digits[m]];
      }
    }
  }

  lemma {:induction false} NothingSpelled(digits: seq<bv5>)
    requires Spells([], digits)
    ensures DigitsOf(Cleaned([])) == digits
  {
  }

  lemma {:induction false} SpelledMore(text: string, digits: seq<bv5>, c: char)
    requires Spells(text, digits)
    ensures Ignored(c) ==> Spells(text + [c], digits)
    ensures forall d :: Upper(c) == [CharOf(d)] ==> Spells(text + [c], digits + [d])
  {
    hide Ignored, Upper, CharOf;
    assert (text + [c])[..|text|] == text;
    forall d | Upper(c) == [CharOf(d)] ensures Spells(text + [c], digits + [d]) {
      assert (digits + [d])[..|digits|] == digits;
    }
  }

  lemma CharsStay(d: bv5)
    ensures Upper(CharOf(d)) == [CharOf(d)] && Ignored('=')
  {
  }

  lemma {:induction false} LastSpelled(text: string, digits: seq<bv5>)
    requires Spells(text, digits) && text != []
    ensures var n, c, m := |text| - 1, text[|text| - 1], |digits| - 1;
            || (Ignored(c) && Spells(text[..n], digits))
            || (digits != [] && Upper(c) == [CharOf(digits[m])] && Spells(text[..n], digits[..m]))
  {
    hide Ignored, Upper, CharOf;
  }

  /** Decoding any spelling of the encoding of any bytes gives those bytes back. */
  lemma {:induction false} DecodeEncode(bytes: seq<bv8>, text: string)
    requires Spells(text, Grouped(ByteBits(bytes)))
    ensures Decoded(text) == bytes
  {
    hide Grouped, ByteBits, Cleaned, DigitsOf, Spells, DigitBits, Octets;
    SpelledDigits(text, Grouped(ByteBits(bytes)));
    var pad := GroupedBits(ByteBits(bytes));
    OctetsOfBytes(bytes, pad);
  }

  lemma {:induction false} CharsSpell(digits: seq<bv5>)
    ensures Spells(Chars(digits), digits)
  {
    hide Ignored, Upper, CharOf, Spells;
    if digits == [] {
      NoneSpelled();
      assert Chars([]) == [];
    } else {
      var m := |digits| - 1;
      CharsSpell(digits[..m]);
      CharsStay(digits[m]);
      SpelledMore(Chars(digits[..m]), digits[..m], CharOf(digits[m]));
      assert Chars(digits) == Chars(digits[..m]) + [CharOf(digits[m])] && digits == digits[..m] + [digits[m]];
    }
  }

  lemma {:induction false} PaddedSpells(text: string, digits: seq<bv5>, pad: nat)
    requires Spells(text, digits)
    ensures Spells(text + Padding(pad), digits)
  {
    hide Ignored, Upper, Spells;
    if pad == 0 {
      assert text + Padding(0) == text;
    } else {
      PaddedSpells(text, digits, pad - 1);
      CharsStay(0);
      SpelledMore(text + Padding(pad - 1), digits, '=');
      assert text + Padding(pad) == text + Padding(pad - 1) + ['='];
    }
  }

  lemma NoneSpelled()
    ensures Spells([], [])
  {
  }

  /** In particular the padded upper-case encoding itself. */
  lemma DecodeOfEncoded(bytes: seq<bv8>)
    ensures Decoded(Encoded(bytes)) == bytes && |Encoded(bytes)| % 8 == 0
  {
    hide Grouped, ByteBits, Spells, Decoded, CharOf;
    var digits := Grouped(ByteBits(bytes));
    var pad := (8 - |digits| % 8) % 8;
    FilledUpToEight(|digits|);
    CharsSpell(digits);
    PaddedSpells(Chars(digits), digits, pad);
    assert |Encoded(bytes)| == |digits| + pad;
    DecodeEncode(bytes, Encoded(bytes));
  }

  lemma FilledUpToEight(n: nat)
    ensures (n + (8 - n % 8) % 8) % 8 == 0
  {
  }

  // ---------------------------------------------------------------- spelled by hand

  /** White space and padding, which people and tools put anywhere between the digits. */
  predicate Filler(c: char) {
    IsSpace(c) || c == '='
  }

  /** The digit's character in the alphabet, or the small letter at the same place. */
  predicate StandsFor(c: char, d: bv5) {
    c == ALPHABET[d as int] || (d as int < 26 && c == SMALL[d as int])
  }

  /** `text` is `digits` written in any case, with fillers anywhere. */
  ghost predicate Writes(text: string, digits: seq<bv5>) {
    if text == [] then digits == []
    else
      var n, c := |text| - 1, text[|text| - 1];
      || (Filler(c) && Writes(text[..n], digits))
      || (digits != [] && StandsFor(c, digits[|digits| - 1]) && Writes(text[..n], digits[..|digits| - 1]))
  }

  lemma SmallLetters(d: bv5)
    requires d as int < 26
    ensures SMALL[d as int] == ('a' as int + d as int) as char
  {
    var n := d as int;
    assert forall k :: 0 <= k < 26 ==> SMALL[k] as int == 'a' as int + k;
  }

  lemma StandsForIsUpper(c: char, d: bv5)
    requires StandsFor(c, d)
    ensures Upper(c) == [CharOf(d)]
  {
    CharRoundTrip(d);
    CharsStay(d);
    if c != ALPHABET[d as int] {
      SmallLetters(d);
    }
  }

  lemma {:induction false} WritingIsSpelling(text: string, digits: seq<bv5>)
    requires Writes(text, digits)
    ensures Spells(text, digits)
  {
    hide StandsFor, Upper, CharOf, IsSpace;
    if text != [] {
      var n, c := |text| - 1, text[|text| - 1];
      if Filler(c) && Writes(text[..n], digits) {
        WritingIsSpelling(text[..n], digits);
      } else {
        var m := |digits| - 1;
        WritingIsSpelling(text[..n], digits[..m]);
        StandsForIsUpper(c, digits[m]);
      }
    }
  }

  /** However a secret is written, in capitals or small letters and with fillers, it decodes to its bytes. */
  lemma {:induction false} DecodeWritten(bytes: seq<bv8>, text: string)
    requires Writes(text, Grouped(ByteBits(bytes)))
    ensures Decoded(text) == bytes
  {
    hide Grouped, ByteBits, Decoded, Writes, Spells;
    WritingIsSpelling(text, Grouped(ByteBits(bytes)));
    DecodeEncode(bytes, text);
  }

  /** The other characters that turn into letters: sharp s, dotless i, long s, marked letters, ligatures. */
  lemma SpecialUppers()
    ensures Upper(0xDF as char) == "SS" && Upper(0x131 as char) == "I" && Upper(0x17F as char) == "S"
    ensures Upper(0x149 as char)[1..] == "N" && Upper(0x1F0 as char)[..1] == "J"
    ensures Upper(0x1E96 as char)[..1] == "H" && Upper(0x1E97 as char)[..1] == "T" && Upper(0x1E98 as char)[..1] == "W"
    ensures Upper(0x1E99 as char)[..1] == "Y" && Upper(0x1E9A as char)[..1] == "A"
  {
  }

  lemma LigatureUppers()
    ensures Upper(0xFB00 as char) == "FF" && Upper(0xFB01 as char) == "FI" && Upper(0xFB02 as char) == "FL"
    ensures Upper(0xFB03 as char) == "FFI" && Upper(0xFB04 as char) == "FFL"
    ensures Upper(0xFB05 as char) == "ST" && Upper(0xFB06 as char) == "ST"
  {
  }

  /** No other character outside ASCII holds a letter of the alphabet. */
  lemma OthersAreIgnored(c: char)
    requires c as int >= 0x80 && c as int !in {0xDF, 0x131, 0x149, 0x17F, 0x1F0}
    requires !(0x1E96 <= c as int <= 0x1E9A) && !(0xFB00 <= c as int <= 0xFB06)
    ensures Ignored(c)
  {
  }

  // ---------------------------------------------------------------- base32 as a number

  function Pow2(n: nat): (p: nat)
    ensures p > 0
  {
    if n == 0 then 1 else 2 * Pow2(n - 1)
  }

  function BitsValue(b: Bits): nat {
    if b == [] then 0 else 2 * BitsValue(b[..|b| - 1]) + if b[|b| - 1] then 1 else 0
  }

  /** The digits as a number of base 32, and the bytes as one of base 256. */
  function DigitsValue(digits: seq<bv5>): nat {
    if digits == [] then 0 else 32 * DigitsValue(digits[..|digits| - 1]) + digits[|digits| - 1] as nat
  }

  function BytesValue(bytes: seq<bv8>): nat {
    if bytes == [] then 0 else 256 * BytesValue(bytes[..|bytes| - 1]) + bytes[|bytes| - 1] as nat
  }

  function Weigh(b: bool, w: nat): nat {
    if b then w else 0
  }

  lemma OneBitMore(b: Bits, k: nat)
    requires k < |b|
    ensures BitsValue(b[..k + 1]) == 2 * BitsValue(b[..k]) + Weigh(b[k], 1)
  {
    assert b[..k + 1][..k] == b[..k];
  }

  lemma {:induction false} FiveBits(b: Bits)
    requires |b| == 5
    ensures BitsValue(b) == Weigh(b[0], 16) + Weigh(b[1], 8) + Weigh(b[2], 4) + Weigh(b[3], 2) + Weigh(b[4], 1)
  {
    hide BitsValue;
    NoBits();
    assert b[..0] == [] && b[..5] == b;
    OneBitMore(b, 0);
    OneBitMore(b, 1);
    OneBitMore(b, 2);
    OneBitMore(b, 3);
    OneBitMore(b, 4);
  }

  lemma {:induction false} EightBits(b: Bits)
    requires |b| == 8
    ensures BitsValue(b) == Weigh(b[0], 128) + Weigh(b[1], 64) + Weigh(b[2], 32) + Weigh(b[3], 16)
                            + Weigh(b[4], 8) + Weigh(b[5], 4) + Weigh(b[6], 2) + Weigh(b[7], 1)
  {
    hide BitsValue;
    FiveBits(b[..5]);
    OneBitMore(b, 5);
    OneBitMore(b, 6);
    OneBitMore(b, 7);
    assert b[..8] == b;
  }

  lemma DigitIsItsTests(v: bv5)
    ensures v as nat == Weigh(Test5(v, 16), 16) + Weigh(Test5(v, 8), 8) + Weigh(Test5(v, 4), 4)
                        + Weigh(Test5(v, 2), 2) + Weigh(Test5(v, 1), 1)
  {
  }

  lemma OctetIsItsTests(v: bv8)
    ensures v as nat == Weigh(Test8(v, 128), 128) + Weigh(Test8(v, 64), 64) + Weigh(Test8(v, 32), 32)
                        + Weigh(Test8(v, 16), 16) + Weigh(Test8(v, 8), 8) + Weigh(Test8(v, 4), 4)
                        + Weigh(Test8(v, 2), 2) + Weigh(Test8(v, 1), 1)
  {
  }

  lemma DigitIsItsBits(v: bv5)
    ensures BitsValue(Bits5(v)) == v as nat
  {
    hide Test5, BitsValue;
    DigitIsItsTests(v);
    FiveBits(Bits5(v));
  }

  lemma TestsOfOctet(b: Bits)
    requires |b| == 8
    ensures var v := Octet(b);
            && Test8(v, 128) == b[0] && Test8(v, 64) == b[1] && Test8(v, 32) == b[2] && Test8(v, 16) == b[3]
            && Test8(v, 8) == b[4] && Test8(v, 4) == b[5] && Test8(v, 2) == b[6] && Test8(v, 1) == b[7]
  {
  }

  lemma {:induction false} OctetIsItsBits(b: Bits)
    requires |b| == 8
    ensures Octet(b) as nat == BitsValue(b)
  {
    hide Test8, Octet, BitsValue, Weigh;
    TestsOfOctet(b);
    OctetIsItsTests(Octet(b));
    EightBits(b);
  }

  lemma {:induction false} BitsConcat(a: Bits, b: Bits)
    ensures BitsValue(a + b) == BitsValue(a) * Pow2(|b|) + BitsValue(b)
  {
    hide BitsValue, Pow2;
    if b == [] {
      assert a + b == a;
      NoBits();
      PowStep(BitsValue(a), 0);
    } else {
      var n := |b| - 1;
      BitsConcat(a, b[..n]);
      LastBit(a + b);
      LastBit(b);
      assert (a + b)[..|a + b| - 1] == a + b[..n];
      PowStep(BitsValue(a), n);
    }
  }

  lemma LastBit(b: Bits)
    requires b != []
    ensures BitsValue(b) == 2 * BitsValue(b[..|b| - 1]) + Weigh(b[|b| - 1], 1)
  {
  }

  lemma PowStep(x: nat, n: nat)
    ensures x * Pow2(n + 1) == 2 * (x * Pow2(n)) && Pow2(0) == 1
  {
  }

  lemma {:induction false} BitsBelowPower(b: Bits)
    ensures BitsValue(b) < Pow2(|b|)
  {
    if b != [] {
      BitsBelowPower(b[..|b| - 1]);
    }
  }

  lemma {:induction false} DigitBitsValue(digits: seq<bv5>)
    ensures BitsValue(DigitBits(digits)) == DigitsValue(digits)
  {
    hide BitsValue, DigitBits, Bits5;
    if digits == [] {
      NoBits();
    } else {
      var n := |digits| - 1;
      DigitBitsValue(digits[..n]);
      assert digits == digits[..n] + [digits[n]];
      DigitBitsAppend(digits[..n], digits[n]);
      BitsConcat(DigitBits(digits[..n]), Bits5(digits[n]));
      DigitIsItsBits(digits[n]);
      assert Pow2(5) == 32;
    }
  }

  lemma NoBits()
    ensures BitsValue([]) == 0 && DigitBits([]) == [] && Octets([]) == [] && ByteBits([]) == []
  {
  }

  lemma {:induction false} OneOctet(b: Bits)
    requires |b| == 8
    ensures Octets(b) == [Octet(b)]
  {
    assert b[..8] == b && b[8..] == [];
  }

  lemma {:induction false} WholeOctetsValue(bits: Bits)
    requires |bits| % 8 == 0
    ensures BytesValue(Octets(bits)) == BitsValue(bits) && |Octets(bits)| == |bits| / 8
  {
    hide BitsValue, Octets, Octet;
    if bits == [] {
      NoBits();
    } else {
      var n := |bits| - 8;
      WholeOctetsValue(bits[..n]);
      assert bits == bits[..n] + bits[n..];
      OctetsExtend(bits[..n], bits[n..]);
      OneOctet(bits[n..]);
      OctetIsItsBits(bits[n..]);
      BitsConcat(bits[..n], bits[n..]);
      assert Pow2(8) == 256;
      BytesAppend(Octets(bits[..n]), Octet(bits[n..]));
    }
  }

  lemma {:induction false} BytesAppend(bytes: seq<bv8>, v: bv8)
    ensures BytesValue(bytes + [v]) == 256 * BytesValue(bytes) + v as nat
  {
    assert (bytes + [v])[..|bytes|] == bytes;
  }

  lemma {:induction false} OctetsValue(bits: Bits)
    ensures BytesValue(Octets(bits)) == BitsValue(bits) / Pow2(|bits| % 8) && |Octets(bits)| == |bits| / 8
  {
    hide BitsValue, Octets, BytesValue, Pow2;
    var n := |bits| / 8 * 8;
    var whole, rest := bits[..n], bits[n..];
    assert bits == whole + rest;
    OctetsExtend(whole, rest);
    ShortRest(rest);
    assert Octets(whole) + [] == Octets(whole);
    WholeOctetsValue(whole);
    BitsConcat(whole, rest);
    BitsBelowPower(rest);
    QuotientIs(BitsValue(bits), Pow2(|rest|), BitsValue(whole), BitsValue(rest));
  }

  lemma {:induction false} ShortRest(rest: Bits)
    requires |rest| < 8
    ensures Octets(rest) == []
  {
  }

  lemma QuotientIs(x: int, p: int, q: int, r: int)
    requires p > 0 && 0 <= r < p && x == q * p + r
    ensures x / p == q
  {
    var d := x / p - q;
    assert p * d == r - x % p;
    assert d >= 1 ==> p * d >= p;
    assert d <= -1 ==> p * d <= -p;
  }

  /**
   * Decoding reads the digits as one number of base 32, drops the bits that fill no byte, and
   * writes what is left in base 256.
   */
  lemma {:induction false} DecodedIsTheNumber(text: string, digits: seq<bv5>)
    requires Writes(text, digits)
    ensures |Decoded(text)| == 5 * |digits| / 8
    ensures BytesValue(Decoded(text)) == DigitsValue(digits) / Pow2(5 * |digits| % 8)
  {
    hide Writes, Spells, Octets, DigitBits, DigitsOf, Cleaned, BytesValue, DigitsValue, BitsValue, Pow2;
    WritingIsSpelling(text, digits);
    SpelledDigits(text, digits);
    OctetsValue(DigitBits(digits));
    DigitBitsValue(digits);
  }

  // ---------------------------------------------------------------- the code

  type byte = n: nat | n < 256

  /** Big-endian value of a run of bytes. */
  function ValueOf(bytes: seq<byte>): nat {
    if bytes == [] then 0 else ValueOf(bytes[..|bytes| - 1]) * 256 + bytes[|bytes| - 1]
  }

  function Pow256(k: nat): (p: nat)
    ensures p > 0
  {
    if k == 0 then 1 else 256 * Pow256(k - 1)
  }

  /** The low `n` bytes of a counter, most significant first. */
  function CounterBytes(counter: int, n: nat): (b: seq<byte>)
    ensures |b| == n
    decreases n
  {
    if n == 0 then [] else CounterBytes(counter / 256, n - 1) + [counter % 256]
  }

  lemma {:induction false} CounterValue(counter: int, n: nat)
    ensures ValueOf(CounterBytes(counter, n)) == counter % Pow256(n)
    decreases n
  {
    if n > 0 {
      CounterValue(counter / 256, n - 1);
      SplitMod(counter, Pow256(n - 1));
    }
  }

  lemma SplitMod(c: int, p: nat)
    requires p > 0
    ensures c % (256 * p) == (c / 256) % p * 256 + c % 256
  {
    var q, r := (c / 256) / p, (c / 256) % p;
    assert c / 256 == q * p + r;
    assert c == (256 * p) * q + (r * 256 + c % 256);
    ModUnique(c, 256 * p, q, r * 256 + c % 256);
  }

  lemma ModUnique(c: int, m: int, q: int, r: int)
    requires m > 0 && 0 <= r < m && c == m * q + r
    ensures c % m == r
  {
    var d := c / m - q;
    assert m * d == r - c % m;
    assert d >= 1 ==> m * d >= m;
    assert d <= -1 ==> m * d <= -m;
  }

  /** Dynamic truncation: 31 bits starting at the offset the last half-byte names. */
  function Truncated(hmac: seq<byte>): nat
    requires |hmac| == 20
  {
    var offset := hmac[19] % 16;
    ValueOf(hmac[offset..offset + 4]) % 0x8000_0000
  }

  /**
   * The six-digit code at a moment. `hmac` is the keyed hash of the counter block; its bytes are
   * numbers, so a mask of the low bits is a remainder and disjoint bytes are joined by adding.
   */
  method TotpCode(secret: string, atMs: int, hmac: (seq<bv8>, seq<byte>) -> seq<byte>) returns (code: string)
    requires forall key, block :: |hmac(key, block)| == 20
    ensures |code| == 6 && AllDigits(code)
    ensures Parse(code) == Truncated(hmac(Decoded(secret), CounterBytes(atMs / 30_000, 8))) % 1_000_000
  {
    hide Parse, AllDigits, ValueOf, Decoded;
    var key := Base32Decode(secret);
    var block := CounterBlock(atMs / 30_000);
    var h := hmac(key, block);
    var offset := h[19] % 16;
    var bin := Joined(h[offset] % 128, h[offset + 1], h[offset + 2], h[offset + 3]);
    FourBytes(h[offset..offset + 4]);
    SixDigits(bin % 1_000_000);
    code := PadSix(Print(bin % 1_000_000));
  }

  /** The loop that writes the eight counter bytes from the last to the first. */
  method CounterBlock(at: int) returns (block: seq<byte>)
    ensures block == CounterBytes(at, 8)
    ensures ValueOf(block) == at % Pow256(8)
  {
    var counter := at;
    var buf := new byte[8](i => 0);
    for i := 8 downto 0
      invariant CounterBytes(at, 8) == CounterBytes(counter, i) + buf[i..]
    {
      assert CounterBytes(counter, i + 1) == CounterBytes(counter / 256, i) + [counter % 256];
      ghost var tail, low := buf[i + 1..], counter % 256;
      buf[i] := counter % 256;
      counter := counter / 256;
      assert buf[i..] == [low] + tail;
      assert CounterBytes(counter, i) + [low] + tail == CounterBytes(counter, i) + ([low] + tail);
    }
    block := buf[..];
    CounterValue(at, 8);
  }

  /** `(a << 24) | (b << 16) | (c << 8) | d` on bytes. */
  function Joined(a: nat, b: nat, c: nat, d: nat): nat {
    a * 0x100_0000 + b * 0x1_0000 + c * 0x100 + d
  }

  lemma ValueStep(b: seq<byte>, k: nat)
    requires k < |b|
    ensures ValueOf(b[..k + 1]) == ValueOf(b[..k]) * 256 + b[k]
  {
    assert b[..k + 1][..k] == b[..k];
  }

  lemma {:induction false} FourBytes(b: seq<byte>)
    requires |b| == 4
    ensures ValueOf(b) % 0x8000_0000 == Joined(b[0] % 128, b[1], b[2], b[3])
  {
    assert ValueOf(b[..0]) == 0;
    hide ValueOf;
    ValueStep(b, 0);
    ValueStep(b, 1);
    ValueStep(b, 2);
    ValueStep(b, 3);
    assert b[..4] == b;
    MaskTop(b[0], b[1], b[2], b[3]);
  }

  lemma MaskTop(a: byte, b: byte, c: byte, d: byte)
    ensures Joined(a, b, c, d) % 0x8000_0000 == Joined(a % 128, b, c, d)
  {
    var q, rest := a / 128, Joined(a % 128, b, c, d);
    assert a == q * 128 + a % 128;
    assert Joined(a, b, c, d) == q * 0x8000_0000 + rest && rest < 0x8000_0000;
    hide Joined;
    MultipleDrops(q, rest);
  }

  lemma MultipleDrops(q: nat, rest: nat)
    requires rest < 0x8000_0000
    ensures (q * 0x8000_0000 + rest) % 0x8000_0000 == rest
  {
  }

  function PadSix(s: string): string {
    if |s| < 6 then seq(6 - |s|, i => '0') + s else s
  }

  lemma {:induction false} ZeroDigits(k: nat)
    ensures AllDigits(seq(k, i => '0')) && Parse(seq(k, i => '0')) == 0
  {
    if k > 0 {
      ZeroDigits(k - 1);
      assert seq(k, i => '0')[..k - 1] == seq(k - 1, i => '0');
    }
  }

  lemma {:induction false} SixDigits(n: nat)
    requires n < 1_000_000
    ensures |PadSix(Print(n))| == 6 && AllDigits(PadSix(Print(n))) && Parse(PadSix(Print(n))) == n
  {
    hide Print, Parse;
    assert Pow10(1) == 10 && Pow10(2) == 100 && Pow10(3) == 1_000 && Pow10(4) == 10_000 && Pow10(5) == 100_000;
    PrintLength(n, 6);
    ParsePrint(n);
    if |Print(n)| < 6 {
      ZeroDigits(6 - |Print(n)|);
      ParseConcat(seq(6 - |Print(n)|, i => '0'), Print(n));
    }
  }

  /** The last half-byte names the first of four bytes, read as one number without its top bit. */
  lemma TruncatedIs(hmac: seq<byte>)
    requires |hmac| == 20
    ensures var o := hmac[19] % 16;
            Truncated(hmac)
            == 16_777_216 * (hmac[o] as int % 128) + 65_536 * (hmac[o + 1] as int) + 256 * (hmac[o + 2] as int)
               + hmac[o + 3] as int
  {
    var o := hmac[19] % 16;
    FourBytes(hmac[o..o + 4]);
  }

  /** The example of section 5.4 of RFC 4226. */
  lemma TruncationExample(hmac: seq<byte>)
    requires |hmac| == 20 && hmac[19] == 0x5a
    requires hmac[10] == 0x50 && hmac[11] == 0xef && hmac[12] == 0x7f && hmac[13] == 0x19
    ensures Truncated(hmac) == 0x50ef7f19 && Truncated(hmac) % 1_000_000 == 872_921
  {
    TruncatedIs(hmac);
    hide Truncated;
  }

  /** The counter block is the counter modulo 2 to the 64th. */
  lemma EightBytes()
    ensures Pow256(8) == 0x1_0000_0000_0000_0000
  {
    assert Pow256(2) == 0x1_0000 && Pow256(4) == 0x1_0000_0000 && Pow256(6) == 0x1_0000_0000_0000;
  }
}
