/** Base64 with its one accepted spelling: sections 4 and 3.5 of RFC 4648. */
module Radix64 {

  function Digit(n: nat): (c: char)
    requires n < 64
    ensures DigitValue(c) == n
  {
    if n < 26 then ('A' as int + n) as char
    else if n < 52 then ('a' as int + n - 26) as char
    else if n < 62 then ('0' as int + n - 52) as char
    else if n == 62 then '+' else '/'
  }

  /** The value of a digit, or -1. */
  function DigitValue(c: char): (v: int)
    ensures -1 <= v < 64
  {
    if 'A' <= c <= 'Z' then c as int - 'A' as int
    else if 'a' <= c <= 'z' then c as int - 'a' as int + 26
    else if '0' <= c <= '9' then c as int - '0' as int + 52
    else if c == '+' then 62 else if c == '/' then 63 else -1
  }

  lemma DigitInverse(c: char)
    requires DigitValue(c) >= 0
    ensures Digit(DigitValue(c)) == c && c != '='
  {
  }

  predicate Bytes(s: string) {
    forall i | 0 <= i < |s| :: s[i] as int < 256
  }

  function Digit0(a: char): (n: nat)
    requires a as int < 256
    ensures n < 64
  {
    a as int / 4
  }

  function Digit1(a: char, b: char): (n: nat)
    requires a as int < 256 && b as int < 256
    ensures n < 64
  {
    a as int % 4 * 16 + b as int / 16
  }

  function Digit2(b: char, c: char): (n: nat)
    requires b as int < 256 && c as int < 256
    ensures n < 64
  {
    b as int % 16 * 4 + c as int / 64
  }

  function Digit3(c: char): (n: nat)
    ensures n < 64
  {
    c as int % 64
  }

  /** Four digits for three bytes. */
  function Quartet(a: char, b: char, c: char): (q: string)
    requires a as int < 256 && b as int < 256 && c as int < 256
    ensures |q| == 4
  {
    [Digit(Digit0(a)), Digit(Digit1(a, b)), Digit(Digit2(b, c)), Digit(Digit3(c))]
  }

  const ZERO: char := 0 as char

  function Base64(t: string): (s: string)
    requires Bytes(t)
  {
    if t == "" then ""
    else if |t| == 1 then Quartet(t[0], ZERO, ZERO)[..2] + "=="
    else if |t| == 2 then Quartet(t[0], t[1], ZERO)[..3] + "="
    else Quartet(t[0], t[1], t[2]) + Base64(t[3..])
  }

  lemma {:induction false} Base64Length(t: string)
    requires Bytes(t)
    ensures |Base64(t)| == 4 * ((|t| + 2) / 3)
  {
    hide Quartet;
    if |t| >= 3 { Base64Length(t[3..]); }
  }

  /** How many of the last two characters are padding. */
  function Padding(s: string): (p: nat)
    ensures p <= 2 && p <= |s|
  {
    if |s| < 2 || s[|s| - 1] != '=' then 0 else if s[|s| - 2] == '=' then 2 else 1
  }

  predicate DigitsTo(s: string, n: int) {
    forall i | 0 <= i < n && i < |s| :: DigitValue(s[i]) >= 0
  }

  /** The last digit before the padding has no bits that padding cuts off. */
  predicate NoStrayBits(s: string, padding: nat) {
    && (padding == 1 && |s| >= 2 ==> !Stray4(s[|s| - 2]))
    && (padding == 2 && |s| >= 3 ==> !Stray16(s[|s| - 3]))
  }

  predicate Accepted(s: string) {
    |s| % 4 == 0 && DigitsTo(s, |s| - Padding(s)) && NoStrayBits(s, Padding(s))
  }

  function Octet(n: int): (c: char)
    ensures c as int < 256
  {
    (if n < 0 then 0 else n % 256) as char
  }

  function First(a: char, b: char): (r: char)
    ensures r as int < 256
  {
    Octet(4 * DigitValue(a) + DigitValue(b) / 16)
  }

  function Second(b: char, c: char): (r: char)
    ensures r as int < 256
  {
    Octet(DigitValue(b) % 16 * 16 + DigitValue(c) / 4)
  }

  function Third(c: char, d: char): (r: char)
    ensures r as int < 256
  {
    Octet(DigitValue(c) % 4 * 64 + DigitValue(d))
  }

  /** The bytes of the digits, without those that padding stands for. */
  function Unbase64(s: string): (t: string)
    ensures Bytes(t)
  {
    if |s| < 4 then ""
    else if s[2] == '=' then [First(s[0], s[1])]
    else if s[3] == '=' then [First(s[0], s[1]), Second(s[1], s[2])]
    else [First(s[0], s[1]), Second(s[1], s[2]), Third(s[2], s[3])] + Unbase64(s[4..])
  }

  // ----- Bits -----

  /** Four digits hold three bytes, and the reverse. */
  lemma Sextets(a: nat, b: nat, c: nat, d: nat)
    requires a < 64 && b < 64 && c < 64 && d < 64
    ensures var x, y, z := 4 * a + b / 16, b % 16 * 16 + c / 4, c % 4 * 64 + d;
      && x < 256 && y < 256 && z < 256
      && x / 4 == a && x % 4 * 16 + y / 16 == b && y % 16 * 4 + z / 64 == c && z % 64 == d
  {
  }

  lemma Octets(a: nat, b: nat, c: nat)
    requires a < 256 && b < 256 && c < 256
    ensures var w, x, y, z := a / 4, a % 4 * 16 + b / 16, b % 16 * 4 + c / 64, c % 64;
      && w < 64 && x < 64 && y < 64 && z < 64
      && 4 * w + x / 16 == a && x % 16 * 16 + y / 4 == b && y % 4 * 64 + z == c
  {
  }

  lemma OctetIs(n: nat)
    requires n < 256
    ensures Octet(n) as int == n && Octet(n) == n as char
  {
  }

  lemma BytesBack(a: char, b: char, c: char)
    requires a as int < 256 && b as int < 256 && c as int < 256
    ensures First(Digit(Digit0(a)), Digit(Digit1(a, b))) == a
    ensures Second(Digit(Digit1(a, b)), Digit(Digit2(b, c))) == b
    ensures Third(Digit(Digit2(b, c)), Digit(Digit3(c))) == c
  {
    Octets(a as int, b as int, c as int);
    OctetIs(a as int);
    OctetIs(b as int);
    OctetIs(c as int);
    hide Octet, Digit, DigitValue;
  }

  lemma DigitsBack(a: char, b: char, c: char, d: char)
    requires DigitValue(a) >= 0 && DigitValue(b) >= 0 && DigitValue(c) >= 0 && DigitValue(d) >= 0
    ensures Digit0(First(a, b)) == DigitValue(a) && Digit1(First(a, b), Second(b, c)) == DigitValue(b)
    ensures Digit2(Second(b, c), Third(c, d)) == DigitValue(c) && Digit3(Third(c, d)) == DigitValue(d)
  {
    hide DigitValue;
    var w, x, y, z := DigitValue(a), DigitValue(b), DigitValue(c), DigitValue(d);
    Sextets(w, x, y, z);
    OctetIs(4 * w + x / 16);
    OctetIs(x % 16 * 16 + y / 4);
    OctetIs(y % 4 * 64 + z);
    hide Octet;
  }

  lemma QuartetDigits(a: char, b: char, c: char)
    requires a as int < 256 && b as int < 256 && c as int < 256
    ensures var q := Quartet(a, b, c);
      && First(q[0], q[1]) == a && Second(q[1], q[2]) == b && Third(q[2], q[3]) == c
      && forall i | 0 <= i < 4 :: DigitValue(q[i]) >= 0 && q[i] != '='
  {
    BytesBack(a, b, c);
    DigitInverse(Digit(Digit0(a)));
    DigitInverse(Digit(Digit1(a, b)));
    DigitInverse(Digit(Digit2(b, c)));
    DigitInverse(Digit(Digit3(c)));
    hide First, Second, Third, DigitValue, Digit, Digit0, Digit1, Digit2, Digit3;
  }

  lemma QuartetOf(a: char, b: char, c: char, d: char)
    requires DigitValue(a) >= 0 && DigitValue(b) >= 0 && DigitValue(c) >= 0 && DigitValue(d) >= 0
    ensures Quartet(First(a, b), Second(b, c), Third(c, d)) == [a, b, c, d]
  {
    DigitInverse(a);
    DigitInverse(b);
    DigitInverse(c);
    DigitInverse(d);
    DigitsBack(a, b, c, d);
    hide First, Second, Third, DigitValue, Digit, Digit0, Digit1, Digit2, Digit3;
  }

  /** The digit next to one or two padding characters. */
  predicate Stray4(c: char) {
    DigitValue(c) % 4 != 0
  }

  predicate Stray16(c: char) {
    DigitValue(c) % 16 != 0
  }

  /** Digits whose low bits are zero leave zero bytes, and zero bytes such digits. */
  lemma Zeros(c: char)
    ensures DigitValue('A') == 0
    ensures DigitValue(c) >= 0 && !Stray4(c) ==> Third(c, 'A') == ZERO
    ensures DigitValue(c) >= 0 && !Stray16(c) ==> Second(c, 'A') == ZERO
  {
  }

  lemma ZeroBytes(a: char, b: char)
    requires a as int < 256 && b as int < 256
    ensures !Stray16(Digit(Digit1(a, ZERO))) && !Stray4(Digit(Digit2(b, ZERO)))
  {
  }

  // ----- Encoding, then decoding -----

  lemma PaddingRest(q: string, rest: string)
    requires |q| == 4 && |rest| >= 4
    ensures Padding(q + rest) == Padding(rest)
  {
  }

  lemma AcceptedMore(q: string, rest: string)
    requires |q| == 4 && (forall i | 0 <= i < 4 :: DigitValue(q[i]) >= 0 && q[i] != '=') && |rest| % 4 == 0
    ensures Accepted(q + rest) <==> Accepted(rest)
  {
    var s := q + rest;
    assert forall i | 4 <= i < |s| :: s[i] == rest[i - 4];
    if rest != "" {
      PaddingRest(q, rest);
      if Accepted(s) {
        forall i | 0 <= i < |rest| - Padding(rest) ensures DigitValue(rest[i]) >= 0 { assert s[i + 4] == rest[i]; }
      }
    }
  }

  lemma UnbaseMore(q: string, rest: string)
    requires |q| == 4 && q[2] != '=' && q[3] != '='
    ensures Unbase64(q + rest) == [First(q[0], q[1]), Second(q[1], q[2]), Third(q[2], q[3])] + Unbase64(rest)
  {
  }

  lemma TwoDigits(a: char, b: char)
    requires DigitValue(a) >= 0 && DigitValue(b) >= 0 && !Stray16(b)
    ensures Accepted([a, b, '=', '=']) && Unbase64([a, b, '=', '=']) == [First(a, b)]
  {
  }

  lemma ThreeDigits(a: char, b: char, c: char)
    requires DigitValue(a) >= 0 && DigitValue(b) >= 0 && DigitValue(c) >= 0 && !Stray4(c)
    ensures Accepted([a, b, c, '=']) && Unbase64([a, b, c, '=']) == [First(a, b), Second(b, c)]
  {
  }

  lemma BaseOne(a: char)
    requires a as int < 256
    ensures Bytes([a]) && Base64([a]) == Quartet(a, ZERO, ZERO)[..2] + "=="
  {
  }

  lemma BaseTwo(a: char, b: char)
    requires a as int < 256 && b as int < 256
    ensures Bytes([a, b]) && Base64([a, b]) == Quartet(a, b, ZERO)[..3] + "="
  {
  }

  lemma EncodedOne(a: char)
    requires a as int < 256
    ensures Bytes([a]) && Accepted(Base64([a])) && Unbase64(Base64([a])) == [a]
  {
  }

  lemma EncodedTwo(a: char, b: char)
    requires a as int < 256 && b as int < 256
    ensures Bytes([a, b]) && Accepted(Base64([a, b])) && Unbase64(Base64([a, b])) == [a, b]
  {
    var q := Quartet(a, b, ZERO);
    assert q[2] == Digit(Digit2(b, ZERO));
    hide *;
    QuartetDigits(a, b, ZERO);
    ZeroBytes(a, b);
    BaseTwo(a, b);
    assert q[..3] + "=" == [q[0], q[1], q[2], '='];
    ThreeDigits(q[0], q[1], q[2]);
  }

  lemma AcceptedLength4(s: string)
    ensures Accepted(s) ==> |s| % 4 == 0
  {
  }

  lemma BytesStep(t: string)
    requires Bytes(t)
    ensures |t| > 0 ==> t[0] as int < 256
    ensures |t| > 1 ==> t[1] as int < 256
    ensures |t| >= 3 ==> t[2] as int < 256 && Bytes(t[3..])
  {
  }

  lemma BaseStep(t: string)
    requires |t| >= 3 && Bytes(t) && Bytes(t[3..]) && t[0] as int < 256 && t[1] as int < 256 && t[2] as int < 256
    ensures Base64(t) == Quartet(t[0], t[1], t[2]) + Base64(t[3..])
  {
  }

  lemma {:induction false} Encoded(t: string)
    requires Bytes(t)
    ensures Accepted(Base64(t)) && Unbase64(Base64(t)) == t
  {
    hide *;
    BytesStep(t);
    if |t| == 0 {
      assert t == "";
      Nothing64();
    } else if |t| == 1 {
      EncodedOne(t[0]);
      assert t == [t[0]];
    } else if |t| == 2 {
      EncodedTwo(t[0], t[1]);
      assert t == [t[0], t[1]];
    } else {
      BaseStep(t);
      QuartetDigits(t[0], t[1], t[2]);
      var q, rest := Quartet(t[0], t[1], t[2]), Base64(t[3..]);
      Encoded(t[3..]);
      AcceptedLength4(rest);
      AcceptedMore(q, rest);
      UnbaseMore(q, rest);
      assert t == [t[0], t[1], t[2]] + t[3..];
    }
  }

  // ----- Decoding, then encoding -----

  lemma FullQuartet(s: string)
    requires Accepted(s) && |s| >= 8
    ensures forall i | 0 <= i < 4 :: DigitValue(s[i]) >= 0 && s[i] != '='
    ensures Accepted(s[4..]) && Padding(s[4..]) == Padding(s)
  {
  }

  lemma {:induction false} AcceptedLength(s: string)
    requires Accepted(s)
    ensures |Unbase64(s)| == 3 * (|s| / 4) - Padding(s)
  {
    if |s| >= 8 {
      FullQuartet(s);
      AcceptedLength(s[4..]);
      hide Accepted, Padding;
    } else if |s| == 4 {
      LastQuartet(s);
      hide Accepted, Padding;
    }
  }

  /** The four characters of the last quartet. */
  lemma LastQuartet(s: string)
    requires Accepted(s) && |s| == 4
    ensures DigitValue(s[0]) >= 0 && DigitValue(s[1]) >= 0
    ensures Padding(s) == 2 <==> s[2] == '='
    ensures Padding(s) == 1 <==> s[2] != '=' && s[3] == '='
    ensures s[2] == '=' ==> s[3] == '=' && !Stray16(s[1])
    ensures s[2] != '=' ==> DigitValue(s[2]) >= 0
    ensures s[2] != '=' && s[3] == '=' ==> !Stray4(s[2])
    ensures s[3] != '=' ==> DigitValue(s[3]) >= 0
  {
  }

  lemma BaseMore(a: char, b: char, c: char, t: string)
    requires a as int < 256 && b as int < 256 && c as int < 256 && Bytes(t)
    ensures Bytes([a, b, c] + t) && Base64([a, b, c] + t) == Quartet(a, b, c) + Base64(t)
  {
  }

  /** Every accepted spelling is the one that encoding gives. */
  lemma {:induction false} Decoded(s: string)
    requires Accepted(s)
    ensures Base64(Unbase64(s)) == s
  {
    hide *;
    AcceptedLength4(s);
    if |s| >= 8 {
      FullQuartet(s);
      assert s[..4] == [s[0], s[1], s[2], s[3]] && s == s[..4] + s[4..];
      Decoded(s[4..]);
      QuartetOf(s[0], s[1], s[2], s[3]);
      UnbaseMore(s[..4], s[4..]);
      BaseMore(First(s[0], s[1]), Second(s[1], s[2]), Third(s[2], s[3]), Unbase64(s[4..]));
    } else if |s| == 4 {
      LastDecoded(s);
    } else {
      assert s == "";
      Nothing64();
    }
  }

  lemma LastDecoded(s: string)
    requires Accepted(s) && |s| == 4
    ensures Base64(Unbase64(s)) == s
  {
    LastQuartet(s);
    Zeros(s[1]);
    Zeros(s[2]);
    Zeros('A');
    assert !Stray4('A');
    assert s == [s[0], s[1], s[2], s[3]];
    hide *;
    if s[2] == '=' {
      QuartetOf(s[0], s[1], 'A', 'A');
      TwoDigits(s[0], s[1]);
      BaseOne(First(s[0], s[1]));
    } else if s[3] == '=' {
      QuartetOf(s[0], s[1], s[2], 'A');
      ThreeDigits(s[0], s[1], s[2]);
      BaseTwo(First(s[0], s[1]), Second(s[1], s[2]));
    } else {
      QuartetOf(s[0], s[1], s[2], s[3]);
      assert s + "" == s;
      Nothing64();
      UnbaseMore(s, "");
      BaseMore(First(s[0], s[1]), Second(s[1], s[2]), Third(s[2], s[3]), "");
    }
  }

  lemma Nothing64()
    ensures Unbase64("") == "" && Bytes("") && Base64("") == "" && Accepted("")
  {
  }
}
