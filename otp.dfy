/**
 * The one-time codes of the signup, login and admin-settings pages: a
 * six-digit code with a deadline, checked in the same order everywhere
 * (no code, expired, mismatch, match).
 */
module Otp {
  import opened Common

  /** `Math.floor(100000 + Math.random() * 900000)`, with `draw` the floor of `Math.random() * 900000`. */
  function NewOtp(draw: nat): (otp: int)
    requires draw < 900000
    ensures 100000 <= otp <= 999999
  {
    100000 + draw
  }

  /**
   * `Number(entered)` on the already trimmed entry, where it can equal a
   * code: the whole number the text reads as, `None` for NaN, an
   * infinity or a fraction.
   */
  function EnteredValue(entered: string): Option<int>
  {
    IntegerValue(LiteralValue(entered))
  }

  /** Only an entry that is not NaN has a value. */
  lemma EnteredValueIsNumber(entered: string)
    ensures EnteredValue(Trim(entered)).Some? ==> NumberLike(entered)
  {
    NumberValueDefined(entered);
  }

  datatype OtpCheck = NoOtp | Expired | Mismatch | Match

  /** `if (!generatedOtp) … if (Date.now() > otpExpires) … if (Number(entered) === generatedOtp)` */
  function CheckOtp(otp: Option<int>, expires: int, entered: string, now: int): (r: OtpCheck)
    ensures r == NoOtp <==> otp.None?
    ensures r == Expired <==> otp.Some? && now > expires
    ensures r == Match <==> otp.Some? && now <= expires && EnteredValue(entered) == Some(otp.value)
  {
    if otp.None? then NoOtp
    else if now > expires then Expired
    else if EnteredValue(entered) == Some(otp.value) then Match
    else Mismatch
  }

  /** A text of digits has nothing to trim. */
  lemma TrimDigits(s: string)
    requires AllDigits(s)
    ensures Trim(s) == s
  {
    assert s == [] || !IsSpace(s[0]);
    assert TrimStart(s) == s;
    assert s == [] || !IsSpace(s[|s| - 1]);
  }

  /** A run of decimal digits is a decimal literal. */
  lemma DigitsAreDecimal(t: string)
    requires |t| > 0 && AllDigits(t)
    ensures UnsignedDecimalLiteral(t) && DecimalLiteral(t) && Unsigned(t) == t && !NonDecimalLiteral(t)
    ensures t != "Infinity"
  {
    assert IsDigit(t[0]) && t[0] !in "+-";
    DigitRunOfConcat(t, []);
    assert t + [] == t;
  }

  /** A run of decimal digits is read as its value. */
  lemma DigitEntryValue(t: string)
    requires |t| > 0 && AllDigits(t)
    ensures EnteredValue(t) == Some(DigitsValue(t))
  {
    DigitsAreDecimal(t);
    assert t + [] == t;
    PrefixOfWhole(t, t, []);
    DecimalEntry(t, t, DigitsValue(t), 0);
  }

  /** Typing the code as it was sent, before the deadline, is a match. */
  lemma SentCodeMatches(draw: nat, expires: int, now: int)
    requires draw < 900000 && now <= expires
    ensures CheckOtp(Some(NewOtp(draw)), expires, NatText(NewOtp(draw)), now) == Match
  {
    DigitEntryValue(NatText(NewOtp(draw)));
    NatTextValue(NewOtp(draw));
  }

  /** Any other number typed is a mismatch. */
  lemma OtherCodeFails(otp: int, n: nat, expires: int, now: int)
    requires n != otp && now <= expires
    ensures CheckOtp(Some(otp), expires, NatText(n), now) == Mismatch
  {
    DigitEntryValue(NatText(n));
    NatTextValue(n);
  }

  /** The shape of an unsigned decimal literal, bare or after a `+`, as `Number` tests it. */
  lemma DecimalEntryShape(t: string, u: string)
    requires t == u || t == "+" + u
    requires |u| > 0 && (IsDigit(u[0]) || u[0] == '.') && UnsignedDecimalLiteral(u)
    ensures t != [] && !NonDecimalLiteral(t) && DecimalLiteral(t) && Unsigned(t) == u && t[0] != '-'
    ensures u != "Infinity" && DecimalPrefix(u).Some?
  {
    if t == u {
      RadixNotDecimal(u);
      assert t[0] !in "+-";
    } else {
      assert t[0] == '+' && t[1..] == u;
    }
  }

  /** An unsigned decimal literal, bare or after a `+`, reads as its digits and power of ten. */
  lemma DecimalEntry(t: string, u: string, d: nat, e: int)
    requires t == u || t == "+" + u
    requires |u| > 0 && (IsDigit(u[0]) || u[0] == '.') && UnsignedDecimalLiteral(u)
    requires DecimalPrefix(u) == Some((d, e))
    ensures EnteredValue(t) == IntegerValue(Finite(false, d, e))
  {
    DecimalEntryShape(t, u);
  }

  /** A whole number of tenths, all of them zero, is that number of units. */
  lemma TenthsValue(d: nat)
    ensures IntegerValue(Finite(false, d * 10, -1)) == Some(d)
  {
    assert Pow10(1) == 10;
    assert Shift(d * 10, -1) == Shift(d * 10, 0) / 10;
  }

  /** A code followed by a point reads as the code. */
  lemma PointEntry(w: string)
    requires |w| > 0 && AllDigits(w)
    ensures EnteredValue(w + ".") == Some(DigitsValue(w))
  {
    var u := w + ".";
    var d := DigitsValue(w);
    assert w + "." + "" + [] == u;
    assert UnsignedDecimalLiteral(u) by {
      FractionIsDecimal(u, w, "", []);
    }
    assert DecimalPrefix(u) == Some((d, 0)) by {
      assert Pow10(0) == 1 && DigitsValue("") == 0 && ExponentAt([]) == 0;
      PrefixOfFraction(u, w, "", [], d, 0);
    }
    DecimalEntry(u, u, d, 0);
  }

  /** A code followed by a point and a zero reads as the code. */
  lemma PointZeroEntry(w: string)
    requires |w| > 0 && AllDigits(w)
    ensures EnteredValue(w + ".0") == Some(DigitsValue(w))
  {
    var u := w + ".0";
    var d := DigitsValue(w) * 10;
    assert w + "." + "0" + [] == u;
    assert UnsignedDecimalLiteral(u) by {
      FractionIsDecimal(u, w, "0", []);
    }
    assert DecimalPrefix(u) == Some((d, -1)) by {
      assert DigitsValue("0") == 0 by { assert "0"[..0] == []; }
      assert Pow10(1) == 10 && ExponentAt([]) == 0;
      PrefixOfFraction(u, w, "0", [], d, -1);
    }
    DecimalEntry(u, u, d, -1);
    TenthsValue(DigitsValue(w));
  }

  /** A code after a plus sign reads as the code. */
  lemma PlusEntry(w: string)
    requires |w| > 0 && AllDigits(w)
    ensures EnteredValue("+" + w) == Some(DigitsValue(w))
  {
    DigitsAreDecimal(w);
    assert w + [] == w;
    PrefixOfWhole(w, w, []);
    DecimalEntry("+" + w, w, DigitsValue(w), 0);
  }

  /** Digits with the point moved left, and an exponent `x` that moves it back, read as all the digits. */
  lemma ExponentEntry(u: string, a: string, b: string, x: string, d: nat)
    requires u == a + "." + b + ("e" + x)
    requires |a| > 0 && AllDigits(a) && |b| > 0 && AllDigits(b)
    requires |x| > 0 && AllDigits(x) && DigitsValue(x) == |b|
    requires d == Shift(DigitsValue(a), |b|) + DigitsValue(b)
    ensures EnteredValue(u) == Some(d)
  {
    ExponentIsDecimal(u, a, b, x);
    ExponentPrefix(u, a, b, x, d);
    assert u[0] == a[0];
    WholeEntry(u, d);
  }

  /** A decimal literal whose digits need no scaling reads as those digits. */
  lemma WholeEntry(u: string, d: nat)
    requires |u| > 0 && IsDigit(u[0]) && UnsignedDecimalLiteral(u) && DecimalPrefix(u) == Some((d, 0))
    ensures EnteredValue(u) == Some(d)
  {
    DecimalEntry(u, u, d, 0);
  }

  lemma ExponentIsDecimal(u: string, a: string, b: string, x: string)
    requires u == a + "." + b + ("e" + x)
    requires AllDigits(a) && |b| > 0 && AllDigits(b) && |x| > 0 && AllDigits(x)
    ensures UnsignedDecimalLiteral(u)
  {
    var r := "e" + x;
    assert ExponentPart(r) by { assert r[1..] == x; }
    FractionIsDecimal(u, a, b, r);
  }

  lemma ExponentPrefix(u: string, a: string, b: string, x: string, d: nat)
    requires u == a + "." + b + ("e" + x)
    requires AllDigits(a) && |b| > 0 && AllDigits(b) && |x| > 0 && AllDigits(x) && DigitsValue(x) == |b|
    requires d == Shift(DigitsValue(a), |b|) + DigitsValue(b)
    ensures DecimalPrefix(u) == Some((d, 0))
  {
    ShiftUp(DigitsValue(a), |b|);
    ExponentOfDigits(x);
    PrefixOfFraction(u, a, b, "e" + x, d, 0);
  }

  /** A `0x`, `0o` or `0b` literal reads as its value in that base. */
  lemma RadixEntry(t: string, c: char, x: string, v: nat)
    requires t == "0" + [c] + x
    requires c in "xXoObB" && |x| > 0 && AllOf(x, RadixOf(c)) && v == RadixValue(x, RadixOf(c))
    ensures EnteredValue(t) == Some(v)
  {
    assert t[2..] == x;
    assert NonDecimalLiteral(t);
  }

  /**
   * Each of these entries matches the code 123456: with a point, a
   * point and a zero, a plus sign, an exponent, in hexadecimal and in
   * octal.
   */
  lemma OtherSpellingsMatch()
    ensures EnteredValue(NatText(123456) + ".") == Some(123456)
    ensures EnteredValue(NatText(123456) + ".0") == Some(123456)
    ensures EnteredValue("+" + NatText(123456)) == Some(123456)
    ensures EnteredValue("1.23456e5") == Some(123456)
    ensures EnteredValue("0x1E240") == Some(123456)
    ensures EnteredValue("0o361100") == Some(123456)
  {
    NatTextValue(123456);
    PointEntry(NatText(123456));
    PointZeroEntry(NatText(123456));
    PlusEntry(NatText(123456));
    ExponentSpelling();
    HexSpelling();
    OctalSpelling();
  }

  lemma ExponentSpelling()
    ensures EnteredValue("1.23456e5") == Some(123456)
  {
    var u := "1" + "." + "23456" + ("e" + "5");
    assert u == "1.23456e5";
    assert DigitsValue("5") == 5 && DigitsValue("1") == 1 by {
      assert "5"[..0] == [] && "1"[..0] == [];
    }
    assert DigitsValue("23456") == 23456 by {
      assert "23456"[..4] == "2345" && "2345"[..3] == "234" && "234"[..2] == "23" && "23"[..1] == "2" && "2"[..0] == [];
    }
    assert Shift(1, 5) == 100000;
    ExponentEntry(u, "1", "23456", "5", 123456);
  }

  lemma HexSpelling()
    ensures EnteredValue("0x1E240") == Some(123456)
  {
    var t := "0" + ['x'] + "1E240";
    assert t == "0x1E240";
    HexDigits();
    RadixEntry(t, 'x', "1E240", 123456);
  }

  lemma HexDigits()
    ensures AllOf("1E240", 16) && RadixValue("1E240", 16) == 123456
  {
    assert AllOf("1E240", 16) && RadixValue("1E240", 16) == 123456 by {
      assert "1"[..0] == [] && RadixValue("1", 16) == 1;
      assert "1E"[..1] == "1" && RadixValue("1E", 16) == 30;
      assert "1E2"[..2] == "1E" && RadixValue("1E2", 16) == 482;
      assert "1E24"[..3] == "1E2" && RadixValue("1E24", 16) == 7716;
      assert "1E240"[..4] == "1E24";
    }
  }

  lemma OctalSpelling()
    ensures EnteredValue("0o361100") == Some(123456)
  {
    var t := "0" + ['o'] + "361100";
    assert t == "0o361100";
    OctalDigits();
    RadixEntry(t, 'o', "361100", 123456);
  }

  lemma OctalDigits()
    ensures AllOf("361100", 8) && RadixValue("361100", 8) == 123456
  {
    assert AllOf("361100", 8) && RadixValue("361100", 8) == 123456 by {
      assert "3"[..0] == [] && RadixValue("3", 8) == 3;
      assert "36"[..1] == "3" && RadixValue("36", 8) == 30;
      assert "361"[..2] == "36" && RadixValue("361", 8) == 241;
      assert "3611"[..3] == "361" && RadixValue("3611", 8) == 1929;
      assert "36110"[..4] == "3611" && RadixValue("36110", 8) == 15432;
      assert "361100"[..5] == "36110";
    }
  }

  /** Blank text reads as zero, which no code equals. */
  lemma BlankEntryFails(entered: string, otp: int, expires: int, now: int)
    requires Trim(entered) == [] && 100000 <= otp && now <= expires
    ensures EnteredValue(Trim(entered)) == Some(0)
    ensures CheckOtp(Some(otp), expires, Trim(entered), now) == Mismatch
  {
  }
}
