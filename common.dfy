/**
 * Value-level helpers shared by every page of the panel: an Option type,
 * the JavaScript string operations the pages rely on (trim, ASCII case
 * mapping, substring search, splitting on a delimiter class), the
 * `isNaN` test on text, the number-to-text conversions the pages render
 * and the parsers (`parseFloat`, `parseInt`) that read that text back.
 * Money is counted in integer paise (1/100 rupee) throughout.
 */
module Common {

  datatype Option<T> = None | Some(value: T)

  // ------------------------------------------------------------------
  // Characters
  // ------------------------------------------------------------------

  /** The characters matched by `\s` and removed by `String.prototype.trim`. */
  predicate IsSpace(c: char)
  {
    c == ' ' || c == '\t' || c == '\n' || c == '\r' || c == '\U{000B}' || c == '\U{000C}' ||
    c == '\U{00A0}' || c == '\U{1680}' || ('\U{2000}' <= c <= '\U{200A}') ||
    c == '\U{2028}' || c == '\U{2029}' || c == '\U{202F}' || c == '\U{205F}' ||
    c == '\U{3000}' || c == '\U{FEFF}'
  }

  predicate IsDigit(c: char) { '0' <= c <= '9' }

  predicate IsAsciiLetter(c: char) { 'a' <= c <= 'z' || 'A' <= c <= 'Z' }

  predicate IsAsciiAlnum(c: char) { IsDigit(c) || IsAsciiLetter(c) }

  predicate AllDigits(s: string) { forall i :: 0 <= i < |s| ==> IsDigit(s[i]) }

  function LowerChar(c: char): char
  {
    if 'A' <= c <= 'Z' then (c as int + 32) as char else c
  }

  function UpperChar(c: char): char
  {
    if 'a' <= c <= 'z' then (c as int - 32) as char else c
  }

  /** `toLowerCase`, restricted to the ASCII letters. */
  function Lower(s: string): string
  {
    seq(|s|, i requires 0 <= i < |s| => LowerChar(s[i]))
  }

  /**
   * A string's `.length`: its UTF-16 code units, two for each character
   * outside the Basic Multilingual Plane.
   */
  function Utf16Length(s: string): (n: nat)
    ensures |s| <= n <= 2 * |s|
    ensures n == |s| <==> forall k :: 0 <= k < |s| ==> s[k] as int < 0x10000
  {
    if s == [] then 0
    else
      assert forall k :: 1 <= k < |s| ==> s[k] == s[1..][k - 1];
      (if s[0] as int < 0x10000 then 1 else 2) + Utf16Length(s[1..])
  }

  /** Characters outside the Basic Multilingual Plane count twice: three emoji make a length of six. */
  lemma {:induction false} Utf16LengthOfAstral(s: string)
    requires forall k :: 0 <= k < |s| ==> s[k] as int >= 0x10000
    ensures Utf16Length(s) == 2 * |s|
  {
    if s != [] {
      assert forall k :: 0 <= k < |s[1..]| ==> s[1..][k] == s[k + 1];
      Utf16LengthOfAstral(s[1..]);
    }
  }

  /** `toUpperCase`, restricted to the ASCII letters. */
  function Upper(s: string): string
  {
    seq(|s|, i requires 0 <= i < |s| => UpperChar(s[i]))
  }

  // ------------------------------------------------------------------
  // Trimming and searching
  // ------------------------------------------------------------------

  function TrimStart(s: string): (r: string)
    ensures |r| <= |s| && r == s[|s| - |r|..]
    ensures r == [] || !IsSpace(r[0])
    ensures forall i :: 0 <= i < |s| - |r| ==> IsSpace(s[i])
    decreases |s|
  {
    if |s| > 0 && IsSpace(s[0]) then TrimStart(s[1..]) else s
  }

  function TrimEnd(s: string): (r: string)
    ensures |r| <= |s| && r == s[..|r|]
    ensures r == [] || !IsSpace(r[|r| - 1])
    ensures forall i :: |r| <= i < |s| ==> IsSpace(s[i])
    decreases |s|
  {
    if |s| > 0 && IsSpace(s[|s| - 1]) then TrimEnd(s[..|s| - 1]) else s
  }

  /** `String.prototype.trim`. */
  function Trim(s: string): string
  {
    TrimEnd(TrimStart(s))
  }

  /** A trimmed text is blank exactly when the original was all white space. */
  lemma TrimBlank(s: string)
    ensures Trim(s) == [] <==> forall i :: 0 <= i < |s| ==> IsSpace(s[i])
  {
  }

  predicate StartsWith(s: string, p: string)
  {
    |p| <= |s| && s[..|p|] == p
  }

  predicate EndsWith(s: string, p: string)
  {
    |p| <= |s| && s[|s| - |p|..] == p
  }

  /** `String.prototype.includes`. */
  predicate Contains(s: string, sub: string)
    decreases |s|
  {
    StartsWith(s, sub) || (|s| > 0 && Contains(s[1..], sub))
  }

  /** `Contains` finds exactly the occurrences of `sub` at some offset of `s`. */
  lemma {:induction false} ContainsAt(s: string, sub: string, k: nat)
    requires k + |sub| <= |s| && s[k..k + |sub|] == sub
    ensures Contains(s, sub)
    decreases k
  {
    if k > 0 {
      assert s[1..][k - 1..k - 1 + |sub|] == sub;
      ContainsAt(s[1..], sub, k - 1);
    }
  }

  /** `s.replace(c, '')` for a one-character pattern: drops the first occurrence. */
  function DropFirst(s: string, c: char): (r: string)
    ensures c !in s ==> r == s
    ensures |s| > 0 && s[0] == c ==> r == s[1..]
  {
    if s == [] then []
    else if s[0] == c then s[1..]
    else [s[0]] + DropFirst(s[1..], c)
  }

  // ------------------------------------------------------------------
  // Splitting on a delimiter class and dropping empty pieces
  // ------------------------------------------------------------------

  /**
   * The delimiter classes of the panel's list inputs: `[,. \s\n]` (bulk
   * transfer and ban list) and, with `star`, `[,*.\s\n]` (Lifafa special
   * users).
   */
  predicate IsDelim(c: char, star: bool)
  {
    c == ',' || c == '.' || IsSpace(c) || (star && c == '*')
  }

  predicate NoDelim(w: string, star: bool)
  {
    forall i :: 0 <= i < |w| ==> !IsDelim(w[i], star)
  }

  /** Length of the longest delimiter-free prefix of `s`. */
  function WordLength(s: string, star: bool): (n: nat)
    ensures n <= |s| && NoDelim(s[..n], star)
    ensures n < |s| ==> IsDelim(s[n], star)
    decreases |s|
  {
    if s == [] || IsDelim(s[0], star) then 0
    else
      var m := WordLength(s[1..], star);
      assert s[..1 + m] == [s[0]] + s[1..][..m];
      1 + m
  }

  /**
   * `s.split(/[delims]+/).filter(Boolean)`: the maximal runs of
   * non-delimiter characters, in order.
   */
  function Tokens(s: string, star: bool): (r: seq<string>)
    ensures forall k :: 0 <= k < |r| ==> r[k] != [] && NoDelim(r[k], star)
    decreases |s|
  {
    if s == [] then []
    else if IsDelim(s[0], star) then Tokens(s[1..], star)
    else
      var n := WordLength(s, star);
      [s[..n]] + Tokens(s[n..], star)
  }

  /** The inverse direction: joining words with one delimiter. */
  function Join(ws: seq<string>, sep: char): string
  {
    if ws == [] then []
    else if |ws| == 1 then ws[0]
    else ws[0] + [sep] + Join(ws[1..], sep)
  }

  lemma {:induction false} WordLengthOfConcat(w: string, rest: string, star: bool)
    requires NoDelim(w, star)
    requires rest == [] || IsDelim(rest[0], star)
    ensures WordLength(w + rest, star) == |w|
    decreases |w|
  {
    if w != [] {
      assert (w + rest)[1..] == w[1..] + rest;
      WordLengthOfConcat(w[1..], rest, star);
    }
  }

  /** Splitting undoes joining: the pieces of `Join(ws, sep)` are `ws` again. */
  lemma {:induction false} TokensOfJoin(ws: seq<string>, sep: char, star: bool)
    requires IsDelim(sep, star)
    requires forall k :: 0 <= k < |ws| ==> ws[k] != [] && NoDelim(ws[k], star)
    ensures Tokens(Join(ws, sep), star) == ws
    decreases |ws|
  {
    if ws == [] {
    } else if |ws| == 1 {
      var w := ws[0];
      WordLengthOfConcat(w, [], star);
      assert w + [] == w;
      assert w[..|w|] == w && w[|w|..] == [];
    } else {
      var w := ws[0];
      var rest := [sep] + Join(ws[1..], sep);
      var s := Join(ws, sep);
      assert s == w + rest;
      WordLengthOfConcat(w, rest, star);
      assert s[..|w|] == w && s[|w|..] == rest;
      assert rest[1..] == Join(ws[1..], sep);
      TokensOfJoin(ws[1..], sep, star);
      assert Tokens(s, star) == [w] + Tokens(rest, star);
    }
  }

  // ------------------------------------------------------------------
  // Splitting on one character, keeping empty pieces
  // ------------------------------------------------------------------

  /** `s.split(c)` for a one-character separator: always at least one piece. */
  function Split(s: string, c: char): (r: seq<string>)
    ensures |r| >= 1
    ensures forall k :: 0 <= k < |r| ==> c !in r[k]
    decreases |s|
  {
    if s == [] then [[]]
    else
      var rest := Split(s[1..], c);
      if s[0] == c then [[]] + rest
      else [[s[0]] + rest[0]] + rest[1..]
  }

  /** A piece without the separator followed by the separator splits off as one piece. */
  lemma {:induction false} SplitOfPiece(w: string, c: char, rest: string)
    requires c !in w
    ensures Split(w + [c] + rest, c) == [w] + Split(rest, c)
    ensures Split(w, c) == [w]
    decreases |w|
  {
    if w == [] {
      assert w + [c] + rest == [c] + rest;
      assert ([c] + rest)[1..] == rest;
    } else {
      assert (w + [c] + rest)[0] == w[0] && (w + [c] + rest)[1..] == w[1..] + [c] + rest;
      SplitOfPiece(w[1..], c, rest);
      assert [w[0]] + w[1..] == w;
    }
  }

  /** Splitting undoes joining with the same separator. */
  lemma {:induction false} SplitOfJoin(ws: seq<string>, c: char)
    requires |ws| >= 1
    requires forall k :: 0 <= k < |ws| ==> c !in ws[k]
    ensures Split(Join(ws, c), c) == ws
    decreases |ws|
  {
    if |ws| == 1 {
      SplitOfPiece(ws[0], c, []);
    } else {
      SplitOfPiece(ws[0], c, Join(ws[1..], c));
      SplitOfJoin(ws[1..], c);
    }
  }

  // ------------------------------------------------------------------
  // `isNaN` on text: JavaScript's StringToNumber grammar
  // ------------------------------------------------------------------

  predicate IsHexDigit(c: char) { IsDigit(c) || 'a' <= c <= 'f' || 'A' <= c <= 'F' }

  predicate AllOf(s: string, radix: nat)
  {
    forall i :: 0 <= i < |s| ==>
      (if radix == 16 then IsHexDigit(s[i])
       else if radix == 8 then '0' <= s[i] <= '7'
       else if radix == 2 then s[i] == '0' || s[i] == '1'
       else IsDigit(s[i]))
  }

  /** `0x…`, `0o…`, `0b…` integer literals (no sign allowed). */
  predicate NonDecimalLiteral(t: string)
  {
    |t| > 2 && t[0] == '0' &&
    ((t[1] in "xX" && AllOf(t[2..], 16)) ||
     (t[1] in "oO" && AllOf(t[2..], 8)) ||
     (t[1] in "bB" && AllOf(t[2..], 2)))
  }

  /** Length of the leading run of decimal digits. */
  function DigitRun(s: string): (n: nat)
    ensures n <= |s| && AllDigits(s[..n])
    ensures n < |s| ==> !IsDigit(s[n])
    decreases |s|
  {
    if s == [] || !IsDigit(s[0]) then 0
    else
      var m := DigitRun(s[1..]);
      assert s[..1 + m] == [s[0]] + s[1..][..m];
      1 + m
  }

  /** `e5`, `E+5`, `e-12`. */
  predicate ExponentPart(e: string)
  {
    |e| >= 2 && e[0] in "eE" &&
    ((AllDigits(e[1..])) || (e[1] in "+-" && |e| >= 3 && AllDigits(e[2..])))
  }

  /** `Infinity`, `12`, `12.`, `12.5`, `.5`, each optionally followed by an exponent. */
  predicate UnsignedDecimalLiteral(t: string)
  {
    t == "Infinity" ||
    var ip := DigitRun(t);
    var hasPoint := ip < |t| && t[ip] == '.';
    var fp := if hasPoint then DigitRun(t[ip + 1..]) else 0;
    var m := if hasPoint then ip + 1 + fp else ip;
    ip + fp > 0 && (m == |t| || ExponentPart(t[m..]))
  }

  predicate DecimalLiteral(t: string)
  {
    if |t| > 0 && t[0] in "+-" then UnsignedDecimalLiteral(t[1..]) else UnsignedDecimalLiteral(t)
  }

  /**
   * `!isNaN(s)`: the trimmed text is empty (which converts to 0), a
   * decimal literal or a non-decimal integer literal.
   */
  predicate NumberLike(s: string)
  {
    var t := Trim(s);
    t == [] || NonDecimalLiteral(t) || DecimalLiteral(t)
  }

  /** `n.length === 10 && !isNaN(n)`: what the pages accept as a mobile number. */
  predicate MobileLike(m: string)
  {
    |m| == 10 && NumberLike(m)
  }

  /** `Number(s)` before rounding to a double: not a number, a signed infinity, or ± digits × 10^exp. */
  datatype Num = NaN | Infinite(negative: bool) | Finite(negative: bool, digits: nat, exp: int)

  function HexValue(c: char): (d: nat)
    requires IsHexDigit(c)
    ensures d < 16
  {
    if IsDigit(c) then c as int - '0' as int
    else if 'a' <= c <= 'f' then c as int - 'a' as int + 10
    else c as int - 'A' as int + 10
  }

  /** The value of a run of digits in base 16, 8 or 2. */
  function RadixValue(s: string, radix: nat): nat
    requires radix in {16, 8, 2} && AllOf(s, radix)
  {
    if s == [] then 0 else RadixValue(s[..|s| - 1], radix) * radix + HexValue(s[|s| - 1])
  }

  /** The base a `0x`, `0o` or `0b` prefix names. */
  function RadixOf(c: char): nat
  {
    if c in "xX" then 16 else if c in "oO" then 8 else 2
  }

  /**
   * `Number(s)`: white space is trimmed, blank text is zero, a
   * `0x`/`0o`/`0b` literal is read in its base, and a decimal literal
   * (optionally signed, possibly `Infinity`) is read with its exponent;
   * everything else is NaN.
   */
  function NumberValue(s: string): Num
  {
    LiteralValue(Trim(s))
  }

  /** `Number` on trimmed text. */
  function LiteralValue(t: string): Num
  {
    if t == [] then Finite(false, 0, 0)
    else if NonDecimalLiteral(t) then Finite(false, RadixValue(t[2..], RadixOf(t[1])), 0)
    else if DecimalLiteral(t) then
      var u := Unsigned(t);
      if u == "Infinity" then Infinite(t[0] == '-')
      else
        var p := DecimalPrefix(u).value;
        Finite(t[0] == '-', p.0, p.1)
    else NaN
  }

  /** `isNaN(s)` is exactly `Number(s)` being NaN. */
  lemma NumberValueDefined(s: string)
    ensures NumberValue(s) != NaN <==> NumberLike(s)
  {
  }

  /** A `0x`, `0o` or `0b` literal is not a decimal literal. */
  lemma RadixNotDecimal(u: string)
    ensures NonDecimalLiteral(u) ==> !UnsignedDecimalLiteral(u)
  {
    if NonDecimalLiteral(u) {
      assert IsDigit(u[0]) && !IsDigit(u[1]) && u[1] != '.' && u[1] !in "eE";
      assert u[1..][0] == u[1];
      assert DigitRun(u) == 1;
      assert u != "Infinity";
    }
  }

  /** The whole number a number is, if it is a finite whole number. */
  function IntegerValue(n: Num): (r: Option<int>)
    ensures r.Some? <==> n.Finite? && (n.exp >= 0 || n.digits % Pow10(-n.exp) == 0)
  {
    match n
    case Finite(neg, d, e) =>
      if e < 0 && d % Pow10(-e) != 0 then None
      else
        var m: int := Shift(d, e);
        Some(if neg then -m else m)
    case _ => None
  }

  // ------------------------------------------------------------------
  // Numbers as text
  // ------------------------------------------------------------------

  function DigitChar(d: nat): (c: char)
    requires d < 10
    ensures IsDigit(c)
  {
    ('0' as int + d) as char
  }

  function DigitValue(c: char): (d: nat)
    requires IsDigit(c)
    ensures d < 10
  {
    c as int - '0' as int
  }

  /** The decimal text of a natural number, as JavaScript renders it. */
  function NatText(n: nat): (r: string)
    ensures |r| > 0 && AllDigits(r)
  {
    if n < 10 then [DigitChar(n)] else NatText(n / 10) + [DigitChar(n % 10)]
  }

  /** The value of a string of decimal digits. */
  function DigitsValue(s: string): nat
    requires AllDigits(s)
  {
    if s == [] then 0 else DigitsValue(s[..|s| - 1]) * 10 + DigitValue(s[|s| - 1])
  }

  /** Reading back the text of a number gives the number. */
  lemma {:induction false} NatTextValue(n: nat)
    ensures DigitsValue(NatText(n)) == n
  {
    if n >= 10 {
      NatTextValue(n / 10);
      var t := NatText(n);
      assert t[..|t| - 1] == NatText(n / 10);
    }
  }

  function Abs(p: int): nat { if p < 0 then -p else p }

  /** The decimal text of an integer. */
  function IntText(i: int): string
  {
    if i < 0 then "-" + NatText(-i) else NatText(i)
  }

  function Signed(neg: bool, u: string): string
  {
    if neg then "-" + u else u
  }

  /** The two fraction digits of `m` paise. */
  function CentDigits(m: nat): string
  {
    [DigitChar(m % 100 / 10), DigitChar(m % 10)]
  }

  /** `x.toFixed(2)` for an amount of `p` paise. */
  function Fixed2(p: int): string
  {
    Signed(p < 0, NatText(Abs(p) / 100) + "." + CentDigits(Abs(p)))
  }

  /** `String(x)` for an amount of `p` paise: no trailing zeros after the point. */
  function NumText(p: int): string
  {
    Signed(p < 0, ShortText(Abs(p)))
  }

  /** `String(x)` for a non-negative amount of `m` paise. */
  function ShortText(m: nat): string
  {
    if m % 100 == 0 then NatText(m / 100)
    else if m % 10 == 0 then NatText(m / 100) + "." + CentDigits(m)[..1]
    else NatText(m / 100) + "." + CentDigits(m)
  }

  /** The text of an amount is made of digits, a point and a minus sign only. */
  lemma NumTextChars(p: int)
    ensures forall k :: 0 <= k < |NumText(p)| ==> IsDigit(NumText(p)[k]) || NumText(p)[k] in ".-"
  {
    var m := Abs(p);
    var w := NatText(m / 100);
    var c := CentDigits(m);
    assert AllDigits(c);
    assert AllDigits(c[..1]);
  }

  /** The paise worth of the first two fraction digits. */
  function Cents(f: string): (c: nat)
    requires AllDigits(f)
    ensures c < 100
  {
    if |f| == 0 then 0
    else if |f| == 1 then 10 * DigitValue(f[0])
    else 10 * DigitValue(f[0]) + DigitValue(f[1])
  }

  /** Strips a leading `+` or `-`. */
  function Unsigned(t: string): string
  {
    if |t| > 0 && (t[0] == '-' || t[0] == '+') then t[1..] else t
  }

  /** `10^k`. */
  function Pow10(k: nat): (p: nat)
    ensures p >= 1
  {
    if k == 0 then 1 else 10 * Pow10(k - 1)
  }

  lemma {:induction false} Pow10Add(a: nat, b: nat)
    ensures Pow10(a + b) == Pow10(a) * Pow10(b)
  {
    if b > 0 {
      Pow10Add(a, b - 1);
      assert Pow10(a + b) == 10 * Pow10(a + b - 1);
    }
  }

  /** `d × 10^k`, cut off toward zero when `k` is negative. */
  function Shift(d: nat, k: int): nat
    decreases if k >= 0 then k else -k
  {
    if k == 0 then d
    else if k > 0 then 10 * Shift(d, k - 1)
    else Shift(d, k + 1) / 10
  }

  lemma {:induction false} ShiftUp(d: nat, k: nat)
    ensures Shift(d, k) == d * Pow10(k)
  {
    if k > 0 {
      ShiftUp(d, k - 1);
      var p := Pow10(k - 1);
      assert Shift(d, k) == 10 * (d * p);
      assert 10 * (d * p) == d * (10 * p);
    }
  }

  /**
   * The exponent `parseFloat` reads after a mantissa: `e` or `E`, an
   * optional sign and at least one digit. Any other text is no exponent.
   */
  function ExponentAt(r: string): int
  {
    if |r| < 2 || r[0] !in "eE" then 0
    else
      var body := if r[1] in "+-" then r[2..] else r[1..];
      var n := DigitRun(body);
      if n == 0 then 0
      else if r[1] == '-' then -(DigitsValue(body[..n]) as int)
      else DigitsValue(body[..n])
  }

  /**
   * The longest unsigned decimal number at the front of `u`: digits, an
   * optional point and fraction digits (at least one digit in all), then
   * an exponent when one follows. The result is the digits read as one
   * whole number and the power of ten that scales them.
   */
  function DecimalPrefix(u: string): Option<(nat, int)>
  {
    var ip := DigitRun(u);
    var hasPoint := ip < |u| && u[ip] == '.';
    var fp := if hasPoint then DigitRun(u[ip + 1..]) else 0;
    var frac := if hasPoint then u[ip + 1..][..fp] else "";
    var m := if hasPoint then ip + 1 + fp else ip;
    if ip + fp == 0 then None
    else Some((DigitsValue(u[..ip]) * Pow10(fp) + DigitsValue(frac), ExponentAt(u[m..]) - fp))
  }

  /**
   * `parseFloat(s)` in paise: leading white space, an optional sign and
   * the longest decimal number at the front, exponent included; further
   * text is ignored and a fraction of a paisa is cut off. `None` stands
   * for NaN.
   */
  function ParseAmount(s: string): Option<int>
  {
    var t := TrimStart(s);
    match UnsignedAmount(Unsigned(t))
    case None => None
    case Some(m) =>
      var v: int := m;
      Some(if |t| > 0 && t[0] == '-' then -v else v)
  }

  /** The unsigned part of `parseFloat`, in paise. */
  function UnsignedAmount(u: string): Option<nat>
  {
    match DecimalPrefix(u)
    case None => None
    case Some((d, e)) => Some(Shift(d, e + 2))
  }

  /** A `0x` or `0X` prefix, which makes `parseInt` without a radix read base 16. */
  predicate HexPrefixed(u: string)
  {
    |u| >= 2 && u[0] == '0' && u[1] in "xX"
  }

  /** Length of the leading run of hexadecimal digits. */
  function HexRun(s: string): (n: nat)
    ensures n <= |s| && AllOf(s[..n], 16)
    ensures n < |s| ==> !IsHexDigit(s[n])
    decreases |s|
  {
    if s == [] || !IsHexDigit(s[0]) then 0
    else
      var m := HexRun(s[1..]);
      assert s[..1 + m] == [s[0]] + s[1..][..m];
      1 + m
  }

  /**
   * `parseInt(s)` with no radix: leading white space, an optional sign,
   * then either `0x`/`0X` and the hexadecimal digits after it, or decimal
   * digits; reading stops at the first character that is not a digit of
   * the base, and no digit at all is NaN (`None`).
   */
  function ParseInteger(s: string): Option<int>
  {
    var t := TrimStart(s);
    var u := Unsigned(t);
    var negative := |t| > 0 && t[0] == '-';
    if HexPrefixed(u) then
      var h := u[2..];
      var n := HexRun(h);
      if n == 0 then None
      else
        var v: int := RadixValue(h[..n], 16);
        Some(if negative then -v else v)
    else
      var n := DigitRun(u);
      if n == 0 then None
      else
        var v: int := DigitsValue(u[..n]);
        Some(if negative then -v else v)
  }

  lemma {:induction false} DigitRunOfConcat(a: string, b: string)
    requires AllDigits(a)
    requires b == [] || !IsDigit(b[0])
    ensures DigitRun(a + b) == |a|
    decreases |a|
  {
    if a != [] {
      assert (a + b)[1..] == a[1..] + b;
      DigitRunOfConcat(a[1..], b);
    }
  }

  /** Digits with no point after them: the digits and the exponent that follows. */
  lemma {:induction false} PrefixOfWhole(u: string, w: string, rest: string)
    requires u == w + rest && |w| > 0 && AllDigits(w)
    requires rest == [] || (rest[0] != '.' && !IsDigit(rest[0]))
    ensures DecimalPrefix(u) == Some((DigitsValue(w), ExponentAt(rest)))
  {
    DigitRunOfConcat(w, rest);
    assert u[..|w|] == w && u[|w|..] == rest;
  }

  /** Where the runs of digits around the point start and end. */
  lemma {:induction false} FractionShape(u: string, w: string, frac: string, rest: string)
    requires u == w + "." + frac + rest
    requires AllDigits(w) && AllDigits(frac)
    requires rest == [] || !IsDigit(rest[0])
    ensures |w| < |u| && DigitRun(u) == |w| && u[|w|] == '.' && u[..|w|] == w
    ensures DigitRun(u[|w| + 1..]) == |frac| && u[|w| + 1..][..|frac|] == frac
    ensures u[|w| + 1 + |frac|..] == rest
  {
    DigitRunOfConcat(w, "." + frac + rest);
    assert u == w + ("." + frac + rest);
    assert u[..|w|] == w;
    var v := u[|w| + 1..];
    assert v == frac + rest;
    DigitRunOfConcat(frac, rest);
    assert v[..|frac|] == frac;
    assert u[|w| + 1 + |frac|..] == rest;
  }

  /** Digits, a point and fraction digits: all the digits, scaled down by the fraction's length. */
  lemma {:induction false} PrefixOfFraction(u: string, w: string, frac: string, rest: string, d: nat, e: int)
    requires u == w + "." + frac + rest
    requires AllDigits(w) && AllDigits(frac) && |w| + |frac| > 0
    requires rest == [] || !IsDigit(rest[0])
    requires d == DigitsValue(w) * Pow10(|frac|) + DigitsValue(frac) && e == ExponentAt(rest) - |frac|
    ensures DecimalPrefix(u) == Some((d, e))
  {
    FractionShape(u, w, frac, rest);
    var ip, fp := |w|, |frac|;
    PointedValue(u, ip, fp);
    assert DecimalPrefix(u).value.0 == d by {
      assert u[..ip] == w && u[ip + 1..][..fp] == frac;
    }
    assert DecimalPrefix(u).value.1 == e by {
      assert ExponentAt(u[ip + 1 + fp..]) == ExponentAt(rest);
    }
  }

  /** The digits on both sides of the point, read as one number. */
  lemma PointedValue(u: string, ip: nat, fp: nat)
    requires ip < |u| && DigitRun(u) == ip && u[ip] == '.' && DigitRun(u[ip + 1..]) == fp && ip + fp > 0
    ensures DecimalPrefix(u).Some?
    ensures DecimalPrefix(u).value.0 == DigitsValue(u[..ip]) * Pow10(fp) + DigitsValue(u[ip + 1..][..fp])
  {
  }

  /** Digits, a point, fraction digits and an optional exponent make a decimal literal. */
  lemma {:induction false} FractionIsDecimal(u: string, w: string, frac: string, rest: string)
    requires u == w + "." + frac + rest
    requires AllDigits(w) && AllDigits(frac) && |w| + |frac| > 0
    requires rest == [] || ExponentPart(rest)
    ensures UnsignedDecimalLiteral(u)
  {
    FractionShape(u, w, frac, rest);
    assert u != "Infinity" by {
      if |w| > 0 { assert IsDigit(u[0]); } else { assert u[0] == '.'; }
    }
  }

  /** Whole rupees without a fraction. */
  lemma UnsignedAmountOfWhole(n: nat)
    ensures UnsignedAmount(NatText(n)) == Some(n * 100)
  {
    var w := NatText(n);
    assert w + [] == w;
    PrefixOfWhole(w, w, []);
    NatTextValue(n);
    ShiftUp(n, 2);
    assert Pow10(2) == 100;
  }

  /** The paise worth of one or two fraction digits, as the digits scaled to two places. */
  lemma CentsOfDigits(frac: string)
    requires AllDigits(frac) && 0 < |frac| <= 2
    ensures DigitsValue(frac) * Pow10(2 - |frac|) == Cents(frac)
  {
    assert frac[..|frac| - 1][..0] == [];
    if |frac| == 2 {
      assert frac[..1][..0] == [] && frac[..1][0] == frac[0];
      assert DigitsValue(frac[..1]) == DigitValue(frac[0]);
    }
  }

  /** Whole rupees, a point and one or two fraction digits. */
  lemma UnsignedAmountOfFraction(n: nat, frac: string, paise: nat)
    requires AllDigits(frac) && 0 < |frac| <= 2 && paise == n * 100 + Cents(frac)
    ensures UnsignedAmount(NatText(n) + "." + frac) == Some(paise)
  {
    var w := NatText(n);
    var u := w + "." + frac;
    var k := |frac|;
    var d: nat := Shift(n, k) + DigitsValue(frac);
    assert u == w + "." + frac + [];
    NatTextValue(n);
    ShiftUp(n, k);
    PrefixOfFraction(u, w, frac, [], d, -k);
    UnsignedAmountOfPrefix(u, d, -k);
    FractionCents(n, frac, d);
  }

  /** The digits of rupees and fraction, scaled to two places, are the paise. */
  lemma FractionCents(n: nat, frac: string, d: nat)
    requires AllDigits(frac) && 0 < |frac| <= 2 && d == Shift(n, |frac|) + DigitsValue(frac)
    ensures Shift(d, 2 - |frac|) == n * 100 + Cents(frac)
  {
    CentsOfDigits(frac);
    if |frac| == 1 {
      assert Pow10(1) == 10 && Shift(n, 1) == 10 * n && Shift(d, 1) == 10 * d;
    } else {
      assert Pow10(0) == 1 && Shift(n, 2) == 100 * n && Shift(d, 0) == d;
    }
  }

  /** Digits read with an exponent: the value in paise, cut off below a paisa. */
  lemma UnsignedAmountOfPrefix(u: string, d: nat, e: int)
    requires DecimalPrefix(u) == Some((d, e))
    ensures UnsignedAmount(u) == Some(Shift(d, e + 2))
  {
  }

  /** `e` and digits: the exponent is their value. */
  lemma ExponentOfDigits(x: string)
    requires |x| > 0 && AllDigits(x)
    ensures ExponentAt("e" + x) == DigitsValue(x)
  {
    var r := "e" + x;
    assert r[1] == x[0] && r[1..] == x;
    DigitRunOfConcat(x, []);
    assert x + [] == x && x[..|x|] == x;
  }

  /** Whole rupees with an exponent: `parseFloat("5e3")` is 5000 rupees, 5 × 10^5 paise. */
  lemma UnsignedAmountOfExponent(n: nat, k: nat, paise: nat)
    requires paise == n * Pow10(k + 2)
    ensures UnsignedAmount(NatText(n) + "e" + NatText(k)) == Some(paise)
  {
    var u := NatText(n) + ("e" + NatText(k));
    assert NatText(n) + "e" + NatText(k) == u;
    ExponentTextPrefix(n, k);
    assert UnsignedAmount(u) == Some(Shift(n, k + 2));
    ShiftUp(n, k + 2);
  }

  lemma ExponentTextPrefix(n: nat, k: nat)
    ensures DecimalPrefix(NatText(n) + ("e" + NatText(k))) == Some((n, k as int))
  {
    var w := NatText(n);
    var x := NatText(k);
    PrefixOfWhole(w + ("e" + x), w, "e" + x);
    NatTextValue(n);
    NatTextValue(k);
    ExponentOfDigits(x);
  }

  /** A text starting with a digit is read as its unsigned value, negated after a minus sign. */
  lemma AmountOfSigned(neg: bool, u: string, m: nat)
    requires |u| > 0 && IsDigit(u[0]) && UnsignedAmount(u) == Some(m)
    ensures ParseAmount(Signed(neg, u)) == Some(if neg then -(m as int) else m)
  {
    var s := Signed(neg, u);
    if neg {
      assert s[0] == '-' && s[1..] == u;
    } else {
      assert s[0] == u[0] && !(s[0] == '-' || s[0] == '+');
    }
    assert !IsSpace(s[0]);
    assert TrimStart(s) == s;
    assert Unsigned(s) == u;
  }

  lemma CentDigitsValue(m: nat)
    ensures AllDigits(CentDigits(m)) && Cents(CentDigits(m)) == m % 100
    ensures m % 10 == 0 ==> Cents(CentDigits(m)[..1]) == m % 100
  {
    var t := m % 100;
    var a, b := t / 10, t % 10;
    assert m == 100 * (m / 100) + t;
    assert m == 10 * (10 * (m / 100) + a) + b;
    assert m % 10 == b;
    DigitOfChar(a);
    DigitOfChar(b);
    var c := CentDigits(m);
    assert c[0] == DigitChar(a) && c[1] == DigitChar(b);
    assert Cents(c) == 10 * a + b == t;
    assert c[..1] == [DigitChar(a)];
  }

  lemma DigitOfChar(d: nat)
    requires d < 10
    ensures DigitValue(DigitChar(d)) == d
  {
  }

  /** `parseFloat(x.toFixed(2))` gives back `x`. */
  lemma AmountOfFixed2(p: int)
    ensures ParseAmount(Fixed2(p)) == Some(p)
  {
    var m := Abs(p);
    var w := NatText(m / 100);
    var u := w + "." + CentDigits(m);
    assert u[0] == w[0];
    assert UnsignedAmount(u) == Some(m) by {
      CentDigitsValue(m);
      UnsignedAmountOfFraction(m / 100, CentDigits(m), m);
    }
    AmountOfSigned(p < 0, u, m);
  }

  lemma UnsignedAmountOfShortText(m: nat)
    ensures |ShortText(m)| > 0 && IsDigit(ShortText(m)[0])
    ensures UnsignedAmount(ShortText(m)) == Some(m)
  {
    var w := NatText(m / 100);
    if m % 100 == 0 {
      assert ShortText(m) == w;
      UnsignedAmountOfWhole(m / 100);
      assert m / 100 * 100 == m;
    } else {
      ShortTextOfFraction(m);
    }
  }

  lemma ShortTextOfFraction(m: nat)
    requires m % 100 != 0
    ensures UnsignedAmount(ShortText(m)) == Some(m)
  {
    var w := NatText(m / 100);
    CentDigitsValue(m);
    var f := if m % 10 == 0 then CentDigits(m)[..1] else CentDigits(m);
    assert ShortText(m) == w + "." + f;
    assert AllDigits(f) && Cents(f) == m % 100;
    UnsignedAmountOfFraction(m / 100, f, m);
  }

  /** `parseFloat(String(x))` gives back `x`. */
  lemma AmountOfNumText(p: int)
    ensures ParseAmount(NumText(p)) == Some(p)
  {
    UnsignedAmountOfShortText(Abs(p));
    AmountOfSigned(p < 0, ShortText(Abs(p)), Abs(p));
  }

  /** `parseInt` reads the number at the front of a text and stops at the first non-digit. */
  lemma IntegerOfNatTextThen(n: nat, rest: string)
    requires rest == [] || (!IsDigit(rest[0]) && rest[0] !in "xX")
    ensures ParseInteger(NatText(n) + rest) == Some(n)
  {
    var w := NatText(n);
    var s := w + rest;
    assert s[0] == w[0];
    assert !HexPrefixed(s) by {
      if |w| >= 2 { assert s[1] == w[1]; } else if |s| >= 2 { assert s[1] == rest[0]; }
    }
    IntegerOfDigits(s);
    DigitRunOfConcat(w, rest);
    assert s[..|w|] == w;
    NatTextValue(n);
  }

  lemma IntegerOfDigits(s: string)
    requires |s| > 0 && IsDigit(s[0]) && !HexPrefixed(s)
    ensures ParseInteger(s) == Some(DigitsValue(s[..DigitRun(s)]))
  {
    assert !IsSpace(s[0]);
    assert TrimStart(s) == s;
    assert Unsigned(s) == s;
  }

  /** A whole run of hexadecimal digits is its own leading run. */
  lemma {:induction false} HexRunOfAll(h: string)
    requires AllOf(h, 16)
    ensures HexRun(h) == |h|
    decreases |h|
  {
    if h != [] {
      assert AllOf(h[1..], 16) by { assert forall i :: 0 <= i < |h| - 1 ==> h[1..][i] == h[i + 1]; }
      HexRunOfAll(h[1..]);
    }
  }

  /** `parseInt("0x" + h)` reads the hexadecimal digits `h` in base 16. */
  lemma IntegerOfHex(h: string)
    requires |h| > 0 && AllOf(h, 16)
    ensures ParseInteger("0x" + h) == Some(RadixValue(h, 16))
  {
    var s := "0x" + h;
    assert !IsSpace(s[0]);
    assert TrimStart(s) == s;
    assert Unsigned(s) == s;
    assert HexPrefixed(s);
    assert s[2..] == h;
    HexRunOfAll(h);
    assert h[..|h|] == h;
  }




  /** `parseInt(String(n))` gives back `n`. */
  lemma IntegerOfNatText(n: nat)
    ensures ParseInteger(NatText(n)) == Some(n)
  {
    IntegerOfNatTextThen(n, []);
    assert NatText(n) + [] == NatText(n);
  }

  // ------------------------------------------------------------------
  // Sequences
  // ------------------------------------------------------------------

  /** `xs.filter(keep)`: the elements that pass, in their order and as often as they occur. */
  function Filter<T(!new)>(xs: seq<T>, keep: T -> bool): (r: seq<T>)
    ensures |r| <= |xs|
    ensures forall x :: x in r <==> x in xs && keep(x)
  {
    if xs == [] then [] else (if keep(xs[0]) then [xs[0]] else []) + Filter(xs[1..], keep)
  }

  /** Two tests that agree everywhere keep the same elements. */
  lemma {:induction false} FilterExt<T(!new)>(xs: seq<T>, p: T -> bool, q: T -> bool)
    requires forall x :: p(x) == q(x)
    ensures Filter(xs, p) == Filter(xs, q)
  {
    if xs != [] {
      FilterExt(xs[1..], p, q);
    }
  }

  /** A test every element passes keeps the whole list. */
  lemma {:induction false} FilterKeepsAll<T(!new)>(xs: seq<T>, p: T -> bool)
    requires forall x :: p(x)
    ensures Filter(xs, p) == xs
  {
    if xs != [] {
      FilterKeepsAll(xs[1..], p);
      assert xs == [xs[0]] + xs[1..];
    }
  }

  /** Filtering by `p` and then by `q` is filtering once by both. */
  lemma {:induction false} FilterOfFilter<T(!new)>(xs: seq<T>, p: T -> bool, q: T -> bool, pq: T -> bool)
    requires forall x :: pq(x) == (p(x) && q(x))
    ensures Filter(Filter(xs, p), q) == Filter(xs, pq)
  {
    if xs != [] {
      FilterOfFilter(xs[1..], p, q, pq);
      var head := if p(xs[0]) then [xs[0]] else [];
      FilterOfHead(head, Filter(xs[1..], p), q);
    }
  }

  lemma FilterOfHead<T(!new)>(head: seq<T>, rest: seq<T>, q: T -> bool)
    requires |head| <= 1
    ensures Filter(head + rest, q) == Filter(head, q) + Filter(rest, q)
  {
    if head != [] {
      assert (head + rest)[1..] == rest;
      assert head[1..] == [];
    } else {
      assert head + rest == rest;
    }
  }

  predicate NoDup<T(==)>(s: seq<T>)
  {
    forall i, j :: 0 <= i < j < |s| ==> s[i] != s[j]
  }

  /**
   * Appending each element of `xs` that is not yet present, in order:
   * both `forEach(n => { if (!list.includes(n)) list.push(n) })` and,
   * from an empty start, `Array.from(new Set(xs))`.
   */
  function AddMissing<T(==)>(acc: seq<T>, xs: seq<T>): seq<T>
    decreases |xs|
  {
    if xs == [] then acc
    else AddMissing(if xs[0] in acc then acc else acc + [xs[0]], xs[1..])
  }

  /** `Array.from(new Set(xs))`: first occurrences, in order. */
  function Dedup<T(==)>(xs: seq<T>): seq<T>
  {
    AddMissing([], xs)
  }

  lemma {:induction false} AddMissingProps<T>(acc: seq<T>, xs: seq<T>)
    ensures var r := AddMissing(acc, xs);
            |acc| <= |r| && r[..|acc|] == acc &&
            (forall x :: x in r <==> x in acc || x in xs) &&
            (NoDup(acc) ==> NoDup(r))
    decreases |xs|
  {
    if xs != [] {
      var acc' := if xs[0] in acc then acc else acc + [xs[0]];
      AddMissingProps(acc', xs[1..]);
      var r := AddMissing(acc, xs);
      assert r[..|acc|] == r[..|acc'|][..|acc|];
      assert forall x :: x in xs <==> x == xs[0] || x in xs[1..];
    }
  }

  /** Adding elements that are all present already changes nothing. */
  lemma {:induction false} AddMissingPresent<T>(acc: seq<T>, xs: seq<T>)
    requires forall x :: x in xs ==> x in acc
    ensures AddMissing(acc, xs) == acc
    decreases |xs|
  {
    if xs != [] {
      assert xs[0] in acc;
      AddMissingPresent(acc, xs[1..]);
    }
  }

  /** Adding the same batch twice is the same as adding it once. */
  lemma AddMissingIdempotent<T>(acc: seq<T>, xs: seq<T>)
    ensures AddMissing(AddMissing(acc, xs), xs) == AddMissing(acc, xs)
  {
    AddMissingProps(acc, xs);
    AddMissingPresent(AddMissing(acc, xs), xs);
  }

  /** Deduplication keeps every value once and nothing else. */
  lemma DedupProps<T>(xs: seq<T>)
    ensures NoDup(Dedup(xs))
    ensures forall x :: x in Dedup(xs) <==> x in xs
    ensures |Dedup(xs)| <= |xs|
  {
    AddMissingProps([], xs);
    DedupLength(xs, []);
  }

  lemma {:induction false} DedupLength<T>(xs: seq<T>, acc: seq<T>)
    ensures |AddMissing(acc, xs)| <= |acc| + |xs|
    decreases |xs|
  {
    if xs != [] {
      DedupLength(xs[1..], if xs[0] in acc then acc else acc + [xs[0]]);
    }
  }

  /** A list without repetitions is left as it is by deduplication. */
  lemma {:induction false} DedupOfNoDup<T>(xs: seq<T>, acc: seq<T>)
    requires NoDup(acc + xs)
    ensures AddMissing(acc, xs) == acc + xs
    decreases |xs|
  {
    if xs != [] {
      forall i | 0 <= i < |acc|
        ensures acc[i] != xs[0]
      {
        assert (acc + xs)[i] == acc[i] && (acc + xs)[|acc|] == xs[0];
      }
      assert acc + xs == (acc + [xs[0]]) + xs[1..];
      DedupOfNoDup(xs[1..], acc + [xs[0]]);
    }
  }

  /** `list.filter(n => n !== x)`. */
  function RemoveAll<T(==,!new)>(s: seq<T>, x: T): (r: seq<T>)
    ensures forall y :: y in r <==> y in s && y != x
    ensures |r| <= |s|
  {
    if s == [] then []
    else if s[0] == x then RemoveAll(s[1..], x)
    else [s[0]] + RemoveAll(s[1..], x)
  }

  /** The filter works piecewise, so the kept entries keep their order. */
  lemma {:induction false} RemoveAllOfConcat<T(!new)>(a: seq<T>, b: seq<T>, x: T)
    ensures RemoveAll(a + b, x) == RemoveAll(a, x) + RemoveAll(b, x)
    decreases |a|
  {
    if a != [] {
      assert (a + b)[0] == a[0] && (a + b)[1..] == a[1..] + b;
      RemoveAllOfConcat(a[1..], b, x);
      if a[0] != x {
        assert RemoveAll(a + b, x) == [a[0]] + (RemoveAll(a[1..], x) + RemoveAll(b, x));
      }
    } else {
      assert a + b == b;
    }
  }

  /** Removing a value that is absent changes nothing. */
  lemma {:induction false} RemoveAllAbsent<T(!new)>(s: seq<T>, x: T)
    requires x !in s
    ensures RemoveAll(s, x) == s
    decreases |s|
  {
    if s != [] {
      assert s[0] != x;
      RemoveAllAbsent(s[1..], x);
    }
  }

  /** Removing from a list without repetitions keeps it without repetitions. */
  lemma {:induction false} RemoveAllNoDup<T(!new)>(s: seq<T>, x: T)
    requires NoDup(s)
    ensures NoDup(RemoveAll(s, x))
    decreases |s|
  {
    if s != [] {
      assert NoDup(s[1..]) by {
        forall i, j | 0 <= i < j < |s[1..]| ensures s[1..][i] != s[1..][j] {
          assert s[1..][i] == s[i + 1] && s[1..][j] == s[j + 1];
        }
      }
      RemoveAllNoDup(s[1..], x);
      if s[0] != x {
        var t := RemoveAll(s[1..], x);
        assert s[0] !in s[1..] by {
          forall k | 0 <= k < |s[1..]| ensures s[1..][k] != s[0] {
            assert s[1..][k] == s[k + 1];
          }
        }
        assert s[0] !in t;
        forall i, j | 0 <= i < j < |[s[0]] + t| ensures ([s[0]] + t)[i] != ([s[0]] + t)[j] {
          if i == 0 {
            assert ([s[0]] + t)[j] == t[j - 1];
          } else {
            assert ([s[0]] + t)[i] == t[i - 1] && ([s[0]] + t)[j] == t[j - 1];
          }
        }
      }
    }
  }

  /** `list.splice(i, 1)`. */
  function RemoveAt<T>(s: seq<T>, i: nat): (r: seq<T>)
    requires i < |s|
    ensures |r| == |s| - 1
    ensures forall k :: 0 <= k < i ==> r[k] == s[k]
    ensures forall k :: i <= k < |r| ==> r[k] == s[k + 1]
  {
    s[..i] + s[i + 1..]
  }

  /** `[...s].reverse()`. */
  function Reverse<T>(s: seq<T>): (r: seq<T>)
    ensures |r| == |s|
    ensures forall k :: 0 <= k < |s| ==> r[k] == s[|s| - 1 - k]
  {
    if s == [] then [] else Reverse(s[1..]) + [s[0]]
  }
}
