/** The part of JavaScript's built-in behaviour that the player, the video embed
    and the music-sheet handlers rely on: numbers that may be NaN, truthiness,
    the `%` operator, `String.prototype.split` with a one-character separator and
    `parseInt(s, 10)`. Numbers are modelled as unbounded integers; the rounding
    of doubles beyond 2^53 is not modelled. */
module JsRuntime {

  /** A JavaScript number as these components produce it: an integer or NaN.
      Negative zero is folded into Int(0); both are falsy. */
  datatype Number = Int(v: int) | NaN

  /** `if (n)` and `n || d`: NaN and zero are falsy, any other number is truthy. */
  predicate Truthy(n: Number) {
    n.Int? && n.v != 0
  }

  function Abs(x: int): nat {
    if x < 0 then -x else x
  }

  /** `a % n` on integral numbers. JavaScript's remainder takes the sign of the
      dividend (division truncates toward zero), unlike Dafny's Euclidean `%`,
      and `a % 0` is NaN. */
  function Rem(a: int, n: int): (r: Number)
    ensures r.NaN? <==> n == 0
    ensures r.Int? ==> Abs(r.v) < Abs(n)
    ensures r.Int? ==> (a >= 0 ==> r.v >= 0) && (a <= 0 ==> r.v <= 0)
    ensures r.Int? ==> (a - r.v) % Abs(n) == 0
  {
    if n == 0 then NaN
    else
      var m := Abs(n);
      if a >= 0 then
        RemDivides(a, m);
        Int(a % m)
      else
        var b := -a;
        var rb := b % m;
        RemDivides(b, m);
        assert a - (-rb) == -(b - rb);
        assert (a - (-rb)) % m == 0;
        Int(-rb)
  }

  /** The Euclidean remainder leaves a multiple of the divisor behind. */
  lemma RemDivides(a: nat, m: nat)
    requires m > 0
    ensures (a - a % m) % m == 0 && (-(a - a % m)) % m == 0
  {
    var q := a / m;
    assert a - a % m == q * m;
    MultipleMod(q, m);
    MultipleMod(-q, m);
    assert -(q * m) == (-q) * m;
  }

  lemma MultipleMod(q: int, m: nat)
    requires m > 0
    ensures (q * m) % m == 0
  {
    var x := q * m;
    var k := q - x / m;
    assert m * k == x % m;
    if k >= 1 {
      assert m * k == m * (k - 1) + m;
    } else if k <= -1 {
      assert m * k == m * (k + 1) - m;
    }
  }

  // ---------------------------------------------------------------------------
  // String.prototype.split with a one-character separator

  /** `s.split(sep)`: the maximal separator-free pieces of `s`, in order. An empty
      string splits into one empty piece, and every separator starts a new piece. */
  function Split(s: string, sep: char): (parts: seq<string>)
    ensures |parts| >= 1
    ensures forall i :: 0 <= i < |parts| ==> sep !in parts[i]
  {
    if s == [] then [[]]
    else
      var rest := Split(s[1..], sep);
      if s[0] == sep then [[]] + rest
      else [[s[0]] + rest[0]] + rest[1..]
  }

  /** `parts.join(sep)`. */
  function Join(parts: seq<string>, sep: char): string
    requires |parts| >= 1
  {
    if |parts| == 1 then parts[0] else parts[0] + [sep] + Join(parts[1..], sep)
  }

  /** Joining the pieces again with the separator gives back the original string. */
  lemma {:induction false} JoinSplit(s: string, sep: char)
    ensures Join(Split(s, sep), sep) == s
  {
    if s != [] {
      var rest := Split(s[1..], sep);
      JoinSplit(s[1..], sep);
      if s[0] == sep {
        assert ([[]] + rest)[1..] == rest;
      } else if |rest| > 1 {
        assert ([[s[0]] + rest[0]] + rest[1..])[1..] == rest[1..];
      }
    }
  }

  /** A string without the separator is a single piece. */
  lemma {:induction false} SplitWithoutSeparator(s: string, sep: char)
    requires sep !in s
    ensures Split(s, sep) == [s]
  {
    if s != [] {
      assert sep !in s[1..];
      SplitWithoutSeparator(s[1..], sep);
      assert Split(s, sep) == [[s[0]] + s[1..]];
      assert [s[0]] + s[1..] == s;
    }
  }

  /** A separator-free prefix followed by the separator is the first piece. */
  lemma {:induction false} SplitAfterPiece(x: string, sep: char, y: string)
    requires sep !in x
    ensures Split(x + [sep] + y, sep) == [x] + Split(y, sep)
  {
    var s := x + [sep] + y;
    if x == [] {
      assert s[1..] == y;
    } else {
      assert s[1..] == x[1..] + [sep] + y;
      assert sep !in x[1..];
      SplitAfterPiece(x[1..], sep, y);
      assert [x[0]] + x[1..] == x;
    }
  }

  /** Splitting a join of separator-free pieces gives back the pieces. */
  lemma {:induction false} SplitJoin(parts: seq<string>, sep: char)
    requires |parts| >= 1
    requires forall i :: 0 <= i < |parts| ==> sep !in parts[i]
    ensures Split(Join(parts, sep), sep) == parts
  {
    if |parts| == 1 {
      SplitWithoutSeparator(parts[0], sep);
    } else {
      SplitJoin(parts[1..], sep);
      SplitAfterPiece(parts[0], sep, Join(parts[1..], sep));
      assert [parts[0]] + parts[1..] == parts;
    }
  }

  // ---------------------------------------------------------------------------
  // parseInt(s, 10)

  /** The code points that `parseInt` strips from the front of its argument:
      ECMAScript's WhiteSpace (tab, vertical tab, form feed, the byte order mark
      and every space separator) and LineTerminator (line feed, carriage return,
      line and paragraph separators) characters. */
  predicate IsWhiteSpace(c: char) {
    ('\t' <= c <= '\r') || c == ' ' || c == '\U{00A0}' || c == '\U{1680}' ||
    ('\U{2000}' <= c <= '\U{200A}') || c == '\U{2028}' || c == '\U{2029}' ||
    c == '\U{202F}' || c == '\U{205F}' || c == '\U{3000}' || c == '\U{FEFF}'
  }

  predicate IsDecimalDigit(c: char) {
    '0' <= c <= '9'
  }

  predicate AllDigits(d: string) {
    forall i :: 0 <= i < |d| ==> IsDecimalDigit(d[i])
  }

  function DigitValue(c: char): nat
    requires IsDecimalDigit(c)
  {
    (c as int) - ('0' as int)
  }

  function DigitChar(n: nat): (c: char)
    requires n < 10
    ensures IsDecimalDigit(c) && DigitValue(c) == n
  {
    ('0' as int + n) as char
  }

  /** The length of the longest all-white-space prefix. */
  function LeadingWhiteSpace(s: string): (n: nat)
    ensures n <= |s|
    ensures forall i :: 0 <= i < n ==> IsWhiteSpace(s[i])
    ensures n == |s| || !IsWhiteSpace(s[n])
  {
    if s != [] && IsWhiteSpace(s[0]) then
      var n := 1 + LeadingWhiteSpace(s[1..]);
      assert forall i :: 0 < i < n ==> s[i] == s[1..][i - 1];
      n
    else 0
  }

  /** Removes the leading white space: the result is the suffix left after the
      longest all-white-space prefix. */
  function TrimStart(s: string): (t: string)
    ensures |t| <= |s| && t == s[|s| - |t|..]
    ensures AllWhiteSpace(s[..|s| - |t|])
    ensures t == [] || !IsWhiteSpace(t[0])
  {
    var n := LeadingWhiteSpace(s);
    assert forall i :: 0 <= i < n ==> s[..n][i] == s[i];
    s[n..]
  }

  predicate AllWhiteSpace(ws: string) {
    forall i :: 0 <= i < |ws| ==> IsWhiteSpace(ws[i])
  }

  /** The longest prefix of decimal digits. */
  function DigitPrefix(s: string): (d: string)
    ensures |d| <= |s| && d == s[..|d|]
    ensures AllDigits(d)
    ensures |d| == |s| || !IsDecimalDigit(s[|d|])
  {
    if s != [] && IsDecimalDigit(s[0]) then [s[0]] + DigitPrefix(s[1..]) else []
  }

  /** The value of a string of decimal digits, most significant first. */
  function DecimalValue(d: string): nat
    requires AllDigits(d)
  {
    if d == [] then 0 else 10 * DecimalValue(d[..|d| - 1]) + DigitValue(d[|d| - 1])
  }

  /** `parseInt(s, 10)`: skip leading white space, take one optional sign, read
      the longest run of decimal digits; NaN when that run is empty. */
  function ParseInt(s: string): Number {
    var t := TrimStart(s);
    var digits := DigitPrefix(StripSign(t));
    if digits == [] then NaN
    else if IsNegative(t) then Int(0 - DecimalValue(digits))
    else Int(DecimalValue(digits))
  }

  predicate IsNegative(t: string) {
    t != [] && t[0] == '-'
  }

  /** Drops one leading `+` or `-`. */
  function StripSign(t: string): string {
    if t != [] && (t[0] == '-' || t[0] == '+') then t[1..] else t
  }

  /** The decimal digits of a natural number, without leading zeros. */
  function NatToDecimal(n: nat): (d: string)
    ensures d != [] && AllDigits(d)
  {
    if n < 10 then [DigitChar(n)] else NatToDecimal(n / 10) + [DigitChar(n % 10)]
  }

  /** `String(n)` for an integral number. */
  function IntToDecimal(n: int): string {
    if n < 0 then "-" + NatToDecimal(-n) else NatToDecimal(n)
  }

  lemma {:induction false} DecimalValueOfNatToDecimal(n: nat)
    ensures DecimalValue(NatToDecimal(n)) == n
  {
    var d := NatToDecimal(n);
    if n >= 10 {
      DecimalValueOfNatToDecimal(n / 10);
      assert d[..|d| - 1] == NatToDecimal(n / 10);
    }
  }

  /** Round trip: `parseInt` reads back every integer that `String` writes. */
  lemma ParseIntOfDecimal(n: int)
    ensures ParseInt(IntToDecimal(n)) == Int(n)
  {
    var m := Abs(n);
    var d := NatToDecimal(m);
    DecimalValueOfNatToDecimal(m);
    DigitPrefixOfDigits(d);
    var s := IntToDecimal(n);
    assert s[0] == '-' || IsDecimalDigit(s[0]);
    assert !IsWhiteSpace(s[0]);
    TrimStartUnchanged(s);
    if n < 0 {
      assert StripSign(s) == d;
    } else {
      assert StripSign(s) == d;
    }
  }

  /** A string that does not start with white space is not trimmed. */
  lemma TrimStartUnchanged(s: string)
    requires s == [] || !IsWhiteSpace(s[0])
    ensures TrimStart(s) == s
  {
  }

  /** The digit prefix of a string of digits is the whole string. */
  lemma DigitPrefixOfDigits(d: string)
    requires AllDigits(d)
    ensures DigitPrefix(d) == d
  {
  }

  /** Leading white space does not change what `parseInt` reads. */
  lemma {:induction false} ParseIntSkipsWhiteSpace(ws: string, s: string)
    requires AllWhiteSpace(ws)
    ensures ParseInt(ws + s) == ParseInt(s)
  {
    TrimStartSkips(ws, s);
  }

  lemma {:induction false} TrimStartSkips(ws: string, s: string)
    requires AllWhiteSpace(ws)
    ensures TrimStart(ws + s) == TrimStart(s)
  {
    LeadingWhiteSpaceSkips(ws, s);
    assert (ws + s)[|ws| + LeadingWhiteSpace(s)..] == s[LeadingWhiteSpace(s)..];
  }

  lemma {:induction false} LeadingWhiteSpaceSkips(ws: string, s: string)
    requires AllWhiteSpace(ws)
    ensures LeadingWhiteSpace(ws + s) == |ws| + LeadingWhiteSpace(s)
  {
    if ws != [] {
      assert (ws + s)[0] == ws[0];
      assert (ws + s)[1..] == ws[1..] + s;
      assert AllWhiteSpace(ws[1..]);
      LeadingWhiteSpaceSkips(ws[1..], s);
    } else {
      assert ws + s == s;
    }
  }

  /** Reading stops at the first character that is not a decimal digit: a digit
      run followed by anything that does not start with a digit reads as the
      digit run alone. */
  lemma ParseIntStopsAtNonDigit(digits: string, rest: string)
    requires digits != [] && AllDigits(digits)
    requires rest == [] || !IsDecimalDigit(rest[0])
    ensures ParseInt(digits + rest) == Int(DecimalValue(digits))
  {
    ParseIntSigned("", "", digits, rest);
    assert "" + "" + digits == digits;
  }

  /** The general shape `parseInt` reads: white space, at most one sign, a
      digit run, and anything that does not start with a digit; the value is
      the digit run's, negated after a `-`. So `"+7"` reads as 7 and
      `" -12px"` as -12. */
  lemma ParseIntSigned(ws: string, sign: string, digits: string, rest: string)
    requires AllWhiteSpace(ws)
    requires sign == "" || sign == "+" || sign == "-"
    requires digits != [] && AllDigits(digits)
    requires rest == [] || !IsDecimalDigit(rest[0])
    ensures ParseInt(ws + sign + digits + rest) ==
      Int(if sign == "-" then 0 - DecimalValue(digits) else DecimalValue(digits))
  {
    var u := digits + rest;
    var t := sign + u;
    ConcatAssoc(ws + sign, digits, rest);
    ConcatAssoc(ws, sign, u);
    ParseIntSkipsWhiteSpace(ws, t);
    SignedDigitRun(sign, digits, rest);
    DigitPrefixStops(digits, rest);
    ParseIntOfUnspaced(t, digits);
  }

  /** A leading `+` is skipped: `parseInt("+7")` is 7. */
  lemma ParseIntPlusSign()
    ensures ParseInt("+7") == Int(7)
  {
    var digits := "7";
    assert AllDigits(digits);
    ParseIntSigned("", "+", digits, "");
    assert "" + "+" + digits + "" == "+7";
  }

  /** Trailing units are ignored: `parseInt(" -12px")` is -12. */
  lemma ParseIntTrailingUnits()
    ensures ParseInt(" -12px") == Int(-12)
  {
    var digits := "12";
    assert AllDigits(digits);
    assert DecimalValue(digits) == 12 by {
      assert digits[..1] == "1";
    }
    ParseIntSigned(" ", "-", digits, "px");
    assert " " + "-" + digits + "px" == " -12px";
  }

  lemma ConcatAssoc(a: string, b: string, c: string)
    ensures a + b + c == a + (b + c)
  {
  }

  /** A sign, a digit run and a non-digit: nothing is trimmed, and the sign is
      dropped. */
  lemma SignedDigitRun(sign: string, digits: string, rest: string)
    requires sign == "" || sign == "+" || sign == "-"
    requires digits != [] && AllDigits(digits)
    requires rest == [] || !IsDecimalDigit(rest[0])
    ensures var t := sign + (digits + rest);
      TrimStart(t) == t && StripSign(t) == digits + rest && (IsNegative(t) <==> sign == "-")
  {
    var u := digits + rest;
    var t := sign + u;
    assert u[0] == digits[0];
    if sign == "" {
      assert t == u;
    } else {
      assert t[0] == sign[0];
      assert t[1..] == u;
    }
    NotWhiteSpace(t[0]);
    TrimStartUnchanged(t);
  }

  /** Digits and signs are not white space. */
  lemma NotWhiteSpace(c: char)
    requires IsDecimalDigit(c) || c == '+' || c == '-'
    ensures !IsWhiteSpace(c)
  {
  }

  /** `parseInt` of a string that is not trimmed and whose digits after the
      sign are `digits`. */
  lemma ParseIntOfUnspaced(t: string, digits: string)
    requires TrimStart(t) == t && DigitPrefix(StripSign(t)) == digits && digits != []
    ensures ParseInt(t) == Int(if IsNegative(t) then 0 - DecimalValue(digits) else DecimalValue(digits))
  {
  }

  /** The digit prefix ends where the first non-digit begins. */
  lemma DigitPrefixStops(digits: string, rest: string)
    requires AllDigits(digits)
    requires rest == [] || !IsDecimalDigit(rest[0])
    ensures DigitPrefix(digits + rest) == digits
  {
    var s := digits + rest;
    assert s[..|digits|] == digits;
  }

  /** `parseInt` is NaN exactly when no digit follows the white space and the
      optional sign. */
  lemma ParseIntNaN(s: string)
    ensures ParseInt(s) == NaN <==>
      var unsigned := StripSign(TrimStart(s));
      unsigned == [] || !IsDecimalDigit(unsigned[0])
  {
  }
}
