/** Decimal conversions of Go's `strconv` package on a 64-bit platform:
    `FormatInt(n, 10)`, `ParseInt(s, 10, 64)` and `Atoi(s)`, and the
    `Quote` that error messages use to show their input. */
module GoStrconv {

  import opened Wrappers

  const MinInt64: int := -0x8000_0000_0000_0000
  const MaxInt64: int := 0x7fff_ffff_ffff_ffff
  const MinInt32: int := -0x8000_0000
  const MaxInt32: int := 0x7fff_ffff

  newtype int32 = x: int | -0x8000_0000 <= x < 0x8000_0000
  newtype int64 = x: int | -0x8000_0000_0000_0000 <= x < 0x8000_0000_0000_0000

  predicate IsDigit(c: char)
  {
    '0' <= c <= '9'
  }

  predicate AllDigits(s: string)
  {
    forall i :: 0 <= i < |s| ==> IsDigit(s[i])
  }

  function DigitChar(d: nat): (c: char)
    requires d < 10
    ensures IsDigit(c)
  {
    (('0' as int) + d) as char
  }

  function DigitValue(c: char): (d: nat)
    requires IsDigit(c)
    ensures d < 10
  {
    (c as int) - ('0' as int)
  }

  /** The decimal digits of a natural number, most significant first. */
  function NatToDigits(n: nat): string
  {
    if n < 10 then [DigitChar(n)] else NatToDigits(n / 10) + [DigitChar(n % 10)]
  }

  /** The value of a string of decimal digits. */
  function DigitsValue(s: string): nat
    requires AllDigits(s)
  {
    if |s| == 0 then 0 else 10 * DigitsValue(s[..|s| - 1]) + DigitValue(s[|s| - 1])
  }

  /** `strconv.FormatInt(n, 10)`: a `-` for negative numbers, then the digits of |n|. */
  function FormatInt(n: int): string
  {
    if n < 0 then "-" + NatToDigits(-n) else NatToDigits(n)
  }

  /** The digits of a number are non-empty decimal digits, carry no leading
      zero and denote the number. */
  lemma {:induction false} NatToDigitsCorrect(n: nat)
    ensures |NatToDigits(n)| > 0 && AllDigits(NatToDigits(n))
    ensures NatToDigits(n)[0] == '0' ==> n == 0
    ensures DigitsValue(NatToDigits(n)) == n
  {
    if n >= 10 {
      NatToDigitsCorrect(n / 10);
      var d := NatToDigits(n / 10) + [DigitChar(n % 10)];
      assert d[..|d| - 1] == NatToDigits(n / 10);
    }
  }

  /** The base-10 rendering of an integer: an optional `-` exactly for
      negative numbers, followed by the digits of its magnitude. */
  lemma FormatIntShape(n: int)
    ensures var s := FormatInt(n);
      && |s| > 0
      && (s[0] == '-' <==> n < 0)
      && (n < 0 ==> AllDigits(s[1..]) && DigitsValue(s[1..]) == -n)
      && (n >= 0 ==> AllDigits(s) && DigitsValue(s) == n)
  {
    if n < 0 {
      NatToDigitsCorrect(-n);
      assert FormatInt(n)[1..] == NatToDigits(-n);
    } else {
      NatToDigitsCorrect(n);
    }
  }

  const MaxUint64: int := 0xffff_ffff_ffff_ffff

  /** The result of `strconv.ParseUint(s, 10, 64)` on the text after the
      sign: the value, a syntax error, or a range error. */
  datatype UintResult = UintValue(n: nat) | UintSyntax | UintRange

  /** `ParseUint`'s loop from position `i`, where `acc` is the value of the
      digits before it. Each byte is read in turn: a non-digit is a syntax
      error, and the first digit that takes the value past `MaxUint64` is a
      range error, so nothing after it is read. */
  function ScanUint(s: string, i: nat, acc: nat): (r: UintResult)
    requires i <= |s|
    ensures r.UintValue? ==> r.n <= MaxUint64 || (i == |s| && r.n == acc)
    decreases |s| - i
  {
    if i == |s| then UintValue(acc)
    else if !IsDigit(s[i]) then UintSyntax
    else if 10 * acc + DigitValue(s[i]) > MaxUint64 then UintRange
    else ScanUint(s, i + 1, 10 * acc + DigitValue(s[i]))
  }

  /** `strconv.ParseUint(s, 10, 64)`: an empty text is a syntax error. */
  function ParseUint(s: string): (r: UintResult)
    ensures r.UintValue? ==> r.n <= MaxUint64
  {
    if s == "" then UintSyntax else ScanUint(s, 0, 0)
  }

  /** The result of `strconv.ParseInt(s, 10, 64)`: the value, a syntax error
      (Go then returns 0) or a range error (Go then returns the nearest
      64-bit bound). */
  datatype ParseResult = Parsed(n: int) | SyntaxError | RangeError(clamped: int)
  {
    /** The integer Go returns alongside the error. */
    function Value(): int
    {
      match this
      case Parsed(n) => n
      case SyntaxError => 0
      case RangeError(c) => c
    }
  }

  /** `ParseInt`'s treatment of `ParseUint`'s result: a syntax error is
      passed on; a magnitude past the signed range, or a range error of
      `ParseUint` (whose value is then `MaxUint64`), is a range error
      clamped to the bound on the side of the sign. */
  function Signed(neg: bool, u: UintResult): (r: ParseResult)
    ensures r.Parsed? ==> MinInt64 <= r.n <= MaxInt64
    ensures r.RangeError? ==> r.clamped == (if neg then MinInt64 else MaxInt64)
    ensures r.SyntaxError? <==> u.UintSyntax?
  {
    match u
    case UintSyntax => SyntaxError
    case UintRange => if neg then RangeError(MinInt64) else RangeError(MaxInt64)
    case UintValue(un) =>
      if !neg && un > MaxInt64 then RangeError(MaxInt64)
      else if neg && un > -MinInt64 then RangeError(MinInt64)
      else Parsed(if neg then -(un as int) else un as int)
  }

  /** `strconv.ParseInt(s, 10, 64)`, also `strconv.Atoi(s)` on a 64-bit
      platform: an optional `+` or `-`, then `ParseUint` on the rest. */
  function ParseInt(s: string): (r: ParseResult)
    ensures r.Parsed? ==> MinInt64 <= r.n <= MaxInt64
    ensures r.RangeError? ==> r.clamped == MinInt64 || r.clamped == MaxInt64
    ensures s == "" ==> r == SyntaxError
  {
    if s == "" then SyntaxError
    else
      var body := if s[0] == '-' || s[0] == '+' then s[1..] else s;
      Signed(s[0] == '-', ParseUint(body))
  }

  /** The sign is split off the body, when there is one. */
  lemma SignSplit(sign: string, body: string)
    requires sign == "" || sign == "-" || sign == "+"
    requires sign == "" && |body| > 0 ==> body[0] != '-' && body[0] != '+'
    ensures ParseInt(sign + body) == Signed(sign == "-", ParseUint(body))
  {
    var s := sign + body;
    if sign == "" {
      assert s == body;
    } else {
      assert s[0] == sign[0] && s[1..] == body;
    }
  }

  /** A longer prefix of digits has at least the value of a shorter one. */
  lemma {:induction false} PrefixValueMono(t: string, k: nat)
    requires AllDigits(t) && k <= |t|
    ensures DigitsValue(t[..k]) <= DigitsValue(t)
    decreases |t| - k
  {
    if k < |t| {
      var u := t[..|t| - 1];
      assert AllDigits(u);
      PrefixValueMono(u, k);
      assert u[..k] == t[..k];
    } else {
      assert t[..k] == t;
    }
  }

  /** One step of the scan reads digit `s[i]` into the value of `s[..i]`. */
  lemma DigitsValueStep(s: string, i: nat)
    requires i < |s| && AllDigits(s[..i + 1])
    ensures AllDigits(s[..i])
    ensures DigitsValue(s[..i + 1]) == 10 * DigitsValue(s[..i]) + DigitValue(s[i])
  {
    assert s[..i + 1][..i] == s[..i];
  }

  /** While the digits of `s[..j]` stay in range, the scan reads them all
      and reaches position `j` with their value. */
  lemma {:induction false} ScanPrefix(s: string, i: nat, j: nat)
    requires i <= j <= |s|
    requires AllDigits(s[..j]) && DigitsValue(s[..j]) <= MaxUint64
    ensures AllDigits(s[..i])
    ensures ScanUint(s, i, DigitsValue(s[..i])) == ScanUint(s, j, DigitsValue(s[..j]))
    decreases j - i
  {
    assert s[..j][..i] == s[..i];
    if i < j {
      assert s[..j][..i + 1] == s[..i + 1];
      assert IsDigit(s[..j][i]);
      DigitsValueStep(s, i);
      PrefixValueMono(s[..j], i + 1);
      ScanPrefix(s, i + 1, j);
    }
  }

  /** Digits in range: `ParseUint` gives their value. */
  lemma ScanAllDigits(s: string)
    requires AllDigits(s) && DigitsValue(s) <= MaxUint64
    ensures ScanUint(s, 0, 0) == UintValue(DigitsValue(s))
  {
    assert s[..|s|] == s;
    ScanPrefix(s, 0, |s|);
  }

  /** The digits of `body[..k]` in range followed by a non-digit: a syntax
      error, whatever follows. */
  lemma ScanStopsAtNonDigit(body: string, k: nat)
    requires k < |body| && AllDigits(body[..k]) && DigitsValue(body[..k]) <= MaxUint64
    requires !IsDigit(body[k])
    ensures ScanUint(body, 0, 0) == UintSyntax
  {
    ScanPrefix(body, 0, k);
  }

  /** The digits of `body[..k]` in range, and digit `body[k]` takes them
      past `MaxUint64`: a range error, whatever follows. */
  lemma ScanStopsAtOverflow(body: string, k: nat)
    requires k < |body| && AllDigits(body[..k + 1])
    requires DigitsValue(body[..k]) <= MaxUint64 < DigitsValue(body[..k + 1])
    ensures ScanUint(body, 0, 0) == UintRange
  {
    DigitsValueStep(body, k);
    ScanPrefix(body, 0, k);
  }

  /** `ParseUint` on digits alone: their value when it fits in 64 bits,
      otherwise a range error. */
  lemma UintDigits(digits: string)
    requires |digits| > 0 && AllDigits(digits)
    ensures ParseUint(digits) == if DigitsValue(digits) <= MaxUint64 then UintValue(DigitsValue(digits)) else UintRange
  {
    if DigitsValue(digits) <= MaxUint64 {
      ScanAllDigits(digits);
    } else {
      UintOverflowIgnoresRest(digits, "");
      assert digits + "" == digits;
    }
  }

  /** A sign and digits alone: the value when it fits in 64 bits, and
      otherwise the bound on the side of the sign. */
  lemma ParseIntDigits(sign: string, digits: string)
    requires sign == "" || sign == "-" || sign == "+"
    requires |digits| > 0 && AllDigits(digits)
    ensures var v: int := if sign == "-" then -(DigitsValue(digits) as int) else DigitsValue(digits);
      ParseInt(sign + digits) == (if v < MinInt64 then RangeError(MinInt64) else if v > MaxInt64 then RangeError(MaxInt64) else Parsed(v))
  {
    UintDigits(digits);
    assert IsDigit(digits[0]);
    SignSplit(sign, digits);
  }

  /** Some prefix of digits worth more than `MaxUint64` is the first. */
  lemma FirstOverflow(digits: string)
    requires AllDigits(digits) && DigitsValue(digits) > MaxUint64
    ensures exists k :: 0 <= k < |digits| && DigitsValue(digits[..k]) <= MaxUint64 < DigitsValue(digits[..k + 1])
  {
    assert digits[..|digits|] == digits;
    var k := FirstOverflowAt(digits, |digits|);
  }

  /** The last prefix, among the first `n + 1`, whose value is in range. */
  lemma {:induction false} FirstOverflowAt(digits: string, n: nat) returns (k: nat)
    requires AllDigits(digits) && n <= |digits| && DigitsValue(digits[..n]) > MaxUint64
    ensures k < n && DigitsValue(digits[..k]) <= MaxUint64 < DigitsValue(digits[..k + 1])
  {
    assert digits[..n][..n - 1] == digits[..n - 1] by { assert n > 0; }
    assert AllDigits(digits[..n - 1]);
    if DigitsValue(digits[..n - 1]) <= MaxUint64 {
      k := n - 1;
    } else {
      k := FirstOverflowAt(digits, n - 1);
    }
  }

  /** A non-digit at `body[k]`, reached while the digits before it are in
      range, is a syntax error, whatever follows it. */
  lemma NonDigitBeforeOverflow(sign: string, body: string, k: nat)
    requires sign == "" || sign == "-" || sign == "+"
    requires k < |body| && AllDigits(body[..k]) && DigitsValue(body[..k]) <= MaxUint64 && !IsDigit(body[k])
    requires sign == "" && k == 0 ==> body[0] != '-' && body[0] != '+'
    ensures ParseInt(sign + body) == SyntaxError
  {
    ScanStopsAtNonDigit(body, k);
    assert k > 0 ==> body[..k][0] == body[0];
    SignSplit(sign, body);
  }

  /** `ParseUint` reads no further than the digit that overflows. */
  lemma UintOverflowIgnoresRest(digits: string, rest: string)
    requires AllDigits(digits) && DigitsValue(digits) > MaxUint64
    ensures ParseUint(digits + rest) == UintRange
  {
    FirstOverflow(digits);
    var k :| 0 <= k < |digits| && DigitsValue(digits[..k]) <= MaxUint64 < DigitsValue(digits[..k + 1]);
    var body := digits + rest;
    assert body[..k + 1] == digits[..k + 1] && body[..k] == digits[..k];
    assert AllDigits(digits[..k + 1]);
    ScanStopsAtOverflow(body, k);
  }

  /** A number too long for 64 bits followed by any text is a range error,
      not a syntax error, clamped on the side of its sign. */
  lemma OverflowBeforeNonDigit(sign: string, digits: string, rest: string)
    requires sign == "" || sign == "-"
    requires AllDigits(digits) && DigitsValue(digits) > MaxUint64
    ensures ParseInt(sign + digits + rest) == if sign == "-" then RangeError(MinInt64) else RangeError(MaxInt64)
  {
    var body := digits + rest;
    UintOverflowIgnoresRest(digits, rest);
    assert |digits| > 0 && IsDigit(digits[0]) && body[0] == digits[0];
    SignSplit(sign, body);
    assert sign + body == sign + digits + rest;
  }

  /** 10 to the power `k`. */
  function Pow10(k: nat): nat
  {
    if k == 0 then 1 else 10 * Pow10(k - 1)
  }

  /** A string of `k` nines is worth 10^k - 1. */
  lemma {:induction false} NinesValue(t: string)
    requires forall i :: 0 <= i < |t| ==> t[i] == '9'
    ensures AllDigits(t) && DigitsValue(t) == Pow10(|t|) - 1
  {
    if |t| > 0 {
      NinesValue(t[..|t| - 1]);
    }
  }

  /** Twenty nines are worth more than `MaxUint64`. */
  lemma TwentyNines()
    ensures AllDigits("99999999999999999999") && DigitsValue("99999999999999999999") > MaxUint64
  {
    NinesValue("99999999999999999999");
    assert Pow10(10) == 10000000000;
    assert Pow10(20) == 100000000000000000000;
  }

  /** Twenty nines overflow 64 bits before the letter is read, so Go
      reports a range error, not a syntax error. */
  lemma NinesThenLetter()
    ensures ParseInt("99999999999999999999x") == RangeError(MaxInt64)
  {
    TwentyNines();
    OverflowBeforeNonDigit("", "99999999999999999999", "x");
    assert "" + "99999999999999999999" + "x" == "99999999999999999999x";
  }

  /** With a `-` in front, the range error has the smallest 64-bit value. */
  lemma NegativeNinesThenLetter()
    ensures ParseInt("-99999999999999999999x") == RangeError(MinInt64)
  {
    TwentyNines();
    OverflowBeforeNonDigit("-", "99999999999999999999", "x");
    assert "-" + "99999999999999999999" + "x" == "-99999999999999999999x";
  }


  /** Parsing the rendering of a 64-bit integer gives the integer back. */
  lemma ParseFormatRoundTrip(n: int)
    requires MinInt64 <= n <= MaxInt64
    ensures ParseInt(FormatInt(n)) == Parsed(n)
  {
    FormatIntShape(n);
    var s := FormatInt(n);
    if n < 0 {
      assert s == "-" + s[1..];
      ParseIntDigits("-", s[1..]);
    } else {
      assert s == "" + s;
      ParseIntDigits("", s);
    }
  }
  /** A count within int64 reads back from its decimal text. */
  lemma CountParses(n: nat)
    ensures n <= MaxInt64 ==> ParseInt(FormatInt(n)) == Parsed(n)
  {
    if n <= MaxInt64 {
      ParseFormatRoundTrip(n);
    }
  }


  // ------------------------------------------------------------ Quote

  /** A lower-case hex digit. */
  function HexDigit(d: nat): (h: char)
    requires d < 16
  {
    if d < 10 then (('0' as int) + d) as char else (('a' as int) + d - 10) as char
  }

  /** How `strconv.Quote` writes one character between its double quotes:
      `"` and `\` behind a backslash; the seven control characters with a
      letter escape as `\a \b \f \n \r \t \v`; any other character below
      space, and DEL, as `\x` and two lower-case hex digits; every other
      character as itself. */
  function QuoteChar(c: char): (r: string)
    ensures |r| > 0
    ensures r[0] == '\\' <==> c < ' ' || c == '\U{7f}' || c == '"' || c == '\\'
  {
    if c == '"' || c == '\\' then ['\\', c]
    else if c == '\U{7}' then "\\a"
    else if c == '\U{8}' then "\\b"
    else if c == '\U{c}' then "\\f"
    else if c == '\n' then "\\n"
    else if c == '\r' then "\\r"
    else if c == '\t' then "\\t"
    else if c == '\U{b}' then "\\v"
    else if c < ' ' || c == '\U{7f}' then
      "\\x" + [HexDigit((c as int) / 16), HexDigit((c as int) % 16)]
    else [c]
  }

  /** The escaped characters of `s`, in order. */
  function QuoteBody(s: string): string
  {
    if s == "" then "" else QuoteChar(s[0]) + QuoteBody(s[1..])
  }

  /** `strconv.Quote(s)`. */
  function Quote(s: string): (r: string)
    ensures |r| >= 2 && r[0] == '"' && r[|r| - 1] == '"'
  {
    "\"" + QuoteBody(s) + "\""
  }

  /** The character a one-letter escape `\<e>` stands for. */
  function LetterEscape(e: char): Option<char>
  {
    if e == '"' || e == '\\' then Some(e)
    else if e == 'a' then Some('\U{7}')
    else if e == 'b' then Some('\U{8}')
    else if e == 'f' then Some('\U{c}')
    else if e == 'n' then Some('\n')
    else if e == 'r' then Some('\r')
    else if e == 't' then Some('\t')
    else if e == 'v' then Some('\U{b}')
    else None
  }

  function HexValue(h: char): Option<nat>
  {
    if '0' <= h <= '9' then Some((h as int) - ('0' as int))
    else if 'a' <= h <= 'f' then Some((h as int) - ('a' as int) + 10)
    else None
  }

  function Prepend(c: char, r: Option<string>): Option<string>
  {
    if r.Some? then Some([c] + r.value) else None
  }

  /** Reading escapes back, as `strconv.Unquote` does for the ones `Quote`
      writes: the text between the quotes, or `None` for a malformed escape. */
  function Unescape(t: string): Option<string>
  {
    if t == "" then Some("")
    else if t[0] != '\\' then Prepend(t[0], Unescape(t[1..]))
    else if |t| < 2 then None
    else if t[1] == 'x' then
      if |t| < 4 || HexValue(t[2]).None? || HexValue(t[3]).None? then None
      else Prepend((16 * HexValue(t[2]).value + HexValue(t[3]).value) as char, Unescape(t[4..]))
    else if LetterEscape(t[1]).None? then None
    else Prepend(LetterEscape(t[1]).value, Unescape(t[2..]))
  }

  /** Reading back a character written as itself. */
  lemma UnescapeSelf(c: char, rest: string)
    requires c != '\\'
    ensures Unescape([c] + rest) == Prepend(c, Unescape(rest))
  {
    assert ([c] + rest)[1..] == rest;
  }

  /** Reading back a letter escape. */
  lemma UnescapeLetter(e: char, c: char, rest: string)
    requires e != 'x' && LetterEscape(e) == Some(c)
    ensures Unescape(['\\', e] + rest) == Prepend(c, Unescape(rest))
  {
    assert (['\\', e] + rest)[2..] == rest;
  }

  /** Reading back a `\x` escape. */
  lemma UnescapeHex(c: char, rest: string)
    requires (c as int) < 0x80
    ensures Unescape("\\x" + [HexDigit((c as int) / 16), HexDigit((c as int) % 16)] + rest) == Prepend(c, Unescape(rest))
  {
    var n := c as int;
    var t := "\\x" + [HexDigit(n / 16), HexDigit(n % 16)] + rest;
    assert HexValue(HexDigit(n / 16)) == Some(n / 16);
    assert HexValue(HexDigit(n % 16)) == Some(n % 16);
    assert t[2] == HexDigit(n / 16) && t[3] == HexDigit(n % 16) && t[4..] == rest;
  }

  /** Reading back one written character gives it back. */
  lemma UnescapeQuoteChar(c: char, rest: string)
    ensures Unescape(QuoteChar(c) + rest) == Prepend(c, Unescape(rest))
  {
    if c == '"' || c == '\\' {
      UnescapeLetter(c, c, rest);
    } else if c == '\U{7}' {
      UnescapeLetter('a', c, rest);
    } else if c == '\U{8}' {
      UnescapeLetter('b', c, rest);
    } else if c == '\U{c}' {
      UnescapeLetter('f', c, rest);
    } else if c == '\n' {
      UnescapeLetter('n', c, rest);
    } else if c == '\r' {
      UnescapeLetter('r', c, rest);
    } else if c == '\t' {
      UnescapeLetter('t', c, rest);
    } else if c == '\U{b}' {
      UnescapeLetter('v', c, rest);
    } else if c < ' ' || c == '\U{7f}' {
      UnescapeHex(c, rest);
    } else {
      UnescapeSelf(c, rest);
    }
  }

  /** `Quote` loses nothing: reading the escapes back gives the input. */
  lemma {:induction false} QuoteRoundTrip(s: string)
    ensures Unescape(QuoteBody(s)) == Some(s)
  {
    if s != "" {
      QuoteRoundTrip(s[1..]);
      UnescapeQuoteChar(s[0], QuoteBody(s[1..]));
      assert [s[0]] + s[1..] == s;
    }
  }

  /** Different strings have different quotations. */
  lemma QuoteInjective(a: string, b: string)
    requires Quote(a) == Quote(b)
    ensures a == b
  {
    var qa, qb := Quote(a), Quote(b);
    assert QuoteBody(a) == qa[1..|qa| - 1];
    assert QuoteBody(b) == qb[1..|qb| - 1];
    QuoteRoundTrip(a);
    QuoteRoundTrip(b);
  }

  /** A quote and a newline are escaped; a digit is not. */
  lemma QuoteEscapes()
    ensures QuoteBody("1\"\n") == "1\\\"\\n"
  {
    var s := "1\"\n";
    assert s[0] == '1' && s[1..] == "\"\n";
    assert s[1..][0] == '"' && s[1..][1..] == "\n";
    assert s[1..][1..][0] == '\n' && s[1..][1..][1..] == "";
    assert QuoteBody("\n") == "\\n";
    assert QuoteBody("\"\n") == "\\\"" + "\\n";
  }

  /** A printable ASCII character other than `"` and `\\` is written as itself. */
  lemma QuoteCharPlain(c: char)
    requires ' ' <= c <= '~' && c != '"' && c != '\\'
    ensures QuoteChar(c) == [c]
  {
  }

  /** Text of printable ASCII without `"` or `\` is quoted as it stands. */
  lemma {:induction false} QuotePlain(s: string)
    requires forall i :: 0 <= i < |s| ==> ' ' <= s[i] <= '~' && s[i] != '"' && s[i] != '\\'
    ensures QuoteBody(s) == s
  {
    if s != "" {
      QuoteCharPlain(s[0]);
      QuotePlain(s[1..]);
      assert [s[0]] + s[1..] == s;
    }
  }
}
