/**
 * The parts of Go's number formatting and quoting that the bot and the
 * controller rely on: `%d` (strconv.FormatInt), strconv.ParseInt with base 10
 * and bit size 64 (used on the stored channel id), and `%q` (strconv.Quote,
 * used in every error message that names a link or a path).
 */
module Strconv {
  import opened Wrappers

  const MaxUint64: int := 0xFFFF_FFFF_FFFF_FFFF
  const MinInt64: int := -0x8000_0000_0000_0000
  const MaxInt64: int := 0x7FFF_FFFF_FFFF_FFFF

  /** Go's int64 and int32. */
  type Int64 = x: int | MinInt64 <= x <= MaxInt64
  type Int32 = x: int | -0x8000_0000 <= x <= 0x7FFF_FFFF

  predicate IsDigit(c: char) {
    '0' <= c <= '9'
  }

  function DigitChar(d: nat): (c: char)
    requires d < 10
    ensures IsDigit(c)
  {
    ('0' as int + d) as char
  }

  function DigitValue(c: char): (d: nat)
    requires IsDigit(c)
    ensures d < 10
  {
    c as int - '0' as int
  }

  predicate AllDigits(s: string) {
    forall i :: 0 <= i < |s| ==> IsDigit(s[i])
  }

  // ---------------------------------------------------------------------------
  // Formatting: %d
  // ---------------------------------------------------------------------------

  /** The decimal digits of n, most significant first, without leading zeros. */
  function Digits(n: nat): (s: string)
    ensures |s| > 0 && AllDigits(s)
    ensures |s| > 1 ==> s[0] != '0'
  {
    if n < 10 then [DigitChar(n)] else Digits(n / 10) + [DigitChar(n % 10)]
  }

  /** `%d` of an integer: a minus sign for negative values, then the digits. */
  function FormatInt(x: int): (s: string)
    ensures x < 0 ==> |s| > 1 && s[0] == '-' && AllDigits(s[1..])
    ensures x >= 0 ==> AllDigits(s) && s != []
  {
    if x < 0 then "-" + Digits(-x) else Digits(x)
  }

  /** The value of a string of decimal digits (the empty string is 0). */
  function DigitsValue(s: string): nat
    requires AllDigits(s)
  {
    if s == [] then 0 else DigitsValue(s[..|s| - 1]) * 10 + DigitValue(s[|s| - 1])
  }

  lemma {:induction false} DigitsValueOfDigits(n: nat)
    ensures DigitsValue(Digits(n)) == n
  {
    if n >= 10 {
      var s := Digits(n);
      assert s[..|s| - 1] == Digits(n / 10);
      DigitsValueOfDigits(n / 10);
    }
  }

  // ---------------------------------------------------------------------------
  // Parsing: strconv.ParseUint / strconv.ParseInt, base 10, bit size 64
  // ---------------------------------------------------------------------------

  /** strconv.ErrSyntax and strconv.ErrRange. */
  datatype NumErr = ErrSyntax | ErrRange

  /** strconv.NumError: the function, the input and the cause. */
  datatype NumError = NumError(func: string, num: string, err: NumErr)

  /** NumError.Error(): `strconv.<Func>: parsing <quoted input>: <cause>`. */
  function NumErrorText(e: NumError): string
  {
    "strconv." + e.func + ": parsing " + Quote(e.num) + ": "
    + (if e.err == ErrSyntax then "invalid syntax" else "value out of range")
  }

  /**
   * The digit loop of ParseUint: left to right, a non-digit is a syntax
   * error, and the scan stops with a range error as soon as the value read so
   * far exceeds the largest uint64 (before any later character is looked at).
   */
  function ScanDigits(s: string, n: nat): (r: Result<nat, NumErr>)
    ensures r.Ok? ==> r.value <= MaxUint64 || (s == [] && r.value == n)
    decreases |s|
  {
    if s == [] then Ok(n)
    else if !IsDigit(s[0]) then Err(ErrSyntax)
    else
      var n1 := n * 10 + DigitValue(s[0]);
      if n1 > MaxUint64 then Err(ErrRange) else ScanDigits(s[1..], n1)
  }

  /** strconv.ParseUint(s, 10, 64): the empty string is a syntax error. */
  function ParseUint(s: string): (r: Result<nat, NumErr>)
    ensures r.Ok? ==> r.value <= MaxUint64
  {
    if s == [] then Err(ErrSyntax) else ScanDigits(s, 0)
  }

  /**
   * strconv.ParseInt(s, 10, 64): an optional sign, then ParseUint of the
   * rest; a syntax error from ParseUint is reported as such, and a magnitude
   * beyond the int64 range (2^63 for a negative value) is a range error.
   */
  function ParseInt(s: string): (r: Result<Int64, NumError>)
    ensures r.Err? ==> r.error.func == "ParseInt" && r.error.num == s
    ensures s == [] ==> r == Err(NumError("ParseInt", s, ErrSyntax))
  {
    if s == [] then Err(NumError("ParseInt", s, ErrSyntax))
    else
      var neg := s[0] == '-';
      var rest := if s[0] == '+' || s[0] == '-' then s[1..] else s;
      var un := ParseUint(rest);
      if un.Err? && un.error == ErrSyntax then Err(NumError("ParseInt", s, ErrSyntax))
      else
        // on a range error ParseUint returns the largest uint64
        var u := if un.Ok? then un.value else MaxUint64;
        if !neg && u > MaxInt64 then Err(NumError("ParseInt", s, ErrRange))
        else if neg && u > -MinInt64 then Err(NumError("ParseInt", s, ErrRange))
        else Ok(if neg then -u else u)
  }

  /** Reading a longer digit prefix never gives a smaller value. */
  lemma {:induction false} PrefixValueAtMost(s: string, k: nat)
    requires AllDigits(s) && k <= |s|
    ensures DigitsValue(s[..k]) <= DigitsValue(s)
    decreases |s| - k
  {
    if k < |s| {
      assert s[..k + 1][..k] == s[..k];
      assert DigitsValue(s[..k + 1]) == DigitsValue(s[..k]) * 10 + DigitValue(s[k]);
      PrefixValueAtMost(s, k + 1);
    } else {
      assert s[..k] == s;
    }
  }

  /** Scanning the rest of a digit string after its first i digits completes its value. */
  lemma {:induction false} ScanCompletes(s: string, i: nat)
    requires AllDigits(s) && i <= |s| && DigitsValue(s) <= MaxUint64
    ensures ScanDigits(s[i..], DigitsValue(s[..i])) == Ok(DigitsValue(s))
    decreases |s| - i
  {
    if i == |s| {
      assert s[..i] == s;
    } else {
      assert s[..i + 1][..i] == s[..i];
      assert DigitsValue(s[..i + 1]) == DigitsValue(s[..i]) * 10 + DigitValue(s[i]);
      PrefixValueAtMost(s, i + 1);
      assert s[i..][1..] == s[i + 1..];
      ScanCompletes(s, i + 1);
    }
  }

  /** ParseUint reads back every decimal rendering of a uint64. */
  lemma ParseUintOfDigits(n: nat)
    requires n <= MaxUint64
    ensures ParseUint(Digits(n)) == Ok(n)
  {
    var s := Digits(n);
    DigitsValueOfDigits(n);
    ScanCompletes(s, 0);
    assert s[0..] == s && s[..0] == [];
  }

  /** ParseInt of a minus sign followed by the digits of a magnitude of at most 2^63. */
  lemma ParseIntNegative(m: int)
    requires 0 < m <= -MinInt64
    ensures ParseInt("-" + Digits(m)) == Ok(-m)
  {
    var s := "-" + Digits(m);
    assert s[0] == '-' && s[1..] == Digits(m);
    ParseUintOfDigits(m);
  }

  /** ParseInt of the digits of a non-negative int64. */
  lemma ParseIntNonNegative(n: nat)
    requires n <= MaxInt64
    ensures ParseInt(Digits(n)) == Ok(n)
  {
    var s := Digits(n);
    assert s[0] != '-' && s[0] != '+' by { assert IsDigit(s[0]); }
    ParseUintOfDigits(n);
  }

  /** ParseInt(FormatInt(x)) == x for every int64: `%d` and ParseInt are inverse. */
  lemma ParseIntOfFormatInt(x: Int64)
    ensures ParseInt(FormatInt(x)) == Ok(x)
  {
    if x < 0 {
      ParseIntNegative(-(x as int));
    } else {
      ParseIntNonNegative(x);
    }
  }

  // ---------------------------------------------------------------------------
  // Quoting: %q
  // ---------------------------------------------------------------------------

  /** The letter that follows a backslash in the escape of c, if c is escaped. */
  function EscapeLetter(c: char): Option<char>
  {
    if c == '"' then Some('"')
    else if c == '\\' then Some('\\')
    else if c == '\U{7}' then Some('a')
    else if c == '\U{8}' then Some('b')
    else if c == '\U{C}' then Some('f')
    else if c == '\n' then Some('n')
    else if c == '\r' then Some('r')
    else if c == '\t' then Some('t')
    else if c == '\U{B}' then Some('v')
    else None
  }

  /** The character an escape letter stands for. */
  function Unescaped(letter: char): Option<char>
  {
    if letter == '"' then Some('"')
    else if letter == '\\' then Some('\\')
    else if letter == 'a' then Some('\U{7}')
    else if letter == 'b' then Some('\U{8}')
    else if letter == 'f' then Some('\U{C}')
    else if letter == 'n' then Some('\n')
    else if letter == 'r' then Some('\r')
    else if letter == 't' then Some('\t')
    else if letter == 'v' then Some('\U{B}')
    else None
  }

  function EscapeChar(c: char): (s: string)
    ensures |s| >= 1 && (|s| == 1 <==> EscapeLetter(c).None?)
  {
    match EscapeLetter(c)
    case Some(l) => ['\\', l]
    case None => [c]
  }

  function Escape(s: string): string
  {
    if s == [] then [] else EscapeChar(s[0]) + Escape(s[1..])
  }

  /** `%q` of a string: the escaped text between double quotes. */
  function Quote(s: string): (q: string)
    ensures |q| >= 2 && q[0] == '"' && q[|q| - 1] == '"'
  {
    "\"" + Escape(s) + "\""
  }

  function Unescape(s: string): Option<string>
    decreases |s|
  {
    if s == [] then Some([])
    else if s[0] == '\\' then
      if |s| < 2 then None
      else match (Unescaped(s[1]), Unescape(s[2..]))
        case (Some(c), Some(rest)) => Some([c] + rest)
        case _ => None
    else if s[0] == '"' || EscapeLetter(s[0]).Some? then None
    else match Unescape(s[1..])
      case Some(rest) => Some([s[0]] + rest)
      case None => None
  }

  /** Reads back a quoted string: the inverse of Quote. */
  function Unquote(q: string): Option<string>
  {
    if |q| >= 2 && q[0] == '"' && q[|q| - 1] == '"' then Unescape(q[1..|q| - 1]) else None
  }

  lemma {:induction false} UnescapeEscape(s: string)
    ensures Unescape(Escape(s)) == Some(s)
  {
    if s != [] {
      var c, t := s[0], Escape(s[1..]);
      UnescapeEscape(s[1..]);
      var e := EscapeChar(c) + t;
      assert Escape(s) == e;
      assert [c] + s[1..] == s;
      match EscapeLetter(c)
      case Some(l) =>
        assert e[0] == '\\' && e[1] == l && e[2..] == t;
        assert Unescaped(l) == Some(c);
        assert Unescape(e) == Some([c] + s[1..]);
      case None =>
        assert e[0] == c && e[1..] == t;
        assert Unescape(e) == Some([c] + s[1..]);
    }
  }

  /** Quote loses nothing: the original text can be read back from it. */
  lemma UnquoteQuote(s: string)
    ensures Unquote(Quote(s)) == Some(s)
  {
    var q := Quote(s);
    assert q[1..|q| - 1] == Escape(s);
    UnescapeEscape(s);
  }

  /** Concatenating three strings does not depend on the grouping. */
  lemma ConcatAssoc(x: string, y: string, z: string)
    ensures x + (y + z) == (x + y) + z
  {
  }
}
