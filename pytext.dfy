/**
  The pieces of Python's `str` and `int` that the application relies on:
  `str.startswith`, and `int(text)` for base-10 text (surrounding
  whitespace, an optional sign, digits with single underscores between them).
*/
module PyText {
  import opened Common

  /** `s.startswith(prefix)` */
  predicate StartsWith(s: string, prefix: string)
  {
    |prefix| <= |s| && s[..|prefix|] == prefix
  }

  /** The ASCII characters that `int()` strips as whitespace: space, `\t` to `\r`, and `\x1c` to `\x1f`. */
  predicate IsSpace(c: char)
  {
    c == ' ' || '\t' <= c <= '\r' || '\U{001C}' <= c <= '\U{001F}'
  }

  predicate IsDigit(c: char)
  {
    '0' <= c <= '9'
  }

  function StripLeft(s: string): (r: string)
    ensures |r| <= |s| && r == s[|s| - |r|..]
    ensures r != [] ==> !IsSpace(r[0])
    ensures forall i :: 0 <= i < |s| - |r| ==> IsSpace(s[i])
  {
    if s != [] && IsSpace(s[0]) then StripLeft(s[1..]) else s
  }

  function StripRight(s: string): (r: string)
    ensures |r| <= |s| && r == s[..|r|]
    ensures r != [] ==> !IsSpace(r[|r| - 1])
    ensures forall i :: |r| <= i < |s| ==> IsSpace(s[i])
  {
    if s != [] && IsSpace(s[|s| - 1]) then StripRight(s[..|s| - 1]) else s
  }

  function Strip(s: string): string
  {
    StripRight(StripLeft(s))
  }

  /** Digits with single underscores between them, as `int()` accepts. */
  predicate WellFormedDigits(b: string)
  {
    && b != []
    && IsDigit(b[0])
    && IsDigit(b[|b| - 1])
    && (forall i :: 0 <= i < |b| ==> IsDigit(b[i]) || b[i] == '_')
    && (forall i :: 0 <= i < |b| - 1 ==> b[i] == '_' ==> b[i + 1] != '_')
  }

  /** `sys.int_info.default_max_str_digits`: the most digits `int()` and `str()` convert. */
  const MAX_STR_DIGITS := 4300

  /** The digits of a string, underscores not counted (leading zeros are). */
  function DigitCount(b: string): (n: nat)
    ensures n <= |b|
  {
    if b == [] then 0
    else DigitCount(b[..|b| - 1]) + (if IsDigit(b[|b| - 1]) then 1 else 0)
  }

  /** A digit string `int()` converts: well formed and within the digit limit. */
  predicate Convertible(b: string)
  {
    WellFormedDigits(b) && DigitCount(b) <= MAX_STR_DIGITS
  }

  /** The value of a digit string, underscores ignored. */
  function DigitsValue(b: string): nat
  {
    if b == [] then 0
    else if IsDigit(b[|b| - 1]) then DigitsValue(b[..|b| - 1]) * 10 + (b[|b| - 1] as int - '0' as int)
    else DigitsValue(b[..|b| - 1])
  }

  /**
    `int(s)`: `Some(value)` when `int` accepts `s`, `None` when it raises
    `ValueError`. The stripped text must be a well-formed digit string of
    at most `MAX_STR_DIGITS` digits, possibly after one sign.
  */
  function ParseInt(s: string): (r: Option<int>)
    ensures Strip(s) == [] ==> r.None?
    ensures var t := Strip(s);
      r.Some? <==> Convertible(t) || (t != [] && (t[0] == '+' || t[0] == '-') && Convertible(t[1..]))
    ensures var t := Strip(s); Convertible(t) ==> r == Some(DigitsValue(t))
    ensures var t := Strip(s); t != [] && t[0] == '+' && Convertible(t[1..]) ==> r == Some(DigitsValue(t[1..]))
    ensures var t := Strip(s); t != [] && t[0] == '-' && Convertible(t[1..]) ==> r == Some(-(DigitsValue(t[1..]) as int))
  {
    var t := Strip(s);
    if t != [] && (t[0] == '+' || t[0] == '-') then
      var body := t[1..];
      if Convertible(body) then
        var v: int := DigitsValue(body);
        Some(if t[0] == '-' then -v else v)
      else None
    else if Convertible(t) then Some(DigitsValue(t))
    else None
  }

  /** `str(n)` for a natural number (Python raises past `MAX_STR_DIGITS` digits; see `ParseIntDecimal`). */
  function Decimal(n: nat): (r: string)
    ensures r != [] && forall i :: 0 <= i < |r| ==> IsDigit(r[i])
  {
    var digit := ['0' + (n % 10) as char];
    if n < 10 then digit else Decimal(n / 10) + digit
  }

  lemma {:induction false} DecimalValue(n: nat)
    ensures DigitsValue(Decimal(n)) == n
  {
    var r := Decimal(n);
    assert IsDigit(r[|r| - 1]);
    if n >= 10 {
      assert r[..|r| - 1] == Decimal(n / 10);
      DecimalValue(n / 10);
    } else {
      assert r[..|r| - 1] == [];
    }
  }

  lemma NoSpaceStrip(s: string)
    requires forall i :: 0 <= i < |s| ==> !IsSpace(s[i])
    ensures Strip(s) == s
  {
  }

  /** In a string of digits alone every character counts. */
  lemma {:induction false} DigitCountAllDigits(s: string)
    requires forall i :: 0 <= i < |s| ==> IsDigit(s[i])
    ensures DigitCount(s) == |s|
  {
    if s != [] {
      DigitCountAllDigits(s[..|s| - 1]);
    }
  }

  /** `int(str(n)) == n`: the parser reads back what Python prints, for every `n` that `str` prints. */
  lemma {:induction false} ParseIntDecimal(n: nat)
    requires |Decimal(n)| <= MAX_STR_DIGITS
    ensures ParseInt(Decimal(n)) == Some(n)
  {
    var s := Decimal(n);
    NoSpaceStrip(s);
    assert !(s[0] == '+' || s[0] == '-');
    assert WellFormedDigits(s);
    DigitCountAllDigits(s);
    DecimalValue(n);
  }

  predicate AllSpace(w: string)
  {
    forall i :: 0 <= i < |w| ==> IsSpace(w[i])
  }

  /** Surrounding whitespace is exactly what `Strip` removes. */
  lemma {:induction false} StripPadded(w1: string, x: string, w2: string)
    requires AllSpace(w1) && AllSpace(w2)
    requires x != [] && !IsSpace(x[0]) && !IsSpace(x[|x| - 1])
    ensures Strip(w1 + x + w2) == x
  {
    StripLeftPadded(w1, x + w2);
    assert w1 + x + w2 == w1 + (x + w2);
    StripRightPadded(x, w2);
  }

  lemma {:induction false} StripLeftPadded(w: string, x: string)
    requires AllSpace(w) && x != [] && !IsSpace(x[0])
    ensures StripLeft(w + x) == x
  {
    if w != [] {
      assert (w + x)[1..] == w[1..] + x;
      StripLeftPadded(w[1..], x);
    }
  }

  lemma {:induction false} StripRightPadded(x: string, w: string)
    requires AllSpace(w) && x != [] && !IsSpace(x[|x| - 1])
    ensures StripRight(x + w) == x
  {
    if w != [] {
      assert (x + w)[..|x + w| - 1] == x + w[..|w| - 1];
      StripRightPadded(x, w[..|w| - 1]);
    } else {
      assert x + w == x;
    }
  }

  /**
    The converse of `ParseInt`'s contract: whitespace, an optional sign and
    a well-formed digit string within the digit limit always parse, to the
    digits' value with the sign.
  */
  lemma {:induction false} ParseIntAcepta(w1: string, signo: string, b: string, w2: string)
    requires AllSpace(w1) && AllSpace(w2)
    requires signo == "" || signo == "+" || signo == "-"
    requires WellFormedDigits(b) && DigitCount(b) <= MAX_STR_DIGITS
    ensures ParseInt(w1 + signo + b + w2) == Some(if signo == "-" then -(DigitsValue(b) as int) else DigitsValue(b))
  {
    var x := signo + b;
    var s := w1 + signo + b + w2;
    assert s == w1 + x + w2;
    assert x[|x| - 1] == b[|b| - 1];
    StripPadded(w1, x, w2);
    assert Convertible(b);
    if signo != "" {
      assert x[1..] == b;
      assert x[0] == signo[0];
    } else {
      assert x == b by { assert signo == []; }
      assert x[0] != '+' && x[0] != '-';
    }
  }

  /** Past the digit limit the same text is refused: `int()` raises `ValueError`. */
  lemma {:induction false} ParseIntRechazaLargo(w1: string, signo: string, b: string, w2: string)
    requires AllSpace(w1) && AllSpace(w2)
    requires signo == "" || signo == "+" || signo == "-"
    requires WellFormedDigits(b) && DigitCount(b) > MAX_STR_DIGITS
    ensures ParseInt(w1 + signo + b + w2).None?
  {
    var x := signo + b;
    var s := w1 + signo + b + w2;
    assert s == w1 + x + w2;
    assert x[|x| - 1] == b[|b| - 1];
    StripPadded(w1, x, w2);
    if signo != "" {
      assert x[1..] == b;
      assert !IsDigit(x[0]);
      assert !WellFormedDigits(x);
      assert !Convertible(x[1..]);
    } else {
      assert x == b by { assert signo == []; }
      assert x[0] != '+' && x[0] != '-';
      assert !Convertible(x);
    }
    RechazaSinDigitos(s);
  }

  /** Text that, stripped, is no convertible digit string, signed or not, is refused. */
  lemma RechazaSinDigitos(s: string)
    requires var t := Strip(s); !Convertible(t) && !(t != [] && (t[0] == '+' || t[0] == '-') && Convertible(t[1..]))
    ensures ParseInt(s).None?
  {
  }
}
