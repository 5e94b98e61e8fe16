// The scalar and string scanner used by json.JSONDecoder.raw_decode.
module JsonScan {
  import opened Wrappers
  import opened Decimal

  // Decoded text: code points, since an escape may denote a lone surrogate.
  type Text = seq<int>

  datatype Scalar = Null | Bool(b: bool) | Int(n: int) | Float(token: string) | Str(s: Text)

  predicate IsHex(c: char) {
    '0' <= c <= '9' || 'a' <= c <= 'f' || 'A' <= c <= 'F'
  }

  function HexValue(c: char): nat
    requires IsHex(c)
  {
    if '0' <= c <= '9' then c as int - '0' as int
    else if 'a' <= c <= 'f' then c as int - 'a' as int + 10
    else c as int - 'A' as int + 10
  }

  function SimpleEscape(c: char): Option<int> {
    match c
    case '\"' => Some(34)
    case '\\' => Some(92)
    case '/' => Some(47)
    case 'b' => Some(8)
    case 'f' => Some(12)
    case 'n' => Some(10)
    case 'r' => Some(13)
    case 't' => Some(9)
    case _ => None
  }

  // One unit of a string body: its code and the characters it takes.
  function Unit(s: string): (r: Option<(int, nat)>)
    ensures r.Some? ==> 0 < r.value.1 <= |s| && s[0] != '\"'
  {
    if s == "" || s[0] == '\"' || (s[0] as int) < 32 then None
    else if s[0] != '\\' then Some((s[0] as int, 1))
    else if |s| < 2 then None
    else if s[1] == 'u' then
      if |s| >= 6 && IsHex(s[2]) && IsHex(s[3]) && IsHex(s[4]) && IsHex(s[5]) then
        Some((4096 * HexValue(s[2]) + 256 * HexValue(s[3]) + 16 * HexValue(s[4]) + HexValue(s[5]), 6))
      else None
    else match SimpleEscape(s[1])
      case Some(c) => Some((c, 2))
      case None => None
  }

  // The text after an opening quote, up to and including the closing quote.
  function Units(s: string): (r: Option<(Text, nat)>)
    ensures r.Some? ==> 0 < r.value.1 <= |s| && s[r.value.1 - 1] == '\"'
    decreases |s|
  {
    if s == "" then None
    else if s[0] == '\"' then Some(([], 1))
    else
      match Unit(s)
      case None => None
      case Some((code, n)) =>
        match Units(s[n..])
        case None => None
        case Some((rest, k)) => Some(([code] + rest, n + k))
  }

  // Escaped surrogate pairs become one code point.
  function Join(units: Text): Text
    decreases |units|
  {
    if |units| < 2 then units
    else if 0xD800 <= units[0] < 0xDC00 && 0xDC00 <= units[1] < 0xE000 then
      [0x10000 + (units[0] - 0xD800) * 0x400 + (units[1] - 0xDC00)] + Join(units[2..])
    else [units[0]] + Join(units[1..])
  }

  function ScanString(s: string): (r: Option<(Text, nat)>)
    ensures r.Some? ==> 1 < r.value.1 <= |s| && s[0] == '\"'
  {
    if s == "" || s[0] != '\"' then None
    else
      match Units(s[1..])
      case None => None
      case Some((units, n)) => Some((Join(units), n + 1))
  }

  // ---- numbers ----

  function Digits(s: string): (n: nat)
    ensures n <= |s| && AllDigits(s[..n]) && (n < |s| ==> !IsDigit(s[n]))
  {
    if s == "" || !IsDigit(s[0]) then 0 else
    assert forall i :: 0 < i < |s| ==> s[i] == s[1..][i - 1];
    1 + Digits(s[1..])
  }

  function Sign(s: string): (n: nat)
    ensures n <= |s|
  {
    if s != "" && s[0] == '-' then 1 else 0
  }

  // (?:0|[1-9]\d*)
  function IntegerPart(s: string): (n: nat)
    ensures n <= |s|
  {
    if s == "" then 0 else if s[0] == '0' then 1 else Digits(s)
  }

  // (\.\d+)?
  function Fraction(s: string): (n: nat)
    ensures n <= |s|
  {
    if s != "" && s[0] == '.' && Digits(s[1..]) > 0 then 1 + Digits(s[1..]) else 0
  }

  // ([eE][-+]?\d+)?
  function Exponent(s: string): (n: nat)
    ensures n <= |s|
  {
    if s == "" || !(s[0] == 'e' || s[0] == 'E') then 0
    else
      var sign := if |s| > 1 && IsSign(s[1]) then 2 else 1;
      if Digits(s[sign..]) > 0 then sign + Digits(s[sign..]) else 0
  }

  // The length of the number at the start of s; 0 when there is none.
  function NumberLength(s: string): (n: nat)
    ensures n <= |s|
  {
    var a := Sign(s);
    var b := IntegerPart(s[a..]);
    if b == 0 then 0 else
    var c := Fraction(s[a + b..]);
    a + b + c + Exponent(s[a + b + c..])
  }

  function NumberValue(token: string): Scalar {
    if token != "" && token[0] == '-' then
      (if AllDigits(token[1..]) then Int(0 - ParseNat(token[1..])) else Float(token))
    else if AllDigits(token) then Int(ParseNat(token)) else Float(token)
  }

  // ---- scalars ----

  function Literal(s: string): Option<(Scalar, nat)> {
    if "null" <= s then Some((Null, 4))
    else if "true" <= s then Some((Bool(true), 4))
    else if "false" <= s then Some((Bool(false), 5))
    else if "NaN" <= s then Some((Float("NaN"), 3))
    else if "Infinity" <= s then Some((Float("Infinity"), 8))
    else if "-Infinity" <= s then Some((Float("-Infinity"), 9))
    else None
  }

  function Scan(s: string): (r: Option<(Scalar, nat)>)
    ensures r.Some? ==> 0 < r.value.1 <= |s|
  {
    if Literal(s).Some? then Literal(s)
    else if ScanString(s).Some? then Some((Str(ScanString(s).value.0), ScanString(s).value.1))
    else if NumberLength(s) > 0 then Some((NumberValue(s[..NumberLength(s)]), NumberLength(s)))
    else None
  }

  predicate IsSpace(c: char) { c == ' ' || c == '\n' || c == '\r' || c == '\t' }

  predicate IsSign(c: char) { c == '+' || c == '-' }

  // What may follow a scalar in an accepted document.
  predicate Delimited(rest: string) {
    rest == "" || IsSpace(rest[0]) || rest[0] == ',' || rest[0] == ':' || rest[0] == ']' || rest[0] == '}'
  }

  // ---- a token is scanned the same way in any delimited context ----

  lemma UnitOf(s: string, t: string, k: nat)
    requires Unit(s).Some? && Unit(s).value.1 == k && k <= |t| && forall i :: 0 <= i < k ==> t[i] == s[i]
    ensures Unit(t) == Unit(s)
  {
  }

  lemma {:induction false} UnitsPrefix(s: string, rest: string)
    requires Units(s).Some?
    ensures Units(s[..Units(s).value.1] + rest) == Units(s)
    decreases |s|
  {
    var n := Units(s).value.1;
    var t := s[..n] + rest;
    hide Unit;
    assert t[0] == s[0];
    if s[0] != '\"' {
      var k := Unit(s).value.1;
      UnitsPrefix(s[k..], rest);
      assert s[k..][..n - k] + rest == t[k..];
      UnitOf(s, t, k);
    }
  }

  lemma ScanStringPrefix(s: string, rest: string)
    requires ScanString(s).Some?
    ensures ScanString(s[..ScanString(s).value.1] + rest) == ScanString(s)
  {
    var n := ScanString(s).value.1;
    UnitsPrefix(s[1..], rest);
    assert s[1..][..n - 1] + rest == (s[..n] + rest)[1..];
  }

  predicate EndsNumber(rest: string) {
    rest == "" || !(IsDigit(rest[0]) || rest[0] == '.' || rest[0] == 'e' || rest[0] == 'E' || IsSign(rest[0]))
  }

  lemma {:induction false} DigitsPrefix(s: string, n: nat, rest: string)
    requires Digits(s) <= n <= |s| && (rest != "" ==> !IsDigit(rest[0]))
    ensures Digits(s[..n] + rest) == Digits(s)
  {
    if s != "" && IsDigit(s[0]) {
      DigitsPrefix(s[1..], n - 1, rest);
      assert s[1..][..n - 1] + rest == (s[..n] + rest)[1..];
    } else if n > 0 {
      assert (s[..n] + rest)[0] == s[0];
    }
  }

  lemma NumberPrefix(s: string, rest: string)
    requires NumberLength(s) > 0 && EndsNumber(rest)
    ensures NumberLength(s[..NumberLength(s)] + rest) == NumberLength(s)
  {
    hide IntegerPart, Fraction, Exponent, EndsNumber;
    var n := NumberLength(s);
    var t := s[..n] + rest;
    var a := Sign(s);
    var b := IntegerPart(s[a..]);
    var c := Fraction(s[a + b..]);
    assert Sign(t) == a;
    assert s[a..][..n - a] + rest == t[a..];
    assert s[..n][a + b..] == s[a + b..][..n - a - b];
    assert s[a + b..][..n - a - b] + rest == t[a + b..];
    assert s[a + b + c..][..n - a - b - c] + rest == t[a + b + c..];
    IntegerPrefix(s[a..], n - a, rest);
    FractionPrefix(s[a + b..], n - a - b, rest);
    ExponentPrefix(s[a + b + c..], n - a - b - c, rest);
  }

  lemma IntegerPrefix(s: string, n: nat, rest: string)
    requires 0 < IntegerPart(s) <= n <= |s| && EndsNumber(rest)
    ensures IntegerPart(s[..n] + rest) == IntegerPart(s)
  {
    if s[0] != '0' {
      DigitsPrefix(s, n, rest);
    }
  }

  lemma FractionPrefix(s: string, n: nat, rest: string)
    requires Fraction(s) <= n <= |s| && EndsNumber(rest)
    requires n > Fraction(s) ==> Exponent(s[Fraction(s)..]) == n - Fraction(s)
    ensures Fraction(s[..n] + rest) == Fraction(s)
  {
    hide AllDigits, IsDigit;
    var t := s[..n] + rest;
    if Fraction(s) > 0 {
      assert t[0] == '.';
      DigitsPrefix(s[1..], n - 1, rest);
      assert s[1..][..n - 1] + rest == t[1..];
    } else if n == 0 {
      assert t == rest;
    } else {
      assert s[0..] == s;
      ExponentStart(s);
      assert t[0] == s[0];
    }
  }

  lemma ExponentStart(s: string)
    requires Exponent(s) > 0
    ensures s != "" && s[0] != '.'
  {
  }

  lemma ExponentPrefix(s: string, n: nat, rest: string)
    requires Exponent(s) == n && EndsNumber(rest)
    ensures Exponent(s[..n] + rest) == n
  {
    var t := s[..n] + rest;
    if n > 0 {
      var sign := if |s| > 1 && IsSign(s[1]) then 2 else 1;
      DigitsPrefix(s[sign..], n - sign, rest);
      assert s[sign..][..n - sign] + rest == t[sign..];
    }
  }

  lemma LiteralPrefix(s: string, rest: string)
    requires Literal(s).Some?
    ensures Literal(s[..Literal(s).value.1] + rest) == Literal(s)
  {
    var n := Literal(s).value.1;
    var t := s[..n] + rest;
    forall word | word in ["null", "true", "false", "NaN", "Infinity", "-Infinity"] && word <= s
      ensures word <= t
    {
      assert word[0] == s[0];
      assert |word| == n && t[..n] == s[..n] == word;
    }
    assert t[0] == s[0];
  }

  // Maximal munch stops at any delimiter, so a scalar token keeps its value and
  // length whatever document surrounds it.
  lemma ScanPrefix(s: string, rest: string)
    requires Scan(s).Some? && Delimited(rest)
    ensures Scan(s[..Scan(s).value.1] + rest) == Scan(s)
  {
    hide Literal, ScanString, NumberLength, NumberValue;
    var n := Scan(s).value.1;
    var t := s[..n] + rest;
    assert t[0] == s[0];
    if Literal(s).Some? {
      LiteralPrefix(s, rest);
    } else if ScanString(s).Some? {
      ScanStringPrefix(s, rest);
      NoLiteral(t);
    } else {
      NumberPrefix(s, rest);
      NumberStart(s);
      NumberStart(t);
      assert t[..n] == s[..n];
    }
  }

  lemma NumberStart(s: string)
    requires NumberLength(s) > 0
    ensures ScanString(s).None? && Literal(s).None?
    ensures IsDigit(s[0]) || (s[0] == '-' && |s| > 1 && IsDigit(s[1]))
  {
    var a := Sign(s);
    assert IntegerPart(s[a..]) > 0;
    assert s[a..][0] == s[a] && IsDigit(s[a]);
  }

  // A whole token: exactly one scalar, and not the start of a longer one.
  predicate Token(t: string) {
    Scan(t).Some? && Scan(t).value.1 == |t|
  }

  lemma TokenInContext(t: string, rest: string)
    requires Token(t) && Delimited(rest)
    ensures Scan(t + rest) == Scan(t)
  {
    ScanPrefix(t, rest);
    assert t[..|t|] == t;
  }

  lemma ScannedIsToken(s: string)
    requires Scan(s).Some?
    ensures Token(s[..Scan(s).value.1]) && Scan(s[..Scan(s).value.1]) == Scan(s)
  {
    ScanPrefix(s, "");
    assert s[..Scan(s).value.1] + "" == s[..Scan(s).value.1];
  }

  // ---- json.dumps of the two editable kinds ----

  function HexChar(d: nat): (c: char)
    requires d < 16
    ensures IsHex(c) && HexValue(c) == d
  {
    if d < 10 then (d + '0' as int) as char else (d - 10 + 'a' as int) as char
  }

  // ensure_ascii=False: only quotes, backslashes and control characters are escaped.
  function EscapeChar(c: char): (e: string)
    ensures |e| > 0 && Unit(e) == Some((c as int, |e|))
  {
    match c
    case '\"' => ['\\', '\"']
    case '\\' => ['\\', '\\']
    case '\n' => ['\\', 'n']
    case '\r' => ['\\', 'r']
    case '\t' => ['\\', 't']
    case _ =>
      if c as int == 8 then ['\\', 'b']
      else if c as int == 12 then ['\\', 'f']
      else if (c as int) < 32 then ['\\', 'u', '0', '0', HexChar(c as int / 16), HexChar(c as int % 16)]
      else [c]
  }

  function EscapeAll(s: string): string {
    if s == "" then "" else EscapeChar(s[0]) + EscapeAll(s[1..])
  }

  function DumpString(s: string): string {
    "\"" + EscapeAll(s) + "\""
  }

  // The code points of a string: what the decoder would return for it.
  function Codes(s: string): (t: Text)
    ensures |t| == |s| && forall i :: 0 <= i < |s| ==> t[i] == s[i] as int
  {
    seq(|s|, i requires 0 <= i < |s| => s[i] as int)
  }

  lemma {:induction false} EscapeRoundTrip(s: string)
    ensures Units(EscapeAll(s) + "\"") == Some((Codes(s), |EscapeAll(s)| + 1))
  {
    var t := EscapeAll(s) + "\"";
    if s == "" {
      assert t == "\"";
    } else {
      var e := EscapeChar(s[0]);
      EscapeRoundTrip(s[1..]);
      assert t == e + (EscapeAll(s[1..]) + "\"");
      UnitInContext(e, EscapeAll(s[1..]) + "\"");
      assert t[|e|..] == EscapeAll(s[1..]) + "\"";
      assert Codes(s) == [s[0] as int] + Codes(s[1..]);
    }
  }

  lemma UnitInContext(e: string, rest: string)
    requires Unit(e).Some? && Unit(e).value.1 == |e|
    ensures Unit(e + rest) == Unit(e)
  {
  }

  lemma {:induction false} JoinPlain(t: Text)
    requires forall i :: 0 <= i < |t| ==> !(0xD800 <= t[i] < 0xE000)
    ensures Join(t) == t
    decreases |t|
  {
    if |t| >= 2 {
      JoinPlain(t[1..]);
    }
  }

  lemma NoLiteral(t: string)
    requires t != "" && t[0] == '\"'
    ensures Literal(t).None?
  {
  }

  lemma DumpStringScans(s: string)
    ensures Token(DumpString(s)) && Scan(DumpString(s)).value.0 == Str(Codes(s))
  {
    hide Literal, EscapeAll, Units, Join;
    EscapeRoundTrip(s);
    JoinPlain(Codes(s));
    var t := DumpString(s);
    assert t[1..] == EscapeAll(s) + "\"";
    NoLiteral(t);
  }

  lemma {:induction false} DigitsAll(s: string)
    requires AllDigits(s)
    ensures Digits(s) == |s|
  {
    if s != "" {
      DigitsAll(s[1..]);
    }
  }

  lemma DumpIntScans(n: int)
    ensures Token(DecInt(n)) && Scan(DecInt(n)).value.0 == Int(n)
  {
    var t := DecInt(n);
    var digits := if n < 0 then Dec(-n) else Dec(n);
    var a := Sign(t);
    assert t[a..] == digits;
    DigitsAll(digits);
    ParseDec(if n < 0 then -n else n);
    assert t[|t|..] == "";
    assert NumberLength(t) == |t|;
    NumberStart(t);
    assert t[..|t|] == t;
  }
}
