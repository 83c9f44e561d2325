/** The text that a caller signs: METHOD, PATH, timestamp and BODY joined by newlines, and the
    decimal timestamps in it. */
module SignedRequest {
  import opened Domain

  const MIN_INT64: int := -0x8000_0000_0000_0000
  const MAX_INT64: int := 0x7FFF_FFFF_FFFF_FFFF

  newtype int64 = x: int | -0x8000_0000_0000_0000 <= x < 0x8000_0000_0000_0000

  // ---------------------------------------------------------------- printing decimals

  predicate Digit(c: char) {
    '0' <= c <= '9'
  }

  function DigitChar(d: nat): char
    requires d < 10
  {
    (d + '0' as int) as char
  }

  function DigitValue(c: char): nat
    requires Digit(c)
  {
    c as int - '0' as int
  }

  predicate Digits(s: string) {
    |s| > 0 && forall i :: 0 <= i < |s| ==> Digit(s[i])
  }

  function PrintNat(n: nat): (s: string)
    ensures Digits(s)
    ensures |s| > 1 ==> s[0] != '0'
  {
    if n < 10 then [DigitChar(n)] else PrintNat(n / 10) + [DigitChar(n % 10)]
  }

  /** %d. */
  function Print(n: int): string {
    if n < 0 then "-" + PrintNat(-n) else PrintNat(n)
  }

  // ---------------------------------------------------------------- parsing decimals

  function NatValue(s: string): nat
    requires Digits(s)
  {
    if |s| == 1 then DigitValue(s[0])
    else NatValue(s[..|s| - 1]) * 10 + DigitValue(s[|s| - 1])
  }

  /** The text without its sign, if it has one. */
  function Unsigned(s: string): string {
    if |s| > 0 && (s[0] == '+' || s[0] == '-') then s[1..] else s
  }

  function Negative(s: string): bool {
    |s| > 0 && s[0] == '-'
  }

  /** strconv.ParseInt(s, 10, 64): an optional sign and one or more digits whose value fits. */
  function ParseInt64(s: string): Option<int64> {
    if !Digits(Unsigned(s)) then None
    else
      var v := if Negative(s) then -(NatValue(Unsigned(s)) as int) else NatValue(Unsigned(s));
      if MIN_INT64 <= v <= MAX_INT64 then Some(v as int64) else None
  }

  lemma {:induction false} NatValueOfPrint(n: nat)
    ensures NatValue(PrintNat(n)) == n
  {
    if n >= 10 {
      NatValueOfPrint(n / 10);
      assert PrintNat(n)[..|PrintNat(n)| - 1] == PrintNat(n / 10);
    }
  }

  lemma {:induction false} LeadingZerosDropOut(zeros: nat, s: string)
    requires Digits(s)
    ensures Digits(Zeros(zeros) + s) && NatValue(Zeros(zeros) + s) == NatValue(s)
    decreases zeros, |s|
  {
    if zeros == 0 {
      assert Zeros(0) + s == s;
    } else if |s| == 1 {
      var t := Zeros(zeros) + s;
      assert t[..|t| - 1] == Zeros(zeros - 1) + "0";
      LeadingZerosDropOut(zeros - 1, "0");
    } else {
      var t := Zeros(zeros) + s;
      assert t[..|t| - 1] == Zeros(zeros) + s[..|s| - 1];
      LeadingZerosDropOut(zeros, s[..|s| - 1]);
    }
  }

  function Zeros(n: nat): string {
    seq(n, i => '0')
  }

  lemma ParseUnsigned(s: string)
    requires Digits(s)
    ensures Unsigned(s) == s && !Negative(s)
    ensures Unsigned("+" + s) == s && !Negative("+" + s)
    ensures Unsigned("-" + s) == s && Negative("-" + s)
  {
    assert Digit(s[0]);
  }

  /** A plus sign and leading zeros do not change what a timestamp header means. */
  lemma SignAndZerosDropOut(zeros: nat, s: string)
    requires Digits(s)
    ensures ParseInt64(Zeros(zeros) + s) == ParseInt64(s)
    ensures ParseInt64("+" + (Zeros(zeros) + s)) == ParseInt64(s)
    ensures ParseInt64("-" + (Zeros(zeros) + s)) == ParseInt64("-" + s)
  {
    LeadingZerosDropOut(zeros, s);
    ParseUnsigned(s);
    ParseUnsigned(Zeros(zeros) + s);
  }

  /** Printing a timestamp and parsing it back is the identity, over all of int64. */
  lemma ParsePrint(n: int64)
    ensures ParseInt64(Print(n as int)) == Some(n)
  {
    if n < 0 {
      NatValueOfPrint(-(n as int));
      assert Unsigned(Print(n as int)) == PrintNat(-(n as int));
    } else {
      NatValueOfPrint(n as int);
      assert Digit(PrintNat(n as int)[0]);
    }
  }

  /** A sign, or none, some zeros and the decimal digits of `n`'s absolute value. */
  predicate Spells(s: string, sign: string, zeros: nat, n: int64) {
    && s == sign + (Zeros(zeros) + PrintNat(if n < 0 then -(n as int) else n as int))
    && ((sign == "" && n >= 0) || (sign == "+" && n >= 0) || (sign == "-" && n <= 0))
  }

  lemma {:induction false} StripZeros(s: string) returns (zeros: nat)
    requires Digits(s)
    ensures s == Zeros(zeros) + PrintNat(NatValue(s))
  {
    if |s| > 1 && s[0] == '0' {
      var rest := StripZeros(s[1..]);
      zeros := rest + 1;
      assert s == Zeros(1) + s[1..];
      LeadingZerosDropOut(1, s[1..]);
      assert Zeros(zeros) == Zeros(1) + Zeros(rest);
    } else {
      zeros := 0;
      PrintOfNatValue(s);
    }
  }

  lemma ParsedIsSpelt(s: string, n: int64) returns (sign: string, zeros: nat)
    requires ParseInt64(s) == Some(n)
    ensures Spells(s, sign, zeros, n)
  {
    var digits := Unsigned(s);
    zeros := StripZeros(digits);
    sign := s[..|s| - |digits|];
    assert s == sign + digits;
  }

  lemma SpeltIsParsed(s: string, sign: string, zeros: nat, n: int64)
    requires Spells(s, sign, zeros, n)
    ensures ParseInt64(s) == Some(n)
  {
    var size := if n < 0 then -(n as int) else n as int;
    var digits := Zeros(zeros) + PrintNat(size);
    LeadingZerosDropOut(zeros, PrintNat(size));
    ParseUnsigned(digits);
    NatValueOfPrint(size);
    assert sign == "" ==> s == digits;
  }

  /** A timestamp header parses to `n` exactly when it is a sign, or none, zeros and the digits of
      `n`, the sign agreeing; every other text, and every value out of range, is refused. */
  lemma ParsesExactly(s: string, n: int64)
    ensures ParseInt64(s) == Some(n) <==> exists sign, zeros :: Spells(s, sign, zeros, n)
  {
    if ParseInt64(s) == Some(n) {
      var sign, zeros := ParsedIsSpelt(s, n);
    }
    if sign, zeros :| Spells(s, sign, zeros, n) {
      SpeltIsParsed(s, sign, zeros, n);
    }
  }

  /** What is signed for a header that parses is the canonical decimal of its value, with any plus
      sign and any leading zeros gone, and parses to the same value again. */
  lemma PrintParseNormalises(s: string, n: int64)
    requires ParseInt64(s) == Some(n)
    ensures ParseInt64(Print(n as int)) == Some(n)
    ensures Print(n as int) == s <==> Canonical(s)
  {
    ParsePrint(n);
    CanonicalPrint(n as int);
    if Canonical(s) {
      CanonicalUnique(s, Print(n as int));
    }
  }

  /** No plus sign, no leading zero, no negative zero. */
  predicate Canonical(s: string) {
    && Digits(Unsigned(s))
    && (|s| > 0 ==> s[0] != '+')
    && (|Unsigned(s)| > 1 ==> Unsigned(s)[0] != '0')
    && s != "-0"
  }

  lemma CanonicalPrint(n: int)
    ensures Canonical(Print(n))
  {
    var digits := PrintNat(if n < 0 then -n else n);
    assert Digit(digits[0]);
    assert Unsigned(Print(n)) == digits;
    if n < 0 {
      NatValueOfPrint(-n);
      assert Print(n) == "-0" ==> digits == "0";
    }
  }

  lemma {:induction false} PrintOfNatValue(s: string)
    requires Digits(s) && (|s| > 1 ==> s[0] != '0')
    ensures PrintNat(NatValue(s)) == s
    ensures |s| > 1 ==> NatValue(s) >= 10
    ensures NatValue(s) == 0 <==> s == "0"
  {
    if |s| == 1 {
      assert s == [s[0]];
    } else {
      var front, last := s[..|s| - 1], s[|s| - 1];
      PrintOfNatValue(front);
      assert NatValue(s) / 10 == NatValue(front) && NatValue(s) % 10 == DigitValue(last);
      assert s == front + [last];
    }
  }

  lemma CanonicalUnique(s: string, t: string)
    requires Canonical(s) && Canonical(t)
    requires ParseInt64(s).Some? && ParseInt64(s) == ParseInt64(t)
    ensures s == t
  {
    PrintOfNatValue(Unsigned(s));
    PrintOfNatValue(Unsigned(t));
    assert Negative(s) ==> s == "-" + Unsigned(s);
    assert Negative(t) ==> t == "-" + Unsigned(t);
  }

  // ---------------------------------------------------------------- the string to sign

  function StringToSign(verb: string, path: string, timestamp: int64, body: string): string {
    verb + "\n" + path + "\n" + Print(timestamp as int) + "\n" + body
  }

  predicate OneLine(s: string) {
    '\n' !in s
  }

  /** The text up to the first newline and the text after it. */
  function Cut(s: string): Option<(string, string)> {
    if s == "" then None
    else if s[0] == '\n' then Some(("", s[1..]))
    else
      match Cut(s[1..])
      case None => None
      case Some((line, rest)) => Some(([s[0]] + line, rest))
  }

  lemma {:induction false} CutAtNewline(line: string, rest: string)
    requires OneLine(line)
    ensures Cut(line + "\n" + rest) == Some((line, rest))
  {
    var s := line + "\n" + rest;
    if line == "" {
      assert s[1..] == rest;
    } else {
      assert s[0] == line[0] && line[0] in line;
      assert s[1..] == line[1..] + "\n" + rest;
      CutAtNewline(line[1..], rest);
      assert [line[0]] + line[1..] == line;
    }
  }

  lemma {:induction false} CutLineIsOneLine(s: string)
    ensures Cut(s).Some? ==> OneLine(Cut(s).value.0)
  {
    if s != "" && s[0] != '\n' {
      CutLineIsOneLine(s[1..]);
    }
  }

  datatype Signed = Signed(verb: string, path: string, timestamp: int64, body: string)

  /** Reads a signed text back: three lines, then whatever is left. */
  function Parse(s: string): Option<Signed> {
    match Cut(s)
    case None => None
    case Some((verb, s1)) =>
      match Cut(s1)
      case None => None
      case Some((path, s2)) =>
        match Cut(s2)
        case None => None
        case Some((time, body)) =>
          match ParseInt64(time)
          case None => None
          case Some(n) => Some(Signed(verb, path, n, body))
  }

  lemma PrintIsOneLine(n: int)
    ensures OneLine(Print(n))
  {
    var digits := PrintNat(if n < 0 then -n else n);
    assert forall i :: 0 <= i < |digits| ==> Digit(digits[i]);
  }

  /** The signed text determines the request it was made from, whatever the body contains. */
  lemma ParseStringToSign(verb: string, path: string, timestamp: int64, body: string)
    requires OneLine(verb) && OneLine(path)
    ensures Parse(StringToSign(verb, path, timestamp, body)) == Some(Signed(verb, path, timestamp, body))
  {
    var time := Print(timestamp as int);
    var s2 := time + "\n" + body;
    var s1 := path + "\n" + s2;
    assert StringToSign(verb, path, timestamp, body) == verb + "\n" + s1;
    CutAtNewline(verb, s1);
    CutAtNewline(path, s2);
    PrintIsOneLine(timestamp as int);
    CutAtNewline(time, body);
    ParsePrint(timestamp);
  }

  /** Exactly the requests whose method and path are single lines can be read back from the text. */
  lemma RecoverableIffOneLine(verb: string, path: string, timestamp: int64, body: string)
    ensures Parse(StringToSign(verb, path, timestamp, body)) == Some(Signed(verb, path, timestamp, body))
            <==> OneLine(verb) && OneLine(path)
  {
    if OneLine(verb) && OneLine(path) {
      ParseStringToSign(verb, path, timestamp, body);
    } else if Cut(StringToSign(verb, path, timestamp, body)).Some? {
      CutLineIsOneLine(StringToSign(verb, path, timestamp, body));
      CutLineIsOneLine(Cut(StringToSign(verb, path, timestamp, body)).value.1);
    }
  }

  /** So two requests with the same text to sign are the same request. */
  lemma DistinctRequestsSignDistinctText(a: Signed, b: Signed)
    requires OneLine(a.verb) && OneLine(a.path) && OneLine(b.verb) && OneLine(b.path)
    requires StringToSign(a.verb, a.path, a.timestamp, a.body) == StringToSign(b.verb, b.path, b.timestamp, b.body)
    ensures a == b
  {
    ParseStringToSign(a.verb, a.path, a.timestamp, a.body);
    ParseStringToSign(b.verb, b.path, b.timestamp, b.body);
  }

  /** Without the condition it fails: a newline in the path moves the boundary. */
  lemma NewlineInPathIsAmbiguous()
    ensures var a, b := Signed("GET", "/a\n1", 2, "x"), Signed("GET", "/a", 1, "2\nx");
            && a != b
            && StringToSign(a.verb, a.path, a.timestamp, a.body) == "GET\n/a\n1\n2\nx"
            && StringToSign(b.verb, b.path, b.timestamp, b.body) == "GET\n/a\n1\n2\nx"
  {
    assert Print(1) == "1" && Print(2) == "2";
  }
}
