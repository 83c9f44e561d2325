/** Base64 with the URL and filename safe alphabet and no padding: section 5 of RFC 4648. */
module Base64Url {
  import opened Domain

  newtype byte = x: int | 0 <= x < 256
  newtype sextet = x: int | 0 <= x < 64

  // ---------------------------------------------------------------- the alphabet

  function CharOf(s: sextet): char {
    var n := s as int;
    if n < 26 then (n + 'A' as int) as char
    else if n < 52 then (n - 26 + 'a' as int) as char
    else if n < 62 then (n - 52 + '0' as int) as char
    else if n == 62 then '-'
    else '_'
  }

  function SextetOf(c: char): Option<sextet> {
    if 'A' <= c <= 'Z' then Some((c as int - 'A' as int) as sextet)
    else if 'a' <= c <= 'z' then Some((c as int - 'a' as int + 26) as sextet)
    else if '0' <= c <= '9' then Some((c as int - '0' as int + 52) as sextet)
    else if c == '-' then Some(62)
    else if c == '_' then Some(63)
    else None
  }

  predicate UrlSafe(c: char) {
    'A' <= c <= 'Z' || 'a' <= c <= 'z' || '0' <= c <= '9' || c == '-' || c == '_'
  }

  lemma AlphabetRoundTrip(s: sextet, c: char)
    ensures UrlSafe(CharOf(s)) && SextetOf(CharOf(s)) == Some(s)
    ensures SextetOf(c) == Some(s) ==> c == CharOf(s)
    ensures SextetOf(c).Some? <==> UrlSafe(c)
  {
  }

  // ---------------------------------------------------------------- bytes to sextets

  function Sextets(b: seq<byte>): (s: seq<sextet>)
    ensures |s| == (4 * |b| + 2) / 3
  {
    if |b| == 0 then []
    else if |b| == 1 then [Hi(b[0]), Mid(b[0], 0)]
    else if |b| == 2 then [Hi(b[0]), Mid(b[0], b[1]), Low(b[1], 0)]
    else [Hi(b[0]), Mid(b[0], b[1]), Low(b[1], b[2]), Last(b[2])] + Sextets(b[3..])
  }

  function Hi(x: byte): sextet { (x as int / 4) as sextet }
  function Mid(x: byte, y: byte): sextet { (x as int % 4 * 16 + y as int / 16) as sextet }
  function Low(y: byte, z: byte): sextet { (y as int % 16 * 4 + z as int / 64) as sextet }
  function Last(z: byte): sextet { (z as int % 64) as sextet }

  function First(a: sextet, b: sextet): byte { (a as int * 4 + b as int / 16) as byte }
  function Second(b: sextet, c: sextet): byte { (b as int % 16 * 16 + c as int / 4) as byte }
  function Third(c: sextet, d: sextet): byte { (c as int % 4 * 64 + d as int) as byte }

  /** The inverse of Sextets.  A trailing group of one sextet, or one whose unused low bits are
      not zero, encodes nothing. */
  function Bytes(s: seq<sextet>): Option<seq<byte>> {
    if |s| == 0 then Some([])
    else if |s| == 1 then None
    else if |s| == 2 then
      if s[1] as int % 16 == 0 then Some([First(s[0], s[1])]) else None
    else if |s| == 3 then
      if s[2] as int % 4 == 0 then Some([First(s[0], s[1]), Second(s[1], s[2])]) else None
    else
      match Bytes(s[4..])
      case None => None
      case Some(rest) => Some([First(s[0], s[1]), Second(s[1], s[2]), Third(s[2], s[3])] + rest)
  }

  lemma QuadOfTriple(x: byte, y: byte, z: byte)
    ensures First(Hi(x), Mid(x, y)) == x
    ensures Second(Mid(x, y), Low(y, z)) == y
    ensures Third(Low(y, z), Last(z)) == z
  {
  }

  lemma TripleOfQuad(a: sextet, b: sextet, c: sextet, d: sextet)
    ensures Hi(First(a, b)) == a
    ensures Mid(First(a, b), Second(b, c)) == b
    ensures Low(Second(b, c), Third(c, d)) == c
    ensures Last(Third(c, d)) == d
  {
  }

  lemma UnusedBitsAreZero(x: byte)
    ensures Mid(x, 0) as int % 16 == 0
    ensures Low(x, 0) as int % 4 == 0
  {
  }

  lemma BytesOfOne(b: seq<byte>)
    requires |b| == 1
    ensures Bytes(Sextets(b)) == Some(b)
  {
    var hi, mid := Hi(b[0]), Mid(b[0], 0);
    assert First(hi, mid) == b[0] && mid as int % 16 == 0 by {
      QuadOfTriple(b[0], 0, 0);
      UnusedBitsAreZero(b[0]);
    }
    assert Sextets(b) == [hi, mid];
    assert b == [b[0]];
  }

  lemma BytesOfTwo(b: seq<byte>)
    requires |b| == 2
    ensures Bytes(Sextets(b)) == Some(b)
  {
    QuadOfTriple(b[0], b[1], 0);
    UnusedBitsAreZero(b[1]);
    assert b == [b[0], b[1]];
  }

  lemma {:induction false} BytesOfSextets(b: seq<byte>)
    ensures Bytes(Sextets(b)) == Some(b)
  {
    if |b| == 1 {
      BytesOfOne(b);
    } else if |b| == 2 {
      BytesOfTwo(b);
    } else if |b| >= 3 {
      QuadOfTriple(b[0], b[1], b[2]);
      BytesOfSextets(b[3..]);
      assert Sextets(b)[4..] == Sextets(b[3..]);
      assert b == [b[0], b[1], b[2]] + b[3..];
    }
  }

  lemma {:induction false} SextetsOfBytes(s: seq<sextet>)
    ensures Bytes(s).Some? ==> Sextets(Bytes(s).value) == s
  {
    if Bytes(s).Some? {
      if |s| == 2 {
        TripleOfQuad(s[0], s[1], 0, 0);
      } else if |s| == 3 {
        TripleOfQuad(s[0], s[1], s[2], 0);
      } else if |s| >= 4 {
        TripleOfQuad(s[0], s[1], s[2], s[3]);
        SextetsOfBytes(s[4..]);
        assert Bytes(s).value[3..] == Bytes(s[4..]).value;
        assert s == [s[0], s[1], s[2], s[3]] + s[4..];
      }
    }
  }

  // ---------------------------------------------------------------- text

  function Chars(s: seq<sextet>): (t: string)
    ensures |t| == |s|
    ensures forall i :: 0 <= i < |s| ==> t[i] == CharOf(s[i])
  {
    seq(|s|, i requires 0 <= i < |s| => CharOf(s[i]))
  }

  function SextetsIn(t: string): (s: Option<seq<sextet>>)
    ensures s.Some? <==> forall i :: 0 <= i < |t| ==> UrlSafe(t[i])
    ensures s.Some? ==> |s.value| == |t| && forall i :: 0 <= i < |t| ==> SextetOf(t[i]) == Some(s.value[i])
  {
    if forall i | 0 <= i < |t| :: SextetOf(t[i]).Some? then
      Some(seq(|t|, i requires 0 <= i < |t| => SextetOf(t[i]).value))
    else None
  }

  function Encode(b: seq<byte>): string {
    Chars(Sextets(b))
  }

  function Decode(t: string): Option<seq<byte>> {
    match SextetsIn(t)
    case None => None
    case Some(s) => Bytes(s)
  }

  /** Decoding inverts encoding, for byte strings of every length. */
  lemma DecodeEncode(b: seq<byte>)
    ensures Decode(Encode(b)) == Some(b)
  {
    forall i | 0 <= i < |Encode(b)| ensures SextetOf(Encode(b)[i]) == Some(Sextets(b)[i]) {
      AlphabetRoundTrip(Sextets(b)[i], Encode(b)[i]);
    }
    assert SextetsIn(Encode(b)).value == Sextets(b);
    BytesOfSextets(b);
  }

  /** A text decodes to `b` exactly when it is the encoding of `b`: the encoding is canonical. */
  lemma DecodeIffEncode(t: string, b: seq<byte>)
    ensures Decode(t) == Some(b) <==> t == Encode(b)
  {
    DecodeEncode(b);
    if Decode(t) == Some(b) {
      var s := SextetsIn(t).value;
      SextetsOfBytes(s);
      forall i | 0 <= i < |t| ensures t[i] == CharOf(s[i]) {
        AlphabetRoundTrip(s[i], t[i]);
      }
      assert t == Chars(s);
    }
  }

  lemma EncodeInjective(a: seq<byte>, b: seq<byte>)
    requires Encode(a) == Encode(b)
    ensures a == b
  {
    DecodeEncode(a);
    DecodeEncode(b);
  }

  lemma EncodeIsUrlSafe(b: seq<byte>, i: nat)
    requires i < |Encode(b)|
    ensures UrlSafe(Encode(b)[i])
  {
    AlphabetRoundTrip(Sextets(b)[i], Encode(b)[i]);
  }

  // ---------------------------------------------------------------- the encoding, character by character

  /** Byte `j`, or the zero bits that fill up the last character. */
  function ByteOrZero(b: seq<byte>, j: nat): nat {
    if j < |b| then b[j] as int else 0
  }

  /** Bits 6i to 6i + 5 of the byte string, most significant first. */
  function SixBits(b: seq<byte>, i: nat): nat {
    var j := i / 4 * 3;
    match i % 4
    case 0 => ByteOrZero(b, j) / 4
    case 1 => ByteOrZero(b, j) % 4 * 16 + ByteOrZero(b, j + 1) / 16
    case 2 => ByteOrZero(b, j + 1) % 16 * 4 + ByteOrZero(b, j + 2) / 64
    case _ => ByteOrZero(b, j + 2) % 64
  }

  lemma FirstSixBits(b: seq<byte>, i: nat)
    requires i < |Sextets(b)| && i < 4
    ensures Sextets(b)[i] as int == SixBits(b, i)
  {
  }

  lemma SixBitsFurtherOn(b: seq<byte>, i: nat)
    requires |b| >= 3 && i >= 4
    ensures SixBits(b[3..], i - 4) == SixBits(b, i)
  {
    assert (i - 4) / 4 * 3 == i / 4 * 3 - 3 && (i - 4) % 4 == i % 4;
    assert forall j: nat :: ByteOrZero(b[3..], j) == ByteOrZero(b, j + 3);
  }

  lemma {:induction false} SextetsAreSixBits(b: seq<byte>, i: nat)
    requires i < |Sextets(b)|
    ensures Sextets(b)[i] as int == SixBits(b, i)
  {
    if i < 4 {
      FirstSixBits(b, i);
    } else {
      SextetsAreSixBits(b[3..], i - 4);
      SixBitsFurtherOn(b, i);
    }
  }

  /** Each character stands for six bits of the byte string, in order, by the alphabet of table 2 of
      RFC 4648, and there are no more characters than those bits need. */
  lemma EncodeIsSixBitsEach(b: seq<byte>, i: nat)
    ensures |Encode(b)| == (8 * |b| + 5) / 6
    ensures i < |Encode(b)| ==>
              var v, c := SixBits(b, i), Encode(b)[i];
              && v < 64
              && (v < 26 ==> c as int == 'A' as int + v)
              && (26 <= v < 52 ==> c as int == 'a' as int + v - 26)
              && (52 <= v < 62 ==> c as int == '0' as int + v - 52)
              && (v == 62 ==> c == '-') && (v == 63 ==> c == '_')
  {
    if i < |Encode(b)| {
      SextetsAreSixBits(b, i);
    }
  }
}
