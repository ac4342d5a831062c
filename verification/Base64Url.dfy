// base64url without padding (section 5 of RFC 4648), as Buffer writes it and leniently reads it.
module Base64Url {
  import opened Common

  type byte = x: int | 0 <= x < 256
  type sextet = x: int | 0 <= x < 64

  function Symbol(d: sextet): char {
    if d < 26 then 'A' + d as char
    else if d < 52 then 'a' + (d - 26) as char
    else if d < 62 then '0' + (d - 52) as char
    else if d == 62 then '-' else '_'
  }

  // Buffer reads both base64 alphabets and skips other characters.
  function Digit(c: char): Option<sextet> {
    if 'A' <= c <= 'Z' then Some(c as int - 'A' as int)
    else if 'a' <= c <= 'z' then Some(c as int - 'a' as int + 26)
    else if '0' <= c <= '9' then Some(c as int - '0' as int + 52)
    else if c == '-' || c == '+' then Some(62)
    else if c == '_' || c == '/' then Some(63)
    else None
  }

  lemma SymbolReads(d: sextet)
    ensures Digit(Symbol(d)) == Some(d) && Symbol(d) != '.' && Symbol(d) != '='
  {
  }

  // The middle sextets, across two bytes.
  function Second(b: byte, c: byte): sextet { b % 4 * 16 + c / 16 }
  function Third(c: byte, d: byte): sextet { c % 16 * 4 + d / 64 }

  function Sextets(bytes: seq<byte>): seq<sextet> {
    if bytes == [] then []
    else if |bytes| == 1 then [bytes[0] / 4, Second(bytes[0], 0)]
    else if |bytes| == 2 then [bytes[0] / 4, Second(bytes[0], bytes[1]), Third(bytes[1], 0)]
    else [bytes[0] / 4, Second(bytes[0], bytes[1]), Third(bytes[1], bytes[2]), bytes[2] % 64] + Sextets(bytes[3..])
  }

  function Encode(bytes: seq<byte>): (text: string)
    ensures |text| == |Sextets(bytes)|
  {
    var digits := Sextets(bytes);
    seq(|digits|, i requires 0 <= i < |digits| => Symbol(digits[i]))
  }

  // The low bits of one sextet and the high bits of the next.
  function Combine(low: int, high: int): byte
    requires 0 <= low < 256 && 0 <= high && low + high < 256
  {
    low + high
  }

  // The bytes that two, three and four sextets hold.
  function One(d0: int, d1: int): byte
    requires 0 <= d0 < 64 && 0 <= d1 < 64
  {
    Combine(d0 * 4, d1 / 16)
  }

  function Two(d1: int, d2: int): byte
    requires 0 <= d1 < 64 && 0 <= d2 < 64
  {
    Combine(d1 % 16 * 16, d2 / 4)
  }

  function Three(d2: int, d3: int): byte
    requires 0 <= d2 < 64 && 0 <= d3 < 64
  {
    Combine(d2 % 4 * 64, d3)
  }

  // A lone last sextet holds no byte.
  function Bytes(digits: seq<sextet>): seq<byte> {
    if |digits| < 2 then []
    else if |digits| == 2 then [One(digits[0], digits[1])]
    else if |digits| == 3 then [One(digits[0], digits[1]), Two(digits[1], digits[2])]
    else [One(digits[0], digits[1]), Two(digits[1], digits[2]), Three(digits[2], digits[3])] + Bytes(digits[4..])
  }

  function Digits(text: string): seq<sextet> {
    if text == "" || text[0] == '=' then []
    else match Digit(text[0])
      case Some(d) => [d] + Digits(text[1..])
      case None => Digits(text[1..])
  }

  function Decode(text: string): seq<byte> { Bytes(Digits(text)) }

  lemma Halves16(h: int, t: int)
    requires 0 <= t < 16
    ensures (h * 16 + t) / 16 == h && (h * 16 + t) % 16 == t
  {
  }

  lemma Halves4(h: int, t: int)
    requires 0 <= t < 4
    ensures (h * 4 + t) / 4 == h && (h * 4 + t) % 4 == t
  {
  }

  // The four sextets of three bytes read back, pair by pair.
  ghost predicate Reads(b: byte, c: byte, d: byte, s0: sextet, s1: sextet, s2: sextet, s3: sextet) {
    One(s0, s1) == b && Two(s1, s2) == c && Three(s2, s3) == d
  }

  lemma SextetsRead(b: byte, c: byte, d: byte, s0: sextet, s1: sextet, s2: sextet, s3: sextet)
    requires s0 == b / 4 && s1 == Second(b, c) && s2 == Third(c, d) && s3 == d % 64
    ensures Reads(b, c, d, s0, s1, s2, s3)
  {
    assert s1 / 16 == b % 4 && s1 % 16 == c / 16 by { Halves16(b % 4, c / 16); }
    assert s2 / 4 == c % 16 && s2 % 4 == d / 64 by { Halves4(c % 16, d / 64); }
  }

  lemma ReadsBytes(b: byte, c: byte, d: byte, s0: sextet, s1: sextet, s2: sextet, s3: sextet, rest: seq<sextet>)
    requires Reads(b, c, d, s0, s1, s2, s3)
    ensures Bytes([s0, s1, s2, s3] + rest) == [b, c, d] + Bytes(rest)
    ensures Bytes([s0, s1]) == [b] && Bytes([s0, s1, s2]) == [b, c]
  {
    assert ([s0, s1, s2, s3] + rest)[4..] == rest;
  }

  // The sextets of the first three bytes, missing ones taken as 0.
  lemma SextetsOf(b: byte, c: byte, d: byte) returns (s0: sextet, s1: sextet, s2: sextet, s3: sextet)
    ensures c == 0 ==> Sextets([b]) == [s0, s1]
    ensures d == 0 ==> Sextets([b, c]) == [s0, s1, s2]
    ensures forall rest: seq<byte> :: Sextets([b, c, d] + rest) == [s0, s1, s2, s3] + Sextets(rest)
    ensures Reads(b, c, d, s0, s1, s2, s3)
  {
    s0, s1, s2, s3 := b / 4, Second(b, c), Third(c, d), d % 64;
    SextetsRead(b, c, d, s0, s1, s2, s3);
    forall rest: seq<byte> ensures Sextets([b, c, d] + rest) == [s0, s1, s2, s3] + Sextets(rest) {
      assert ([b, c, d] + rest)[3..] == rest;
    }
  }

  lemma BytesOfOne(b: byte)
    ensures Bytes(Sextets([b])) == [b]
  {
    var s0, s1, s2, s3 := SextetsOf(b, 0, 0);
    ReadsBytes(b, 0, 0, s0, s1, s2, s3, []);
  }

  lemma BytesOfTwo(b: byte, c: byte)
    ensures Bytes(Sextets([b, c])) == [b, c]
  {
    var s0, s1, s2, s3 := SextetsOf(b, c, 0);
    ReadsBytes(b, c, 0, s0, s1, s2, s3, []);
  }

  lemma BytesOfThree(b: byte, c: byte, d: byte, rest: seq<byte>)
    ensures Bytes(Sextets([b, c, d] + rest)) == [b, c, d] + Bytes(Sextets(rest))
  {
    var s0, s1, s2, s3 := SextetsOf(b, c, d);
    ReadsBytes(b, c, d, s0, s1, s2, s3, Sextets(rest));
  }

  lemma {:induction false} BytesOfSextets(bytes: seq<byte>)
    ensures Bytes(Sextets(bytes)) == bytes
  {
    if |bytes| == 1 {
      BytesOfOne(bytes[0]);
      assert bytes == [bytes[0]];
    } else if |bytes| == 2 {
      BytesOfTwo(bytes[0], bytes[1]);
      assert bytes == [bytes[0], bytes[1]];
    } else if |bytes| > 2 {
      BytesOfThree(bytes[0], bytes[1], bytes[2], bytes[3..]);
      BytesOfSextets(bytes[3..]);
      assert bytes == [bytes[0], bytes[1], bytes[2]] + bytes[3..];
    }
  }

  lemma {:induction false} DigitsOfSymbols(digits: seq<sextet>, text: string)
    requires |text| == |digits| && forall i :: 0 <= i < |digits| ==> text[i] == Symbol(digits[i])
    ensures Digits(text) == digits
  {
    if digits != [] {
      SymbolReads(digits[0]);
      DigitsOfSymbols(digits[1..], text[1..]);
      assert digits == [digits[0]] + digits[1..];
    }
  }

  // Encoding loses nothing, and never writes the envelope's separator.
  lemma RoundTrip(bytes: seq<byte>)
    ensures Decode(Encode(bytes)) == bytes && '.' !in Encode(bytes) && (Encode(bytes) == "" <==> bytes == [])
  {
    var digits := Sextets(bytes);
    DigitsOfSymbols(digits, Encode(bytes));
    BytesOfSextets(bytes);
    forall i | 0 <= i < |digits| ensures Encode(bytes)[i] != '.' { SymbolReads(digits[i]); }
  }
}
