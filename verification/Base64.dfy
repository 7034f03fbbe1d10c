// Unpadded base64url, section 5 of RFC 4648 without the padding of section 3.2, encoded and decoded the way
// Go's RawURLEncoding does.
module Base64 {
  import opened Common

  type Byte = x: int | 0 <= x < 256
  type Sextet = x: int | 0 <= x < 64

  const DOT: Byte := 46
  const CARRIAGE_RETURN: Byte := 13
  const LINE_FEED: Byte := 10

  // A to Z, a to z, 0 to 9, '-' and '_'.
  function Letter(v: Sextet): Byte {
    if v < 26 then v + 65 else if v < 52 then v + 71 else if v < 62 then v - 4 else if v == 62 then 45 else 95
  }

  function Value(c: Byte): Option<Sextet> {
    if 65 <= c <= 90 then Some(c - 65)
    else if 97 <= c <= 122 then Some(c - 71)
    else if 48 <= c <= 57 then Some(c + 4)
    else if c == 45 then Some(62)
    else if c == 95 then Some(63)
    else None
  }

  function Encode(data: seq<Byte>): seq<Byte> {
    if data == [] then []
    else if |data| == 1 then [Letter(data[0] / 4), Letter(data[0] % 4 * 16)]
    else if |data| == 2 then
      [Letter(data[0] / 4), Letter(data[0] % 4 * 16 + data[1] / 16), Letter(data[1] % 16 * 4)]
    else
      [Letter(data[0] / 4), Letter(data[0] % 4 * 16 + data[1] / 16),
       Letter(data[1] % 16 * 4 + data[2] / 64), Letter(data[2] % 64)] + Encode(data[3..])
  }

  // The decoder skips line breaks before anything else.
  function WithoutBreaks(text: seq<Byte>): seq<Byte> {
    if text == [] then []
    else (if text[0] == CARRIAGE_RETURN || text[0] == LINE_FEED then [] else [text[0]]) + WithoutBreaks(text[1..])
  }

  function Values(text: seq<Byte>): Option<seq<Sextet>> {
    if text == [] then Some([])
    else
      var rest := Values(text[1..]);
      if Value(text[0]).Some? && rest.Some? then Some([Value(text[0]).value] + rest.value) else None
  }

  // The three bytes four values spread over.
  function First(a: Sextet, b: Sextet): Byte {
    a * 4 + b / 16
  }

  function Second(b: Sextet, c: Sextet): Byte {
    b % 16 * 16 + c / 4
  }

  function Third(c: Sextet, d: Sextet): Byte {
    c % 4 * 64 + d
  }

  // Four values make three bytes; at the end two make one and three make two, the bits left over being
  // ignored; a single value is an error.
  function Unpack(v: seq<Sextet>): Option<seq<Byte>> {
    if v == [] then Some([])
    else if |v| == 1 then None
    else if |v| == 2 then Some([First(v[0], v[1])])
    else if |v| == 3 then Some([First(v[0], v[1]), Second(v[1], v[2])])
    else
      var rest := Unpack(v[4..]);
      if rest.None? then None
      else Some([First(v[0], v[1]), Second(v[1], v[2]), Third(v[2], v[3])] + rest.value)
  }

  function Decode(text: seq<Byte>): Option<seq<Byte>> {
    var values := Values(WithoutBreaks(text));
    if values.None? then None else Unpack(values.value)
  }

  // ------------------------------------------------------------------ the round trip

  predicate Letters(text: seq<Byte>) {
    forall k :: 0 <= k < |text| ==> Value(text[k]).Some?
  }

  lemma LetterHasValue(v: Sextet)
    ensures Value(Letter(v)) == Some(v)
  {
  }

  lemma {:induction false} EncodeIsLetters(data: seq<Byte>)
    ensures Letters(Encode(data))
    decreases |data|
  {
    if |data| >= 3 {
      EncodeIsLetters(data[3..]);
    }
  }

  lemma {:induction false} LettersHaveNoBreaks(text: seq<Byte>)
    requires Letters(text)
    ensures WithoutBreaks(text) == text && DOT !in text
  {
    if text != [] {
      LettersHaveNoBreaks(text[1..]);
    }
  }

  // The values the letters of an encoding stand for.
  function Sextets(data: seq<Byte>): seq<Sextet> {
    if data == [] then []
    else if |data| == 1 then [data[0] / 4, data[0] % 4 * 16]
    else if |data| == 2 then [data[0] / 4, data[0] % 4 * 16 + data[1] / 16, data[1] % 16 * 4]
    else
      [data[0] / 4, data[0] % 4 * 16 + data[1] / 16, data[1] % 16 * 4 + data[2] / 64, data[2] % 64] + Sextets(data[3..])
  }

  function LettersOf(v: seq<Sextet>): seq<Byte> {
    seq(|v|, k requires 0 <= k < |v| => Letter(v[k]))
  }

  lemma {:induction false} EncodeSpellsSextets(data: seq<Byte>)
    ensures Encode(data) == LettersOf(Sextets(data))
    decreases |data|
  {
    if |data| >= 3 {
      EncodeSpellsSextets(data[3..]);
    }
  }

  lemma {:induction false} ValuesReadLetters(v: seq<Sextet>)
    ensures Values(LettersOf(v)) == Some(v)
  {
    if v != [] {
      LetterHasValue(v[0]);
      ValuesReadLetters(v[1..]);
      assert v == [v[0]] + v[1..];
      assert LettersOf(v)[1..] == LettersOf(v[1..]);
    }
  }

  lemma BytesSurvive(a: Byte, b: Byte, c: Byte)
    ensures First(a / 4, a % 4 * 16 + b / 16) == a
    ensures Second(a % 4 * 16 + b / 16, b % 16 * 4 + c / 64) == b
    ensures Third(b % 16 * 4 + c / 64, c % 64) == c
  {
  }

  lemma UnpackOne(a: Byte)
    ensures Unpack(Sextets([a])) == Some([a])
  {
  }

  lemma UnpackTwo(a: Byte, b: Byte)
    ensures Unpack(Sextets([a, b])) == Some([a, b])
  {
  }

  lemma SextetsOfGroup(a: Byte, b: Byte, c: Byte, rest: seq<Byte>)
    ensures Sextets([a, b, c] + rest) == [a / 4, a % 4 * 16 + b / 16, b % 16 * 4 + c / 64, c % 64] + Sextets(rest)
  {
  }

  lemma UnpackGroup(a: Sextet, b: Sextet, c: Sextet, d: Sextet, v: seq<Sextet>)
    requires Unpack(v).Some?
    ensures Unpack([a, b, c, d] + v) == Some([First(a, b), Second(b, c), Third(c, d)] + Unpack(v).value)
  {
  }

  lemma UnpackThree(a: Byte, b: Byte, c: Byte, rest: seq<Byte>)
    requires Unpack(Sextets(rest)) == Some(rest)
    ensures Unpack(Sextets([a, b, c] + rest)) == Some([a, b, c] + rest)
  {
    SextetsOfGroup(a, b, c, rest);
    UnpackGroup(a / 4, a % 4 * 16 + b / 16, b % 16 * 4 + c / 64, c % 64, Sextets(rest));
    BytesSurvive(a, b, c);
  }

  lemma {:induction false} UnpackSextets(data: seq<Byte>)
    ensures Unpack(Sextets(data)) == Some(data)
    decreases |data|
  {
    if |data| == 0 {
      assert data == [];
    } else if |data| == 1 {
      assert data == [data[0]];
      UnpackOne(data[0]);
    } else if |data| == 2 {
      assert data == [data[0], data[1]];
      UnpackTwo(data[0], data[1]);
    } else {
      UnpackSextets(data[3..]);
      UnpackThree(data[0], data[1], data[2], data[3..]);
      assert data == [data[0], data[1], data[2]] + data[3..];
    }
  }

  lemma DecodeInvertsEncode(data: seq<Byte>)
    ensures Decode(Encode(data)) == Some(data)
    ensures DOT !in Encode(data)
  {
    EncodeIsLetters(data);
    LettersHaveNoBreaks(Encode(data));
    EncodeSpellsSextets(data);
    ValuesReadLetters(Sextets(data));
    UnpackSextets(data);
  }
}
