// The signed page tokens of the pocket list: who asked, where the page ended and what was listed, in
// base64url beside a message authentication code. mac stands for the keyed HMAC and may be any function.
module CursorToken {
  import opened Common
  import opened Base64

  const COLON: Byte := 58
  const MINUS: Byte := 45
  const PLUS: Byte := 43
  const ZERO: Byte := 48

  datatype Refusal = Malformed | Mismatch

  predicate IsInt64(n: int) {
    -INT64_MAX - 1 <= n <= INT64_MAX
  }

  predicate IsDigit(c: Byte) {
    ZERO <= c <= ZERO + 9
  }

  function DigitsOf(n: nat): seq<Byte> {
    if n < 10 then [ZERO + n] else DigitsOf(n / 10) + [ZERO + n % 10]
  }

  // strconv.FormatInt in base 10.
  function Decimal(n: int): seq<Byte> {
    if n < 0 then [MINUS] + DigitsOf(-n) else DigitsOf(n)
  }

  predicate AllDigits(s: seq<Byte>) {
    forall k :: 0 <= k < |s| ==> IsDigit(s[k])
  }

  function NumberOf(s: seq<Byte>): int {
    if s == [] then 0 else NumberOf(s[..|s| - 1]) * 10 + (s[|s| - 1] - ZERO)
  }

  // strconv.ParseInt in base 10 for 64 bits: an optional sign, at least one digit, nothing else, in range.
  function ParseInt(s: seq<Byte>): Option<int> {
    var signed := s != [] && (s[0] == MINUS || s[0] == PLUS);
    var digits := if signed then s[1..] else s;
    if digits == [] || !AllDigits(digits) then None
    else
      var n := if signed && s[0] == MINUS then -NumberOf(digits) else NumberOf(digits);
      if IsInt64(n) then Some(n) else None
  }

  // strings.SplitN with at least one part; strings.Split is the case where parts never runs out.
  function SplitN(s: seq<Byte>, sep: Byte, parts: nat): (r: seq<seq<Byte>>)
    ensures |r| >= 1
  {
    if s == [] || parts <= 1 then [s]
    else if s[0] == sep then [[]] + SplitN(s[1..], sep, parts - 1)
    else
      var r := SplitN(s[1..], sep, parts);
      [[s[0]] + r[0]] + r[1..]
  }

  function Split(s: seq<Byte>, sep: Byte): seq<seq<Byte>> {
    SplitN(s, sep, |s| + 1)
  }

  function Payload(actor: int, id: int, scope: seq<Byte>): seq<Byte> {
    Decimal(actor) + [COLON] + Decimal(id) + [COLON] + scope
  }

  function Cursor(mac: seq<Byte> -> seq<Byte>, actor: int, id: int, scope: seq<Byte>): seq<Byte> {
    var data := Payload(actor, id, scope);
    Encode(data) + [DOT] + Encode(mac(data))
  }

  // What the signed data of a token says to this actor and scope.
  function ReadPayload(data: seq<Byte>, actor: int, scope: seq<Byte>): Result<int, Refusal> {
    var values := SplitN(data, COLON, 3);
    if |values| != 3 || values[0] != Decimal(actor) || values[2] != scope then Err(Mismatch)
    else
      var id := ParseInt(values[1]);
      if id.None? || id.value <= 0 then Err(Malformed) else Ok(id.value)
  }

  function ParseCursor(mac: seq<Byte> -> seq<Byte>, token: seq<Byte>, actor: int,
        scope: seq<Byte>): Result<int, Refusal> {
    if token == [] then Ok(0)
    else
      var parts := Split(token, DOT);
      if |parts| != 2 then Err(Malformed)
      else
        var data, signature := Decode(parts[0]), Decode(parts[1]);
        if data.None? || signature.None? then Err(Malformed)
        else if signature.value != mac(data.value) then Err(Malformed)
        else ReadPayload(data.value, actor, scope)
  }

  // ------------------------------------------------------------------ numbers

  lemma {:induction false} DigitsRoundTrip(n: nat)
    ensures DigitsOf(n) != [] && AllDigits(DigitsOf(n)) && NumberOf(DigitsOf(n)) == n
  {
    if n < 10 {
      assert [ZERO + n][..0] == [];
    } else {
      DigitsRoundTrip(n / 10);
      assert DigitsOf(n)[..|DigitsOf(n)| - 1] == DigitsOf(n / 10);
    }
  }

  lemma DecimalRoundTrip(n: int)
    requires IsInt64(n)
    ensures ParseInt(Decimal(n)) == Some(n)
    ensures COLON !in Decimal(n)
  {
    var m := if n < 0 then -n else n;
    DigitsRoundTrip(m);
    if n < 0 {
      assert Decimal(n)[1..] == DigitsOf(m);
    } else {
      assert IsDigit(Decimal(n)[0]);
    }
  }

  // ------------------------------------------------------------------ parts

  lemma {:induction false} SplitAtSeparator(a: seq<Byte>, sep: Byte, b: seq<Byte>, parts: nat)
    requires sep !in a && parts >= 2
    ensures SplitN(a + [sep] + b, sep, parts) == [a] + SplitN(b, sep, parts - 1)
  {
    var s := a + [sep] + b;
    if a == [] {
      assert s[1..] == b;
    } else {
      SplitAtSeparator(a[1..], sep, b, parts);
      assert s[1..] == a[1..] + [sep] + b;
      assert a == [a[0]] + a[1..];
    }
  }

  lemma {:induction false} SplitWithoutSeparator(a: seq<Byte>, sep: Byte, parts: nat)
    requires sep !in a
    ensures SplitN(a, sep, parts) == [a]
  {
    if a != [] && parts >= 2 {
      SplitWithoutSeparator(a[1..], sep, parts);
      assert a == [a[0]] + a[1..];
    }
  }

  // The scope may hold colons itself.
  lemma PayloadParts(actor: int, id: int, scope: seq<Byte>)
    requires IsInt64(actor) && IsInt64(id)
    ensures SplitN(Payload(actor, id, scope), COLON, 3) == [Decimal(actor), Decimal(id), scope]
  {
    DecimalRoundTrip(actor);
    DecimalRoundTrip(id);
    var tail := Decimal(id) + [COLON] + scope;
    assert Payload(actor, id, scope) == Decimal(actor) + [COLON] + tail;
    SplitAtSeparator(Decimal(actor), COLON, tail, 3);
    SplitAtSeparator(Decimal(id), COLON, scope, 2);
  }

  lemma SplitPair(a: seq<Byte>, b: seq<Byte>)
    requires DOT !in a && DOT !in b
    ensures Split(a + [DOT] + b, DOT) == [a, b]
  {
    var n := |a + [DOT] + b| + 1;
    SplitAtSeparator(a, DOT, b, n);
    SplitWithoutSeparator(b, DOT, n - 1);
  }

  lemma TokenParts(mac: seq<Byte> -> seq<Byte>, actor: int, id: int, scope: seq<Byte>)
    ensures var data := Payload(actor, id, scope);
            Split(Cursor(mac, actor, id, scope), DOT) == [Encode(data), Encode(mac(data))]
  {
    var data := Payload(actor, id, scope);
    DecodeInvertsEncode(data);
    DecodeInvertsEncode(mac(data));
    SplitPair(Encode(data), Encode(mac(data)));
  }

  // ------------------------------------------------------------------ the tokens

  // A token is accepted for the actor and the scope it was made for, and gives back its id; for any other
  // actor or scope it is refused.
  lemma CursorRoundTrip(mac: seq<Byte> -> seq<Byte>, actor: int, id: int, scope: seq<Byte>, actor': int,
        scope': seq<Byte>)
    requires IsInt64(actor) && IsInt64(id) && IsInt64(actor') && id > 0
    ensures ParseCursor(mac, Cursor(mac, actor, id, scope), actor', scope')
         == if actor == actor' && scope == scope' then Ok(id) else Err(Mismatch)
  {
    var data := Payload(actor, id, scope);
    TokenParts(mac, actor, id, scope);
    DecodeInvertsEncode(data);
    DecodeInvertsEncode(mac(data));
    PayloadParts(actor, id, scope);
    DecimalRoundTrip(id);
    DecimalRoundTrip(actor);
    DecimalRoundTrip(actor');
  }

  // Two actors or scopes never share a token.
  lemma CursorIsInjective(mac: seq<Byte> -> seq<Byte>, a: int, i: int, s: seq<Byte>, a': int, i': int, s': seq<Byte>)
    requires IsInt64(a) && IsInt64(i) && IsInt64(a') && IsInt64(i') && i > 0 && i' > 0
    requires Cursor(mac, a, i, s) == Cursor(mac, a', i', s')
    ensures a == a' && i == i' && s == s'
  {
    CursorRoundTrip(mac, a, i, s, a, s);
    CursorRoundTrip(mac, a', i', s', a, s);
  }

  predicate Carries(mac: seq<Byte> -> seq<Byte>, token: seq<Byte>, data: seq<Byte>) {
    var parts := Split(token, DOT);
    |parts| == 2 && Decode(parts[0]) == Some(data) && Decode(parts[1]) == Some(mac(data))
  }

  // Whatever is accepted carries the code of data that names this actor, this scope and the id returned.
  lemma AcceptedIsSigned(mac: seq<Byte> -> seq<Byte>, token: seq<Byte>, actor: int, scope: seq<Byte>)
    returns (digits: seq<Byte>)
    requires token != [] && ParseCursor(mac, token, actor, scope).Ok?
    ensures Carries(mac, token, Decimal(actor) + [COLON] + digits + [COLON] + scope)
    ensures ParseInt(digits) == Some(ParseCursor(mac, token, actor, scope).value)
    ensures ParseCursor(mac, token, actor, scope).value > 0
  {
    var data := Decode(Split(token, DOT)[0]).value;
    PartsRejoin(data);
    digits := SplitN(data, COLON, 3)[1];
  }

  lemma PartsRejoin(data: seq<Byte>)
    requires |SplitN(data, COLON, 3)| == 3
    ensures var v := SplitN(data, COLON, 3);
            data == v[0] + [COLON] + v[1] + [COLON] + v[2]
  {
    SplitRejoins(data, COLON, 3);
    var v := SplitN(data, COLON, 3);
    assert v[1..] == [v[1], v[2]] && v[1..][1..] == [v[2]];
    assert Join(v[1..], COLON) == v[1] + [COLON] + v[2];
  }

  function Join(parts: seq<seq<Byte>>, sep: Byte): seq<Byte>
    requires parts != []
  {
    if |parts| == 1 then parts[0] else parts[0] + [sep] + Join(parts[1..], sep)
  }

  lemma {:induction false} SplitRejoins(s: seq<Byte>, sep: Byte, parts: nat)
    ensures Join(SplitN(s, sep, parts), sep) == s
  {
    if s != [] && parts > 1 {
      if s[0] == sep {
        SplitRejoins(s[1..], sep, parts - 1);
        assert SplitN(s, sep, parts)[1..] == SplitN(s[1..], sep, parts - 1);
      } else {
        SplitRejoins(s[1..], sep, parts);
        var r := SplitN(s[1..], sep, parts);
        assert SplitN(s, sep, parts)[1..] == r[1..];
      }
    }
  }
}
