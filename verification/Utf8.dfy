/**
  * UTF-8 as Python encodes and decodes it with `errors="replace"`: section 3 of RFC 3629
  * for the encoding, and one U+FFFD per maximal subpart of an ill-formed sequence, as
  * section 3.9 of the Unicode Standard recommends, for the decoding.
  */
module Utf8 {
  type Byte = b: int | 0 <= b < 256

  /** A character of a Python string; a lone surrogate is one of them. */
  type CodePoint = c: int | 0 <= c <= 0x10FFFF

  const REPLACEMENT: CodePoint := 0xFFFD
  const QUESTION: CodePoint := 0x3F

  predicate Surrogate(c: CodePoint) {
    0xD800 <= c <= 0xDFFF
  }

  /** The text can be encoded as it is. */
  predicate Scalar(text: seq<CodePoint>) {
    forall i :: 0 <= i < |text| ==> !Surrogate(text[i])
  }

  function EncodeChar(c: CodePoint): (bytes: seq<Byte>)
    ensures 1 <= |bytes| <= 4
  {
    if c < 0x80 then [c]
    else if c < 0x800 then [0xC0 + c / 64, 0x80 + c % 64]
    else if c < 0x10000 then [0xE0 + c / 4096, 0x80 + c / 64 % 64, 0x80 + c % 64]
    else [0xF0 + c / 262144, 0x80 + c / 4096 % 64, 0x80 + c / 64 % 64, 0x80 + c % 64]
  }

  /** Lone surrogates cannot be encoded and become question marks. */
  function Replaced(c: CodePoint): CodePoint {
    if Surrogate(c) then QUESTION else c
  }

  function Encode(text: seq<CodePoint>): (bytes: seq<Byte>) {
    if text == [] then [] else EncodeChar(Replaced(text[0])) + Encode(text[1..])
  }

  // -------------------------------------------------------------------------- decoding

  predicate Continuation(b: Byte) {
    0x80 <= b <= 0xBF
  }

  /** The bytes that may follow a lead byte: none for a byte that cannot lead. */
  predicate SecondOk(lead: Byte, b: Byte) {
    if 0xC2 <= lead <= 0xDF then Continuation(b)
    else if lead == 0xE0 then 0xA0 <= b <= 0xBF
    else if lead == 0xED then 0x80 <= b <= 0x9F
    else if 0xE1 <= lead <= 0xEF then Continuation(b)
    else if lead == 0xF0 then 0x90 <= b <= 0xBF
    else if 0xF1 <= lead <= 0xF3 then Continuation(b)
    else lead == 0xF4 && 0x80 <= b <= 0x8F
  }

  /** How many bytes a lead byte announces; 0 if it is not one. */
  function Announced(lead: Byte): (n: nat)
    ensures n <= 4
  {
    if lead < 0x80 then 1
    else if 0xC2 <= lead <= 0xDF then 2
    else if 0xE0 <= lead <= 0xEF then 3
    else if 0xF0 <= lead <= 0xF4 then 4
    else 0
  }

  /** How many bytes from the start belong together: a whole character, or the maximal subpart of one. */
  function Span(bytes: seq<Byte>): (n: nat)
    requires bytes != []
    ensures 1 <= n <= 4 && n <= |bytes|
  {
    var want := Announced(bytes[0]);
    if want <= 1 || |bytes| < 2 || !SecondOk(bytes[0], bytes[1]) then 1
    else if want == 2 || |bytes| < 3 || !Continuation(bytes[2]) then 2
    else if want == 3 || |bytes| < 4 || !Continuation(bytes[3]) then 3
    else 4
  }

  /** The six bits a continuation byte carries. */
  function Low(b: Byte): int {
    b - 0x80
  }

  function DecodeChar(bytes: seq<Byte>): (c: CodePoint)
    requires bytes != []
  {
    var n := Span(bytes);
    var lead: int := bytes[0];
    if n != Announced(bytes[0]) then REPLACEMENT
    else if n == 1 then lead
    else if n == 2 then (lead - 0xC0) * 64 + Low(bytes[1])
    else if n == 3 then (lead - 0xE0) * 4096 + Low(bytes[1]) * 64 + Low(bytes[2])
    else (lead - 0xF0) * 262144 + Low(bytes[1]) * 4096 + Low(bytes[2]) * 64 + Low(bytes[3])
  }

  function Decode(bytes: seq<Byte>): (text: seq<CodePoint>)
    decreases |bytes|
  {
    if bytes == [] then [] else [DecodeChar(bytes)] + Decode(bytes[Span(bytes)..])
  }

  // ------------------------------------------------------------------------ round trip

  lemma EncodedSpan(c: CodePoint, rest: seq<Byte>)
    requires !Surrogate(c)
    ensures Span(EncodeChar(c) + rest) == |EncodeChar(c)| == Announced(EncodeChar(c)[0])
  {
    var e := EncodeChar(c);
    var bytes := e + rest;
    assert bytes[0] == e[0];
    if c < 0x80 {
    } else if c < 0x800 {
      assert bytes[1] == e[1];
    } else if c < 0x10000 {
      assert bytes[1] == e[1] && bytes[2] == e[2];
      Second3(c);
    } else {
      assert bytes[1] == e[1] && bytes[2] == e[2] && bytes[3] == e[3];
      Second4(c);
    }
  }

  /** The second of three bytes is one that may follow the first, unless a surrogate is encoded. */
  lemma Second3(c: CodePoint)
    requires !Surrogate(c) && 0x800 <= c < 0x10000
    ensures var lead: Byte := 0xE0 + c / 4096; Announced(lead) == 3 && SecondOk(lead, 0x80 + c / 64 % 64)
  {
  }

  lemma Second4(c: CodePoint)
    requires 0x10000 <= c
    ensures var lead: Byte := 0xF0 + c / 262144; Announced(lead) == 4 && SecondOk(lead, 0x80 + c / 4096 % 64)
  {
  }

  lemma SixBits(c: nat)
    ensures c == c / 64 * 64 + c % 64
    ensures c / 64 == c / 4096 * 64 + c / 64 % 64
    ensures c / 4096 == c / 262144 * 64 + c / 4096 % 64
  {
  }

  lemma CharRoundTrip(c: CodePoint, rest: seq<Byte>)
    requires !Surrogate(c)
    ensures DecodeChar(EncodeChar(c) + rest) == c
  {
    EncodedSpan(c, rest);
    SixBits(c);
    var e := EncodeChar(c);
    var bytes := e + rest;
    assert bytes[0] == e[0];
    if c < 0x80 {
    } else if c < 0x800 {
      assert bytes[1] == e[1];
    } else if c < 0x10000 {
      assert bytes[1] == e[1] && bytes[2] == e[2];
    } else {
      assert bytes[1] == e[1] && bytes[2] == e[2] && bytes[3] == e[3];
    }
  }

  lemma DecodeFirst(first: seq<Byte>, c: CodePoint, rest: seq<Byte>)
    requires first != [] && Span(first + rest) == |first| && DecodeChar(first + rest) == c
    ensures Decode(first + rest) == [c] + Decode(rest)
  {
    assert (first + rest)[|first|..] == rest;
  }

  lemma CharDecodes(c: CodePoint, rest: seq<Byte>)
    requires !Surrogate(c)
    ensures Decode(EncodeChar(c) + rest) == [c] + Decode(rest)
  {
    hide Span, DecodeChar, Decode;
    EncodedSpan(c, rest);
    CharRoundTrip(c, rest);
    DecodeFirst(EncodeChar(c), c, rest);
  }

  lemma Join<T>(a: seq<T>, b: seq<T>, c: seq<T>)
    ensures a + b + c == a + (b + c)
  {
  }

  /** Decoding undoes encoding, and leaves whatever follows to be decoded by itself. */
  lemma {:induction false} DecodeAfterEncode(text: seq<CodePoint>, rest: seq<Byte>)
    requires Scalar(text)
    ensures Decode(Encode(text) + rest) == text + Decode(rest)
  {
    if text == [] {
      assert Encode(text) + rest == rest;
    } else {
      assert !Surrogate(text[0]) && Encode(text) == EncodeChar(text[0]) + Encode(text[1..]);
      hide Encode, Decode, EncodeChar, Surrogate;
      Join(EncodeChar(text[0]), Encode(text[1..]), rest);
      CharDecodes(text[0], Encode(text[1..]) + rest);
      DecodeAfterEncode(text[1..], rest);
      Join([text[0]], text[1..], Decode(rest));
      assert [text[0]] + text[1..] == text;
    }
  }

  // ------------------------------------------------------------------------ damaged input

  /** A character that was cut short, before anything that does not continue it. */
  lemma TornSpan(c: CodePoint, k: nat, rest: seq<Byte>)
    requires !Surrogate(c) && 1 <= k < |EncodeChar(c)| && (rest == [] || !Continuation(rest[0]))
    ensures Span(EncodeChar(c)[..k] + rest) == k < Announced(EncodeChar(c)[0])
  {
    var e := EncodeChar(c);
    var bytes := e[..k] + rest;
    assert bytes[0] == e[0] && (k > 1 ==> bytes[1] == e[1]) && (k > 2 ==> bytes[2] == e[2]);
    assert rest != [] ==> bytes[k] == rest[0];
    if c < 0x800 {
    } else if c < 0x10000 {
      Second3(c);
    } else {
      Second4(c);
    }
  }

  /**
    * Damage is marked and does not spread: a torn character reads as one U+FFFD, so does a byte that
    * begins none, and what follows is decoded as if it stood alone.
    */
  lemma DamageIsMarked(c: CodePoint, k: nat, stray: Byte, rest: seq<Byte>)
    ensures !Surrogate(c) && 1 <= k < |EncodeChar(c)| && (rest == [] || !Continuation(rest[0])) ==>
              Decode(EncodeChar(c)[..k] + rest) == [REPLACEMENT] + Decode(rest)
    ensures 0x80 <= stray < 0xC2 || stray > 0xF4 ==> Decode([stray] + rest) == [REPLACEMENT] + Decode(rest)
  {
    if !Surrogate(c) && 1 <= k < |EncodeChar(c)| && (rest == [] || !Continuation(rest[0])) {
      TornSpan(c, k, rest);
      assert (EncodeChar(c)[..k] + rest)[k..] == rest;
      assert (EncodeChar(c)[..k] + rest)[0] == EncodeChar(c)[0];
    }
    assert ([stray] + rest)[1..] == rest;
  }
}
