/** UTF-8, the text encoding a string goes through when a message body is
    given as text rather than as a byte buffer (`new Buffer(string)` uses
    UTF-8 by default). `Encode` is the coercion itself; `Decode` is an
    independent strict decoder, the `toString()` the publisher's tests apply
    to what reaches the channel, and the round trip between the two is
    proved below. */
module Utf8 {
  import opened Wrappers

  newtype uint8 = x: int | 0 <= x < 0x100

  type Bytes = seq<uint8>

  /** A Unicode scalar value: a code point that is not a surrogate. */
  predicate IsScalar(n: int) {
    0 <= n < 0xD800 || 0xE000 <= n < 0x11_0000
  }

  /** A continuation byte, 10xxxxxx. */
  predicate IsContinuation(b: uint8) {
    0x80 <= b < 0xC0
  }

  /** The six payload bits of a continuation byte. */
  function Payload(b: uint8): (p: int)
    requires IsContinuation(b)
    ensures 0 <= p < 64
  {
    b as int - 0x80
  }

  /** The encoding of one character: one byte below U+0080, then two, three
      or four bytes with a lead byte that announces the length. */
  function EncodeChar(c: char): (r: Bytes)
    ensures 1 <= |r| <= 4
    ensures r[0] < 0x80 <==> |r| == 1
    ensures forall i :: 1 <= i < |r| ==> IsContinuation(r[i])
  {
    var n := c as int;
    if n < 0x80 then
      [n as uint8]
    else if n < 0x800 then
      [(0xC0 + n / 64) as uint8, (0x80 + n % 64) as uint8]
    else if n < 0x1_0000 then
      [(0xE0 + n / 64 / 64) as uint8, (0x80 + n / 64 % 64) as uint8, (0x80 + n % 64) as uint8]
    else
      [(0xF0 + n / 64 / 64 / 64) as uint8, (0x80 + n / 64 / 64 % 64) as uint8,
       (0x80 + n / 64 % 64) as uint8, (0x80 + n % 64) as uint8]
  }


  /** Decodes the character at the start of `b`, with the number of bytes it
      takes. Overlong forms, surrogates, values above U+10FFFF, stray
      continuation bytes and truncated sequences are rejected. */
  function DecodeFirst(b: Bytes): (r: Option<(char, nat)>)
    requires b != []
    ensures r.Some? ==> 1 <= r.value.1 <= |b| && r.value.1 <= 4
  {
    var b0 := b[0] as int;
    if b0 < 0x80 then
      Some((b0 as char, 1))
    else if 0xC2 <= b0 < 0xE0 then
      if 2 <= |b| && IsContinuation(b[1]) then
        Some((((b0 - 0xC0) * 64 + Payload(b[1])) as char, 2))
      else None
    else if 0xE0 <= b0 < 0xF0 then
      if 3 <= |b| && IsContinuation(b[1]) && IsContinuation(b[2]) then
        var n := (b0 - 0xE0) * 4096 + Payload(b[1]) * 64 + Payload(b[2]);
        if 0x800 <= n && IsScalar(n) then Some((n as char, 3)) else None
      else None
    else if 0xF0 <= b0 < 0xF5 then
      if 4 <= |b| && IsContinuation(b[1]) && IsContinuation(b[2]) && IsContinuation(b[3]) then
        var n := (b0 - 0xF0) * 262144 + Payload(b[1]) * 4096 + Payload(b[2]) * 64 + Payload(b[3]);
        if 0x1_0000 <= n < 0x11_0000 then Some((n as char, 4)) else None
      else None
    else
      None
  }

  function Decode(b: Bytes): (r: Option<string>)
    decreases |b|
  {
    if b == [] then Some([])
    else match DecodeFirst(b)
      case None => None
      case Some((c, k)) =>
        match Decode(b[k..])
        case None => None
        case Some(rest) => Some([c] + rest)
  }

  /** Every character's encoding decodes back to that character, whatever
      follows it. */
  lemma DecodeFirstEncodeChar(c: char, rest: Bytes)
    ensures DecodeFirst(EncodeChar(c) + rest) == Some((c, |EncodeChar(c)|))
  {
  }

  /** The coercion of text to bytes. Its result always decodes back to the
      text it came from. */
  function Encode(s: string): (r: Bytes)
    ensures Decode(r) == Some(s)
  {
    if s == [] then []
    else
      var head, tail := EncodeChar(s[0]), Encode(s[1..]);
      DecodeFirstEncodeChar(s[0], tail);
      assert (head + tail)[|head|..] == tail;
      assert [s[0]] + s[1..] == s;
      head + tail
  }
}
