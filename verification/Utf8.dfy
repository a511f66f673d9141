/** The two UTF-8 acceptance loops, specified by the encoder of RFC 3629, section 3. */
module Utf8 {
  type Byte = b: int | 0 <= b < 256

  /** Unicode scalar values: every code point except the surrogates. */
  type Scalar = c: int | 0 <= c < 0xD800 || 0xE000 <= c <= 0x10FFFF

  /** The 1 to 4 byte encoding of one scalar value. */
  function Encode(c: Scalar): (bytes: seq<Byte>)
    ensures 1 <= |bytes| <= 4
  {
    if c < 0x80 then [c]
    else if c < 0x800 then [0xC0 + c / 64, 0x80 + c % 64]
    else if c < 0x10000 then [0xE0 + c / 4096, 0x80 + c / 64 % 64, 0x80 + c % 64]
    else [0xF0 + c / 262144, 0x80 + c / 4096 % 64, 0x80 + c / 64 % 64, 0x80 + c % 64]
  }

  function EncodeAll(cs: seq<Scalar>): seq<Byte> {
    if cs == [] then [] else Encode(cs[0]) + EncodeAll(cs[1..])
  }

  /** The byte strings UTF-8 defines: the concatenations of encoded scalar values. */
  ghost predicate WellFormed(bytes: seq<Byte>) {
    exists cs: seq<Scalar> :: EncodeAll(cs) == bytes
  }

  ghost predicate Encodes(c: Scalar, bytes: seq<Byte>, at: nat)
    requires at <= |bytes|
  {
    Encode(c) <= bytes[at..]
  }

  /** How many bytes the lead byte announces: 0 when it cannot start a sequence. */
  function Announced(first: int): nat {
    if first <= 0x7F then 1
    else if 0xC2 <= first <= 0xDF then 2
    else if 0xE0 <= first <= 0xEF then 3
    else if 0xF0 <= first <= 0xF4 then 4
    else 0
  }

  /** The code point accumulated from the lead byte and the `n - 1` continuation bytes that follow it. */
  function CodePoint(bytes: seq<Byte>, at: nat, n: nat): int
    requires 1 <= n && at + n <= |bytes|
    decreases n
  {
    if n == 1 then LeadBits(bytes[at]) else CodePoint(bytes, at, n - 1) * 64 + bytes[at + n - 1] % 64
  }

  /** `first & 0x1f`, `first & 0x0f` and `first & 0x07` for the three lead classes. */
  function LeadBits(first: int): int {
    if first <= 0x7F then first else if first <= 0xDF then first % 32 else if first <= 0xEF then first % 16 else first % 8
  }

  /** `(next & 0xc0) == 0x80`. */
  predicate IsContinuation(next: int) {
    next / 64 == 2
  }

  predicate InRange(count: nat, codePoint: int) {
    !((count == 2 && codePoint < 0x80) || (count == 3 && codePoint < 0x800) ||
      (count == 4 && codePoint < 0x10000) || codePoint > 0x10FFFF ||
      (0xD800 <= codePoint <= 0xDFFF))
  }

  ghost predicate Sequence(bytes: seq<Byte>, at: nat, count: nat) {
    && 1 <= count && at + count <= |bytes|
    && count == Announced(bytes[at])
    && (forall i | at < i < at + count :: IsContinuation(bytes[i]))
    && InRange(count, CodePoint(bytes, at, count))
  }

  lemma Digits2(c: int, b0: Byte, b1: Byte)
    requires IsContinuation(b1) && 0xC2 <= b0 <= 0xDF
    requires c == b0 % 32 * 64 + b1 % 64
    ensures 0x80 <= c < 0x800 && b0 == 0xC0 + c / 64 && b1 == 0x80 + c % 64
  {
  }

  lemma Digits3(c: int, b0: Byte, b1: Byte, b2: Byte)
    requires IsContinuation(b1) && IsContinuation(b2) && 0xE0 <= b0 <= 0xEF
    requires c == (b0 % 16 * 64 + b1 % 64) * 64 + b2 % 64
    ensures c < 0x10000 && b0 == 0xE0 + c / 4096 && b1 == 0x80 + c / 64 % 64 && b2 == 0x80 + c % 64
  {
    assert c / 64 == b0 % 16 * 64 + b1 % 64;
  }

  lemma Digits4(c: int, b0: Byte, b1: Byte, b2: Byte, b3: Byte)
    requires IsContinuation(b1) && IsContinuation(b2) && IsContinuation(b3) && 0xF0 <= b0 <= 0xF4
    requires c == ((b0 % 8 * 64 + b1 % 64) * 64 + b2 % 64) * 64 + b3 % 64
    ensures b0 == 0xF0 + c / 262144 && b1 == 0x80 + c / 4096 % 64 && b2 == 0x80 + c / 64 % 64 && b3 == 0x80 + c % 64
  {
    assert c / 64 == (b0 % 8 * 64 + b1 % 64) * 64 + b2 % 64;
    assert c / 4096 == b0 % 8 * 64 + b1 % 64;
  }

  lemma CodePointDigits(bytes: seq<Byte>, at: nat, n: nat)
    requires 2 <= n <= 4 && at + n <= |bytes|
    ensures CodePoint(bytes, at, 2) == LeadBits(bytes[at]) * 64 + bytes[at + 1] % 64
    ensures n >= 3 ==> CodePoint(bytes, at, 3) == CodePoint(bytes, at, 2) * 64 + bytes[at + 2] % 64
    ensures n >= 4 ==> CodePoint(bytes, at, 4) == CodePoint(bytes, at, 3) * 64 + bytes[at + 3] % 64
  {
    assert CodePoint(bytes, at, 1) == LeadBits(bytes[at]);
  }

  /** A sequence the loops accept is the encoding of the scalar value it accumulates to. */
  lemma SequenceIsEncoding(bytes: seq<Byte>, at: nat, count: nat)
    requires Sequence(bytes, at, count)
    ensures
      var c := CodePoint(bytes, at, count);
      (0 <= c < 0xD800 || 0xE000 <= c <= 0x10FFFF) && Encode(c) == bytes[at..at + count]
  {
    if count == 2 {
      TwoBytes(bytes, at);
    } else if count == 3 {
      ThreeBytes(bytes, at);
    } else if count == 4 {
      FourBytes(bytes, at);
    }
  }

  lemma TwoBytes(bytes: seq<Byte>, at: nat)
    requires Sequence(bytes, at, 2)
    ensures 0x80 <= CodePoint(bytes, at, 2) < 0x800 && Encode(CodePoint(bytes, at, 2)) == bytes[at..at + 2]
  {
    CodePointDigits(bytes, at, 2);
    Digits2(CodePoint(bytes, at, 2), bytes[at], bytes[at + 1]);
  }

  lemma ThreeBytes(bytes: seq<Byte>, at: nat)
    requires Sequence(bytes, at, 3)
    ensures
      var c := CodePoint(bytes, at, 3);
      (0x800 <= c < 0xD800 || 0xE000 <= c < 0x10000) && Encode(c) == bytes[at..at + 3]
  {
    CodePointDigits(bytes, at, 3);
    assert IsContinuation(bytes[at + 1]) && IsContinuation(bytes[at + 2]);
    Digits3(CodePoint(bytes, at, 3), bytes[at], bytes[at + 1], bytes[at + 2]);
  }

  lemma FourBytes(bytes: seq<Byte>, at: nat)
    requires Sequence(bytes, at, 4)
    ensures 0x10000 <= CodePoint(bytes, at, 4) <= 0x10FFFF && Encode(CodePoint(bytes, at, 4)) == bytes[at..at + 4]
  {
    CodePointDigits(bytes, at, 4);
    assert IsContinuation(bytes[at + 1]) && IsContinuation(bytes[at + 2]) && IsContinuation(bytes[at + 3]);
    Digits4(CodePoint(bytes, at, 4), bytes[at], bytes[at + 1], bytes[at + 2], bytes[at + 3]);
  }

  /** Wherever an encoding stands, the loops accept exactly that many bytes. */
  lemma EncodingIsSequence(bytes: seq<Byte>, at: nat, c: Scalar)
    requires at <= |bytes| && Encodes(c, bytes, at)
    ensures Sequence(bytes, at, |Encode(c)|)
  {
    var e := Encode(c);
    assert e == bytes[at..at + |e|];
    assert forall i | at <= i < at + |e| :: bytes[i] == e[i - at];
    if |e| >= 2 {
      CodePointDigits(bytes, at, |e|);
      AccumulatedDigits(c);
    }
  }

  lemma LowSixBits(x: int)
    ensures (0x80 + x % 64) % 64 == x % 64 && x == x / 64 * 64 + x % 64
  {
  }

  lemma AccumulatedDigits(c: Scalar)
    requires c >= 0x80
    ensures
      var e := Encode(c);
      var c2 := LeadBits(e[0]) * 64 + e[1] % 64;
      && (|e| == 2 ==> c2 == c)
      && (|e| == 3 ==> c2 * 64 + e[2] % 64 == c)
      && (|e| == 4 ==> (c2 * 64 + e[2] % 64) * 64 + e[3] % 64 == c)
  {
    if c < 0x800 {
      TwoDigits(c);
    } else if c < 0x10000 {
      ThreeDigits(c);
    } else {
      FourDigits(c);
    }
  }

  lemma TwoDigits(c: Scalar)
    requires 0x80 <= c < 0x800
    ensures (0xC0 + c / 64) % 32 * 64 + (0x80 + c % 64) % 64 == c
  {
    LowSixBits(c);
    assert (0xC0 + c / 64) % 32 == c / 64;
  }

  lemma ThreeDigits(c: Scalar)
    requires 0x800 <= c < 0x10000
    ensures ((0xE0 + c / 4096) % 16 * 64 + (0x80 + c / 64 % 64) % 64) * 64 + (0x80 + c % 64) % 64 == c
  {
    LowSixBits(c);
    LowSixBits(c / 64);
    Shifted(c, 64);
    assert (0xE0 + c / 4096) % 16 == c / 4096;
  }

  lemma FourDigits(c: Scalar)
    requires 0x10000 <= c
    ensures (((0xF0 + c / 262144) % 8 * 64 + (0x80 + c / 4096 % 64) % 64) * 64 + (0x80 + c / 64 % 64) % 64) * 64 + (0x80 + c % 64) % 64 == c
  {
    LowSixBits(c);
    LowSixBits(c / 64);
    LowSixBits(c / 4096);
    Shifted(c, 64);
    Shifted(c, 4096);
    assert (0xF0 + c / 262144) % 8 == c / 262144;
  }

  lemma Shifted(c: int, unit: int)
    requires unit == 64 || unit == 4096
    ensures c / unit / 64 == c / (unit * 64)
  {
  }

  /** The loop body's verdict at one position: how many bytes to consume, 0 to reject. */
  ghost function Consumed(bytes: seq<Byte>, at: nat): (n: nat)
    requires at < |bytes|
    ensures n != 0 ==> Sequence(bytes, at, n)
    ensures n == 0 ==> !Sequence(bytes, at, Announced(bytes[at]))
  {
    var n := Announced(bytes[at]);
    if Sequence(bytes, at, n) then n else 0
  }

  ghost predicate Accepts(bytes: seq<Byte>, at: nat)
    requires at <= |bytes|
    decreases |bytes| - at
  {
    at == |bytes| || (Consumed(bytes, at) != 0 && Accepts(bytes, at + Consumed(bytes, at)))
  }

  lemma EncodeAllCons(c: Scalar, rest: seq<Scalar>)
    ensures EncodeAll([c] + rest) == Encode(c) + EncodeAll(rest)
  {
    assert ([c] + rest)[1..] == rest;
  }

  lemma {:induction false} AcceptsDecodes(bytes: seq<Byte>, at: nat) returns (cs: seq<Scalar>)
    requires at <= |bytes| && Accepts(bytes, at)
    ensures EncodeAll(cs) == bytes[at..]
    decreases |bytes| - at
  {
    if at == |bytes| {
      cs := [];
    } else {
      var n := Consumed(bytes, at);
      SequenceIsEncoding(bytes, at, n);
      var rest := AcceptsDecodes(bytes, at + n);
      cs := [CodePoint(bytes, at, n)] + rest;
      EncodeAllCons(CodePoint(bytes, at, n), rest);
      assert bytes[at..] == bytes[at..at + n] + bytes[at + n..];
    }
  }

  lemma {:induction false} EncodedIsAccepted(bytes: seq<Byte>, at: nat, cs: seq<Scalar>)
    requires at <= |bytes| && EncodeAll(cs) == bytes[at..]
    ensures Accepts(bytes, at)
    decreases |cs|
  {
    if cs != [] {
      var n := |Encode(cs[0])|;
      assert bytes[at..][..n] == Encode(cs[0]);
      EncodingIsSequence(bytes, at, cs[0]);
      assert bytes[at + n..] == bytes[at..][n..] == EncodeAll(cs[1..]);
      EncodedIsAccepted(bytes, at + n, cs[1..]);
    }
  }

  /** The scan accepts exactly the concatenations of encoded scalar values. */
  lemma AcceptsIffWellFormed(bytes: seq<Byte>)
    ensures Accepts(bytes, 0) <==> WellFormed(bytes)
  {
    assert bytes[0..] == bytes;
    if Accepts(bytes, 0) {
      var _ := AcceptsDecodes(bytes, 0);
    }
    if WellFormed(bytes) {
      var cs :| EncodeAll(cs) == bytes;
      EncodedIsAccepted(bytes, 0, cs);
    }
  }

  /** One turn of either loop: the announced length, the continuation bytes and the code point range. */
  method CheckSequence(bytes: seq<Byte>, index: nat) returns (count: nat)
    requires index < |bytes|
    ensures count == Consumed(bytes, index)
  {
    var first := bytes[index];
    if first <= 0x7F {
      assert CodePoint(bytes, index, 1) == first;
      return 1;
    }
    var codePoint: int := 0;
    if 0xC2 <= first <= 0xDF {
      count := 2;
      codePoint := first % 32;
    } else if 0xE0 <= first <= 0xEF {
      count := 3;
      codePoint := first % 16;
    } else if 0xF0 <= first <= 0xF4 {
      count := 4;
      codePoint := first % 8;
    } else {
      return 0;
    }
    if index + count > |bytes| { return 0; }
    var offset := 1;
    while offset < count
      invariant 1 <= offset <= count
      invariant forall i | index < i < index + offset :: IsContinuation(bytes[i])
      invariant codePoint == CodePoint(bytes, index, offset)
    {
      var next := bytes[index + offset];
      if !IsContinuation(next) { return 0; }
      codePoint := codePoint * 64 + next % 64;
      offset := offset + 1;
    }
    if !InRange(count, codePoint) { return 0; }
  }

  /** `isValidUtf8V2`. */
  method IsValidUtf8V2(bytes: seq<Byte>) returns (valid: bool)
    ensures valid <==> WellFormed(bytes)
  {
    AcceptsIffWellFormed(bytes);
    var index := 0;
    while index < |bytes|
      invariant index <= |bytes|
      invariant Accepts(bytes, 0) == Accepts(bytes, index)
    {
      var count := CheckSequence(bytes, index);
      if count == 0 { return false; }
      index := index + count;
    }
    return true;
  }

  /** `isUtf8Text`: the older gate, which also refuses a NUL byte. */
  method IsUtf8Text(bytes: seq<Byte>) returns (valid: bool)
    ensures valid <==> WellFormed(bytes) && 0 !in bytes
  {
    AcceptsIffWellFormed(bytes);
    var index := 0;
    while index < |bytes|
      invariant index <= |bytes|
      invariant Accepts(bytes, 0) == Accepts(bytes, index)
      invariant 0 !in bytes[..index]
    {
      if bytes[index] == 0 { return false; }
      var count := CheckSequence(bytes, index);
      if count == 0 { return false; }
      SequenceHasNoNul(bytes, index, count);
      assert bytes[..index + count] == bytes[..index] + bytes[index..index + count];
      index := index + count;
    }
    assert bytes[..index] == bytes;
    return true;
  }

  lemma SequenceHasNoNul(bytes: seq<Byte>, at: nat, count: nat)
    requires Sequence(bytes, at, count) && bytes[at] != 0
    ensures 0 !in bytes[at..at + count]
  {
    assert forall i | at < i < at + count :: IsContinuation(bytes[i]) && bytes[i] != 0;
  }
}
