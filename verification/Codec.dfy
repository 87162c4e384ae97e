/**
  Sigma register codecs: zigzag VLQ Long constants, Coll[Byte] constants and
  AvlTree constants, with the relayer's two Long decoders (the tolerant one of
  the transaction builder and the canonical one of the reconstruction).
 */
module Codec {
  import opened Prelude

  const LONG_TYPE: Byte := 0x05
  const COLL_BYTE_TYPE: Byte := 0x0e
  const AVL_TYPE: Byte := 0x64

  // ----- VLQ -----

  /** Little-endian base-128 digits, continuation bit on all but the last. */
  function Vlq(n: nat): (r: Bytes)
    ensures |r| > 0
  {
    if n < 128 then [n] else [n % 128 + 128] + Vlq(n / 128)
  }

  /** Value of the digits up to the first byte without continuation bit (or the end). */
  function VlqValue(bytes: Bytes): nat {
    if bytes == [] then 0
    else if bytes[0] < 128 then bytes[0]
    else bytes[0] - 128 + 128 * VlqValue(bytes[1..])
  }

  /** Number of bytes up to and including the first one without continuation bit. */
  function VlqLength(bytes: Bytes): (r: nat)
    ensures r <= |bytes|
  {
    if bytes == [] then 0
    else if bytes[0] < 128 then 1
    else 1 + VlqLength(bytes[1..])
  }

  lemma VlqUnfold(out: Bytes, n: nat)
    requires n >= 128
    ensures out + Vlq(n) == (out + [n % 128 + 128]) + Vlq(n / 128)
  {
    assert Vlq(n) == [n % 128 + 128] + Vlq(n / 128);
  }

  method EncodeVlq(value: nat) returns (out: Bytes)
    ensures out == Vlq(value)
  {
    var n := value;
    out := [];
    while n > 127
      invariant out + Vlq(n) == Vlq(value)
    {
      VlqUnfold(out, n);
      out := out + [n % 128 + 128];
      n := n / 128;
    }
    out := out + [n];
  }

  lemma {:induction false} VlqRoundTrip(n: nat, tail: Bytes)
    ensures VlqValue(Vlq(n) + tail) == n
    ensures VlqLength(Vlq(n) + tail) == |Vlq(n)|
  {
    if n >= 128 {
      assert (Vlq(n) + tail)[1..] == Vlq(n / 128) + tail;
      VlqRoundTrip(n / 128, tail);
    } else {
      assert (Vlq(n) + tail)[0] == n;
    }
  }

  // ----- zigzag -----

  function ZigZag(n: int): nat {
    if n >= 0 then 2 * n else -2 * n - 1
  }

  function UnZigZag(u: nat): int {
    if u % 2 == 0 then u / 2 else -(u / 2) - 1
  }

  predicate InInt64(n: int) {
    -0x8000_0000_0000_0000 <= n <= 0x7FFF_FFFF_FFFF_FFFF
  }

  /** `encodeLongRegister` for an exact integer inside the signed 64-bit range. */
  function EncodeLong(n: int): (r: Bytes) {
    [LONG_TYPE] + Vlq(ZigZag(n))
  }

  /** `encodeLongRegister` applied to a JS number or bigint. */
  function EncodeLongChecked(n: int, isNumber: bool): (r: Result<Bytes>)
    ensures r.Ok? <==> InInt64(n) && (isNumber ==> -MAX_SAFE_INTEGER <= n <= MAX_SAFE_INTEGER)
    ensures r.Ok? ==> r.value == EncodeLong(n)
  {
    if isNumber && !(-MAX_SAFE_INTEGER <= n <= MAX_SAFE_INTEGER) then Err("outside safe integer range")
    else if !InInt64(n) then Err("outside signed 64-bit range")
    else Ok(EncodeLong(n))
  }

  // ----- the builder's tolerant decoder -----

  /** What `decodeLongRegister` returns: bytes after the terminator are ignored, and a
      missing or foreign register reads as 0. */
  function DecodeLongSpec(register: Option<Bytes>): Result<nat> {
    if register.None? || register.value == [] || register.value[0] != LONG_TYPE then Ok(0)
    else SafeNanoErg(UnZigZag(VlqValue(register.value[1..])))
  }

  /** The digit loop of both decoders: `scale` is 2 ** shift, and OR-ing a digit that
      does not overlap the digits below it is addition (see DigitsDoNotOverlap). */
  function Accumulate(bytes: Bytes, result: int, scale: int): int
    decreases |bytes|
  {
    if bytes == [] then result
    else if bytes[0] < 128 then result + bytes[0] * scale
    else Accumulate(bytes[1..], result + (bytes[0] - 128) * scale, scale * 128)
  }

  lemma {:induction false} AccumulateValue(bytes: Bytes, result: int, scale: int)
    ensures Accumulate(bytes, result, scale) == result + scale * VlqValue(bytes)
    decreases |bytes|
  {
    if bytes != [] && bytes[0] >= 128 {
      var digit: nat, rest: nat := bytes[0] - 128, VlqValue(bytes[1..]);
      AccumulateValue(bytes[1..], result + digit * scale, scale * 128);
      Distribute(scale, digit, rest);
    }
  }

  lemma Distribute(scale: int, digit: int, rest: int)
    ensures scale * (digit + 128 * rest) == digit * scale + (scale * 128) * rest
  {
  }

  lemma DigitsDoNotOverlap(result: nat, digit: nat, scale: nat)
    requires result < scale && digit < 128
    ensures result + digit * scale < scale * 128
  {
    assert digit * scale <= 127 * scale;
  }

  method DecodeLong(register: Option<Bytes>) returns (r: Result<nat>)
    ensures r == DecodeLongSpec(register)
  {
    if register.None? || register.value == [] || register.value[0] != LONG_TYPE {
      return Ok(0);
    }
    var bytes := register.value[1..];
    var result: int, scale: int, i: nat := 0, 1, 0;
    while i < |bytes|
      invariant 0 <= i <= |bytes|
      invariant Accumulate(bytes, 0, 1) == Accumulate(bytes[i..], result, scale)
    {
      var byte := bytes[i];
      assert bytes[i..][1..] == bytes[i + 1..];
      if byte < 128 {
        result := result + byte * scale;
        break;
      }
      result := result + (byte - 128) * scale;
      scale := scale * 128;
      i := i + 1;
    }
    AccumulateValue(bytes, 0, 1);
    r := SafeNanoErg(UnZigZag(result));
  }

  /** The tolerant decoder inverts the encoder exactly on the non-negative safe integers,
      whatever follows the terminator; every other Long is rejected. */
  lemma LongRoundTrip(n: int, tail: Bytes)
    requires InInt64(n)
    ensures DecodeLongSpec(Some(EncodeLong(n) + tail)).Ok? <==> 0 <= n <= MAX_SAFE_INTEGER
    ensures 0 <= n <= MAX_SAFE_INTEGER ==> DecodeLongSpec(Some(EncodeLong(n) + tail)) == Ok(n)
  {
    VlqRoundTrip(ZigZag(n), tail);
    assert (EncodeLong(n) + tail)[1..] == Vlq(ZigZag(n)) + tail;
  }

  /** A missing, empty or foreign register reads as 0; any other as the zigzag value of its digits, if that
      is a non-negative safe integer. */
  lemma TolerantReads(register: Option<Bytes>)
    ensures register == None || register.value == [] || register.value[0] != 0x05 ==> DecodeLongSpec(register) == Ok(0)
    ensures register.Some? && register.value != [] && register.value[0] == 0x05 ==>
              var u := VlqValue(register.value[1..]);
              && (DecodeLongSpec(register).Ok? <==> u % 2 == 0 && u <= 2 * MAX_SAFE_INTEGER)
              && (DecodeLongSpec(register).Ok? ==> 2 * DecodeLongSpec(register).value == u)
  {
  }

  /** A negative Long is a safe integer too, but the tolerant decoder refuses it. */
  lemma NegativeLongRefused()
    ensures DecodeLongSpec(Some(EncodeLong(-1))).Err?
  {
    LongRoundTrip(-1, []);
    assert EncodeLong(-1) + [] == EncodeLong(-1);
  }

  // ----- the reconstruction's canonical decoder -----

  function DecodeCanonicalLongSpec(register: Bytes): Result<int> {
    if |register| < 2 || register[0] != LONG_TYPE then Err("must be one canonical Long")
    else
      var body := register[1..];
      var consumed := VlqLength(body);
      var unsigned := VlqValue(body);
      if consumed > 10 || (consumed == 10 && body[9] >= 128) then Err("invalid VLQ encoding")
      else if consumed != |body| || body[|body| - 1] >= 128 then Err("not fully consumed")
      else if unsigned > 0xFFFF_FFFF_FFFF_FFFF then Err("outside the signed 64-bit range")
      else if register != EncodeLong(UnZigZag(unsigned)) then Err("must use the canonical encoding")
      else Ok(UnZigZag(unsigned))
  }

  method DecodeCanonicalLong(register: Bytes) returns (r: Result<int>)
    ensures r == DecodeCanonicalLongSpec(register)
  {
    if |register| < 2 || register[0] != LONG_TYPE {
      return Err("must be one canonical Long");
    }
    ghost var body := register[1..];
    AccumulateValue(body, 0, 1);
    var unsigned: int, scale: int, consumed: nat := 0, 1, 0;
    while 1 + consumed < |register|
      invariant 0 <= consumed <= |body| && consumed < 10
      invariant VlqLength(body) == consumed + VlqLength(body[consumed..])
      invariant Accumulate(body, 0, 1) == Accumulate(body[consumed..], unsigned, scale)
      invariant consumed > 0 ==> body[consumed - 1] >= 128
    {
      var byte := register[1 + consumed];
      assert byte == body[consumed];
      assert body[consumed..][1..] == body[consumed + 1..];
      consumed := consumed + 1;
      if byte < 128 {
        unsigned := unsigned + byte * scale;
        break;
      }
      unsigned := unsigned + (byte - 128) * scale;
      scale := scale * 128;
      if consumed >= 10 {
        return Err("invalid VLQ encoding");
      }
    }
    if 1 + consumed != |register| || register[|register| - 1] >= 128 {
      return Err("not fully consumed");
    }
    if unsigned > 0xFFFF_FFFF_FFFF_FFFF {
      return Err("outside the signed 64-bit range");
    }
    var value := UnZigZag(unsigned);
    var digits := EncodeVlq(ZigZag(value));
    if [LONG_TYPE] + digits != register {
      return Err("must use the canonical encoding");
    }
    r := Ok(value);
  }

  lemma {:induction false} VlqShape(n: nat)
    ensures VlqLength(Vlq(n)) == |Vlq(n)|
    ensures Vlq(n)[|Vlq(n)| - 1] < 128
  {
    VlqRoundTrip(n, []);
    assert Vlq(n) + [] == Vlq(n);
    if n >= 128 {
      VlqShape(n / 128);
    }
  }

  /** Ten digits hold every 64-bit value. */
  lemma VlqTenDigits(n: nat)
    requires n <= 0xFFFF_FFFF_FFFF_FFFF
    ensures |Vlq(n)| <= 10
  {
    VlqDigits(n, 9);
  }

  function Base128(k: nat): (r: nat)
    ensures r >= 1
  {
    if k == 0 then 128 else 128 * Base128(k - 1)
  }

  lemma {:induction false} VlqDigits(n: nat, k: nat)
    requires n < Base128(k)
    ensures |Vlq(n)| <= k + 1
  {
    if n >= 128 {
      VlqDigits(n / 128, k - 1);
    }
  }

  /** A register is accepted exactly when it is the encoding of some signed 64-bit
      integer, and then it decodes to that integer. */
  lemma CanonicalLongExact(register: Bytes, n: int)
    ensures DecodeCanonicalLongSpec(register) == Ok(n) <==> InInt64(n) && register == EncodeLong(n)
  {
    if InInt64(n) && register == EncodeLong(n) {
      var u := ZigZag(n);
      VlqRoundTrip(u, []);
      assert Vlq(u) + [] == Vlq(u) == register[1..];
      VlqShape(u);
      VlqTenDigits(u);
    }
  }

  // ----- Coll[Byte] -----

  function ToInt32(n: int): int {
    var m := n % 0x1_0000_0000;
    if m < 0x8000_0000 then m else m - 0x1_0000_0000
  }

  /** `encodeCollByteRegister` */
  function EncodeColl(data: Bytes): (r: Bytes) {
    [COLL_BYTE_TYPE] + Vlq(|data|) + data
  }

  datatype Prefix = BadPrefix(reason: string) | Prefix(length: int, offset: nat)

  /** The length prefix starting at `offset`, read with 32-bit shifts and a payload bound. */
  function CollPrefix(register: Bytes, offset: nat, length: int, scale: nat, max: Option<nat>): Prefix
    requires offset <= |register|
    decreases |register| - offset
  {
    if offset >= |register| || scale > 0x1000_0000 then BadPrefix("invalid VLQ length")
    else
      var byte := register[offset];
      var length' := ToInt32(length + (byte % 128) * scale);
      if max.Some? && length' > max.value then BadPrefix("exceeds the payload bound")
      else if byte < 128 then Prefix(length', offset + 1)
      else CollPrefix(register, offset + 1, length', scale * 128, max)
  }

  function DecodeCollSpec(register: Bytes, max: Option<nat>): Result<Bytes> {
    if max.Some? && |register| > max.value + 6 then Err("exceeds the payload bound")
    else if register == [] || register[0] != COLL_BYTE_TYPE then Err("must be a Coll[Byte]")
    else
      match CollPrefix(register, 1, 0, 1, max)
      case BadPrefix(reason) => Err(reason)
      case Prefix(length, offset) =>
        if offset <= |register| && |register| - offset == length then Ok(register[offset..])
        else Err("length prefix mismatch")
  }

  /** `decodeCollByteRegisterWithin` */
  method DecodeColl(register: Bytes, max: Option<nat>) returns (r: Result<Bytes>)
    ensures r == DecodeCollSpec(register, max)
  {
    if max.Some? && |register| > max.value + 6 {
      return Err("exceeds the payload bound");
    }
    if register == [] || register[0] != COLL_BYTE_TYPE {
      return Err("must be a Coll[Byte]");
    }
    var offset: nat, length: int, scale: nat := 1, 0, 1;
    while true
      invariant 1 <= offset <= |register| && scale >= 1
      invariant CollPrefix(register, 1, 0, 1, max) == CollPrefix(register, offset, length, scale, max)
      decreases |register| - offset
    {
      if offset >= |register| || scale > 0x1000_0000 {
        return Err("invalid VLQ length");
      }
      var byte := register[offset];
      offset := offset + 1;
      length := ToInt32(length + (byte % 128) * scale);
      if max.Some? && length > max.value {
        return Err("exceeds the payload bound");
      }
      if byte < 128 {
        break;
      }
      scale := scale * 128;
    }
    if |register| - offset != length {
      return Err("length prefix mismatch");
    }
    r := Ok(register[offset..]);
  }

  /** The 32-bit number that differs by a multiple of 2 ** 32. */
  lemma Int32Is(n: int)
    ensures -0x8000_0000 <= ToInt32(n) < 0x8000_0000 && (n - ToInt32(n)) % 0x1_0000_0000 == 0
  {
  }

  lemma Int32Small(n: int)
    requires 0 <= n < 0x8000_0000
    ensures ToInt32(n) == n
  {
  }

  // ----- which registers the Coll[Byte] decoder accepts -----

  /** At most five digits, the last one marked, whose value modulo 2 ** 32 is n. */
  predicate LengthPrefix(prefix: Bytes, n: nat) {
    Marked(prefix) && |prefix| <= 5 && VlqLength(prefix) == |prefix| && ToInt32(VlqValue(prefix)) == n
  }

  /** Some byte has no continuation bit. */
  predicate Marked(bytes: Bytes) {
    VlqLength(bytes) > 0 && bytes[VlqLength(bytes) - 1] < 128
  }

  /** scale is 2 ** (7 * j). */
  predicate ScaleAt(j: nat, scale: nat) {
    || (j == 0 && scale == 1)
    || (j == 1 && scale == 128)
    || (j == 2 && scale == 0x4000)
    || (j == 3 && scale == 0x20_0000)
    || (j == 4 && scale == 0x1000_0000)
    || (j == 5 && scale == 0x8_0000_0000)
  }

  lemma ProductSign(a: nat, b: int)
    ensures b <= 0 ==> a * b <= 0
    ensures b >= 0 ==> a * b >= 0
  {
  }

  /** Digits above `low` do not lower the value, even modulo 2 ** 32. */
  lemma WrapKeepsLow(low: nat, j: nat, unit: nat, rest: nat)
    requires j <= 4 && ScaleAt(j, unit) && low < unit
    ensures ToInt32(low + unit * rest) < 0 || ToInt32(low + unit * rest) >= low
  {
    var total, c := low + unit * rest, 0x1_0000_0000 / unit;
    assert unit * c == 0x1_0000_0000;
    var q := total / 0x1_0000_0000;
    var z := rest - c * q;
    UnitsLeft(unit, rest, c, q, z);
    assert total % 0x1_0000_0000 == low + unit * z;
    ProductSign(unit, z + 1);
    ProductSign(unit, z);
  }

  lemma UnitsLeft(unit: nat, rest: nat, c: nat, q: int, z: int)
    requires z == rest - c * q
    ensures unit * z == unit * rest - (unit * c) * q
    ensures unit * (z + 1) == unit * z + unit
  {
  }

  /** One digit of the prefix: below the fifth it is added without wrap-around, and it stays a
      lower bound of the length. */
  lemma DigitRead(low: nat, j: nat, scale: nat, digit: nat, rest: nat, total: nat)
    requires j < 4 && ScaleAt(j, scale) && low < scale && digit < 128
    requires total == low + scale * (digit + 128 * rest)
    ensures ScaleAt(j + 1, scale * 128) && low + digit * scale < scale * 128
    ensures ToInt32(low + digit * scale) == low + digit * scale
    ensures total == low + digit * scale + (scale * 128) * rest && scale <= 0x1000_0000
    ensures ToInt32(total) < 0 || ToInt32(total) >= low + digit * scale
  {
    DigitsDoNotOverlap(low, digit, scale);
    Distribute(scale, digit, rest);
    WrapKeepsLow(low + digit * scale, j + 1, scale * 128, rest);
  }

  /** The marked prefix of a body that starts with a continuation byte. */
  lemma BodyStep(body: Bytes, rest: Bytes)
    requires body != [] && body[0] >= 128 && body[1..] == rest
    ensures VlqLength(body) == 1 + VlqLength(rest) && (Marked(body) <==> Marked(rest))
    ensures VlqValue(body) == body[0] - 128 + 128 * VlqValue(rest)
  {
  }

  /** The prefix loop, from any digit on, ends with the non-negative length n exactly when a
      marked byte comes within five digits and n is the total modulo 2 ** 32. */
  ghost predicate PrefixReads(
    register: Bytes, offset: nat, low: nat, j: nat, scale: nat, max: Option<nat>, n: nat, end: nat, total: nat)
    requires offset <= |register|
  {
    var body := register[offset..];
    CollPrefix(register, offset, low, scale, max) == Prefix(n, end) <==>
    && j + VlqLength(body) <= 5 && Marked(body)
    && end == offset + VlqLength(body)
    && n == ToInt32(total)
    && (max.Some? ==> n <= max.value)
  }

  lemma LastDigitReads(
    register: Bytes, offset: nat, low: nat, j: nat, scale: nat, max: Option<nat>, n: nat, end: nat)
    requires offset < |register| && ScaleAt(j, scale) && register[offset] < 128
    ensures PrefixReads(register, offset, low, j, scale, max, n, end, low + scale * VlqValue(register[offset..]))
  {
    hide ToInt32;
    var body := register[offset..];
    assert body[0] == register[offset] % 128;
    assert VlqValue(body) == body[0] && VlqLength(body) == 1;
    assert body[0] * scale == scale * body[0];
  }

  lemma NextUnfold(register: Bytes, offset: nat, low: nat, scale: nat, low': nat, max: Option<nat>)
    requires offset < |register| && scale <= 0x1000_0000 && register[offset] >= 128
    requires low' == low + (register[offset] - 128) * scale == ToInt32(low')
    ensures CollPrefix(register, offset, low, scale, max) ==
            if max.Some? && low' > max.value then BadPrefix("exceeds the payload bound")
            else CollPrefix(register, offset + 1, low', scale * 128, max)
  {
    hide ToInt32;
    assert register[offset] % 128 == register[offset] - 128;
  }

  lemma NextDigitReads(
    register: Bytes, offset: nat, low: nat, j: nat, scale: nat, low': nat, max: Option<nat>, n: nat, end: nat,
    total: nat)
    requires offset < |register| && scale <= 0x1000_0000 && register[offset] >= 128
    requires low' == low + (register[offset] - 128) * scale == ToInt32(low')
    requires ToInt32(total) < 0 || ToInt32(total) >= low'
    requires PrefixReads(register, offset + 1, low', j + 1, scale * 128, max, n, end, total)
    ensures PrefixReads(register, offset, low, j, scale, max, n, end, total)
  {
    var body, rest := register[offset..], register[offset + 1..];
    assert body[1..] == rest;
    BodyStep(body, rest);
    hide CollPrefix, ToInt32, Marked, VlqLength, VlqValue;
    NextUnfold(register, offset, low, scale, low', max);
  }

  lemma {:induction false} CollPrefixExact(
    register: Bytes, offset: nat, low: nat, j: nat, scale: nat, max: Option<nat>, n: nat, end: nat, total: nat)
    requires offset <= |register| && ScaleAt(j, scale) && (j < 5 ==> low < scale)
    requires total == low + scale * VlqValue(register[offset..])
    ensures PrefixReads(register, offset, low, j, scale, max, n, end, total)
    decreases |register| - offset
  {
    hide PrefixReads, ToInt32, CollPrefix, VlqValue, VlqLength, Marked;
    if offset == |register| {
      NoDigitReads(register, low, j, scale, max, n, end, total);
    } else if register[offset] < 128 {
      LastDigitReads(register, offset, low, j, scale, max, n, end);
    } else if j >= 4 {
      TooManyDigits(register, offset, low, j, scale, max, n, end);
    } else {
      hide ScaleAt;
      BodyStep(register[offset..], register[offset + 1..]);
      var digit, rest := register[offset] - 128, VlqValue(register[offset + 1..]);
      DigitRead(low, j, scale, digit, rest, total);
      var low' := low + digit * scale;
      CollPrefixExact(register, offset + 1, low', j + 1, scale * 128, max, n, end, total);
      NextDigitReads(register, offset, low, j, scale, low', max, n, end, total);
    }
  }

  lemma NoDigitReads(
    register: Bytes, low: nat, j: nat, scale: nat, max: Option<nat>, n: nat, end: nat, total: nat)
    ensures PrefixReads(register, |register|, low, j, scale, max, n, end, total)
  {
  }

  lemma TooManyDigits(
    register: Bytes, offset: nat, low: nat, j: nat, scale: nat, max: Option<nat>, n: nat, end: nat)
    requires offset < |register| && j >= 4 && ScaleAt(j, scale) && register[offset] >= 128
    ensures PrefixReads(register, offset, low, j, scale, max, n, end, low + scale * VlqValue(register[offset..]))
  {
    hide ToInt32;
    BodyStep(register[offset..], register[offset + 1..]);
    var low' := ToInt32(low + (register[offset] % 128) * scale);
    assert CollPrefix(register, offset + 1, low', scale * 128, max).BadPrefix?;
  }

  /** What follows a marked byte is not read. */
  lemma {:induction false} PrefixAlone(prefix: Bytes, tail: Bytes)
    requires || (Marked(prefix + tail) && VlqLength(prefix + tail) == |prefix|)
             || (Marked(prefix) && VlqLength(prefix) == |prefix|)
    ensures VlqLength(prefix + tail) == VlqLength(prefix) == |prefix|
    ensures VlqValue(prefix + tail) == VlqValue(prefix)
    ensures Marked(prefix + tail) && Marked(prefix)
  {
    var whole := prefix + tail;
    assert prefix != [] && whole[0] == prefix[0];
    if prefix[0] >= 128 {
      assert whole[1..] == prefix[1..] + tail;
      PrefixAlone(prefix[1..], tail);
    }
  }

  /** The register is the type byte, a length prefix of the data, and the data. */
  ghost predicate CollOf(register: Bytes, prefix: Bytes, data: Bytes) {
    LengthPrefix(prefix, |data|) && register == [COLL_BYTE_TYPE] + prefix + data
  }

  /** A register decodes to data exactly when it has that form and the data is within the bound. */
  lemma CollExact(register: Bytes, max: Option<nat>, data: Bytes)
    ensures DecodeCollSpec(register, max) == Ok(data) <==>
            (max.Some? ==> |data| <= max.value) && exists prefix :: CollOf(register, prefix, data)
  {
    hide DecodeCollSpec, CollOf;
    if DecodeCollSpec(register, max) == Ok(data) {
      var prefix := CollHasForm(register, max, data);
    }
    if prefix :| CollOf(register, prefix, data) && (max.Some? ==> |data| <= max.value) {
      CollAccepted(register, max, prefix, data);
    }
  }

  lemma CollHasForm(register: Bytes, max: Option<nat>, data: Bytes) returns (prefix: Bytes)
    requires DecodeCollSpec(register, max) == Ok(data)
    ensures CollOf(register, prefix, data) && (max.Some? ==> |data| <= max.value)
  {
    hide CollPrefix, ToInt32;
    var body := register[1..];
    var read := CollPrefix(register, 1, 0, 1, max);
    CollPrefixExact(register, 1, 0, 0, 1, max, |data|, read.offset, VlqValue(body));
    hide VlqLength, VlqValue, Marked;
    prefix := body[..VlqLength(body)];
    assert prefix + data == body;
    PrefixAlone(prefix, data);
  }

  lemma CollAccepted(register: Bytes, max: Option<nat>, prefix: Bytes, data: Bytes)
    requires CollOf(register, prefix, data) && (max.Some? ==> |data| <= max.value)
    ensures DecodeCollSpec(register, max) == Ok(data)
  {
    hide CollPrefix, ToInt32, VlqLength, VlqValue, Marked;
    assert register[1..] == prefix + data;
    PrefixAlone(prefix, data);
    CollPrefixExact(register, 1, 0, 0, 1, max, |data|, 1 + |prefix|, VlqValue(register[1..]));
    assert register[1 + |prefix|..] == data;
  }

  /** Coll[Byte] registers round-trip for every payload within the bound. */
  lemma CollRoundTrip(data: Bytes, max: Option<nat>)
    requires |data| < 0x8000_0000
    requires max.Some? ==> |data| <= max.value
    ensures DecodeCollSpec(EncodeColl(data), max) == Ok(data)
  {
    hide DecodeCollSpec;
    var n := |data|;
    VlqDigits(n, 4) by {
      assert Base128(4) == 128 * 128 * 128 * 128 * 128;
    }
    VlqShape(n);
    VlqRoundTrip(n, []);
    assert Vlq(n) + [] == Vlq(n);
    Int32Small(n);
    CollAccepted(EncodeColl(data), max, Vlq(n), data);
  }

  /** So the encoder's form is not the only one: a longer prefix, and one whose value wraps
      around at 2 ** 32, are accepted too. */
  lemma OtherPrefixesAccepted()
    ensures DecodeCollSpec([COLL_BYTE_TYPE, 0x80, 0x00], None) == Ok([])
    ensures DecodeCollSpec([COLL_BYTE_TYPE, 0x80, 0x80, 0x80, 0x80, 0x10], None) == Ok([])
    ensures EncodeColl([]) == [COLL_BYTE_TYPE, 0x00]
  {
    var (longer, wrapped) := ([0x80, 0x00], [0x80, 0x80, 0x80, 0x80, 0x10]);
    assert VlqValue(wrapped) == 0x1_0000_0000;
    assert [COLL_BYTE_TYPE] + longer + [] == [COLL_BYTE_TYPE, 0x80, 0x00];
    assert [COLL_BYTE_TYPE] + wrapped + [] == [COLL_BYTE_TYPE, 0x80, 0x80, 0x80, 0x80, 0x10];
    CollAccepted([COLL_BYTE_TYPE] + longer + [], None, longer, []);
    CollAccepted([COLL_BYTE_TYPE] + wrapped + [], None, wrapped, []);
  }

  // ----- AvlTree -----

  datatype AvlRegister = AvlRegister(digest: Bytes, flags: Byte)

  /** `encodeAvlTreeRegister(digest, flags, 1)`: 32-byte keys, one-byte values. */
  function EncodeAvl(digest: Bytes, flags: Byte): Bytes {
    [AVL_TYPE] + digest + [flags, 0x20, 0x01, 0x01]
  }

  /** `decodeCanonicalInsertAvl` / `decodeCanonicalDupAvlRegister` */
  function DecodeAvl(register: Bytes): (r: Result<AvlRegister>)
    ensures r.Ok? <==> |register| == 38 && register == EncodeAvl(register[1..34], register[34]) && register[34] % 2 == 1
    ensures r.Ok? ==> register == EncodeAvl(r.value.digest, r.value.flags) && |r.value.digest| == 33
  {
    if |register| != 38 || register[0] != AVL_TYPE then Err("must be a canonical AvlTree register")
    else if register[35] != 0x20 || register[36..] != [0x01, 0x01] then
      Err("must use 32-byte keys and one-byte values")
    else if register[34] % 2 == 0 then Err("must permit inserts")
    else
      assert register == [register[0]] + register[1..34] + [register[34], register[35], register[36], register[37]];
      Ok(AvlRegister(register[1..34], register[34]))
  }

  lemma AvlRoundTrip(digest: Bytes, flags: Byte)
    requires |digest| == 33 && flags % 2 == 1
    ensures DecodeAvl(EncodeAvl(digest, flags)) == Ok(AvlRegister(digest, flags))
  {
    assert EncodeAvl(digest, flags)[1..34] == digest;
  }
}
