/** Unsigned LEB128 integers, section 7.6 of the DWARF Debugging Information Format version 5,
as the wire uses them: 64 bits, shortest form only (crates/typefacts/src/v3.rs:430-455,
internal/typefacts/wire_transition_codec.go:45-53). */
module Varints {
  import opened Facts

  /** What a decoder makes of its input: a value and the input it leaves, or a refusal. */
  datatype Parsed<+T> = Bad | Good(value: T, rest: seq<byte>) {
    predicate IsFailure() { Bad? }

    function PropagateFailure<U>(): Parsed<U>
      requires Bad?
    {
      Bad
    }

    function Extract(): (T, seq<byte>)
      requires Good?
    {
      (value, rest)
    }
  }

  const U64_LIMIT: nat := 0x1_0000_0000_0000_0000

  /** `uint64(x)`. */
  function Unsigned(x: int): (y: nat)
    ensures y < U64_LIMIT && (0 <= x < U64_LIMIT ==> y == x)
  {
    x % U64_LIMIT
  }

  function Encode(value: nat): seq<byte> {
    if value < 128 then [value] else [value % 128 + 128] + Encode(value / 128)
  }

  /** The decoder after `n` bytes of the integer. */
  function DecodeFrom(input: seq<byte>, n: nat): Parsed<nat>
    decreases |input|
  {
    if n > 9 || input == [] then Bad
    else
      var b := input[0];
      if n == 9 && b > 1 then Bad
      else if b < 128 then (if n != 0 && b == 0 then Bad else Good(b, input[1..]))
      else
        match DecodeFrom(input[1..], n + 1)
        case Bad => Bad
        case Good(high, rest) => Good(b - 128 + 128 * high, rest)
  }

  function U64(input: seq<byte>): Parsed<nat> {
    DecodeFrom(input, 0)
  }

  /** The values an integer that already has `n` bytes may still add. */
  function Room(n: nat): (room: nat)
    ensures room >= 2 && (n < 9 ==> room >= 256)
    decreases 9 - n
  {
    if n >= 9 then 2 else 128 * Room(n + 1)
  }

  lemma RoomIsU64()
    ensures Room(0) == U64_LIMIT
  {
    assert Room(9) == 2 && Room(8) == 256 && Room(7) == 128 * 256;
    assert Room(6) == 128 * Room(7) && Room(5) == 128 * Room(6) && Room(4) == 128 * Room(5);
    assert Room(3) == 128 * Room(4) && Room(2) == 128 * Room(3) && Room(1) == 128 * Room(2);
  }

  lemma {:induction false} DecodeEncodeFrom(value: nat, rest: seq<byte>, n: nat)
    requires n <= 9 && value < Room(n) && (n > 0 ==> value > 0)
    ensures DecodeFrom(Encode(value) + rest, n) == Good(value, rest)
    decreases value
  {
    var input := Encode(value) + rest;
    if value < 128 {
      assert input[0] == value && input[1..] == rest;
    } else {
      assert Room(n) == 128 * Room(n + 1);
      hide Room;
      LastByte(value, rest);
      DecodeEncodeFrom(value / 128, rest, n + 1);
    }
  }

  lemma LastByte(value: nat, rest: seq<byte>)
    requires value >= 128
    ensures var input := Encode(value) + rest;
      input != [] && input[0] == value % 128 + 128 && input[1..] == Encode(value / 128) + rest
  {
    var low: byte, more := value % 128 + 128, Encode(value / 128);
    assert Encode(value) == [low] + more;
    HeadAndTail(low, more, rest);
  }

  lemma HeadAndTail(low: byte, more: seq<byte>, rest: seq<byte>)
    ensures ([low] + more + rest)[0] == low && ([low] + more + rest)[1..] == more + rest
  {
  }

  /** Decoding an encoded integer returns it. */
  lemma DecodeEncode(value: nat, rest: seq<byte>)
    requires value < U64_LIMIT
    ensures U64(Encode(value) + rest) == Good(value, rest)
  {
    RoomIsU64();
    DecodeEncodeFrom(value, rest, 0);
  }

  lemma {:induction false} EncodeDecodeFrom(input: seq<byte>, n: nat)
    requires n <= 9 && DecodeFrom(input, n).Good?
    ensures var parsed := DecodeFrom(input, n);
      input == Encode(parsed.value) + parsed.rest && parsed.value < Room(n) && (n > 0 ==> parsed.value > 0)
    decreases |input|
  {
    var b: int := input[0];
    assert input == [input[0]] + input[1..];
    if b >= 128 {
      EncodeDecodeFrom(input[1..], n + 1);
      var high := DecodeFrom(input[1..], n + 1);
      var value: nat := b - 128 + 128 * high.value;
      assert value / 128 == high.value && value % 128 == b - 128;
      LastByte(value, high.rest);
      var encoded := Encode(value) + high.rest;
      assert encoded == [encoded[0]] + encoded[1..];
    }
  }

  /** The decoder accepts only the shortest form: what it accepts is an encoding, of a 64-bit value. */
  lemma EncodeDecode(input: seq<byte>)
    requires U64(input).Good?
    ensures input == Encode(U64(input).value) + U64(input).rest && U64(input).value < U64_LIMIT
  {
    RoomIsU64();
    EncodeDecodeFrom(input, 0);
  }

  // --- signed differences ---

  const I64_LIMIT: int := 0x8000_0000_0000_0000

  /** Two's-complement zig-zag of a 64-bit difference. */
  function ZigZag(value: int): nat
    requires -I64_LIMIT <= value < I64_LIMIT
  {
    if value >= 0 then 2 * value else -2 * value - 1
  }

  function UnZigZag(code: nat): int {
    if code % 2 == 0 then code / 2 else -(code / 2) - 1
  }

  lemma ZigZagRoundTrip(value: int)
    requires -I64_LIMIT <= value < I64_LIMIT
    ensures ZigZag(value) < U64_LIMIT && UnZigZag(ZigZag(value)) == value
  {
  }

  // --- the two loops ---

  /** The client's cursor over one frame (crates/typefacts/src/v3.rs:418-495). */
  class PackedCursor {
    const input: seq<byte>
    var offset: nat

    constructor (bytes: seq<byte>)
      ensures input == bytes && offset == 0
    {
      input, offset := bytes, 0;
    }

    ghost function Rest(): seq<byte>
      requires offset <= |input|
      reads this
    {
      input[offset..]
    }

    /** At most ten bytes; a refusal leaves the cursor somewhere inside the input. */
    method ReadU64() returns (value: nat, ok: bool)
      requires offset <= |input|
      modifies this
      ensures offset <= |input|
      ensures ok <==> old(U64(Rest())).Good?
      ensures ok ==> old(U64(Rest())) == Good(value, Rest())
    {
      ghost var start := Rest();
      value, ok := 0, false;
      var scale: nat, n: nat := 1, 0;
      while n < 10
        invariant offset <= |input| && n <= 10
        invariant Resumed(start, input[offset..], n, value, scale)
        decreases 10 - n
      {
        hide DecodeFrom;
        ResumeUnfolds(start, input[offset..], n, value, scale);
        if offset == |input| { return 0, false; }
        var b: int := input[offset];
        offset := offset + 1;
        assert input[offset - 1..][1..] == input[offset..];
        if n == 9 && b > 1 { return 0, false; }
        value := value + (b % 128) * scale;
        if b < 128 {
          if n != 0 && b == 0 { return 0, false; }
          return value, true;
        }
        scale := scale * 128;
        n := n + 1;
      }
      ResumeEnds(start, input[offset..], value, scale);
    }

    method ReadRaw(length: nat) returns (bytes: seq<byte>, ok: bool)
      requires offset <= |input|
      modifies this
      ensures offset <= |input| && (ok <==> length <= old(|Rest()|))
      ensures ok ==> bytes == old(Rest())[..length] && Rest() == old(Rest())[length..]
    {
      if offset + length > |input| { return [], false; }
      bytes := input[offset..offset + length];
      offset := offset + length;
      ok := true;
    }
  }

  /** After `n` bytes: the whole integer is the value so far plus what remains, scaled. */
  ghost predicate Resumed(start: seq<byte>, rest: seq<byte>, n: nat, value: nat, scale: nat) {
    match DecodeFrom(rest, n)
    case Bad => U64(start) == Bad
    case Good(high, after) => U64(start) == Good(value + scale * high, after)
  }

  lemma ResumeUnfolds(start: seq<byte>, rest: seq<byte>, n: nat, value: nat, scale: nat)
    requires n < 10 && Resumed(start, rest, n, value, scale)
    ensures rest == [] ==> U64(start) == Bad
    ensures rest != [] ==>
      var b: int := rest[0];
      if n == 9 && b > 1 then U64(start) == Bad
      else if b < 128 then
        (if n != 0 && b == 0 then U64(start) == Bad else U64(start) == Good(value + b % 128 * scale, rest[1..]))
      else Resumed(start, rest[1..], n + 1, value + b % 128 * scale, scale * 128)
  {
    hide U64;
    if rest != [] && rest[0] >= 128 && !(n == 9 && rest[0] > 1) {
      ResumeMore(start, rest, n, value, scale);
    } else if rest != [] && rest[0] < 128 {
      LastPart(rest[0], value, scale);
    }
  }

  lemma LastPart(b: byte, value: nat, scale: nat)
    requires b < 128
    ensures value + b as int % 128 * scale == value + scale * b
  {
  }

  lemma ResumeMore(start: seq<byte>, rest: seq<byte>, n: nat, value: nat, scale: nat)
    requires n < 10 && Resumed(start, rest, n, value, scale)
    requires rest != [] && rest[0] >= 128 && !(n == 9 && rest[0] > 1)
    ensures Resumed(start, rest[1..], n + 1, value + rest[0] as int % 128 * scale, scale * 128)
  {
    hide U64;
    var low: nat, parsed := rest[0] as int - 128, DecodeFrom(rest[1..], n + 1);
    assert rest[0] as int % 128 == low;
    assert DecodeFrom(rest, n) == if parsed.Bad? then Bad else Good(low + 128 * parsed.value, parsed.rest);
    hide DecodeFrom;
    if parsed.Good? { Distribute(value, low, scale, parsed.value); }
  }

  lemma Distribute(value: nat, low: nat, scale: nat, high: nat)
    ensures value + scale * (low + 128 * high) == value + low * scale + scale * 128 * high
  {
    assert scale * (low + 128 * high) == scale * low + scale * (128 * high);
  }

  lemma ResumeEnds(start: seq<byte>, rest: seq<byte>, value: nat, scale: nat)
    requires Resumed(start, rest, 10, value, scale)
    ensures U64(start) == Bad
  {
  }
}
