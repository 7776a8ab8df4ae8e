/**
 Unsigned LEB128: seven bits a byte, low groups first, the top bit set on every byte but the last.
 Shared by the Wasm reader (section 5.2.2 of the WebAssembly Core Specification 1.0) and protobuf.

 A byte's low seven bits are its remainder by 128, and joining groups with disjoint bits is addition.
 */
module Leb128 {

  type Byte = n: nat | n < 256

  /** The shortest encoding of a number. */
  function Leb(value: nat): (bytes: seq<Byte>)
    ensures |bytes| >= 1
  {
    if value < 128 then [value] else [value % 128 + 128] + Leb(value / 128)
  }

  /** `leb` of the Wasm fixtures. */
  method WriteLeb(value: nat) returns (output: seq<Byte>)
    ensures output == Leb(value)
  {
    output := [];
    var left := value;
    while true
      invariant output + Leb(left) == Leb(value)
      decreases left
    {
      var low := left % 128;
      ghost var before := left;
      left := left / 128;
      output := output + [if left != 0 then low + 128 else low];
      if left == 0 {
        assert Leb(before) == [low];
        return;
      }
      assert Leb(before) == [low + 128] + Leb(left);
    }
  }

  /** `varint` of the chain attestation. */
  method WriteVarint(value: nat) returns (output: seq<Byte>)
    ensures output == Leb(value)
  {
    output := [];
    var left := value;
    while left > 127
      invariant output + Leb(left) == Leb(value)
    {
      assert Leb(left) == [left % 128 + 128] + Leb(left / 128);
      assert output + ([left % 128 + 128] + Leb(left / 128)) == output + [left % 128 + 128] + Leb(left / 128);
      output := output + [left % 128 + 128];
      left := left / 128;
    }
    output := output + [left];
  }

  // ---------------------------------------------------------------- reading

  /** A number and the number of bytes it took, or the reason why there is none. */
  datatype Read = Value(value: nat, used: nat) | Truncated | TooLong

  /** Read a number of at most `max` groups from the front. */
  function ReadVar(data: seq<Byte>, max: nat): (r: Read)
    ensures r.Value? ==> 1 <= r.used <= max && r.used <= |data| && r.value < Power(r.used)
    decreases max
  {
    if max == 0 then TooLong
    else if data == [] then Truncated
    else if data[0] < 128 then Value(data[0], 1)
    else
      match ReadVar(data[1..], max - 1)
      case Value(v, used) => Value(data[0] - 128 + 128 * v, used + 1)
      case other => other
  }

  /** 128 to the power of the number of groups. */
  function Power(groups: nat): (p: nat)
    ensures p >= 1
  {
    if groups == 0 then 1 else 128 * Power(groups - 1)
  }

  lemma Powers()
    ensures Power(4) == 0x1000_0000 && Power(5) == 0x8_0000_0000
    ensures Power(10) == 0x40_0000_0000_0000_0000
  {
    assert Power(2) == 16384;
    assert Power(4) == 0x1000_0000;
    assert Power(6) == 0x400_0000_0000;
    assert Power(8) == 0x100_0000_0000_0000;
  }

  /** An encoding is as long as its number needs. */
  lemma {:induction false} LebLength(value: nat, max: nat)
    requires max >= 1
    ensures |Leb(value)| <= max <==> value < Power(max)
    decreases value
  {
    if value >= 128 && max > 1 {
      LebLength(value / 128, max - 1);
    } else {
      assert max == 1 ==> Power(max) == 128 * Power(0);
      PowerGrows(max);
    }
  }

  lemma {:induction false} PowerGrows(groups: nat)
    requires groups >= 1
    ensures Power(groups) >= 128
  {
    if groups > 1 { PowerGrows(groups - 1); }
  }

  /** A number is read back with exactly the bytes of its encoding, whatever follows. */
  lemma {:induction false} ReadBack(value: nat, rest: seq<Byte>, max: nat)
    requires max >= 1 && value < Power(max)
    ensures ReadVar(Leb(value) + rest, max) == Value(value, |Leb(value)|)
    decreases value
  {
    var data := Leb(value) + rest;
    if value >= 128 {
      LebLength(value, max);
      assert max > 1;
      assert data[1..] == Leb(value / 128) + rest;
      ReadBack(value / 128, rest, max - 1);
    }
  }

  /** Reading depends only on the bytes it takes. */
  lemma {:induction false} ReadPrefix(data: seq<Byte>, rest: seq<Byte>, max: nat)
    requires ReadVar(data, max).Value?
    ensures ReadVar(data + rest, max) == ReadVar(data, max)
    decreases max
  {
    if data[0] >= 128 {
      assert (data + rest)[1..] == data[1..] + rest;
      ReadPrefix(data[1..], rest, max - 1);
    }
  }

  // ---------------------------------------------------------------- reading in a loop

  /** What is read so far, joined with what is still to be read. */
  function Joined(value: nat, groups: nat, rest: Read): Read {
    match rest
    case Value(v, used) => Value(value + Power(groups) * v, groups + used)
    case other => other
  }

  /** A reader's loop over at most `max` groups: the value so far, and the weight of the next group. */
  ghost predicate ReadsOn(data: seq<Byte>, max: nat, index: nat, value: nat, weight: nat) {
    && index <= max && index <= |data|
    && weight == Power(index) && value < weight
    && ReadVar(data, max) == Joined(value, index, ReadVar(data[index..], max - index))
  }

  lemma ReadsStart(data: seq<Byte>, max: nat)
    ensures ReadsOn(data, max, 0, 0, 1)
  {
    assert data[0..] == data;
  }

  /** The data ends inside the number. */
  lemma ReadsEnd(data: seq<Byte>, max: nat, value: nat, weight: nat)
    requires ReadsOn(data, max, |data|, value, weight) && |data| < max
    ensures ReadVar(data, max) == Truncated
  {
  }

  /** The number does not end within its limit. */
  lemma ReadsTooFar(data: seq<Byte>, max: nat, value: nat, weight: nat)
    requires ReadsOn(data, max, max, value, weight)
    ensures ReadVar(data, max) == TooLong
  {
  }

  /** A last byte. */
  lemma ReadsLast(data: seq<Byte>, max: nat, index: nat, value: nat, weight: nat)
    requires index < max && index < |data| && ReadsOn(data, max, index, value, weight) && data[index] < 128
    ensures ReadVar(data, max) == Value(value + data[index] % 128 * weight, index + 1)
  {
    hide Power;
    var rest := data[index..];
    assert rest[0] == data[index];
    assert ReadVar(rest, max - index) == Value(rest[0], 1);
    assert data[index] % 128 == rest[0];
  }

  lemma Distribute(p: nat, a: nat, b: nat)
    ensures p * (a + 128 * b) == a * p + (p * 128) * b
  {
  }

  lemma NextGroup(value: nat, weight: nat, byte: Byte)
    requires value < weight
    ensures value + byte % 128 * weight < weight * 128
  {
    assert byte % 128 * weight <= 127 * weight;
  }

  lemma PowerStep(groups: nat)
    ensures Power(groups + 1) == Power(groups) * 128
  {
  }

  /** A byte with more to follow. */
  lemma ReadsMore(data: seq<Byte>, max: nat, index: nat, value: nat, weight: nat)
    requires index < max && index < |data| && ReadsOn(data, max, index, value, weight) && data[index] >= 128
    ensures ReadsOn(data, max, index + 1, value + data[index] % 128 * weight, weight * 128)
  {
    hide Power;
    var rest := data[index..];
    assert rest[0] == data[index] && rest[1..] == data[index + 1..];
    PowerStep(index);
    NextGroup(value, weight, data[index]);
    var tail := ReadVar(rest[1..], max - index - 1);
    if tail.Value? { Distribute(Power(index), data[index] - 128, tail.value); }
  }
}
