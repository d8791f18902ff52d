/** The payload codec: values are written with fixed-width little-endian
    integers (bincode's fixint encoding) and read back with trailing bytes
    allowed. Both directions return a typed result instead of panicking. */
module Payload {
  import opened Wrappers
  import opened SomeIpTypes

  type byte = u8
  type u64 = x: int | 0 <= x < 0x1_0000_0000_0000_0000
  type i32 = x: int | -0x8000_0000 <= x < 0x8000_0000

  /** The value shapes a method argument or result may take. */
  datatype Kind = UnitKind | BoolKind | U8Kind | U16Kind | U32Kind | U64Kind | I32Kind

  datatype Value =
    | Unit
    | Bool(b: bool)
    | U8(n8: u8)
    | U16(n16: u16)
    | U32(n32: u32)
    | U64(n64: u64)
    | I32(i: i32)

  /** Why a buffer could not be read (bincode's `Io(UnexpectedEof)` and
      `InvalidBoolEncoding`). */
  datatype DecodeError = UnexpectedEof | InvalidBoolEncoding(found: byte)

  /** Why a value could not be written; none of the modelled kinds can hit it. */
  datatype EncodeError = Unrepresentable

  function KindOf(v: Value): Kind {
    match v
    case Unit => UnitKind
    case Bool(_) => BoolKind
    case U8(_) => U8Kind
    case U16(_) => U16Kind
    case U32(_) => U32Kind
    case U64(_) => U64Kind
    case I32(_) => I32Kind
  }

  /** Number of bytes a value of kind `k` occupies. */
  function Width(k: Kind): nat {
    match k
    case UnitKind => 0
    case BoolKind => 1
    case U8Kind => 1
    case U16Kind => 2
    case U32Kind => 4
    case U64Kind => 8
    case I32Kind => 4
  }

  function Pow256(w: nat): (p: nat)
    ensures p > 0
  {
    if w == 0 then 1 else 256 * Pow256(w - 1)
  }

  /** The `w` low-order bytes of `n`, least significant first. */
  function ToLittleEndian(n: nat, w: nat): (bs: seq<byte>)
    ensures |bs| == w
  {
    if w == 0 then [] else [(n % 256) as byte] + ToLittleEndian(n / 256, w - 1)
  }

  function FromLittleEndian(bs: seq<byte>): nat {
    if |bs| == 0 then 0 else bs[0] + 256 * FromLittleEndian(bs[1..])
  }

  lemma {:induction false} FromLittleEndianBound(bs: seq<byte>)
    ensures FromLittleEndian(bs) < Pow256(|bs|)
  {
    if |bs| > 0 {
      FromLittleEndianBound(bs[1..]);
      var x := FromLittleEndian(bs[1..]);
      assert x <= Pow256(|bs| - 1) - 1;
      calc {
        FromLittleEndian(bs);
        == bs[0] + 256 * x;
        <= 255 + 256 * x;
        <= 255 + 256 * (Pow256(|bs| - 1) - 1);
        < Pow256(|bs|);
      }
    }
  }

  /** Writing then reading `w` bytes gives back any number below 256^w. */
  lemma {:induction false} LittleEndianRoundTrip(n: nat, w: nat)
    requires n < Pow256(w)
    ensures FromLittleEndian(ToLittleEndian(n, w)) == n
  {
    if w > 0 {
      var q := n / 256;
      assert q < Pow256(w - 1) by {
        assert n == 256 * q + n % 256;
      }
      LittleEndianRoundTrip(q, w - 1);
      var bs := ToLittleEndian(n, w);
      assert bs[1..] == ToLittleEndian(q, w - 1);
    }
  }

  /** Reading then writing gives back the same bytes. */
  lemma {:induction false} LittleEndianCanonical(bs: seq<byte>)
    ensures ToLittleEndian(FromLittleEndian(bs), |bs|) == bs
  {
    if |bs| > 0 {
      var x := FromLittleEndian(bs[1..]);
      var n := bs[0] + 256 * x;
      assert n % 256 == bs[0] && n / 256 == x;
      LittleEndianCanonical(bs[1..]);
    }
  }

  /** `i32` in two's complement, as the unsigned number of its four bytes. */
  function I32Bits(i: i32): (n: nat)
    ensures n < 0x1_0000_0000
  {
    if i >= 0 then i else i + 0x1_0000_0000
  }

  function I32FromBits(n: nat): i32
    requires n < 0x1_0000_0000
  {
    if n < 0x8000_0000 then n else n - 0x1_0000_0000
  }

  /** The number a value writes, in the width of its kind. */
  function Bits(v: Value): (n: nat)
    ensures n < Pow256(Width(KindOf(v)))
  {
    assert Pow256(1) == 0x100 && Pow256(2) == 0x1_0000;
    assert Pow256(4) == 0x1_0000_0000;
    assert Pow256(8) == 0x1_0000_0000_0000_0000;
    match v
    case Unit => 0
    case Bool(b) => if b then 1 else 0
    case U8(n) => n
    case U16(n) => n
    case U32(n) => n
    case U64(n) => n
    case I32(i) => I32Bits(i)
  }

  /** `ToPayload::to_payload`: a value occupies exactly its kind's width. */
  function Encode(v: Value): (r: Result<seq<byte>, EncodeError>)
    ensures r.Success? && |r.value| == Width(KindOf(v))
  {
    Success(ToLittleEndian(Bits(v), Width(KindOf(v))))
  }

  /** `FromPayload::from_payload` for a value of kind `k`: only the first
      `Width(k)` bytes are read, the rest are ignored. */
  function Decode(k: Kind, payload: seq<byte>): (r: Result<Value, DecodeError>)
    ensures |payload| < Width(k) <==> r == Failure(UnexpectedEof)
    ensures r.Success? ==> KindOf(r.value) == k
  {
    if |payload| < Width(k) then Failure(UnexpectedEof)
    else
      var n := FromLittleEndian(payload[..Width(k)]);
      FromLittleEndianBound(payload[..Width(k)]);
      assert Pow256(1) == 0x100 && Pow256(2) == 0x1_0000;
      assert Pow256(4) == 0x1_0000_0000;
      assert Pow256(8) == 0x1_0000_0000_0000_0000;
      match k
      case UnitKind => Success(Unit)
      case BoolKind =>
        if n == 0 then Success(Bool(false))
        else if n == 1 then Success(Bool(true))
        else Failure(InvalidBoolEncoding(payload[0]))
      case U8Kind => Success(U8(n))
      case U16Kind => Success(U16(n))
      case U32Kind => Success(U32(n))
      case U64Kind => Success(U64(n))
      case I32Kind => Success(I32(I32FromBits(n)))
  }

  /** Encoding never fails for the modelled kinds, so an `unwrap` of it
      cannot panic. */
  lemma EncodeNeverFails(v: Value)
    ensures Encode(v).Success?
  {
  }

  /** Round trip, with any trailing bytes after the encoding tolerated. */
  lemma {:induction false} DecodeEncode(v: Value, extra: seq<byte>)
    ensures Decode(KindOf(v), Encode(v).value + extra) == Success(v)
  {
    var k := KindOf(v);
    var enc := Encode(v).value;
    assert (enc + extra)[..Width(k)] == enc;
    LittleEndianRoundTrip(Bits(v), Width(k));
  }

  /** Round trip on the exact encoding. */
  lemma RoundTrip(v: Value)
    ensures Decode(KindOf(v), Encode(v).value) == Success(v)
  {
    DecodeEncode(v, []);
    assert Encode(v).value + [] == Encode(v).value;
  }

  /** The converse: whatever decodes successfully was the encoding of the
      decoded value, followed by bytes that were ignored. */
  lemma {:induction false} EncodeDecode(k: Kind, payload: seq<byte>)
    requires Decode(k, payload).Success?
    ensures Encode(Decode(k, payload).value).value == payload[..Width(k)]
  {
    var head := payload[..Width(k)];
    var n := FromLittleEndian(head);
    FromLittleEndianBound(head);
    LittleEndianCanonical(head);
    assert Pow256(1) == 0x100 && Pow256(2) == 0x1_0000;
    assert Pow256(4) == 0x1_0000_0000;
    match k
    case I32Kind => assert I32Bits(I32FromBits(n)) == n;
    case _ =>
  }

  /** A decode result does not depend on the bytes after the width. */
  lemma TrailingBytesIgnored(k: Kind, payload: seq<byte>, extra: seq<byte>)
    requires |payload| >= Width(k)
    ensures Decode(k, payload + extra) == Decode(k, payload)
  {
    assert (payload + extra)[..Width(k)] == payload[..Width(k)];
  }
}
