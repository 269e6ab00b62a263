/** The binary frame of the port relay tunnel. */
module Frame {
  newtype byte = x: int | 0 <= x < 0x100
  newtype u32 = x: int | 0 <= x < 0x1_0000_0000

  const FRAME_MAGIC: byte := 0x57
  const FRAME_VERSION: byte := 1
  const HEADER_BYTES := 16
  const MAX_META_BYTES := 64 * 1024
  const MAX_PAYLOAD_BYTES := 1024 * 1024

  const OPEN: byte := 1
  const HEADERS: byte := 2
  const DATA: byte := 3
  const CLOSE: byte := 4
  const ERROR: byte := 5

  const HALF_CLOSE: byte := 4

  datatype Frame = Frame(kind: byte, flags: byte, stream: u32, meta: seq<byte>, payload: seq<byte>)

  datatype FrameError =
    | TooShort(length: nat) | BadMagic | UnsupportedVersion(version: byte)
    | MetaTooLarge(length: nat) | PayloadTooLarge(length: nat) | LengthMismatch

  datatype Result<+T> = Ok(value: T) | Err(error: FrameError)

  /** binary.BigEndian.PutUint32. */
  function PutU32(n: u32): (b: seq<byte>)
    ensures |b| == 4
  {
    var v := n as int;
    [(v / 0x100_0000) as byte, (v / 0x1_0000 % 0x100) as byte, (v / 0x100 % 0x100) as byte, (v % 0x100) as byte]
  }

  /** binary.BigEndian.Uint32. */
  function GetU32(b: seq<byte>): u32
    requires |b| == 4
  {
    (b[0] as int * 0x100_0000 + b[1] as int * 0x1_0000 + b[2] as int * 0x100 + b[3] as int) as u32
  }

  lemma GetPut(n: u32)
    ensures GetU32(PutU32(n)) == n
  {
    var v := n as int;
    var high := v / 0x100;
    var higher := high / 0x100;
    assert v / 0x1_0000 == higher && v / 0x100_0000 == higher / 0x100;
    assert v == high * 0x100 + v % 0x100;
    assert high == higher * 0x100 + high % 0x100;
    assert higher == higher / 0x100 * 0x100 + higher % 0x100;
  }

  lemma PutGet(b: seq<byte>)
    requires |b| == 4
    ensures PutU32(GetU32(b)) == b
  {
    var v := GetU32(b) as int;
    assert v / 0x100_0000 == b[0] as int;
    assert v / 0x1_0000 == b[0] as int * 0x100 + b[1] as int;
    assert v / 0x100 == b[0] as int * 0x1_0000 + b[1] as int * 0x100 + b[2] as int;
  }

  predicate Fits(f: Frame) {
    |f.meta| <= MAX_META_BYTES && |f.payload| <= MAX_PAYLOAD_BYTES
  }

  /** The bytes of a frame that fits. */
  function Bytes(f: Frame): (raw: seq<byte>)
    requires Fits(f)
    ensures |raw| == HEADER_BYTES + |f.meta| + |f.payload|
  {
    [FRAME_MAGIC, FRAME_VERSION, f.kind, f.flags] + PutU32(f.stream) + PutU32(|f.meta| as u32)
      + PutU32(|f.payload| as u32) + f.meta + f.payload
  }

  function Encode(f: Frame): Result<seq<byte>> {
    if |f.meta| > MAX_META_BYTES then Err(MetaTooLarge(|f.meta|))
    else if |f.payload| > MAX_PAYLOAD_BYTES then Err(PayloadTooLarge(|f.payload|))
    else Ok(Bytes(f))
  }

  /** EncodeFrame: allocate the buffer, then fill it piece by piece. */
  method EncodeFrame(f: Frame) returns (r: Result<array<byte>>)
    ensures r.Err? <==> Encode(f).Err?
    ensures r.Err? ==> r.error == Encode(f).error
    ensures r.Ok? ==> fresh(r.value) && Encode(f) == Ok(r.value[..])
  {
    if |f.meta| > MAX_META_BYTES {
      return Err(MetaTooLarge(|f.meta|));
    }
    if |f.payload| > MAX_PAYLOAD_BYTES {
      return Err(PayloadTooLarge(|f.payload|));
    }
    var out := new byte[HEADER_BYTES + |f.meta| + |f.payload|];
    out[0], out[1], out[2], out[3] := FRAME_MAGIC, FRAME_VERSION, f.kind, f.flags;
    assert out[..4] == [FRAME_MAGIC, FRAME_VERSION, f.kind, f.flags];
    CopyInto(out, 4, PutU32(f.stream));
    CopyInto(out, 8, PutU32(|f.meta| as u32));
    CopyInto(out, 12, PutU32(|f.payload| as u32));
    CopyInto(out, 16, f.meta);
    CopyInto(out, 16 + |f.meta|, f.payload);
    assert out[..] == out[..out.Length];
    r := Ok(out);
  }

  /** copy(out[at:], data). */
  method CopyInto(out: array<byte>, at: nat, data: seq<byte>)
    requires at + |data| <= out.Length
    modifies out
    ensures out[..at + |data|] == old(out[..at]) + data
    ensures out[at + |data|..] == old(out[at + |data|..])
  {
    for i := 0 to |data|
      invariant out[..at + i] == old(out[..at]) + data[..i]
      invariant out[at + i..] == old(out[at + i..])
    {
      out[at + i] := data[i];
    }
  }

  /** DecodeFrame. */
  function Decode(raw: seq<byte>): Result<Frame> {
    if |raw| < HEADER_BYTES then Err(TooShort(|raw|))
    else if raw[0] != FRAME_MAGIC then Err(BadMagic)
    else if raw[1] != FRAME_VERSION then Err(UnsupportedVersion(raw[1]))
    else
      var metaLen := GetU32(raw[8..12]) as int;
      var payloadLen := GetU32(raw[12..16]) as int;
      if metaLen > MAX_META_BYTES then Err(MetaTooLarge(metaLen))
      else if payloadLen > MAX_PAYLOAD_BYTES then Err(PayloadTooLarge(payloadLen))
      else if |raw| != HEADER_BYTES + metaLen + payloadLen then Err(LengthMismatch)
      else Ok(Frame(raw[2], raw[3], GetU32(raw[4..8]), raw[16..16 + metaLen], raw[16 + metaLen..]))
  }

  /** Decoding what was encoded gives the frame back. */
  lemma DecodeEncode(f: Frame)
    requires Encode(f).Ok?
    ensures Decode(Encode(f).value) == Ok(f)
  {
    var raw := Bytes(f);
    assert raw[4..8] == PutU32(f.stream);
    assert raw[8..12] == PutU32(|f.meta| as u32);
    assert raw[12..16] == PutU32(|f.payload| as u32);
    GetPut(f.stream);
    GetPut(|f.meta| as u32);
    GetPut(|f.payload| as u32);
    assert raw[16..16 + |f.meta|] == f.meta;
    assert raw[16 + |f.meta|..] == f.payload;
  }

  /** The decoder accepts nothing but encodings: what it accepts is the encoding of what it returns. */
  lemma EncodeDecode(raw: seq<byte>)
    requires Decode(raw).Ok?
    ensures Encode(Decode(raw).value) == Ok(raw)
  {
    var f := Decode(raw).value;
    PutGet(raw[4..8]);
    PutGet(raw[8..12]);
    PutGet(raw[12..16]);
    assert raw == raw[..4] + raw[4..8] + raw[8..12] + raw[12..16] + raw[16..16 + |f.meta|] + raw[16 + |f.meta|..];
    assert raw[..4] == [FRAME_MAGIC, FRAME_VERSION, f.kind, f.flags];
  }

  /** A number written in base 256, its most significant digit first. */
  function Number(digits: seq<byte>): nat {
    if digits == [] then 0
    else Number(digits[..|digits| - 1]) * 256 + digits[|digits| - 1] as nat
  }

  lemma NumberOfFour(b: seq<byte>)
    requires |b| == 4
    ensures Number(b) == GetU32(b) as int
  {
    var three := b[..3];
    var two := three[..2];
    var one := two[..1];
    assert Number(one[..0]) == 0 && one[0] == b[0] && two[1] == b[1] && three[2] == b[2];
    assert Number(one) == b[0] as nat && Number(two) == Number(one) * 256 + b[1] as nat;
    assert Number(three) == Number(two) * 256 + b[2] as nat;
  }

  /** Where everything is in a message: 'W' and 1, type and flags, the stream and the two lengths as
      big-endian numbers of four bytes, the metadata, the payload. */
  ghost predicate LaidOut(f: Frame, raw: seq<byte>) {
    && |raw| == 16 + |f.meta| + |f.payload|
    && raw[0] as char == 'W' && raw[1] == 1 && raw[2] == f.kind && raw[3] == f.flags
    && Number(raw[4..8]) == f.stream as int && Number(raw[8..12]) == |f.meta| && Number(raw[12..16]) == |f.payload|
    && raw[16..16 + |f.meta|] == f.meta && raw[16 + |f.meta|..] == f.payload
  }

  /** A frame has an encoding exactly when its metadata take at most 64 KiB and its payload at most
      1 MiB, and the encoding is laid out so. */
  lemma EncodesExactly(f: Frame)
    ensures Encode(f).Ok? <==> |f.meta| <= 65_536 && |f.payload| <= 1_048_576
    ensures Encode(f).Ok? ==> LaidOut(f, Encode(f).value)
  {
    if Encode(f).Ok? {
      var raw := Bytes(f);
      assert raw[4..8] == PutU32(f.stream);
      assert raw[8..12] == PutU32(|f.meta| as u32);
      assert raw[12..16] == PutU32(|f.payload| as u32);
      GetPut(f.stream);
      GetPut(|f.meta| as u32);
      GetPut(|f.payload| as u32);
      NumberOfFour(raw[4..8]);
      NumberOfFour(raw[8..12]);
      NumberOfFour(raw[12..16]);
    }
  }
}
