/** The binary frame format of the file-transfer data channel (filetransfer/frame.go). */
module FrameCodec {
  import opened Basics

  const FRAME_HEADER_SIZE := 9

  datatype Frame = Frame(seqNo: UInt32, flags: Byte, payload: Bytes)

  datatype DecodeError = TooShort | Truncated(declared: UInt32, got: nat)

  // ---- The wire format, as functions of byte strings -------------------------------------

  function PutUint32(x: UInt32): (r: Bytes)
    ensures |r| == 4
  {
    [x / 0x100_0000, x / 0x1_0000 % 256, x / 256 % 256, x % 256]
  }

  function GetUint32(b: Bytes): UInt32
    requires |b| == 4
  {
    var b0: int, b1: int, b2: int, b3: int := b[0], b[1], b[2], b[3];
    b0 * 0x100_0000 + b1 * 0x1_0000 + b2 * 256 + b3
  }

  lemma Uint32RoundTrip(x: UInt32)
    ensures GetUint32(PutUint32(x)) == x
  {
    var a, b, c := x / 256, x / 0x1_0000, x / 0x100_0000;
    assert b == a / 256 && c == b / 256;
  }

  lemma Uint32RoundTripBack(b: Bytes)
    requires |b| == 4
    ensures PutUint32(GetUint32(b)) == b
  {
    var x := GetUint32(b);
    var b0: int, b1: int, b2: int := b[0], b[1], b[2];
    assert x / 256 == b0 * 0x1_0000 + b1 * 256 + b2;
    assert x / 0x1_0000 == b0 * 256 + b1;
  }

  /** The length field is the payload length truncated to 32 bits, as the source writes it. */
  function Encoding(f: Frame): Bytes {
    PutUint32(f.seqNo) + PutUint32(Truncate32(|f.payload|)) + [f.flags] + f.payload
  }

  /** The length test compares against the truncated remaining length, as the source does. */
  function Decoding(data: Bytes): Result<Frame, DecodeError> {
    if |data| < FRAME_HEADER_SIZE then
      Err(TooShort)
    else
      var length := GetUint32(data[4..8]);
      if Truncate32(|data| - FRAME_HEADER_SIZE) < length then
        Err(Truncated(length, |data| - FRAME_HEADER_SIZE))
      else
        ShortDivision(|data| - FRAME_HEADER_SIZE);
        Ok(Frame(GetUint32(data[0..4]), data[8], data[9..9 + length]))
  }

  lemma ShortDivision(n: nat)
    ensures Truncate32(n) <= n
  {
  }

  lemma EncodingFields(f: Frame, trailing: Bytes)
    ensures var data := Encoding(f) + trailing;
            && |data| == 9 + |f.payload| + |trailing|
            && data[0..4] == PutUint32(f.seqNo)
            && data[4..8] == PutUint32(Truncate32(|f.payload|))
            && data[8] == f.flags
            && data[9..] == f.payload + trailing
  {
    var data := Encoding(f) + trailing;
    assert data == PutUint32(f.seqNo) + (PutUint32(Truncate32(|f.payload|)) + ([f.flags] + (f.payload + trailing)));
  }

  /** Decoding an encoded frame followed by arbitrary bytes gives the frame back exactly when
      the payload length fits its 32-bit field and the truncated remaining length covers it. */
  lemma DecodeInvertsEncode(f: Frame, trailing: Bytes)
    ensures Decoding(Encoding(f) + trailing) == Ok(f)
       <==> |f.payload| < TWO_TO_THE_32 && Truncate32(|f.payload| + |trailing|) >= |f.payload|
  {
    var data := Encoding(f) + trailing;
    EncodingFields(f, trailing);
    Uint32RoundTrip(f.seqNo);
    Uint32RoundTrip(Truncate32(|f.payload|));
    var length := Truncate32(|f.payload|);
    assert |data| - 9 == |f.payload| + |trailing|;
    if Truncate32(|f.payload| + |trailing|) >= length {
      ShortDivision(|f.payload| + |trailing|);
      assert data[9..9 + length] == data[9..][..length];
      if |f.payload| < TWO_TO_THE_32 {
        assert length == |f.payload|;
        assert data[9..9 + length] == f.payload;
      }
    }
  }

  /** Every message below the field limit decodes, whatever follows it on the wire. */
  lemma DecodeBelowLimit(f: Frame, trailing: Bytes)
    requires |f.payload| + |trailing| < TWO_TO_THE_32
    ensures Decoding(Encoding(f) + trailing) == Ok(f)
  {
    DecodeInvertsEncode(f, trailing);
  }

  /** Re-encoding what was decoded reproduces the header and the declared payload bytes. */
  lemma EncodeInvertsDecode(data: Bytes)
    requires Decoding(data).Ok?
    ensures var f := Decoding(data).value;
            9 + |f.payload| <= |data| && Encoding(f) == data[..9 + |f.payload|]
  {
    var f := Decoding(data).value;
    ShortDivision(|data| - 9);
    Uint32RoundTripBack(data[0..4]);
    Uint32RoundTripBack(data[4..8]);
    assert data[..9 + |f.payload|] == data[0..4] + data[4..8] + [data[8]] + data[9..9 + |f.payload|];
  }

  /** Distinct frames never share an encoding. */
  lemma EncodingIsInjective(f: Frame, g: Frame)
    requires |f.payload| < TWO_TO_THE_32 && |g.payload| < TWO_TO_THE_32
    requires Encoding(f) == Encoding(g)
    ensures f == g
  {
    DecodeBelowLimit(f, []);
    DecodeBelowLimit(g, []);
    assert Encoding(f) + [] == Encoding(f) && Encoding(g) + [] == Encoding(g);
  }

  // ---- The imperative codec --------------------------------------------------------------

  /** Writes x big-endian at buf[at..at+4]. */
  method WriteUint32(buf: array<Byte>, at: nat, x: UInt32)
    requires at + 4 <= buf.Length
    modifies buf
    ensures buf[at..at + 4] == PutUint32(x)
    ensures forall k :: 0 <= k < buf.Length && !(at <= k < at + 4) ==> buf[k] == old(buf[k])
  {
    buf[at] := x / 0x100_0000;
    buf[at + 1] := x / 0x1_0000 % 256;
    buf[at + 2] := x / 256 % 256;
    buf[at + 3] := x % 256;
  }

  /** The result is a fresh buffer: reusing the caller's read buffer afterwards cannot change
      a frame that was already built. */
  method EncodeFrame(seqNo: UInt32, flags: Byte, payload: array<Byte>, n: nat) returns (buf: array<Byte>)
    requires n <= payload.Length
    ensures fresh(buf)
    ensures buf[..] == Encoding(Frame(seqNo, flags, payload[..n]))
  {
    buf := new Byte[FRAME_HEADER_SIZE + n];
    WriteUint32(buf, 0, seqNo);
    WriteUint32(buf, 4, Truncate32(n));
    assert buf[0..4] == PutUint32(seqNo);
    buf[8] := flags;
    forall i | 0 <= i < n {
      buf[FRAME_HEADER_SIZE + i] := payload[i];
    }
    assert buf[..] == buf[0..4] + buf[4..8] + [buf[8]] + buf[9..];
    assert buf[9..] == payload[..n];
  }

  method DecodeFrame(data: array<Byte>) returns (r: Result<Frame, DecodeError>)
    ensures r == Decoding(data[..])
  {
    if data.Length < FRAME_HEADER_SIZE {
      return Err(TooShort);
    }
    ghost var d := data[..];
    var seqNo := GetUint32(data[0..4]);
    var length := GetUint32(data[4..8]);
    var flags := data[8];
    assert d[0..4] == data[0..4] && d[4..8] == data[4..8];
    if Truncate32(data.Length - FRAME_HEADER_SIZE) < length {
      return Err(Truncated(length, data.Length - FRAME_HEADER_SIZE));
    }
    ShortDivision(data.Length - FRAME_HEADER_SIZE);
    var payload := new Byte[length];
    forall i | 0 <= i < length {
      payload[i] := data[FRAME_HEADER_SIZE + i];
    }
    assert data[..] == d && payload[..] == d[9..9 + length];
    return Ok(Frame(seqNo, flags, payload[..]));
  }
}
