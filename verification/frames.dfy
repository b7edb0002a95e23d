/**
 * The binary layout of the replay body: frames packed back to back, each a
 * one-byte command type, a two-byte little-endian total length (header
 * included) and then `length - 3` payload bytes.
 */
module Frames {
  import opened Wrappers

  newtype byte = x: int | 0 <= x < 256

  /** One type byte plus two length bytes. */
  const HeaderSize: nat := 3

  /** The largest length the two-byte field can declare. */
  const MaxFrameLength: nat := 65535

  /** Every way a pass over the body can abort. */
  datatype ParseError =
    | MalformedFrame                   // declared length smaller than the header
    | OutOfData                        // payload runs past the end of the buffer
    | UnknownCommandType(ctype: byte)  // no decoder registered for the type
    | DecodeFailed(ctype: byte)        // the registered decoder rejected the payload
    | MissingLuaField                  // a relay message without Sender, to or text
    | NoDecodedValue                   // a filtered frame before any frame was decoded

  /** A frame as read: its type, the whole frame (header and payload) and the payload alone. */
  datatype Frame = Frame(ctype: byte, raw: seq<byte>, payload: seq<byte>)

  /** Unsigned 16-bit little-endian value of two bytes. */
  function U16(lo: byte, hi: byte): (n: nat)
    ensures n <= MaxFrameLength
    ensures n % 256 == lo as int && n / 256 == hi as int
  {
    lo as int + 256 * hi as int
  }

  /** The total length the header at `off` declares. */
  function DeclaredLength(data: seq<byte>, off: nat): nat
    requires off + HeaderSize <= |data|
  {
    U16(data[off + 1], data[off + 2])
  }

  /**
   * Reads the frame that starts at `off`. The engine only calls this with a
   * whole header left; the payload may still run past the buffer.
   */
  function ReadFrame(data: seq<byte>, off: nat): (r: Result<Frame, ParseError>)
    requires off + HeaderSize <= |data|
    ensures r == Failure(MalformedFrame) <==> DeclaredLength(data, off) < HeaderSize
    ensures r == Failure(OutOfData) <==>
              HeaderSize <= DeclaredLength(data, off) && |data| < off + DeclaredLength(data, off)
    ensures r.Success? <==>
              HeaderSize <= DeclaredLength(data, off) && off + DeclaredLength(data, off) <= |data|
    ensures r.Success? ==>
              && |r.value.raw| == DeclaredLength(data, off)
              && r.value.raw == data[off..off + DeclaredLength(data, off)]
              && r.value.ctype == data[off]
              && r.value.payload == r.value.raw[HeaderSize..]
  {
    var len := DeclaredLength(data, off);
    if len < HeaderSize then Failure(MalformedFrame)
    else if |data| < off + len then Failure(OutOfData)
    else
      var payload := data[off + HeaderSize..off + len];
      assert data[off..off + len] == data[off..off + HeaderSize] + payload;
      Success(Frame(data[off], data[off..off + HeaderSize] + payload, payload))
  }

  /** The bytes of a frame of type `ctype` carrying `payload`. */
  function EncodeFrame(ctype: byte, payload: seq<byte>): (raw: seq<byte>)
    requires |payload| + HeaderSize <= MaxFrameLength
    ensures |raw| == |payload| + HeaderSize
    ensures raw[0] == ctype && raw[HeaderSize..] == payload
  {
    var len := |payload| + HeaderSize;
    [ctype, (len % 256) as byte, (len / 256) as byte] + payload
  }

  /** Reading a frame back, wherever it sits in a buffer, returns its type, bytes and payload. */
  lemma FrameRoundTrip(before: seq<byte>, ctype: byte, payload: seq<byte>, after: seq<byte>)
    requires |payload| + HeaderSize <= MaxFrameLength
    ensures var raw := EncodeFrame(ctype, payload);
            var data := before + raw + after;
            |before| + HeaderSize <= |data| &&
            ReadFrame(data, |before|) == Success(Frame(ctype, raw, payload))
  {
    var raw := EncodeFrame(ctype, payload);
    var data := before + raw + after;
    var off := |before|;
    var len := |payload| + HeaderSize;
    assert data[off..off + len] == raw;
    assert data[off + 1] == raw[1] && data[off + 2] == raw[2];
    assert DeclaredLength(data, off) == len;
  }
}
