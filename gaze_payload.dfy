/**
 * The gaze payload of one camera-capture frame (Eyetracking/FixationDetection.py):
 * four bytes unpacked with the struct format 'hh' into two signed 16-bit integers.
 * The format uses the host's byte order; the model fixes it to little-endian.
 */
module GazePayload {
  import opened Common

  type Byte = b: int | 0 <= b < 256

  const Int16Min: int := -32768
  const Int16Max: int := 32767

  predicate InInt16(v: int) {
    Int16Min <= v <= Int16Max
  }

  /** `struct.error`: 'hh' unpacks only a buffer of exactly four bytes. */
  datatype DecodeError = WrongLength(got: nat)

  /** A two's-complement 16-bit value from its low and high byte. */
  function DecodeInt16(lo: Byte, hi: Byte): (v: int)
    ensures InInt16(v)
  {
    var u := lo + 256 * hi;
    if u >= 32768 then u - 65536 else u
  }

  /** The two bytes, low first, of a 16-bit value: the inverse of `DecodeInt16`. */
  function EncodeInt16(v: int): (bs: seq<Byte>)
    requires InInt16(v)
    ensures |bs| == 2 && DecodeInt16(bs[0], bs[1]) == v
  {
    var u := if v < 0 then v + 65536 else v;
    [u % 256, u / 256]
  }

  /** `struct.unpack('hh', gaze_info)`: the raw gaze coordinate (x, y). */
  function DecodeGaze(payload: seq<Byte>): (r: Result<(int, int), DecodeError>)
    ensures r.Ok? <==> |payload| == 4
    ensures r.Ok? ==> InInt16(r.value.0) && InInt16(r.value.1)
    ensures r.Err? ==> r.error == WrongLength(|payload|)
  {
    if |payload| != 4 then Err(WrongLength(|payload|))
    else Ok((DecodeInt16(payload[0], payload[1]), DecodeInt16(payload[2], payload[3])))
  }

  /** `struct.pack('hh', x, y)`. */
  function EncodeGaze(x: int, y: int): (payload: seq<Byte>)
    requires InInt16(x) && InInt16(y)
    ensures |payload| == 4
  {
    EncodeInt16(x) + EncodeInt16(y)
  }

  /** Decoding a packed coordinate gives the coordinate back. */
  lemma DecodeEncode(x: int, y: int)
    requires InInt16(x) && InInt16(y)
    ensures DecodeGaze(EncodeGaze(x, y)) == Ok((x, y))
  {
  }

  /** Every 16-bit byte pair is the encoding of the value it decodes to. */
  lemma EncodeDecodeInt16(lo: Byte, hi: Byte)
    ensures EncodeInt16(DecodeInt16(lo, hi)) == [lo, hi]
  {
  }

  /** Every four-byte payload encodes the coordinate it decodes to. */
  lemma EncodeDecode(payload: seq<Byte>)
    requires |payload| == 4
    ensures EncodeGaze(DecodeGaze(payload).value.0, DecodeGaze(payload).value.1) == payload
  {
  }
}
