/** The 5-byte uplink message built at main.c:143-147. */
module Payload {
  import opened CTypes
  import opened Wrappers

  /** PAYLOAD_SIZE, main.c:22. */
  const PAYLOAD_SIZE: nat := 5
  /** The fixed first byte of every message. */
  const MARKER: u8 := 0xAA

  /** What one message carries. */
  datatype Report = Report(sequence: u8, temperature: s8, humidity: u8, battery: u8)

  /** The bytes written into `payload`: the marker, the sequence counter, the
      temperature as a two's-complement byte, the humidity and the battery. */
  function Encode(r: Report): (p: seq<u8>)
    ensures |p| == PAYLOAD_SIZE
    ensures p[0] == MARKER && p[1] == r.sequence && p[3] == r.humidity && p[4] == r.battery
    ensures ByteToSigned(p[2]) == r.temperature
  {
    [MARKER, r.sequence, SignedToByte(r.temperature), r.humidity, r.battery]
  }

  /** How a receiver reads a message back; anything that is not five bytes
      starting with the marker is rejected. */
  function Decode(p: seq<u8>): (r: Option<Report>)
    ensures r.Some? <==> |p| == PAYLOAD_SIZE && p[0] == MARKER
  {
    if |p| == PAYLOAD_SIZE && p[0] == MARKER then
      Some(Report(p[1], ByteToSigned(p[2]), p[3], p[4]))
    else
      None
  }

  lemma DecodeEncode(r: Report)
    ensures Decode(Encode(r)) == Some(r)
  {
    SignedByteRoundTrip(r.temperature, 0);
  }

  lemma EncodeDecode(p: seq<u8>)
    requires Decode(p).Some?
    ensures Encode(Decode(p).value) == p
  {
    SignedByteRoundTrip(0, p[2]);
    assert Encode(Decode(p).value)[2] == p[2];
  }
}
