/**
 * The two fields of an ANT+ bicycle speed data page that SpeedListener reads:
 * bytes 4-5 hold the time of the last wheel-revolution event in 1/1024 s ticks and
 * bytes 6-7 the cumulative revolution count, each least-significant byte first.
 */
module SpeedPage {

  /** An element of BroadcastDataMessage.getUnsignedData(): a Java int holding one unsigned byte. */
  type Byte = x: int | 0 <= x < 256

  /** The decoded (time, count) pair handed to getTelemetry. */
  datatype Reading = Reading(time: int, count: int)

  /** The 16-bit value whose high byte is `hi` and low byte is `lo`. */
  function Join(hi: Byte, lo: Byte): (r: int)
    ensures 0 <= r < 65536
    ensures r / 256 == hi && r % 256 == lo
  {
    hi * 256 + lo
  }

  /** receiveMessage computes Join as `(hi << 8) | lo` on the bits; for bytes that is the
      same number. */
  lemma {:induction false} ShiftOrIsJoin(hi: bv8, lo: bv8)
    ensures (((hi as bv16) << 8) | (lo as bv16)) as int == Join(hi as int, lo as int)
  {}

  /** The decode at the top of receiveMessage. */
  function Decode(data: seq<Byte>): (r: Reading)
    requires |data| >= 8
    ensures r.time == data[5] as int * 256 + data[4] as int
    ensures r.count == data[7] as int * 256 + data[6] as int
    ensures 0 <= r.time < 65536 && 0 <= r.count < 65536
  {
    Reading(Join(data[5], data[4]), Join(data[7], data[6]))
  }

  /** The sensor's side: a page whose first four bytes are `head`, carrying `r` in bytes 4-7. */
  function Encode(r: Reading, head: seq<Byte>): (page: seq<Byte>)
    requires |head| == 4 && 0 <= r.time < 65536 && 0 <= r.count < 65536
    ensures |page| == 8 && page[..4] == head
  {
    head + [r.time % 256, r.time / 256, r.count % 256, r.count / 256]
  }

  /** Decoding a page recovers the reading it carries. */
  lemma DecodeEncode(r: Reading, head: seq<Byte>)
    requires |head| == 4 && 0 <= r.time < 65536 && 0 <= r.count < 65536
    ensures Decode(Encode(r, head)) == r
  {}

  /** Encoding the decoded reading rebuilds the page: bytes 4-7 are all Decode looks at. */
  lemma EncodeDecode(data: seq<Byte>)
    requires |data| == 8
    ensures Encode(Decode(data), data[..4]) == data
  {
    var r := Decode(data);
    var tail: seq<Byte> := [data[4], data[5], data[6], data[7]];
    assert Encode(r, data[..4]) == data[..4] + tail;
    assert data == data[..4] + tail;
  }
}
