/** RTP packets and the unwrapping of their counters (rtpverifier/receiver.go). */
module Rtp {
  import opened Ints
  import opened Options

  datatype Addr = V4(v4: uint32) | Mapped(v4: uint32) | V6(v6: nat) {
    function Unmap(): Addr {
      if Mapped? then V4(v4) else this
    }
  }

  datatype Endpoint = Endpoint(addr: Addr, port: uint16)

  datatype Packet = Packet(
    version: nat,
    marker: bool,
    payloadType: uint8,
    sequence: uint16,
    timestamp: uint32,
    ssrc: uint32,
    payload: seq<uint8>)

  /** The candidate nearest the highest value so far among those that agree with the low sixteen bits. */
  function Unwrap16(value: uint16, highest: Option<int>): (r: int)
    ensures r % 0x1_0000 == value
    ensures highest.Some? ==> Abs(r - highest.value) <= 0x8000
  {
    match highest
    case None => value
    case Some(h) =>
      var candidate := h - h % 0x1_0000 + value;
      if candidate - h > 0x8000 then candidate - 0x1_0000
      else if h - candidate > 0x8000 then candidate + 0x1_0000
      else candidate
  }

  function Unwrap32(value: uint32, highest: Option<int>): (r: int)
    ensures r % 0x1_0000_0000 == value
    ensures highest.Some? ==> Abs(r - highest.value) <= 0x8000_0000
  {
    match highest
    case None => value
    case Some(h) =>
      var candidate := h - h % 0x1_0000_0000 + value;
      if candidate - h > 0x8000_0000 then candidate - 0x1_0000_0000
      else if h - candidate > 0x8000_0000 then candidate + 0x1_0000_0000
      else candidate
  }

  /** Less than half a cycle from the highest value, unwrapping recovers the counter itself. */
  lemma Unwrap16Exact(counter: int, h: int)
    requires Abs(counter - h) < 0x8000
    ensures Unwrap16(counter % 0x1_0000, Some(h)) == counter
  {
    var r := Unwrap16(counter % 0x1_0000, Some(h));
    assert (r - counter) % 0x1_0000 == 0;
  }

  lemma Unwrap32Exact(counter: int, h: int)
    requires Abs(counter - h) < 0x8000_0000
    ensures Unwrap32(counter % 0x1_0000_0000, Some(h)) == counter
  {
    var r := Unwrap32(counter % 0x1_0000_0000, Some(h));
    assert (r - counter) % 0x1_0000_0000 == 0;
  }
}
