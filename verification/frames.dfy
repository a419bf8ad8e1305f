/**
 * Frames handled by a GPON Optical Network Unit (ONU): subscriber ethernet
 * packets queued for T-CONT 3, the upstream GTC burst header, ping probes,
 * and the byte accounting over a queue of packets.
 */
module Frames {

  datatype Option<T> = None | Some(value: T)

  /** Size in bytes of the upstream GTC header: preamble (3) + delimiter (1)
      + BIP (1) + PLOu header (5) + payload-length overhead (8). */
  const GtcHeaderUlSize: int := 3 + 1 + 1 + 5 + 8

  /** The T-CONT class background data is assigned to. */
  const TCont3: int := 3

  /** An ethernet packet as the ONU sees it: its byte length and the stamps
      the ONU writes on admission (arrival time, ONU index, T-CONT class). */
  datatype EthPacket = EthPacket(byteLength: nat, onuArrivalTime: int, onuId: int, tContId: int)

  /** The upstream GTC header that opens a burst. */
  datatype GtcHeader = GtcHeader(byteLength: nat, uplink: bool, onuId: int)

  /** A ping probe: the ONU-id field the ONU stamps, and the probe's other
      fields, which the ONU carries back untouched. */
  datatype Ping = Ping(onuId: int, body: seq<int>)

  /** What the ONU emits on its trunk port. */
  datatype Frame = Data(pkt: EthPacket) | UlHeader(hdr: GtcHeader) | PingEcho(probe: Ping)

  /** Total byte length of a queue of packets. */
  function SumBytes(q: seq<EthPacket>): nat
  {
    if q == [] then 0 else q[0].byteLength + SumBytes(q[1..])
  }

  /** Byte sums add up over concatenation: appending at the tail of a queue
      adds exactly the appended packets' lengths. */
  lemma {:induction false} SumBytesAppend(a: seq<EthPacket>, b: seq<EthPacket>)
    ensures SumBytes(a + b) == SumBytes(a) + SumBytes(b)
  {
    if a == [] {
      assert a + b == b;
    } else {
      assert (a + b)[1..] == a[1..] + b;
      SumBytesAppend(a[1..], b);
    }
  }

  /** The ping echo: the probe stamped with the ONU's index and otherwise
      returned as it came. */
  function Echo(p: Ping, index: int): (r: Ping)
    ensures r.onuId == index
    ensures r.(onuId := p.onuId) == p
  {
    p.(onuId := index)
  }
}
