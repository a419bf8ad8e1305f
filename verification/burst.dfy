/**
 * The payload phase of an upstream burst, as a function of the T-CONT 3
 * queue and the grant left after the GTC header: how many packets leave the
 * queue, and what is proved about them.
 */
module Burst {
  import opened Frames

  /** Whether one payload-drain event sends the head of the queue: the grant
      left is positive, bytes are pending, and the head fits in the grant. */
  predicate CanSend(q: seq<EthPacket>, grant: int)
  {
    grant > 0 && SumBytes(q) > 0 && q[0].byteLength <= grant
  }

  /** Number of packets a burst with the given grant takes from the head of
      the queue before a drain event finds it cannot send. */
  function BurstLength(q: seq<EthPacket>, grant: int): (k: nat)
    ensures k <= |q|
    ensures k > 0 <==> CanSend(q, grant)
    decreases |q|
  {
    if CanSend(q, grant) then 1 + BurstLength(q[1..], grant - q[0].byteLength) else 0
  }

  /** The packets a burst emits: the first BurstLength packets, in queue order. */
  function Emitted(q: seq<EthPacket>, grant: int): seq<EthPacket>
  {
    q[..BurstLength(q, grant)]
  }

  /** One more drain step of a burst in progress: sending the head moves it
      from the queue to the emitted packets and keeps the burst's length.
      Stated on its own to keep the proof of the drain loop small. */
  lemma DrainAdvance(q0: seq<EthPacket>, g0: int, sent: seq<EthPacket>, q: seq<EthPacket>, g: int)
    requires sent + q == q0
    requires |sent| + BurstLength(q, g) == BurstLength(q0, g0)
    requires CanSend(q, g)
    ensures (sent + [q[0]]) + q[1..] == q0
    ensures |sent + [q[0]]| + BurstLength(q[1..], g - q[0].byteLength) == BurstLength(q0, g0)
  {
  }

  /** No grant overrun: the bytes a burst emits never exceed the grant, and
      a burst that emits anything leaves a non-negative grant. */
  lemma {:induction false} BurstWithinGrant(q: seq<EthPacket>, grant: int)
    ensures SumBytes(Emitted(q, grant)) <= (if grant > 0 then grant else 0)
    ensures BurstLength(q, grant) > 0 ==> SumBytes(Emitted(q, grant)) <= grant
  {
    if CanSend(q, grant) {
      var rest := grant - q[0].byteLength;
      BurstWithinGrant(q[1..], rest);
      assert Emitted(q, grant)[1..] == Emitted(q[1..], rest);
    }
  }

  /** Head-of-line stop: once the burst ends, the packet at the head of what
      is left is not sent, and nothing behind it is considered. The burst
      ends exactly because the grant left is not positive, no bytes are
      pending, or the head is longer than the grant left. */
  lemma {:induction false} BurstStopsAtHead(q: seq<EthPacket>, grant: int)
    ensures var k := BurstLength(q, grant);
            var left := grant - SumBytes(q[..k]);
            left <= 0 || SumBytes(q[k..]) == 0 || q[k].byteLength > left
  {
    if CanSend(q, grant) {
      var rest := grant - q[0].byteLength;
      BurstStopsAtHead(q[1..], rest);
      var k := BurstLength(q, grant);
      assert q[..k][1..] == q[1..][..k - 1];
      assert q[k..] == q[1..][k - 1..];
    }
  }

  /** A larger grant never makes a burst shorter. */
  lemma {:induction false} BurstLengthMonotone(q: seq<EthPacket>, g1: int, g2: int)
    requires g1 <= g2
    ensures BurstLength(q, g1) <= BurstLength(q, g2)
  {
    if CanSend(q, g1) {
      BurstLengthMonotone(q[1..], g1 - q[0].byteLength, g2 - q[0].byteLength);
    }
  }

  /** Grant exhausted mid-queue: four 500-byte packets and a grant of 1100
      bytes. After the 18-byte header 1082 bytes are left; two packets go,
      82 bytes are left, and the third 500-byte packet stays at the head
      with 1000 bytes pending. */
  lemma GrantExhaustedMidQueue(p: EthPacket)
    requires p.byteLength == 500
    ensures var q := [p, p, p, p];
            var g := 1100 - GtcHeaderUlSize;
            BurstLength(q, g) == 2 && SumBytes(q[2..]) == 1000
  {
    var q := [p, p, p, p];
    assert SumBytes(q[3..]) == 500;
    assert SumBytes(q[2..]) == 1000;
    assert SumBytes(q[1..]) == 1500;
    assert !CanSend(q[2..], 82);
    assert BurstLength(q[1..], 582) == 1;
  }
}
