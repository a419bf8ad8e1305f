/**
 * The Optical Network Unit's upstream scheduling state and its event
 * handlers: admission of background data into the T-CONT 3 queue, the
 * downstream grant, the upstream burst header and the payload drain, and
 * the ping responder.
 */
module Upstream {
  import opened Frames
  import opened Burst

  /** Self-scheduled events of the ONU. */
  datatype Timer = SendUlHeader | SendUlPayload

  /** Messages the ONU reacts to. A downstream GTC header carries this ONU's
      entry of the header's per-ONU vectors. */
  datatype Message =
    | BkgData(pkt: EthPacket)
    | GtcHdrDl(oltOnuRtt: int, onuStartTime3: int, onuGrant3: int)
    | PingProbe(probe: Ping)
    | SelfEvent(timer: Timer)
    | Unrecognised

  class Onu {
    /** Index of this ONU in the network. */
    const index: int
    /** Aggregate buffer capacity in bytes, shared by the three T-CONT classes. */
    const capacity: nat

    /** FIFO queue of T-CONT 3 packets. */
    var q3: seq<EthPacket>
    /** Pending bytes of T-CONT 1, 2 and 3. Only T-CONT 3 has an admission
        and a drain path; the other two keep their initial value. */
    var p1: int
    var p2: int
    var p3: int
    /** Declared drop counter; no handler updates it. */
    var packetDropCount: int

    /** Grant state recorded from the last downstream GTC header. The round
        trip time and the start time are times, kept here in abstract integer
        ticks; the received grant is a whole number of bytes. */
    var oltOnuRtt: int
    var startTime3: int
    var rxGrant3: int
    /** Bytes of the T-CONT 3 grant still available in the current burst. */
    var grant3: int

    /** History: every packet admitted to T-CONT 3 and every packet sent
        upstream, in order. */
    ghost var arrivals: seq<EthPacket>
    ghost var departures: seq<EthPacket>
    /** The grant the current burst started with, and the bytes it has sent
        so far, whatever other events came between its drain steps. */
    ghost var burstGrant: int
    ghost var burstBytes: int

    /** The pending counter mirrors the queue and the buffer is within
        capacity; packets leave in the order they were admitted; and the
        current burst has not sent more than its grant. */
    ghost predicate Valid()
      reads this
    {
      && 0 <= p1
      && 0 <= p2
      && p3 == SumBytes(q3)
      && p1 + p2 + p3 <= capacity
      && departures + q3 == arrivals
      && grant3 == burstGrant - burstBytes
      && 0 <= burstBytes <= (if burstGrant > 0 then burstGrant else 0)
    }

    constructor (index: int, capacity: nat)
      ensures Valid()
      ensures this.index == index && this.capacity == capacity
      ensures q3 == [] && p1 == 0 && p2 == 0 && p3 == 0 && packetDropCount == 0
      ensures oltOnuRtt == 0 && startTime3 == 0 && rxGrant3 == 0 && grant3 == 0
      ensures arrivals == [] && departures == [] && burstGrant == 0 && burstBytes == 0
    {
      this.index := index;
      this.capacity := capacity;
      q3 := [];
      p1, p2, p3 := 0, 0, 0;
      packetDropCount := 0;
      oltOnuRtt, startTime3, rxGrant3, grant3 := 0, 0, 0, 0;
      arrivals, departures, burstGrant, burstBytes := [], [], 0, 0;
    }

    /** Admission of a background data packet into T-CONT 3. The packet is
        accepted exactly when the bytes already pending in all three classes
        plus its own length fit in the buffer; it is then stamped and
        appended at the tail. A rejected packet changes nothing. */
    method Admit(pkt: EthPacket, now: int) returns (admitted: bool)
      requires Valid()
      modifies this`q3, this`p3, this`arrivals
      ensures Valid()
      ensures admitted <==> old(p1 + p2 + p3) + pkt.byteLength <= capacity
      ensures admitted ==>
        && q3 == old(q3) + [pkt.(onuArrivalTime := now, onuId := index, tContId := TCont3)]
        && p3 == old(p3) + pkt.byteLength
        && arrivals == old(arrivals) + [pkt.(onuArrivalTime := now, onuId := index, tContId := TCont3)]
      ensures !admitted ==> q3 == old(q3) && p3 == old(p3) && arrivals == old(arrivals)
    {
      var buffer := p1 + p2 + p3 + pkt.byteLength;
      admitted := buffer <= capacity;
      if admitted {
        var stamped := pkt.(onuArrivalTime := now, onuId := index, tContId := TCont3);
        SumBytesAppend(q3, [stamped]);
        q3 := q3 + [stamped];
        p3 := p3 + pkt.byteLength;
        arrivals := arrivals + [stamped];
      }
    }

    /** A downstream GTC header overwrites the recorded grant state. */
    method ReceiveGrant(rtt: int, startTime: int, grant: int)
      requires Valid()
      modifies this`oltOnuRtt, this`startTime3, this`rxGrant3
      ensures Valid()
      ensures oltOnuRtt == rtt && startTime3 == startTime && rxGrant3 == grant
    {
      oltOnuRtt := rtt;
      startTime3 := startTime;
      rxGrant3 := grant;
    }

    /** Burst start: the upstream GTC header is charged against the received
        grant, whatever its sign, and the header is returned for emission. */
    method BurstStart() returns (hdr: GtcHeader)
      requires Valid()
      modifies this`grant3, this`burstGrant, this`burstBytes
      ensures Valid()
      ensures grant3 + GtcHeaderUlSize == rxGrant3
      ensures burstGrant == grant3 && burstBytes == 0
      ensures hdr.byteLength == GtcHeaderUlSize && hdr.uplink && hdr.onuId == index
    {
      grant3 := rxGrant3 - GtcHeaderUlSize;
      burstGrant, burstBytes := grant3, 0;
      hdr := GtcHeader(GtcHeaderUlSize, true, index);
    }

    /** One payload-drain event. If the grant left is positive, bytes are
        pending and the head of the queue fits, the head is popped, charged to
        both the grant and the pending counter, and returned; otherwise the
        burst is over and nothing changes. */
    method DrainStep() returns (sent: Option<EthPacket>)
      requires Valid()
      modifies this`q3, this`p3, this`grant3, this`departures, this`burstBytes
      ensures Valid()
      ensures sent.Some? <==> CanSend(old(q3), old(grant3))
      ensures sent.Some? ==>
        && sent.value == old(q3)[0]
        && q3 == old(q3)[1..]
        && grant3 == old(grant3) - sent.value.byteLength
        && p3 == old(p3) - sent.value.byteLength
        && grant3 >= 0
        && departures == old(departures) + [sent.value]
        && burstBytes == old(burstBytes) + sent.value.byteLength
      ensures sent.None? ==>
        && q3 == old(q3) && p3 == old(p3) && grant3 == old(grant3)
        && departures == old(departures) && burstBytes == old(burstBytes)
    {
      if grant3 > 0 && p3 > 0 {
        var front := q3[0];
        if front.byteLength <= grant3 {
          q3 := q3[1..];
          grant3 := grant3 - front.byteLength;
          p3 := p3 - front.byteLength;
          departures := departures + [front];
          burstBytes := burstBytes + front.byteLength;
          sent := Some(front);
        } else {
          sent := None;
        }
      } else {
        sent := None;
      }
    }

    /** The chain of payload-drain events of one burst, each re-armed by the
        previous one until a step finds it cannot send. The packets emitted
        are the burst's prefix of the queue, in order, and their bytes are
        charged to the grant. */
    method Drain() returns (sent: seq<EthPacket>)
      requires Valid()
      modifies this`q3, this`p3, this`grant3, this`departures, this`burstBytes
      ensures Valid()
      ensures sent == Emitted(old(q3), old(grant3))
      ensures q3 == old(q3)[|sent|..]
      ensures grant3 == old(grant3) - SumBytes(sent)
      ensures departures == old(departures) + sent
      ensures !CanSend(q3, grant3)
    {
      ghost var q0, g0, d0 := q3, grant3, departures;
      sent := [];
      var more := true;
      while more
        invariant Valid()
        invariant sent + q3 == q0
        invariant grant3 == g0 - SumBytes(sent)
        invariant |sent| + BurstLength(q3, grant3) == BurstLength(q0, g0)
        invariant departures == d0 + sent
        invariant !more ==> !CanSend(q3, grant3)
        decreases |q3|, more
      {
        ghost var q, g := q3, grant3;
        var step := DrainStep();
        if step.Some? {
          DrainAdvance(q0, g0, sent, q, g);
          SumBytesAppend(sent, [step.value]);
          sent := sent + [step.value];
        } else {
          more := false;
        }
      }
      assert q0[..|sent|] == sent;
    }

    /** One whole upstream burst: the header, then the drain. The packets
        emitted are the head of the queue in FIFO order, and their bytes
        never exceed the received grant less the header. */
    method RunBurst() returns (hdr: GtcHeader, sent: seq<EthPacket>)
      requires Valid()
      modifies this`q3, this`p3, this`grant3, this`departures, this`burstGrant, this`burstBytes
      ensures Valid()
      ensures hdr == GtcHeader(GtcHeaderUlSize, true, index)
      ensures sent == Emitted(old(q3), rxGrant3 - GtcHeaderUlSize)
      ensures sent + q3 == old(q3)
      ensures departures == old(departures) + sent
      ensures SumBytes(sent) <= if rxGrant3 > GtcHeaderUlSize then rxGrant3 - GtcHeaderUlSize else 0
      ensures grant3 == rxGrant3 - GtcHeaderUlSize - SumBytes(sent)
    {
      hdr := BurstStart();
      sent := Drain();
      BurstWithinGrant(old(q3), rxGrant3 - GtcHeaderUlSize);
    }

    /** The ONU's message handler: one event, run to completion. It returns
        the frames sent on the trunk port and the self-event it arms, if any.
        `now` is the simulation time at which the event is handled; the times
        at which events are armed are not modelled. Because `Valid()` holds
        after every event, any sequence of events keeps packets leaving in
        admission order and keeps each burst within the grant it started
        with, however data arrivals interleave with its drain steps. */
    method Handle(msg: Message, now: int) returns (out: seq<Frame>, armed: Option<Timer>)
      requires Valid()
      modifies this
      ensures Valid()
      ensures p1 == old(p1) && p2 == old(p2) && packetDropCount == old(packetDropCount)
      ensures !msg.GtcHdrDl? ==>
        oltOnuRtt == old(oltOnuRtt) && startTime3 == old(startTime3) && rxGrant3 == old(rxGrant3)
      ensures msg == SelfEvent(SendUlHeader) ==> burstGrant == rxGrant3 - GtcHeaderUlSize && burstBytes == 0
      ensures msg != SelfEvent(SendUlHeader) ==> burstGrant == old(burstGrant)
      ensures !msg.BkgData? ==> arrivals == old(arrivals)
      ensures !(msg == SelfEvent(SendUlPayload) && CanSend(old(q3), old(grant3))) ==> departures == old(departures)
      ensures msg.BkgData? ==>
        && out == [] && armed == None && grant3 == old(grant3)
        && var admitted := old(p1 + p2 + p3) + msg.pkt.byteLength <= capacity;
           && q3 == (if admitted then old(q3) + [msg.pkt.(onuArrivalTime := now, onuId := index, tContId := TCont3)] else old(q3))
           && p3 == (if admitted then old(p3) + msg.pkt.byteLength else old(p3))
           && arrivals == (if admitted then old(arrivals) + [msg.pkt.(onuArrivalTime := now, onuId := index, tContId := TCont3)] else old(arrivals))
      ensures msg.GtcHdrDl? ==>
        && out == [] && armed == Some(SendUlHeader)
        && oltOnuRtt == msg.oltOnuRtt && startTime3 == msg.onuStartTime3 && rxGrant3 == msg.onuGrant3
        && q3 == old(q3) && p3 == old(p3) && grant3 == old(grant3)
      ensures msg.PingProbe? ==>
        && out == [PingEcho(Echo(msg.probe, index))] && armed == None
        && q3 == old(q3) && p3 == old(p3) && grant3 == old(grant3)
      ensures msg == SelfEvent(SendUlHeader) ==>
        && out == [UlHeader(GtcHeader(GtcHeaderUlSize, true, index))] && armed == Some(SendUlPayload)
        && q3 == old(q3) && p3 == old(p3) && grant3 == rxGrant3 - GtcHeaderUlSize
      ensures msg == SelfEvent(SendUlPayload) && CanSend(old(q3), old(grant3)) ==>
        && out == [Data(old(q3)[0])] && armed == Some(SendUlPayload)
        && q3 == old(q3)[1..] && grant3 == old(grant3) - old(q3)[0].byteLength
        && departures == old(departures) + [old(q3)[0]]
      ensures msg == SelfEvent(SendUlPayload) && !CanSend(old(q3), old(grant3)) ==>
        && out == [] && armed == None
        && q3 == old(q3) && p3 == old(p3) && grant3 == old(grant3)
      ensures msg.Unrecognised? ==>
        && out == [] && armed == None
        && q3 == old(q3) && p3 == old(p3) && grant3 == old(grant3)
    {
      out, armed := [], None;
      match msg {
        case BkgData(pkt) =>
          var _ := Admit(pkt, now);
        case GtcHdrDl(rtt, startTime, grant) =>
          ReceiveGrant(rtt, startTime, grant);
          armed := Some(SendUlHeader);
        case PingProbe(probe) =>
          out := [PingEcho(Echo(probe, index))];
        case SelfEvent(SendUlHeader) =>
          var hdr := BurstStart();
          out, armed := [UlHeader(hdr)], Some(SendUlPayload);
        case SelfEvent(SendUlPayload) =>
          var step := DrainStep();
          if step.Some? {
            out, armed := [Data(step.value)], Some(SendUlPayload);
          }
        case Unrecognised =>
      }
    }
  }

  /** A packet admitted between two drain steps of a burst joins the same
      burst: one 500-byte packet is queued, a 1018-byte grant opens a burst
      of 1000 bytes, the first drain step sends it, a second 500-byte packet
      arrives, and the next drain step sends that one too. Both leave in
      admission order and the burst stays within its grant. */
  method InterleavedArrivalScenario(a: EthPacket, b: EthPacket)
    requires a.byteLength == 500 && b.byteLength == 500
  {
    var onu := new Onu(4, 100_000_000);
    var out, armed := onu.Handle(BkgData(a), 0);
    out, armed := onu.Handle(GtcHdrDl(10, 5, 1018), 100);
    out, armed := onu.Handle(SelfEvent(SendUlHeader), 345);
    assert onu.grant3 == 1000;
    out, armed := onu.Handle(SelfEvent(SendUlPayload), 346);
    assert |out| == 1 && armed == Some(SendUlPayload);
    out, armed := onu.Handle(BkgData(b), 347);
    assert onu.q3 == [b.(onuArrivalTime := 347, onuId := 4, tContId := TCont3)];
    out, armed := onu.Handle(SelfEvent(SendUlPayload), 348);
    assert out == [Data(b.(onuArrivalTime := 347, onuId := 4, tContId := TCont3))];
    assert onu.grant3 == 0 && onu.q3 == [];
    assert onu.departures == onu.arrivals == [
      a.(onuArrivalTime := 0, onuId := 4, tContId := TCont3),
      b.(onuArrivalTime := 347, onuId := 4, tContId := TCont3)];
    assert onu.burstBytes == 1000 <= onu.burstGrant;
  }
}
