# ONU upstream scheduler — a Dafny model

This project models the upstream scheduling core of an Optical Network Unit
(ONU) in a GPON simulation: the `ONU` module of `src/onu.cc`. The ONU buffers
subscriber ("background") traffic in its T-CONT 3 queue under an aggregate
byte capacity. It records the grant announced by the downstream GTC header.
When the burst starts it sends an 18-byte upstream GTC header and charges it to
the grant. It then drains the queue head-first, one packet per payload-drain
event, while the grant lasts. It also echoes ping probes stamped with its index.

Files:

- `frames.dfy` (module `Frames`): packets, the upstream GTC header, ping
  probes, the byte sum of a queue, and the ping echo.
- `burst.dfy` (module `Burst`): the payload phase of a burst as a function of
  the queue and the grant left (`CanSend`, `BurstLength`, `Emitted`), with the
  lemmas about it: no grant overrun, head-of-line stop, monotonicity in the
  grant, and the "grant exhausted mid-queue" scenario.
- `onu.dfy` (module `Upstream`): the class `Onu` with the fields the handlers
  update in place (`q3`, `p1`/`p2`/`p3`, the grant fields). It has one method
  per `handleMessage` branch (`Admit`, `ReceiveGrant`, `BurstStart`,
  `DrainStep`, plus the ping echo). `Drain` loops `DrainStep` until it stops,
  standing in for the self-rescheduled `send_ul_payload` event. `RunBurst` is a
  header followed by a drain. `Handle` dispatches one message and returns the
  frames sent and the self-event armed. `InterleavedArrivalScenario` runs a
  burst during which a packet arrives between two drain steps.

The object invariant `Upstream.Onu.Valid()` states four things. The T-CONT 3 pending
counter equals the byte sum of the T-CONT 3 queue. The three pending counters
together stay within the capacity. The packets sent so far, followed by the
queue, are exactly the packets admitted so far, so packets leave in admission
order. The bytes the current burst has sent are at most the grant it started
with (never negative), and the grant left is that grant minus those bytes.
Every handler preserves it, so it holds after any sequence of events, however
data arrivals interleave with the drain steps of a burst. The histories and
the burst accounting are ghost fields: they record, they do not steer.

Behaviour modelled as the code has it:

- The admission test uses the pending bytes before admission plus the
  packet's length, and a sum equal to the capacity is admitted.
- A rejected packet leaves the queue and every counter unchanged. In
  particular `packetDropCount` is not incremented: the counter is declared
  at `src/onu.cc:33` and no line of the file updates it.
- The burst-start grant is `rx_grant - 18` whatever its sign. For a received
  grant below 18 it is negative and the first drain event stops the burst.
  The bytes a burst emits are therefore bounded by `max(0, rx_grant - 18)`,
  not by `rx_grant - 18` itself.
- The drain tests the pending byte counter, not the queue length. A queue
  whose packets are all zero bytes long has nothing pending, so no drain
  event sends them (`CanSend` requires `SumBytes(q) > 0`).

## Model

| member | source | states |
|---|---|---|
| `Frames.SumBytesAppend` | src/onu.cc:81-82 | appending packets at the tail of a queue adds exactly their byte lengths to its byte sum, which is how the pending counter keeps mirroring the queue on admission |
| `Frames.Echo` | src/onu.cc:108-111 | the echoed probe carries the ONU's index as its ONU id and is otherwise identical to the incoming probe |
| `Burst.BurstLength` | src/onu.cc:135-164 | a burst takes at most the whole queue, and takes at least one packet exactly when the first drain event can send (grant positive, bytes pending, head fits) |
| `Burst.BurstWithinGrant` | src/onu.cc:136-141 | no grant overrun: the bytes a burst emits are at most the grant when it is positive and zero otherwise, and a burst that emits anything leaves a non-negative grant |
| `Burst.BurstStopsAtHead` | src/onu.cc:136-163 | after the burst the grant left is not positive, or nothing is pending, or the packet at the head is longer than the grant left; the head is never bypassed |
| `Burst.BurstLengthMonotone` | src/onu.cc:136-141 | a larger grant never emits fewer packets from the same queue |
| `Burst.GrantExhaustedMidQueue` | src/onu.cc:117-141 | with four 500-byte packets and a received grant of 1100 bytes, two packets are emitted and 1000 bytes stay pending behind a head that no longer fits |
| `Upstream.Onu.constructor` | src/onu.cc:26-45 | a new ONU has empty queues, zero counters and zero grants, and satisfies the invariant |
| `Upstream.Onu.Admit` | src/onu.cc:73-87 | the packet is admitted iff pre-admission pending bytes plus its length are at most the capacity; if admitted it is stamped (arrival time, ONU index, T-CONT 3) and appended at the tail, and the T-CONT 3 counter rises by its length; if rejected nothing changes; T-CONT 1/2 counters and the drop counter are untouched; the invariant is preserved |
| `Upstream.Onu.ReceiveGrant` | src/onu.cc:93-95 | a downstream header overwrites the recorded round-trip time, start time and received grant, and changes nothing else |
| `Upstream.Onu.BurstStart` | src/onu.cc:117-126 | the remaining grant becomes the received grant minus the 18-byte header, whatever its sign, and opens a new burst with nothing sent yet, and the header sent is 18 bytes, uplink, tagged with the ONU index |
| `Upstream.Onu.DrainStep` | src/onu.cc:135-164 | when the grant left is positive, bytes are pending and the head fits, exactly the head is popped, returned and recorded as departed, the grant and pending counter fall by its length, the burst's sent bytes rise by it and the grant stays non-negative; otherwise queue, grant and counter are unchanged |
| `Upstream.Onu.Drain` | src/onu.cc:136-153 | repeated drain steps terminate; the emitted packets are the burst's FIFO prefix of the queue (`Burst.Emitted`), in order, the queue keeps the rest, the grant is charged their bytes, and no further step could send |
| `Upstream.Onu.RunBurst` | src/onu.cc:114-164 | header then drain: the emitted packets are a FIFO prefix whose byte sum is at most max(0, received grant - 18) |
| `Upstream.Onu.Handle` | src/onu.cc:70-166 | each message kind has the effect of its handler, with the frames sent and the self-event armed; unrecognised messages change nothing; the invariant is preserved, so over any sequence of events packets leave in admission order and each burst sends at most max(0, received grant - 18) bytes |

## Left out

- Simulated time arithmetic: the burst-start time `arr_time + 2*max_polling_cycle + start_time_TC3 - olt_onu_rtt` (src/onu.cc:98) and the serialization delays (src/onu.cc:128-131, 152-153) are floating-point times. `Handle` reports which self-event is armed, not when.
- The departure timestamp, the latency value and its signal (src/onu.cc:59, 145-149): they depend on the sending time the simulator assigns on `send`. The arrival stamp takes the current time as a parameter.
- Simulator plumbing: message object lifetimes, `send`, `scheduleAt`, `cancelAndDelete` and gate settings (src/onu.cc:66-67, 100-104, 115, 157, 162). They are replaced by the frames and the armed self-event that `Handle` returns.
- The abort of `check_and_cast` on a mistyped message (src/onu.cc:74, 89, 109), and the rejected packet that is never freed (src/onu.cc:86).
- The lookup of this ONU's entry in the downstream header's per-ONU vectors (src/onu.cc:93-95): the modelled message carries that entry already. An out-of-range index is not modelled.
- The `isPacket()` split (src/onu.cc:72, 107): a message whose kind does not match its name is treated like an unrecognised one.
- The T-CONT 1 and 2 queues and grant fields (src/onu.cc:26-27, 35-40), which no handler uses. `p1` and `p2` are kept as counters that enter the admission sum and never change.
- The `gtc_hdr_sz` and `gtc_pkt_sz` fields (src/onu.cc:44-45): the header size is the constant `GtcHeaderUlSize`; the other field is never used.
- Debug logging (`EV` lines).
- Timer races between overlapping `send_ul_header` events: each event is handled on its own, and the model does not track how many self-events are pending.
- Floating-point counters: the pending counters and grants are `double` in the source. The pending counters only ever hold sums and differences of integer byte lengths. The received grant is whatever the downstream header carries (src/onu.cc:95); the model assumes it is a whole number of bytes. All are modelled as integers.
- Floating-point times: the recorded round-trip time and start time (src/onu.cc:34, 41, 93-94) are `double` seconds in the source; the model keeps them as abstract integer ticks, and nothing in the model computes with them.
- Upstream.Onu.Drain and Upstream.Onu.RunBurst run the whole chain of payload-drain events with no other event in between. In the source each drain step is a separate event (src/onu.cc:135-164, re-armed at 153), and a packet admitted between two steps can be sent in the same burst. That per-event behaviour is what `Upstream.Onu.Handle` and `Upstream.Onu.Valid()` state; the two methods describe only the uninterrupted case.
- Packet and probe contents: a packet is its byte length plus the three stamps the ONU writes; the probe's fields other than the ONU id are an opaque sequence carried unchanged.
