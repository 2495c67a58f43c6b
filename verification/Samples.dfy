/** What the bandwidth sampler hands to a congestion controller. */
module Samples {
  import opened Base

  /** `SendTimeState`: the totals at the moment a packet was sent, the packet included. */
  datatype SendState = SendState(
    isValid: bool, appLimited: bool, totalSent: nat, totalAcked: nat, totalLost: nat, bytesInFlight: nat)

  const NO_STATE := SendState(false, false, 0, 0, 0, 0)

  /** `CongestionEventSample`; an infinite round-trip time means that there is none. */
  datatype EventSample = EventSample(
    maxBandwidth: nat, appLimited: bool, rtt: int, maxInflight: nat, last: SendState, extraAcked: nat)

  const NO_EVENT_SAMPLE := EventSample(0, false, INT64_MAX, 0, NO_STATE, 0)

  /** What a controller takes to be in flight after an event, with a saturating branch. */
  function InFlightAfterEvent(prior: nat, acked: nat, lost: nat): nat {
    if prior >= acked + lost then prior - acked - lost else 0
  }

  /** `QuicBandwidth::FromBytesAndTimeDelta`, in bits per second. */
  function Rate(bytes: nat, delta: int): (r: nat)
    requires delta > 0
    ensures r == 0 <==> bytes == 0
  {
    var microBits := 8 * bytes * 1_000_000;
    if bytes == 0 then 0 else if microBits < delta then 1 else DivPositive(microBits, delta); microBits / delta
  }

  lemma DivPositive(a: int, b: int)
    requires 0 < b <= a
    ensures a / b > 0
  {}

  /** The rate is the whole part of eight million times the bytes over the time, but never 0 for bytes that were
      delivered. */
  lemma RateIsTheSlope(bytes: nat, delta: int)
    requires delta > 0
    ensures var r := Rate(bytes, delta);
            && 8 * bytes * 1_000_000 < (r + 1) * delta
            && (r * delta <= 8 * bytes * 1_000_000 || (r == 1 && 0 < 8 * bytes * 1_000_000 < delta))
  {
    var microBits := 8 * bytes * 1_000_000;
    WholePart(microBits, delta);
  }
}
