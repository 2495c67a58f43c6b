/** The record of sent packets (`QuicUnackedPacketMap`): a sequence of entries whose
    first element has packet number `least`, with running totals of what is in flight. */
module UnackedPackets {
  import opened Base

  /** The states that this repository assigns to a packet. */
  datatype PacketState = Outstanding | NeverSent | Acked

  /** `QuicTransmissionInfo`. */
  datatype Info = Info(sentTime: int, bytes: nat, inFlight: bool, state: PacketState)

  /** The placeholder for a packet number that was skipped. */
  const GAP := Info(0, 0, false, NeverSent)

  datatype PacketMap = PacketMap(
    least: nat,
    entries: seq<Info>,
    bytesInFlight: int,
    packetsInFlight: int,
    largestSent: Option<nat>,
    lastSentTime: int)
  {
    function Next(): nat {
      least + |entries|
    }

    predicate Has(pn: nat) {
      least <= pn < Next()
    }

    function At(pn: nat): Info
      requires Has(pn)
    {
      entries[pn - least]
    }

    predicate InFlight(pn: nat) {
      Has(pn) && At(pn).inFlight
    }
  }

  const EMPTY_MAP := PacketMap(1, [], 0, 0, None, 0)

  // ---------------------------------------------------------------- reference totals

  function Bytes(x: Info): nat {
    if x.inFlight then x.bytes else 0
  }

  /** Bytes and number of the entries that are in flight, counted afresh. */
  function BytesOf(es: seq<Info>): nat {
    if es == [] then 0 else Bytes(es[0]) + BytesOf(es[1..])
  }

  function CountOf(es: seq<Info>): nat {
    if es == [] then 0 else (if es[0].inFlight then 1 else 0) + CountOf(es[1..])
  }

  /** An entry is in flight exactly when it is outstanding, the running totals are the
      true ones, and the entries end at the largest packet number sent. */
  ghost predicate MapInv(m: PacketMap) {
    && (forall i :: 0 <= i < |m.entries| ==> (m.entries[i].inFlight <==> m.entries[i].state == Outstanding))
    && m.bytesInFlight == BytesOf(m.entries)
    && m.packetsInFlight == CountOf(m.entries)
    && (if m.largestSent.Some? then m.Next() == m.largestSent.value + 1 else m.entries == [] && m.least == 1)
  }

  // ---------------------------------------------------------------- operations

  function AddSent(m: PacketMap, pn: nat, time: int, bytes: nat): PacketMap
    requires m.Next() <= pn
  {
    PacketMap(m.least, m.entries + seq(pn - m.Next(), _ => GAP) + [Info(time, bytes, true, Outstanding)],
              m.bytesInFlight + bytes, m.packetsInFlight + 1, Some(pn), time)
  }

  function Landed(m: PacketMap, pn: nat): PacketMap
    requires m.Has(pn)
  {
    if m.At(pn).inFlight then
      m.(bytesInFlight := m.bytesInFlight - m.At(pn).bytes,
         packetsInFlight := m.packetsInFlight - 1,
         entries := m.entries[pn - m.least := m.At(pn).(inFlight := false)])
    else m
  }

  function WithState(m: PacketMap, pn: nat, state: PacketState): PacketMap
    requires m.Has(pn)
  {
    m.(entries := m.entries[pn - m.least := m.At(pn).(state := state)])
  }

  /** Takes one packet out of flight and assigns its final state. */
  function Settle(m: PacketMap, pn: nat, state: PacketState): PacketMap
    requires m.Has(pn)
  {
    WithState(Landed(m, pn), pn, state)
  }

  ghost predicate AllIn(m: PacketMap, pns: seq<nat>) {
    forall i :: 0 <= i < |pns| ==> m.Has(pns[i])
  }

  /** Settles a list of packets, in order. */
  function SettleAll(m: PacketMap, pns: seq<nat>, state: PacketState): (r: PacketMap)
    requires AllIn(m, pns)
    ensures r.least == m.least && |r.entries| == |m.entries|
    ensures r.largestSent == m.largestSent && r.lastSentTime == m.lastSentTime
    decreases |pns|
  {
    if pns == [] then m else
      var last := |pns| - 1;
      Settle(SettleAll(m, pns[..last], state), pns[last], state)
  }

  predicate Ackable(state: PacketState) {
    state != NeverSent && state != Acked
  }

  /** `IsPacketUseless`: useful neither for measuring a round trip nor for congestion control. */
  predicate Useless(x: Info) {
    !Ackable(x.state) && !x.inFlight
  }

  /** The number of useless entries at the front. */
  function ObsoletePrefix(es: seq<Info>): (n: nat)
    ensures n <= |es|
    ensures forall i :: 0 <= i < n ==> Useless(es[i])
    ensures n < |es| ==> !Useless(es[n])
  {
    if es == [] || !Useless(es[0]) then 0 else 1 + ObsoletePrefix(es[1..])
  }

  lemma ObsoletePrefixStep(es: seq<Info>)
    ensures es == [] || !Useless(es[0]) ==> ObsoletePrefix(es) == 0
    ensures es != [] && Useless(es[0]) ==> ObsoletePrefix(es) == 1 + ObsoletePrefix(es[1..])
  {}

  function DropObsolete(m: PacketMap): PacketMap {
    var n := ObsoletePrefix(m.entries);
    m.(least := m.least + n, entries := m.entries[n..])
  }

  /** `IsUnacked`. */
  predicate IsUnacked(m: PacketMap, pn: nat) {
    m.Has(pn) && !Useless(m.At(pn))
  }

  // ---------------------------------------------------------------- lemmas on totals

  lemma {:induction false} TotalsOfConcat(a: seq<Info>, b: seq<Info>)
    ensures BytesOf(a + b) == BytesOf(a) + BytesOf(b)
    ensures CountOf(a + b) == CountOf(a) + CountOf(b)
  {
    if a == [] {
      assert a + b == b;
    } else {
      assert (a + b)[1..] == a[1..] + b;
      TotalsOfConcat(a[1..], b);
    }
  }

  lemma {:induction false} TotalsOfLanded(es: seq<Info>)
    requires forall i :: 0 <= i < |es| ==> !es[i].inFlight
    ensures BytesOf(es) == 0 && CountOf(es) == 0
  {
    if es != [] {
      TotalsOfLanded(es[1..]);
    }
  }

  lemma {:induction false} TotalsOfUpdate(es: seq<Info>, k: nat, x: Info)
    requires k < |es|
    ensures BytesOf(es[k := x]) == BytesOf(es) - Bytes(es[k]) + Bytes(x)
    ensures CountOf(es[k := x]) == CountOf(es) - (if es[k].inFlight then 1 else 0) + (if x.inFlight then 1 else 0)
  {
    var left, right := es[..k], es[k + 1..];
    assert es == left + ([es[k]] + right);
    assert es[k := x] == left + ([x] + right);
    TotalsOfConcat(left, [es[k]] + right);
    TotalsOfConcat(left, [x] + right);
    assert ([x] + right)[1..] == right;
    assert ([es[k]] + right)[1..] == right;
  }

  lemma {:induction false} CountZeroMeansNoneInFlight(es: seq<Info>, k: nat)
    requires k < |es| && es[k].inFlight
    ensures CountOf(es) > 0 && BytesOf(es) >= es[k].bytes
  {
    if k > 0 {
      CountZeroMeansNoneInFlight(es[1..], k - 1);
    }
  }

  // ---------------------------------------------------------------- what each operation keeps

  lemma AddSentKeepsInv(m: PacketMap, pn: nat, time: int, bytes: nat)
    requires MapInv(m) && m.Next() <= pn
    ensures MapInv(AddSent(m, pn, time, bytes))
  {
    var gaps := seq(pn - m.Next(), _ => GAP);
    var x := Info(time, bytes, true, Outstanding);
    TotalsOfConcat(m.entries + gaps, [x]);
    TotalsOfConcat(m.entries, gaps);
    TotalsOfLanded(gaps);
    assert [x][1..] == [];
    assert BytesOf([x]) == bytes && CountOf([x]) == 1;
  }

  lemma SettleKeepsInv(m: PacketMap, pn: nat, state: PacketState)
    requires MapInv(m) && m.Has(pn) && state != Outstanding
    ensures MapInv(Settle(m, pn, state))
    ensures Settle(m, pn, state).bytesInFlight == m.bytesInFlight - Bytes(m.At(pn))
    ensures Settle(m, pn, state).packetsInFlight == m.packetsInFlight - (if m.InFlight(pn) then 1 else 0)
  {
    var r := Settle(m, pn, state);
    var x := m.At(pn).(inFlight := false, state := state);
    assert r.entries == m.entries[pn - m.least := x];
    TotalsOfUpdate(m.entries, pn - m.least, x);
  }

  lemma SettleAt(m: PacketMap, pn: nat, state: PacketState, q: nat)
    requires m.Has(pn) && m.Has(q)
    ensures Settle(m, pn, state).At(q) == if q == pn then m.At(q).(inFlight := false, state := state) else m.At(q)
  {}

  /** Settling a list changes exactly the entries it names. */
  lemma {:induction false} SettleAllChanges(m: PacketMap, pns: seq<nat>, state: PacketState, pn: nat)
    requires AllIn(m, pns) && m.Has(pn)
    ensures SettleAll(m, pns, state).At(pn)
         == if pn in pns then m.At(pn).(inFlight := false, state := state) else m.At(pn)
    decreases |pns|
  {
    if pns != [] {
      var last := |pns| - 1;
      var before := SettleAll(m, pns[..last], state);
      SettleAllChanges(m, pns[..last], state, pn);
      SettleAt(before, pns[last], state, pn);
      assert pns == pns[..last] + [pns[last]];
    }
  }

  lemma {:induction false} SettleAllKeepsInv(m: PacketMap, pns: seq<nat>, state: PacketState)
    requires MapInv(m) && AllIn(m, pns) && state != Outstanding
    ensures MapInv(SettleAll(m, pns, state))
    decreases |pns|
  {
    if pns != [] {
      var last := |pns| - 1;
      SettleAllKeepsInv(m, pns[..last], state);
      SettleKeepsInv(SettleAll(m, pns[..last], state), pns[last], state);
    }
  }

  ghost predicate Ascending(pns: seq<nat>) {
    forall i, j :: 0 <= i < j < |pns| ==> pns[i] < pns[j]
  }

  /** Sums over a list of packets: all their bytes, those in flight, those that are not. */
  function SizeOf(m: PacketMap, pns: seq<nat>): nat
    requires AllIn(m, pns)
    decreases |pns|
  {
    if pns == [] then 0 else SizeOf(m, pns[..|pns| - 1]) + m.At(pns[|pns| - 1]).bytes
  }

  function FlyingSizeOf(m: PacketMap, pns: seq<nat>): nat
    requires AllIn(m, pns)
    decreases |pns|
  {
    if pns == [] then 0 else FlyingSizeOf(m, pns[..|pns| - 1]) + Bytes(m.At(pns[|pns| - 1]))
  }

  function LandedSizeOf(m: PacketMap, pns: seq<nat>): nat
    requires AllIn(m, pns)
    decreases |pns|
  {
    if pns == [] then 0 else
      LandedSizeOf(m, pns[..|pns| - 1])
      + if m.At(pns[|pns| - 1]).inFlight then 0 else m.At(pns[|pns| - 1]).bytes
  }

  lemma {:induction false} SizesSplit(m: PacketMap, pns: seq<nat>)
    requires AllIn(m, pns)
    ensures SizeOf(m, pns) == FlyingSizeOf(m, pns) + LandedSizeOf(m, pns)
    decreases |pns|
  {
    if pns != [] {
      SizesSplit(m, pns[..|pns| - 1]);
    }
  }

  /** Settling distinct packets takes exactly their in-flight bytes out of the total. */
  lemma {:induction false} SettleAllBytes(m: PacketMap, pns: seq<nat>, state: PacketState)
    requires MapInv(m) && AllIn(m, pns) && Ascending(pns) && state != Outstanding
    ensures SettleAll(m, pns, state).bytesInFlight == m.bytesInFlight - FlyingSizeOf(m, pns)
    ensures FlyingSizeOf(m, pns) <= m.bytesInFlight
    ensures SettleAll(m, pns, state).packetsInFlight <= m.packetsInFlight
    ensures (exists i :: 0 <= i < |pns| && m.InFlight(pns[i]))
        ==> SettleAll(m, pns, state).packetsInFlight < m.packetsInFlight
    decreases |pns|
  {
    hide BytesOf; hide CountOf; hide Settle;
    SettleAllKeepsInv(m, pns, state);
    TotalsNotNegative(SettleAll(m, pns, state));
    if pns != [] {
      var last := |pns| - 1;
      var before := SettleAll(m, pns[..last], state);
      SettleAllBytes(m, pns[..last], state);
      SettleAllKeepsInv(m, pns[..last], state);
      SettleAllChanges(m, pns[..last], state, pns[last]);
      SettleKeepsInv(before, pns[last], state);
      if i :| 0 <= i < |pns| && m.InFlight(pns[i]) {
        if i < last {
          assert pns[..last][i] == pns[i];
        }
      }
    }
  }

  lemma TotalsNotNegative(m: PacketMap)
    requires MapInv(m)
    ensures m.bytesInFlight >= 0 && m.packetsInFlight >= 0
  {}

  lemma {:induction false} ObsoletePrefixIsLanded(es: seq<Info>)
    requires forall i :: 0 <= i < |es| ==> (es[i].inFlight <==> es[i].state == Outstanding)
    ensures BytesOf(es[ObsoletePrefix(es)..]) == BytesOf(es)
    ensures CountOf(es[ObsoletePrefix(es)..]) == CountOf(es)
  {
    var n := ObsoletePrefix(es);
    assert es == es[..n] + es[n..];
    TotalsOfConcat(es[..n], es[n..]);
    TotalsOfLanded(es[..n]);
  }

  /** After the clean-up the front entry is in flight, or nothing is left; no packet that
      is in flight is dropped. */
  lemma DropObsoleteKeepsInv(m: PacketMap)
    requires MapInv(m)
    ensures MapInv(DropObsolete(m))
    ensures DropObsolete(m).entries == [] || DropObsolete(m).entries[0].inFlight
    ensures DropObsolete(m).Next() == m.Next() && m.least <= DropObsolete(m).least
    ensures forall pn: nat :: DropObsolete(m).Has(pn) ==> m.Has(pn) && m.At(pn) == DropObsolete(m).At(pn)
    ensures forall pn: nat :: DropObsolete(m).InFlight(pn) <==> m.InFlight(pn)
  {
    ObsoletePrefixIsLanded(m.entries);
    var r, n := DropObsolete(m), ObsoletePrefix(m.entries);
    forall pn: nat
      ensures r.InFlight(pn) <==> m.InFlight(pn)
    {
      if m.Has(pn) && pn - m.least < n {
        assert Useless(m.entries[pn - m.least]);
      }
    }
  }

  // ---------------------------------------------------------------- the object

  class UnackedPacketMap {
    var leastUnacked: nat
    var packets: seq<Info>
    var bytesInFlight: int
    var packetsInFlight: int
    var largestSentPacket: Option<nat>
    var lastInflightPacketSentTime: int

    function State(): PacketMap
      reads this
    {
      PacketMap(leastUnacked, packets, bytesInFlight, packetsInFlight, largestSentPacket, lastInflightPacketSentTime)
    }

    constructor ()
      ensures State() == EMPTY_MAP && MapInv(State()) && leastUnacked == 1
    {
      leastUnacked, packets, bytesInFlight, packetsInFlight := 1, [], 0, 0;
      largestSentPacket, lastInflightPacketSentTime := None, 0;
    }

    method AddSentPacket(packetNumber: nat, bytesSent: nat, sentTime: int)
      requires State().Next() <= packetNumber
      modifies this
      ensures State() == AddSent(old(State()), packetNumber, sentTime, bytesSent)
    {
      while leastUnacked + |packets| < packetNumber
        invariant leastUnacked + |packets| <= packetNumber
        invariant |old(packets)| <= |packets|
        invariant packets == old(packets) + seq(|packets| - |old(packets)|, _ => GAP)
        invariant State().(entries := old(packets)) == old(State())
      {
        packets := packets + [GAP];
      }
      largestSentPacket := Some(packetNumber);
      bytesInFlight := bytesInFlight + bytesSent;
      packetsInFlight := packetsInFlight + 1;
      lastInflightPacketSentTime := sentTime;
      packets := packets + [Info(sentTime, bytesSent, true, Outstanding)];
    }

    method RemoveFromInFlight(packetNumber: nat)
      requires State().Has(packetNumber)
      modifies this
      ensures State() == Landed(old(State()), packetNumber)
    {
      var k := packetNumber - leastUnacked;
      if packets[k].inFlight {
        bytesInFlight := bytesInFlight - packets[k].bytes;
        packetsInFlight := packetsInFlight - 1;
        packets := packets[k := packets[k].(inFlight := false)];
      }
    }

    method SetPacketState(packetNumber: nat, state: PacketState)
      requires State().Has(packetNumber)
      modifies this
      ensures State() == WithState(old(State()), packetNumber, state)
    {
      var k := packetNumber - leastUnacked;
      packets := packets[k := packets[k].(state := state)];
    }

    method RemoveObsoletePackets()
      modifies this
      ensures State() == DropObsolete(old(State()))
    {
      hide ObsoletePrefix; hide Useless;
      ghost var n, all := 0, packets;
      while packets != []
        invariant n <= |all| && ObsoletePrefix(packets) + n == ObsoletePrefix(all)
        invariant packets == all[n..] && leastUnacked == old(leastUnacked) + n
        invariant State() == old(State()).(entries := packets, least := leastUnacked)
        decreases |packets|
      {
        ObsoletePrefixStep(packets);
        if !Useless(packets[0]) {
          break;
        }
        packets := packets[1..];
        leastUnacked := leastUnacked + 1;
        n := n + 1;
      }
      ObsoletePrefixStep(packets);
    }
  }
}
