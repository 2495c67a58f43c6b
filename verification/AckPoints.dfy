/** The candidates for the start point of an ack-rate measurement (`a0_candidates_`): a log
    of ack points that is pruned whenever one of them is chosen. */
module AckPoints {
  import opened Base

  /** A point on the curve of acknowledged bytes over time. */
  datatype AckPoint = AckPoint(time: int, acked: nat)

  /** The most recent two ack points at distinct times. */
  datatype RecentAckPoints = RecentAckPoints(older: AckPoint, newer: AckPoint)

  const NO_POINTS := RecentAckPoints(AckPoint(0, 0), AckPoint(0, 0))

  function Observe(r: RecentAckPoints, time: int, acked: nat): RecentAckPoints {
    if time < r.newer.time then r.(newer := AckPoint(time, acked))
    else if time > r.newer.time then RecentAckPoints(r.newer, AckPoint(time, acked))
    else r.(newer := AckPoint(time, acked))
  }

  function LessRecent(r: RecentAckPoints): AckPoint {
    if r.older.acked != 0 then r.older else r.newer
  }

  /** What is left of a history of acks, oldest first. */
  function ObserveAll(acks: seq<AckPoint>): RecentAckPoints {
    if acks == [] then NO_POINTS else
      var last := acks[|acks| - 1];
      Observe(ObserveAll(acks[..|acks| - 1]), last.time, last.acked)
  }

  /** `p` is the last ack before a time, or none came before it. */
  ghost predicate IsLastBefore(acks: seq<AckPoint>, time: int, p: AckPoint) {
    || (p == AckPoint(0, 0) && forall i: nat :: i < |acks| ==> time <= acks[i].time)
    || exists i: nat ::
         && i < |acks| && acks[i] == p && p.time < time
         && forall j: nat :: i < j < |acks| ==> time <= acks[j].time
  }

  lemma StaysLastBefore(acks: seq<AckPoint>, x: AckPoint, time: int, p: AckPoint)
    requires IsLastBefore(acks, time, p) && time <= x.time
    ensures IsLastBefore(acks + [x], time, p)
  {
    if !(p == AckPoint(0, 0) && forall i: nat :: i < |acks| ==> time <= acks[i].time) {
      var i: nat :| i < |acks| && acks[i] == p && p.time < time
                    && forall j: nat :: i < j < |acks| ==> time <= acks[j].time;
      assert (acks + [x])[i] == p;
    }
  }

  lemma PreviousIsLastBefore(acks: seq<AckPoint>, x: AckPoint)
    requires acks != [] && acks[|acks| - 1].time < x.time
    ensures IsLastBefore(acks + [x], x.time, acks[|acks| - 1])
  {
    var i := |acks| - 1;
    assert (acks + [x])[i] == acks[i];
  }

  /** Of acks in order of time the newer point is the last, and the older point the last of an earlier time. */
  lemma {:induction false} RecentPointsAre(acks: seq<AckPoint>)
    requires acks != [] && acks[0].time > 0
    requires forall i: nat, j: nat :: i < j < |acks| ==> acks[i].time <= acks[j].time
    ensures ObserveAll(acks).newer == acks[|acks| - 1]
    ensures IsLastBefore(acks, acks[|acks| - 1].time, ObserveAll(acks).older)
    decreases |acks|
  {
    hide IsLastBefore;
    var last := |acks| - 1;
    var before, x := acks[..last], acks[last];
    assert before + [x] == acks;
    if before == [] {
      OneIsAlone(x);
    } else {
      RecentPointsAre(before);
      if before[last - 1].time < x.time {
        PreviousIsLastBefore(before, x);
      } else {
        StaysLastBefore(before, x, x.time, ObserveAll(before).older);
      }
    }
  }

  lemma OneIsAlone(x: AckPoint)
    ensures IsLastBefore([x], x.time, AckPoint(0, 0))
    ensures ObserveAll([x]) == Observe(NO_POINTS, x.time, x.acked)
  {
    assert [x][..0] == [];
  }

  ghost predicate Sorted(log: seq<AckPoint>) {
    forall i, j :: 0 <= i < j < |log| ==> log[i].acked <= log[j].acked
  }

  /** The candidates are sorted by bytes acked, and so is everything that can still be
      added to them. */
  ghost predicate CandidatesInv(candidates: seq<AckPoint>, r: RecentAckPoints, totalAcked: nat) {
    && Sorted(candidates)
    && r.older.acked <= r.newer.acked <= totalAcked
    && (candidates != [] ==> candidates[|candidates| - 1].acked <= LessRecent(r).acked)
  }

  lemma CandidatesBelowTotal(candidates: seq<AckPoint>, r: RecentAckPoints, totalAcked: nat)
    requires CandidatesInv(candidates, r, totalAcked)
    ensures forall i :: 0 <= i < |candidates| ==> candidates[i].acked <= totalAcked
  {}

  // ---------------------------------------------------------------- choosing

  function ChooseFrom(log: seq<AckPoint>, key: nat, i: nat): (k: nat)
    requires 1 <= i <= |log|
    ensures k < |log|
    decreases |log| - i
  {
    if i == |log| then |log| - 1
    else if log[i].acked > key then i - 1
    else ChooseFrom(log, key, i + 1)
  }

  /** The position of the candidate that `ChooseA0Point` picks. */
  function Choose(log: seq<AckPoint>, key: nat): (k: nat)
    requires log != []
    ensures k < |log|
  {
    ChooseFrom(log, key, 1)
  }

  /** `k` is the last candidate at or below the key, or the first when none is. */
  ghost predicate LastAtOrBelow(log: seq<AckPoint>, key: nat, k: nat) {
    && k < |log|
    && (log[k].acked <= key || k == 0)
    && (forall j :: k < j < |log| ==> log[j].acked > key)
  }

  lemma {:induction false} ChooseFromIsLast(log: seq<AckPoint>, key: nat, i: nat)
    requires Sorted(log) && 1 <= i <= |log| && (log[i - 1].acked <= key || i == 1)
    ensures LastAtOrBelow(log, key, ChooseFrom(log, key, i))
    decreases |log| - i
  {
    if i < |log| && log[i].acked <= key {
      ChooseFromIsLast(log, key, i + 1);
    }
  }

  lemma ChooseIsLastAtOrBelow(log: seq<AckPoint>, key: nat)
    requires Sorted(log) && log != []
    ensures LastAtOrBelow(log, key, Choose(log, key))
  {
    ChooseFromIsLast(log, key, 1);
  }

  /** Dropping the first `d` entries of the log changes the choice exactly when the key lies
      below the first entry kept. */
  lemma PrunedChoice(log: seq<AckPoint>, d: nat, key: nat)
    requires Sorted(log) && d < |log|
    ensures d + Choose(log[d..], key) == Choose(log, key) <==> d == 0 || log[d].acked <= key
  {
    ChooseIsLastAtOrBelow(log, key);
    ChooseIsLastAtOrBelow(log[d..], key);
    var full, kept := Choose(log, key), Choose(log[d..], key);
    assert log[d..][kept] == log[d + kept];
    assert d <= full ==> log[d..][full - d] == log[full];
    assert log[0..] == log;
  }

  // ---------------------------------------------------------------- the pruned log and the whole log

  datatype Operation =
    | Restart(point: AckPoint)
    | Add(point: AckPoint)
    | Query(key: nat)

  /** The answers when every query prunes the log, as the sampler does. */
  function PrunedAnswers(log: seq<AckPoint>, ops: seq<Operation>): seq<Option<AckPoint>>
    decreases |ops|
  {
    if ops == [] then [] else
      match ops[0]
      case Restart(p) => PrunedAnswers([p], ops[1..])
      case Add(p) => PrunedAnswers(log + [p], ops[1..])
      case Query(key) =>
        if log == [] then [None] + PrunedAnswers(log, ops[1..])
        else var k := Choose(log, key);
             [Some(log[k])] + PrunedAnswers(log[k..], ops[1..])
  }

  /** The answers when the whole log is kept. */
  function FullAnswers(log: seq<AckPoint>, ops: seq<Operation>): seq<Option<AckPoint>>
    decreases |ops|
  {
    if ops == [] then [] else
      match ops[0]
      case Restart(p) => FullAnswers([p], ops[1..])
      case Add(p) => FullAnswers(log + [p], ops[1..])
      case Query(key) =>
        [if log == [] then None else Some(log[Choose(log, key)])] + FullAnswers(log, ops[1..])
  }

  /** Points arrive in order of bytes acked, and so do the keys. */
  ghost predicate InOrder(ops: seq<Operation>, top: nat, key: nat)
    decreases |ops|
  {
    ops == [] ||
    match ops[0]
    case Restart(p) => InOrder(ops[1..], p.acked, key)
    case Add(p) => top <= p.acked && InOrder(ops[1..], p.acked, key)
    case Query(k) => key <= k && InOrder(ops[1..], top, k)
  }

  lemma QueryAgrees(log: seq<AckPoint>, d: nat, key: nat)
    requires Sorted(log) && d < |log| && (d == 0 || log[d].acked <= key)
    ensures var full, kept := Choose(log, key), Choose(log[d..], key);
            && log[d..][kept] == log[full] && log[d..][kept..] == log[full..]
            && (full == 0 || log[full].acked <= key)
  {
    PrunedChoice(log, d, key);
    ChooseIsLastAtOrBelow(log, key);
  }

  /** For keys that do not decrease, pruning is invisible: every query of every run gets the
      answer that the whole log would give. */
  lemma {:induction false} PruningIsInvisible(log: seq<AckPoint>, d: nat, ops: seq<Operation>, top: nat, key: nat)
    requires Sorted(log) && (forall i :: 0 <= i < |log| ==> log[i].acked <= top)
    requires d == 0 || (d < |log| && log[d].acked <= key)
    requires InOrder(ops, top, key)
    ensures PrunedAnswers(log[d..], ops) == FullAnswers(log, ops)
    decreases |ops|
  {
    hide Choose;
    if ops != [] {
      match ops[0]
      case Restart(p) =>
        assert [p][0..] == [p];
        PruningIsInvisible([p], 0, ops[1..], p.acked, key);
      case Add(p) =>
        assert log[d..] + [p] == (log + [p])[d..];
        PruningIsInvisible(log + [p], d, ops[1..], p.acked, key);
      case Query(k) =>
        if log == [] {
          PruningIsInvisible(log, d, ops[1..], top, k);
        } else {
          QueryAgrees(log, d, k);
          PruningIsInvisible(log, Choose(log, k), ops[1..], top, k);
        }
    }
  }
}
