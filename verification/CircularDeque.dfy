/** `QuicheCircularDeque`: a ring buffer over a flat array.  Whatever the mix of operations, its elements read from
    `begin` to `end` are the sequence that a plain list would hold, one slot stays free so that `begin == end` can only
    mean empty, and growing is paid for by the elements put in. */
module CircularDeque {
  import opened Base

  // ---------------------------------------------------------------- the ring, as a value

  /** The elements of the buffer from `b` up to `e`, going round the end when `e` is before `b`. */
  function Elements<T>(buf: seq<T>, b: nat, e: nat): seq<T>
    requires InRing(|buf|, b, e)
  {
    if b <= e then buf[b..e] else buf[b..] + buf[..e]
  }

  /** Both indices name a slot; a deque that never allocated has no slot and both are 0. */
  predicate InRing(n: nat, b: nat, e: nat) {
    if n == 0 then b == 0 && e == 0 else b < n && e < n
  }

  function Count(n: nat, b: nat, e: nat): nat
    requires InRing(n, b, e)
  {
    if b <= e then e - b else n + e - b
  }

  function Capacity(n: nat): nat {
    if n == 0 then 0 else n - 1
  }

  function Next(n: nat, i: nat): nat
    requires i < n
  {
    if i == n - 1 then 0 else i + 1
  }

  function Prev(n: nat, i: nat): nat
    requires i < n
  {
    if i == 0 then n - 1 else i - 1
  }

  /** `index_increment_by`, for a step of at most one turn in either direction. */
  function Shifted(n: nat, i: nat, delta: int): nat
    requires n == 0 ==> delta == 0
    requires 0 <= n + delta
  {
    if delta == 0 then i else (i + n + delta) % n
  }

  /** Where position `pos` of the deque lies in the buffer. */
  function Slot(n: nat, b: nat, pos: nat): nat
    requires b < n
  {
    if b + pos < n then b + pos else b + pos - n
  }

  /** One slot is always free, `begin == end` means empty, and a position is found by one conditional subtraction. */
  lemma RingReads<T>(buf: seq<T>, b: nat, e: nat)
    requires InRing(|buf|, b, e)
    ensures |Elements(buf, b, e)| == Count(|buf|, b, e) <= Capacity(|buf|)
    ensures b == e <==> Elements(buf, b, e) == []
    ensures forall pos: nat :: pos < |Elements(buf, b, e)| ==>
              Slot(|buf|, b, pos) < |buf| && Elements(buf, b, e)[pos] == buf[Slot(|buf|, b, pos)]
  {
  }

  /** Writing into the free slot at the end and stepping over it appends. */
  lemma AppendedAtEnd<T>(buf: seq<T>, b: nat, e: nat, x: T)
    requires InRing(|buf|, b, e) && Count(|buf|, b, e) < Capacity(|buf|)
    ensures Elements(buf[e := x], b, Next(|buf|, e)) == Elements(buf, b, e) + [x]
  {
    hide Elements;
    var n := |buf|;
    RingReads(buf, b, e);
    RingReads(buf[e := x], b, Next(n, e));
    assert forall i: nat :: i < Count(n, b, e) ==> Slot(n, b, i) != e;
  }

  /** Stepping back and writing there prepends. */
  lemma PrependedAtFront<T>(buf: seq<T>, b: nat, e: nat, x: T)
    requires InRing(|buf|, b, e) && Count(|buf|, b, e) < Capacity(|buf|)
    ensures var p := Prev(|buf|, b); Elements(buf[p := x], p, e) == [x] + Elements(buf, b, e)
  {
    hide Elements;
    var n, p := |buf|, Prev(|buf|, b);
    RingReads(buf, b, e);
    RingReads(buf[p := x], p, e);
    assert Count(n, p, e) == Count(n, b, e) + 1;
    assert forall i: nat :: i < Count(n, b, e) ==> Slot(n, p, i + 1) == Slot(n, b, i) != p;
  }

  /** Moving `begin` forward by `k` drops the first `k` elements, moving `end` back by `k` the last `k`. */
  lemma DroppedAtEnds<T>(buf: seq<T>, b: nat, e: nat, k: nat)
    requires InRing(|buf|, b, e) && k <= Count(|buf|, b, e)
    ensures InRing(|buf|, Shifted(|buf|, b, k), e) && InRing(|buf|, b, Shifted(|buf|, e, 0 - k))
    ensures Elements(buf, Shifted(|buf|, b, k), e) == Elements(buf, b, e)[k..]
    ensures Elements(buf, b, Shifted(|buf|, e, 0 - k)) == Elements(buf, b, e)[..Count(|buf|, b, e) - k]
  {
    hide Shifted; hide Elements;
    ShiftedIs(|buf|, b, k);
    ShiftedIs(|buf|, e, 0 - k);
    var b1, e1 := Shifted(|buf|, b, k), Shifted(|buf|, e, 0 - k);
    RingReads(buf, b, e);
    RingReads(buf, b1, e);
    RingReads(buf, b, e1);
    assert forall i: nat :: i < Count(|buf|, b1, e) ==> Slot(|buf|, b1, i) == Slot(|buf|, b, i + k);
  }

  /** ... and the count falls by `k`. */
  lemma CountAfterDrop(n: nat, b: nat, e: nat, k: nat)
    requires InRing(n, b, e) && k <= Count(n, b, e)
    ensures InRing(n, Shifted(n, b, k), e) && Count(n, Shifted(n, b, k), e) == Count(n, b, e) - k
    ensures k <= n && (n == 0 ==> k == 0)
    ensures InRing(n, b, Shifted(n, e, 0 - k)) && Count(n, b, Shifted(n, e, 0 - k)) == Count(n, b, e) - k
  {
    hide Shifted;
    ShiftedIs(n, b, k);
    ShiftedIs(n, e, 0 - k);
  }

  lemma OneStep(n: nat, i: nat)
    requires i < n
    ensures Next(n, i) == if n == 1 then i else Shifted(n, i, 1)
    ensures Prev(n, i) == if n == 1 then i else Shifted(n, i, 0 - 1)
  {
    hide Shifted;
    if n > 1 {
      ShiftedIs(n, i, 1);
      ShiftedIs(n, i, 0 - 1);
    }
  }

  /** The remainder in `ResizeInternal` is the end that moving back over the elements to drop would reach. */
  lemma ShrunkEnd(n: nat, b: nat, e: nat, count: nat)
    requires n > 0 && InRing(n, b, e) && count <= Count(n, b, e)
    ensures (b + count) % n == Shifted(n, e, 0 - (Count(n, b, e) - count))
  {
    hide Shifted;
    ShiftedIs(n, e, 0 - (Count(n, b, e) - count));
    WrapsOnce(n, b + count);
  }

  lemma ShiftedIs(n: nat, i: nat, delta: int)
    requires if n == 0 then i == 0 == delta else i < n && 0 < n + delta < 2 * n
    ensures Shifted(n, i, delta) == if i + delta < 0 then i + delta + n else if n > 0
            && i + delta >= n then i + delta - n else i + delta
  {
    if delta != 0 {
      var x := i + delta;
      if x < n {
        WrapsOnce(n, x + n);
      } else {
        WrapsOnce(n, x);
        OneTurnMore(n, x);
      }
    }
  }

  lemma OneTurnMore(n: nat, x: nat)
    requires n > 0
    ensures (x + n) % n == x % n
  {
    var q, r := x / n, x % n;
    var p, s := (x + n) / n, (x + n) % n;
    assert n * (p - q - 1) == r - s;
    Multiples(n, p - q);
    Multiples(n, p - q - 1);
  }

  lemma WrapsOnce(n: nat, x: nat)
    requires 0 < n && x < 2 * n
    ensures x % n == (if x < n then x else x - n)
  {
    var q, r := x / n, x % n;
    assert x == n * q + r && 0 <= r < n;
    Multiples(n, q);
  }

  lemma Multiples(n: nat, q: int)
    ensures q >= 2 ==> n * q >= 2 * n
    ensures q <= -1 ==> n * q + n <= 0
  {
    if q >= 2 {
      assert n * q == 2 * n + n * (q - 2);
    } else if q <= -1 {
      assert -(n * q) == n + n * (-1 - q);
    }
  }

  function Resized<T>(s: seq<T>, count: nat, value: T): seq<T> {
    if count <= |s| then s[..count] else s + seq(count - |s|, _ => value)
  }

  // ---------------------------------------------------------------- what growing costs

  /** The capacity of the deque, its size, the elements copied from buffer to buffer so far, the elements put in so far,
      and how many of the copies were made because the caller asked for room with `reserve`. */
  datatype Account = Account(cap: nat, size: nat, copied: nat, put: nat, copiedByReserve: nat)

  /** The elements moved because something was put in. */
  function Moved(a: Account): int {
    a.copied - a.copiedByReserve
  }

  datatype Op = Put | Take(count: nat) | Resize(count: nat) | Reserve(cap: nat) | Clear

  function Increment(cap: nat): nat {
    Max(3, cap / 4)
  }

  /** `MaybeExpandCapacity`. */
  function Grown(a: Account, additional: nat): Account {
    if a.cap >= a.size + additional then a
    else a.(cap := Max(a.size + additional, a.cap + Increment(a.cap)), copied := a.copied + a.size)
  }

  function Charge(a: Account, op: Op): Account {
    match op
    case Put => Grown(a, 1).(size := a.size + 1, put := a.put + 1)
    case Take(count) => a.(size := a.size - Min(count, a.size))
    case Resize(count) =>
      if count <= a.size then a.(size := count)
      else Grown(a, count - a.size).(size := count, put := a.put + (count - a.size))
    case Reserve(cap) =>
      if cap > a.cap
      then a.(cap := cap, copied := a.copied + a.size, copiedByReserve := a.copiedByReserve + a.size) else a
    case Clear => a.(size := 0)
  }

  const EMPTY_ACCOUNT := Account(0, 0, 0, 0, 0)

  /** What every operation keeps.  The first inequality is the potential: each free slot is six moves in hand. */
  predicate Paid(a: Account) {
    && a.size <= a.cap
    && Moved(a) + a.cap <= 6 * (a.put + a.cap - a.size)
    && Moved(a) <= 6 * a.put
  }

  lemma EmptyIsPaid()
    ensures Paid(EMPTY_ACCOUNT)
  {
  }

  lemma IncrementCoversCapacity(cap: nat)
    ensures 3 <= Increment(cap) && cap <= 5 * Increment(cap)
  {
  }

  /** Growing makes room for what is asked, for three elements more and for a quarter more, and for no more than the
      largest of these. */
  lemma GrowthRule(a: Account, additional: nat)
    ensures var r := Grown(a, additional);
            if a.size + additional <= a.cap then r == a else
              && r == a.(cap := r.cap, copied := a.copied + a.size)
              && a.size + additional <= r.cap && a.cap + 3 <= r.cap && a.cap < 4 * (r.cap - a.cap) + 4
              && (r.cap == a.size + additional || r.cap == a.cap + 3 || 4 * (r.cap - a.cap) <= a.cap)
  {
  }

  lemma ChargeKeepsPaid(a: Account, op: Op)
    requires Paid(a)
    ensures Paid(Charge(a, op))
  {
    IncrementCoversCapacity(a.cap);
  }

  function Charged(a: Account, ops: seq<Op>): Account
    decreases |ops|
  {
    if ops == [] then a else Charged(Charge(a, ops[0]), ops[1..])
  }

  /** All runs of pushes, pops, bulk pops, resizes, clears and reserves: the elements moved by growing number at most
      six times the elements put in, and the size never exceeds the capacity. */
  lemma {:induction false} GrowingIsAmortised(a: Account, ops: seq<Op>)
    requires Paid(a)
    ensures var r := Charged(a, ops);
            && Paid(r) && r.put >= a.put && (a == EMPTY_ACCOUNT ==> r.size <= r.cap && Moved(r) <= 6 * r.put)
            && ((forall i :: 0 <= i < |ops| ==> !ops[i].Reserve?) ==> r.copiedByReserve == a.copiedByReserve)
    decreases |ops|
  {
    if ops != [] {
      ChargeKeepsPaid(a, ops[0]);
      GrowingIsAmortised(Charge(a, ops[0]), ops[1..]);
    }
  }

  /** `reserve` itself is not covered, which is why its moves are counted apart: asking for one slot more at a time
      moves every element each time, so no number of moves per element put in bounds it. */
  lemma {:induction false} ReserveIsNotAmortised(a: Account, k: nat)
    requires a.size <= a.cap
    ensures var r := Charged(a, OneMoreEachTime(a.cap, k));
            && r.copiedByReserve == a.copiedByReserve + k * a.size && r.put == a.put
            && r.copied == a.copied + k * a.size
    decreases k
  {
    if k > 0 {
      ReserveIsNotAmortised(Charge(a, Reserve(a.cap + 1)), k - 1);
      assert a.size + (k - 1) * a.size == k * a.size;
    }
  }

  function OneMoreEachTime(cap: nat, k: nat): seq<Op>
    decreases k
  {
    if k == 0 then [] else [Reserve(cap + 1)] + OneMoreEachTime(cap + 1, k - 1)
  }

  // ---------------------------------------------------------------- the object

  class QuicheCircularDeque<T(0)> {
    var data: array<T>
    var begin: nat
    var end: nat
    ghost var copied: nat
    ghost var put: nat
    ghost var copiedByReserve: nat

    ghost predicate Valid()
      reads this
    {
      InRing(data.Length, begin, end) && Paid(Books())
    }

    ghost function Books(): Account
      reads this
      requires InRing(data.Length, begin, end)
    {
      Account(Capacity(data.Length), Count(data.Length, begin, end), copied, put, copiedByReserve)
    }

    ghost function Contents(): (s: seq<T>)
      reads this, data
      requires InRing(data.Length, begin, end)
      ensures |s| == Count(data.Length, begin, end)
    {
      RingReads(data[..], begin, end);
      Elements(data[..], begin, end)
    }

    constructor ()
      ensures Valid() && Contents() == [] && Books() == EMPTY_ACCOUNT && fresh(data)
    {
      hide Elements; hide Paid;
      data := new T[0];
      begin, end := 0, 0;
      copied, put, copiedByReserve := 0, 0, 0;
      new;
      EmptyIsPaid();
    }

    function Size(): (n: nat)
      reads this, data
      requires InRing(data.Length, begin, end)
      ensures n == |Contents()|
    {
      if begin <= end then end - begin else data.Length + end - begin
    }

    predicate Empty()
      reads this, data
      requires Valid()
      ensures Empty() <==> Contents() == []
    {
      begin == end
    }

    function At(pos: nat): (x: T)
      reads this, data
      requires Valid() && pos < |Contents()|
      ensures x == Contents()[pos]
    {
      RingReads(data[..], begin, end);
      var index := begin + pos;
      if index < data.Length then data[index] else data[index - data.Length]
    }

    function Front(): (x: T)
      reads this, data
      requires Valid() && Contents() != []
      ensures x == Contents()[0]
    {
      RingReads(data[..], begin, end);
      data[begin]
    }

    function Back(): (x: T)
      reads this, data
      requires Valid() && Contents() != []
      ensures x == Contents()[|Contents()| - 1]
    {
      RingReads(data[..], begin, end);
      data[if end == 0 then data.Length - 1 else end - 1]
    }

    // -------------------------------------------------------------- growing

    /** Copies slots `from` to `to` of the buffer to the front of what is left of the new one. */
    method RelocateUnwrappedRange(from: nat, to: nat, target: array<T>, at: nat)
      requires from <= to <= data.Length && at + (to - from) <= target.Length && target != data
      modifies target, this`copied
      ensures target[..at + (to - from)] == old(target[..at]) + data[..][from..to]
      ensures copied == old(copied) + (to - from)
    {
      ghost var buf := data[..];
      var src, dest := from, at;
      while src < to
        invariant from <= src <= to && dest == at + (src - from) && copied == old(copied) + (src - from)
        invariant target[..dest] == old(target[..at]) + buf[from..src]
      {
        target[dest] := data[src];
        assert target[..dest + 1] == target[..dest] + [buf[src]];
        assert buf[from..src + 1] == buf[from..src] + [buf[src]];
        dest, src, copied := dest + 1, src + 1, copied + 1;
      }
    }

    /** Lays the elements out from slot 0 of a new buffer, unwrapping them if they go round the end. */
    method RelocateElements(newData: array<T>)
      requires InRing(data.Length, begin, end) && newData != data && Count(data.Length, begin, end) <= newData.Length
      modifies newData, this`copied
      ensures newData[..Count(data.Length, begin, end)] == Contents()
      ensures copied == old(copied) + |Contents()|
    {
      ghost var buf := data[..];
      if begin < end {
        RelocateUnwrappedRange(begin, end, newData, 0);
        assert newData[..end - begin] == [] + buf[begin..end];
      } else if begin > end {
        var numElementsBeforeWrap := data.Length - begin;
        RelocateUnwrappedRange(begin, data.Length, newData, 0);
        assert newData[..numElementsBeforeWrap] == [] + buf[begin..|buf|];
        RelocateUnwrappedRange(0, end, newData, numElementsBeforeWrap);
        assert newData[..numElementsBeforeWrap + end] == buf[begin..|buf|] + buf[0..end];
        assert buf[begin..|buf|] == buf[begin..] && buf[0..end] == buf[..end];
      }
    }

    method Relocate(newCapacity: nat)
      requires InRing(data.Length, begin, end) && newCapacity >= Count(data.Length, begin, end)
      modifies this`data, this`begin, this`end, this`copied
      ensures fresh(data) && data.Length == newCapacity + 1 && InRing(data.Length, begin, end)
      ensures copied == old(copied) + |old(Contents())|
      ensures Contents() == old(Contents())
    {
      var numElements := Size();
      var newData := new T[newCapacity + 1];
      RelocateElements(newData);
      data := newData;
      begin := 0;
      end := numElements;
    }

    method MaybeExpandCapacity(numAdditionalElements: nat)
      requires InRing(data.Length, begin, end)
      modifies this`data, this`begin, this`end, this`copied
      ensures InRing(data.Length, begin, end) && if old(Books()) == Books() then data == old(data) else fresh(data)
      ensures Contents() == old(Contents()) && Books() == Grown(old(Books()), numAdditionalElements)
    {
      hide Elements;
      var newSize := Size() + numAdditionalElements;
      var capacity := if data.Length == 0 then 0 else data.Length - 1;
      if capacity >= newSize {
        return;
      }
      var minAdditionalCapacity := Max(3, capacity / 4);
      var newCapacity := Max(newSize, capacity + minAdditionalCapacity);
      Relocate(newCapacity);
    }

    method Reserve(newCap: nat)
      requires Valid()
      modifies this
      ensures Valid() && (data == old(data) || fresh(data))
      ensures Contents() == old(Contents()) && Books() == Charge(old(Books()), Op.Reserve(newCap))
    {
      hide Elements; hide Paid;
      ChargeKeepsPaid(Books(), Op.Reserve(newCap));
      var capacity := if data.Length == 0 then 0 else data.Length - 1;
      if newCap > capacity {
        ghost var before := copied;
        Relocate(newCap);
        copiedByReserve := copiedByReserve + (copied - before);
      }
    }

    // -------------------------------------------------------------- both ends

    /** Writes the free slot at the end: what `emplace_back` does once there is room. */
    method StoreBack(x: T)
      requires InRing(data.Length, begin, end) && Count(data.Length, begin, end) < Capacity(data.Length)
      modifies this`end, this`put, data
      ensures InRing(data.Length, begin, end) && Contents() == old(Contents()) + [x]
      ensures Books() == old(Books()).(size := old(Books().size) + 1, put := old(put) + 1)
    {
      AppendedAtEnd(data[..], begin, end, x);
      ghost var buf := data[..];
      data[end] := x;
      assert data[..] == buf[end := x];
      end := if end == data.Length - 1 then 0 else end + 1;
      put := put + 1;
    }

    method EmplaceBack(x: T)
      requires InRing(data.Length, begin, end)
      modifies this, data
      ensures InRing(data.Length, begin, end)
      ensures if old(Books().size < Books().cap) then data == old(data) else data == old(data) || fresh(data)
      ensures Contents() == old(Contents()) + [x] && Books() == Charge(old(Books()), Put)
    {
      hide Elements;
      MaybeExpandCapacity(1);
      StoreBack(x);
    }

    method PushBack(x: T)
      requires Valid()
      modifies this, data
      ensures Valid() && (data == old(data) || fresh(data))
      ensures Contents() == old(Contents()) + [x] && Books() == Charge(old(Books()), Put)
    {
      hide Elements; hide Paid;
      ChargeKeepsPaid(Books(), Put);
      EmplaceBack(x);
    }

    /** Steps `begin` back and writes there: what `emplace_front` does once there is room. */
    method StoreFront(x: T)
      requires InRing(data.Length, begin, end) && Count(data.Length, begin, end) < Capacity(data.Length)
      modifies this`begin, this`put, data
      ensures InRing(data.Length, begin, end) && Contents() == [x] + old(Contents())
      ensures Books() == old(Books()).(size := old(Books().size) + 1, put := old(put) + 1)
    {
      PrependedAtFront(data[..], begin, end, x);
      ghost var buf := data[..];
      begin := if begin == 0 then data.Length - 1 else begin - 1;
      data[begin] := x;
      assert data[..] == buf[begin := x];
      put := put + 1;
    }

    method PushFront(x: T)
      requires Valid()
      modifies this, data
      ensures Valid() && (data == old(data) || fresh(data))
      ensures Contents() == [x] + old(Contents()) && Books() == Charge(old(Books()), Put)
    {
      hide Elements; hide Paid;
      ChargeKeepsPaid(Books(), Put);
      MaybeExpandCapacity(1);
      StoreFront(x);
    }

    method PopFront()
      requires Valid() && Contents() != []
      modifies this`begin
      ensures Valid() && Contents() == old(Contents())[1..] && Books() == Charge(old(Books()), Take(1))
    {
      hide Paid; hide Elements; hide Shifted;
      ChargeKeepsPaid(Books(), Take(1));
      OneStep(data.Length, begin);
      CountAfterDrop(data.Length, begin, end, 1);
      DroppedAtEnds(data[..], begin, end, 1);
      begin := if begin == data.Length - 1 then 0 else begin + 1;
    }

    method PopBack()
      requires Valid() && Contents() != []
      modifies this`end
      ensures Valid() && Contents() == old(Contents())[..|old(Contents())| - 1]
      ensures Books() == Charge(old(Books()), Take(1))
    {
      hide Paid; hide Elements; hide Shifted;
      ChargeKeepsPaid(Books(), Take(1));
      OneStep(data.Length, end);
      CountAfterDrop(data.Length, begin, end, 1);
      DroppedAtEnds(data[..], begin, end, 1);
      end := if end == 0 then data.Length - 1 else end - 1;
    }

    /** Moves `begin` over the first `k` elements. */
    method DropFirst(k: nat)
      requires InRing(data.Length, begin, end) && k <= Count(data.Length, begin, end)
      modifies this`begin
      ensures InRing(data.Length, begin, end) && Contents() == old(Contents())[k..]
      ensures Books() == old(Books()).(size := old(Books().size) - k)
    {
      hide Elements; hide Shifted; hide Count;
      CountAfterDrop(data.Length, begin, end, k);
      DroppedAtEnds(data[..], begin, end, k);
      begin := Shifted(data.Length, begin, k);
    }

    /** Moves `end` back over the last `k` elements. */
    method DropLast(k: nat)
      requires InRing(data.Length, begin, end) && k <= Count(data.Length, begin, end)
      modifies this`end
      ensures InRing(data.Length, begin, end) && Contents() == old(Contents())[..|old(Contents())| - k]
      ensures Books() == old(Books()).(size := old(Books().size) - k)
    {
      hide Elements; hide Shifted; hide Count;
      CountAfterDrop(data.Length, begin, end, k);
      DroppedAtEnds(data[..], begin, end, k);
      end := Shifted(data.Length, end, 0 - k);
    }

    method PopFrontN(count: nat) returns (popped: nat)
      requires Valid()
      modifies this`begin
      ensures Valid() && popped == Min(count, |old(Contents())|)
      ensures Contents() == old(Contents())[popped..] && Books() == Charge(old(Books()), Take(count))
    {
      hide Paid; hide Elements; hide Shifted; hide Count; hide Capacity; hide InRing;
      ChargeKeepsPaid(Books(), Take(count));
      popped := Min(count, Size());
      DropFirst(popped);
    }

    method PopBackN(count: nat) returns (popped: nat)
      requires Valid()
      modifies this`end
      ensures Valid() && popped == Min(count, |old(Contents())|)
      ensures Contents() == old(Contents())[..|old(Contents())| - popped]
      ensures Books() == Charge(old(Books()), Take(count))
    {
      hide Paid; hide Elements; hide Shifted; hide Count; hide Capacity; hide InRing;
      ChargeKeepsPaid(Books(), Take(count));
      popped := Min(count, Size());
      DropLast(popped);
    }

    method ClearAll()
      requires Valid()
      modifies this`begin, this`end
      ensures Valid() && Contents() == [] && Books() == Charge(old(Books()), Op.Clear)
    {
      ChargeKeepsPaid(Books(), Op.Clear);
      begin, end := 0, 0;
    }

    /** Growing to `count` appends copies of `value`; otherwise the first `count` elements stay.  A deque that never
        allocated may only grow: the other branch takes a remainder by the buffer's length. */
    method ResizeTo(count: nat, value: T)
      requires Valid() && (count > |Contents()| || data.Length > 0)
      modifies this, data
      ensures Valid() && (data == old(data) || fresh(data))
      ensures Contents() == Resized(old(Contents()), count, value) && Books() == Charge(old(Books()), Resize(count))
    {
      hide Charge; hide Paid; hide Elements;
      ChargeKeepsPaid(Books(), Resize(count));
      if count > Size() {
        GrowTo(count, value);
      } else {
        ShrinkTo(count);
      }
    }

    method ShrinkTo(count: nat)
      requires InRing(data.Length, begin, end) && count <= |Contents()| && data.Length > 0
      modifies this`end
      ensures InRing(data.Length, begin, end) && Contents() == old(Contents())[..count]
      ensures Books() == Charge(old(Books()), Resize(count))
    {
      hide Elements; hide Shifted; hide Count; hide InRing; hide Capacity;
      ShrunkEnd(data.Length, begin, end, count);
      DroppedAtEnds(data[..], begin, end, Size() - count);
      CountAfterDrop(data.Length, begin, end, Size() - count);
      end := (begin + count) % data.Length;
    }

    method GrowTo(count: nat, value: T)
      requires Valid() && count > |Contents()|
      modifies this, data
      ensures InRing(data.Length, begin, end) && (data == old(data) || fresh(data))
      ensures Contents() == Resized(old(Contents()), count, value) && Books() == Charge(old(Books()), Resize(count))
    {
      hide Elements; hide Charge; hide Resized; hide Grown; hide Paid;
      ghost var was, start := Contents(), Books();
      MaybeExpandCapacity(count - Size());
      GrownFits(start, count);
      ghost var room, roomy := Books(), data;
      ResizedStep(was, |was|, value);
      while Size() < count
        invariant InRing(data.Length, begin, end) && |was| <= |Contents()| <= count
        invariant data == roomy
        invariant Contents() == Resized(was, |Contents()|, value)
        invariant Books() == room.(size := |Contents()|, put := room.put + |Contents()| - |was|)
      {
        PutWithRoom(Books());
        ResizedStep(was, |Contents()|, value);
        EmplaceBack(value);
      }
    }
  }

  lemma GrownFits(a: Account, count: nat)
    requires a.size < count
    ensures count <= Grown(a, count - a.size).cap && Grown(a, count - a.size).size == a.size
    ensures Charge(a, Resize(count))
            == Grown(a, count - a.size).(size := count, put := Grown(a, count - a.size).put + (count - a.size))
  {
  }

  lemma PutWithRoom(a: Account)
    ensures a.size < a.cap ==> Charge(a, Put) == a.(size := a.size + 1, put := a.put + 1)
  {
  }

  lemma ResizedStep<T>(s: seq<T>, n: nat, x: T)
    requires n >= |s|
    ensures Resized(s, |s|, x) == s && |Resized(s, n, x)| == n
    ensures Resized(s, n + 1, x) == Resized(s, n, x) + [x]
  {
  }
}
