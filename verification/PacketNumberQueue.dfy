/** The queue indexed by packet number (`PacketNumberIndexedQueue`).

    Its meaning is a finite map together with a high-water mark, the last packet number
    inserted since the queue was last empty. */
module PacketNumberQueue {
  import opened Base

  datatype Indexed<+T> = Indexed(items: map<nat, T>, mark: Option<nat>)

  ghost predicate IndexedInv<T>(q: Indexed<T>) {
    && (q.mark.None? <==> q.items == map[])
    && (forall k: nat :: k in q.items ==> q.mark.Some? && k <= q.mark.value)
  }

  function EmptyQueue<T>(): Indexed<T> {
    Indexed(map[], None)
  }

  /** Insertion succeeds exactly when the queue is empty or the number is above the mark. */
  predicate CanEmplace<T>(q: Indexed<T>, pn: nat) {
    q.mark.None? || q.mark.value < pn
  }

  function Emplaced<T>(q: Indexed<T>, pn: nat, x: T): Indexed<T> {
    if CanEmplace(q, pn) then Indexed(q.items[pn := x], Some(pn)) else q
  }

  lemma EmplacedKeepsInv<T>(q: Indexed<T>, pn: nat, x: T)
    requires IndexedInv(q)
    ensures IndexedInv(Emplaced(q, pn, x))
    ensures forall k: nat :: k in q.items ==> k in Emplaced(q, pn, x).items && Emplaced(q, pn, x).items[k] == q.items[k]
    ensures (forall k: nat :: k in q.items ==> k < pn) && (q.mark.Some? ==> q.mark.value < pn) ==>
              Emplaced(q, pn, x).items == q.items[pn := x] && Emplaced(q, pn, x).mark == Some(pn)
  {
    assert pn in q.items[pn := x];
  }

  /** The queue left with some of its items: the mark goes with the last of them. */
  function Left<T>(q: Indexed<T>, items: map<nat, T>): Indexed<T> {
    Indexed(items, if items == map[] then None else q.mark)
  }

  function Removed<T>(q: Indexed<T>, pn: nat): Indexed<T> {
    Left(q, q.items - {pn})
  }

  function RemovedUpTo<T>(q: Indexed<T>, pn: nat): Indexed<T> {
    Left(q, map k | k in q.items && pn <= k :: q.items[k])
  }

  function Lookup<T>(q: Indexed<T>, pn: nat): Option<T> {
    if pn in q.items then Some(q.items[pn]) else None
  }

  // ---------------------------------------------------------------- representation

  ghost predicate Occupied<T>(slots: seq<Option<T>>, first: nat, k: nat) {
    first <= k < first + |slots| && slots[k - first].Some?
  }

  /** The entries that a slot sequence starting at number `first` holds. */
  ghost function Items<T>(slots: seq<Option<T>>, first: nat): map<nat, T> {
    map k: nat | first <= k < first + |slots| && Occupied(slots, first, k) :: slots[k - first].value
  }

  /** Dropping slots at the front drops exactly the numbers below the new first one. */
  lemma ItemsOfSuffix<T>(slots: seq<Option<T>>, first: nat, n: nat)
    requires n <= |slots|
    ensures Items(slots[n..], first + n)
         == map k | k in Items(slots, first) && first + n <= k :: Items(slots, first)[k]
  {
    var all, rest := Items(slots, first), Items(slots[n..], first + n);
    forall k: nat
      ensures k in rest <==> k in all && first + n <= k
      ensures k in rest ==> rest[k] == all[k]
    {
      if first + n <= k < first + |slots| {
        assert slots[n..][k - (first + n)] == slots[k - first];
        assert Occupied(slots, first, k) <==> Occupied(slots[n..], first + n, k);
      }
    }
  }

  lemma ItemsUpTo<T>(slots: seq<Option<T>>, first: nat, n: nat, pn: nat)
    requires n <= |slots|
    requires first + n == pn || (n == 0 && pn <= first) || (n == |slots| && first + n <= pn)
    ensures Items(slots[n..], first + n) == map k | k in Items(slots, first) && pn <= k :: Items(slots, first)[k]
  {
    ItemsOfSuffix(slots, first, n);
  }

  function Present<T>(slots: seq<Option<T>>): nat {
    if slots == [] then 0 else (if slots[0].Some? then 1 else 0) + Present(slots[1..])
  }

  lemma {:induction false} PresentOfConcat<T>(a: seq<Option<T>>, b: seq<Option<T>>)
    ensures Present(a + b) == Present(a) + Present(b)
  {
    if a == [] {
      assert a + b == b;
    } else {
      assert (a + b)[1..] == a[1..] + b;
      PresentOfConcat(a[1..], b);
    }
  }

  lemma {:induction false} PresentOfHoles<T>(slots: seq<Option<T>>)
    ensures (forall i :: 0 <= i < |slots| ==> slots[i].None?) <==> Present(slots) == 0
  {
    if slots != [] {
      PresentOfHoles(slots[1..]);
      if Present(slots) == 0 {
        forall i | 0 <= i < |slots|
          ensures slots[i].None?
        {
          if i > 0 {
            assert slots[i] == slots[1..][i - 1];
          }
        }
      }
    }
  }

  lemma {:induction false} PresentOfUpdate<T>(slots: seq<Option<T>>, k: nat, x: Option<T>)
    requires k < |slots|
    ensures Present(slots[k := x])
         == Present(slots) - (if slots[k].Some? then 1 else 0) + (if x.Some? then 1 else 0)
  {
    var left, right := slots[..k], slots[k + 1..];
    assert slots == left + ([slots[k]] + right);
    assert slots[k := x] == left + ([x] + right);
    PresentOfConcat(left, [slots[k]] + right);
    PresentOfConcat(left, [x] + right);
    assert ([x] + right)[1..] == right && ([slots[k]] + right)[1..] == right;
  }

  /** Appending holes and one entry. */
  lemma PresentOfPush<T>(slots: seq<Option<T>>, holes: nat, x: T)
    ensures Present(slots + seq(holes, _ => None) + [Some(x)]) == Present(slots) + 1
  {
    var gap: seq<Option<T>> := seq(holes, _ => None);
    PresentOfConcat(slots + gap, [Some(x)]);
    PresentOfConcat(slots, gap);
    PresentOfHoles(gap);
    assert [Some(x)][1..] == [];
  }

  lemma ItemsOfNothing<T>(first: nat)
    ensures Items<T>([], first) == map[]
  {}

  lemma ItemsOfPush<T>(slots: seq<Option<T>>, first: nat, holes: nat, x: T)
    ensures Items(slots + seq(holes, _ => None) + [Some(x)], first) == Items(slots, first)[first + |slots| + holes := x]
  {
    var all := slots + seq(holes, _ => None) + [Some(x)];
    forall k: nat
      ensures Occupied(all, first, k) <==> Occupied(slots, first, k) || k == first + |slots| + holes
    {}
  }

  class PacketNumberIndexedQueue<T> {
    var entries: seq<Option<T>>
    var numberOfPresentEntries: nat
    var firstPacket: Option<nat>

    /** The first slot is always occupied and the count of occupied slots is kept; hence
        the count is zero exactly when there is no slot. */
    ghost predicate Valid()
      reads this
    {
      && numberOfPresentEntries == Present(entries)
      && (entries == [] <==> firstPacket.None?)
      && (entries != [] ==> entries[0].Some?)
    }

    ghost function View(): (q: Indexed<T>)
      requires Valid()
      reads this
      ensures IndexedInv(q)
      ensures q.items == map[] <==> entries == []
    {
      if entries == [] then EmptyQueue() else
        assert firstPacket.value in Items(entries, firstPacket.value);
        Indexed(Items(entries, firstPacket.value), Some(firstPacket.value + |entries| - 1))
    }

    constructor ()
      ensures Valid() && View() == EmptyQueue()
    {
      entries, numberOfPresentEntries, firstPacket := [], 0, None;
    }

    predicate IsEmpty()
      reads this
      requires Valid()
      ensures IsEmpty() <==> View().items == map[]
    {
      PresentOfHoles(entries);
      numberOfPresentEntries == 0
    }

    /** The last packet number inserted, none when the queue is empty. */
    function LastPacket(): (r: Option<nat>)
      reads this
      requires Valid()
      ensures r == View().mark
    {
      if IsEmpty() then None else Some(firstPacket.value + |entries| - 1)
    }

    function GetEntry(packetNumber: Option<nat>): (r: Option<T>)
      reads this
      requires Valid()
      ensures r == if packetNumber.Some? then Lookup(View(), packetNumber.value) else None
    {
      if packetNumber.None? || IsEmpty() || packetNumber.value < firstPacket.value then None else
        var offset := packetNumber.value - firstPacket.value;
        if offset >= |entries| then None else entries[offset]
    }

    method Emplace(packetNumber: Option<nat>, x: T) returns (ok: bool)
      requires Valid()
      modifies this
      ensures Valid()
      ensures ok <==> packetNumber.Some? && CanEmplace(old(View()), packetNumber.value)
      ensures ok <==> packetNumber.Some? && (old(View()).items == map[] || old(View()).mark.value < packetNumber.value)
      ensures View() == if packetNumber.Some? then Emplaced(old(View()), packetNumber.value, x) else old(View())
    {
      hide Present;
      hide Items;
      if packetNumber.None? {
        return false;
      }
      var pn := packetNumber.value;
      if IsEmpty() {
        PresentOfPush(entries, 0, x);
        ItemsOfPush(entries, pn, 0, x);
        ItemsOfNothing<T>(pn);
        assert entries + seq(0, _ => None) + [Some(x)] == [Some(x)];
        entries := entries + [Some(x)];
        numberOfPresentEntries := 1;
        firstPacket := packetNumber;
        return true;
      }
      if pn <= LastPacket().value {
        return false;
      }
      var offset := pn - firstPacket.value;
      var holes := offset - |entries|;
      PresentOfPush(entries, holes, x);
      ItemsOfPush(entries, firstPacket.value, holes, x);
      if offset > |entries| {
        entries := entries + seq(holes, _ => None);
      } else {
        assert entries + seq(holes, _ => None) == entries;
      }
      numberOfPresentEntries := numberOfPresentEntries + 1;
      entries := entries + [Some(x)];
      ok := true;
    }

    method Remove(packetNumber: nat) returns (ok: bool)
      requires Valid()
      modifies this
      ensures Valid()
      ensures ok <==> packetNumber in old(View()).items
      ensures View() == if ok then Removed(old(View()), packetNumber) else old(View())
    {
      if GetEntry(Some(packetNumber)).None? {
        return false;
      }
      var k := packetNumber - firstPacket.value;
      ghost var all := Items(entries, firstPacket.value);
      PresentOfUpdate(entries, k, None);
      entries := entries[k := None];
      assert Items(entries, firstPacket.value) == all - {packetNumber};
      numberOfPresentEntries := numberOfPresentEntries - 1;
      if packetNumber == firstPacket.value {
        Cleanup();
      }
      ok := true;
    }

    method RemoveUpTo(packetNumber: nat)
      requires Valid()
      modifies this
      ensures Valid()
      ensures View() == RemovedUpTo(old(View()), packetNumber)
    {
      hide Items;
      hide Present;
      if entries == [] {
        return;
      }
      ghost var first, slots := firstPacket.value, entries;
      ghost var n := PopUpTo(packetNumber);
      ItemsUpTo(slots, first, n, packetNumber);
      Cleanup();
    }

    /** Pops the slots numbered below `packetNumber` and says how many there were. */
    method PopUpTo(packetNumber: nat) returns (ghost n: nat)
      requires numberOfPresentEntries == Present(entries) && firstPacket.Some?
      modifies this
      ensures n <= |old(entries)| && entries == old(entries)[n..] && firstPacket == Some(old(firstPacket.value) + n)
      ensures numberOfPresentEntries == Present(entries)
      ensures var first := old(firstPacket.value);
              first + n == packetNumber || (n == 0 && packetNumber <= first)
                  || (entries == [] && first + n <= packetNumber)
    {
      n := 0;
      while entries != [] && firstPacket.Some? && firstPacket.value < packetNumber
        invariant n <= |old(entries)| && entries == old(entries)[n..]
        invariant firstPacket == Some(old(firstPacket.value) + n)
        invariant firstPacket.value <= packetNumber || n == 0
        invariant numberOfPresentEntries == Present(entries)
        decreases |entries|
      {
        if entries[0].Some? {
          numberOfPresentEntries := numberOfPresentEntries - 1;
        }
        entries := entries[1..];
        firstPacket := Some(firstPacket.value + 1);
        n := n + 1;
      }
    }

    /** Drops the unoccupied slots at the front. */
    method Cleanup()
      requires numberOfPresentEntries == Present(entries) && firstPacket.Some?
      modifies this`entries, this`firstPacket
      ensures Valid()
      ensures View().items == Items(old(entries), old(firstPacket.value))
      ensures View().mark == if View().items == map[] then None else Some(old(firstPacket.value) + |old(entries)| - 1)
    {
      ghost var first, slots := firstPacket.value, entries;
      while entries != [] && entries[0].None?
        invariant firstPacket.Some? && first <= firstPacket.value
        invariant first + |slots| == firstPacket.value + |entries|
        invariant entries == slots[firstPacket.value - first..]
        invariant forall i :: 0 <= i < firstPacket.value - first ==> slots[i].None?
        invariant numberOfPresentEntries == Present(entries)
        decreases |entries|
      {
        entries := entries[1..];
        firstPacket := Some(firstPacket.value + 1);
      }
      ItemsOfSuffix(slots, first, firstPacket.value - first);
      assert Items(entries, firstPacket.value) == Items(slots, first);
      if entries == [] {
        firstPacket := None;
      }
    }
  }
}
