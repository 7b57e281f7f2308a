/** The dual-tier depth-state storage (src/dualBox.h instantiated for
    yajlGenStateStatus): indices below LOCAL_SIZE live in the inline array
    `local`, higher ones in the growable tail `overflow`. */
module DualBox {
  import opened GenTypes
  import Memory

  /** The size growth asks for when index `n` of the tail must exist.
      datakit's fibbufNextSizeBuffer is not part of this model; this stand-in
      returns the smallest Fibonacci number above n, and only `r > n` is used. */
  function NextSize(n: nat): (r: nat)
    ensures r > n
  {
    FibAbove(1, 1, n)
  }

  /** The first term above n of the Fibonacci-like sequence continuing a, b. */
  function FibAbove(a: nat, b: nat, n: nat): (r: nat)
    requires 1 <= a <= b
    ensures r > n && r >= b
    decreases n + 1 - b
  {
    if b > n then b else FibAbove(b, a + b, n)
  }

  /** An address as yajlDualStorageGetPtr computes it: an array and an index into it. */
  type Address = (array<State>, nat)

  class DualStorage {
    /** The inline slots, part of the struct itself. */
    const local: array<State>
    /** The C member `allocated`, the overflow tail; NULL until an index past the inline slots is grown. */
    var overflow: array?<State>
    /** Entries appended with Append. */
    var count: nat
    /** Length of the overflow tail. */
    var totalCountOfAllocated: nat
    /** Every addressable slot: inline, then tail. */
    ghost var slots: seq<State>

    ghost predicate Valid()
      reads this, local, overflow
    {
      && local.Length == LOCAL_SIZE
      && (overflow == null ==> totalCountOfAllocated == 0 && slots == local[..])
      && (overflow != null ==> overflow.Length == totalCountOfAllocated && overflow != local
                               && slots == local[..] + overflow[..])
      && |slots| == LOCAL_SIZE + totalCountOfAllocated
      && count <= LOCAL_SIZE + totalCountOfAllocated
    }

    /** How many indices are addressable: the inline slots plus the tail. */
    function Capacity(): nat
      reads this
    {
      LOCAL_SIZE + totalCountOfAllocated
    }

    /** The logical sequence of every addressable slot: inline, then tail. */
    ghost function Slots(): seq<State>
      reads this
    {
      slots
    }

    /** The entries appended so far. */
    ghost function Contents(): seq<State>
      reads this, local, overflow
      requires Valid()
    {
      slots[..count]
    }

    /** The zeroed struct: no tail, no entries, every inline slot Start. */
    constructor ()
      ensures Valid() && fresh(local)
      ensures overflow == null && count == 0 && totalCountOfAllocated == 0
      ensures Slots() == seq(LOCAL_SIZE, _ => ZERO_STATE)
    {
      var inline := new State[LOCAL_SIZE](_ => ZERO_STATE);
      local := inline;
      overflow := null;
      count := 0;
      totalCountOfAllocated := 0;
      slots := inline[..];
    }

    /** yajlDualStorageLocalSize: the element count of the inline array. */
    function LocalSize(): (n: nat)
      reads this, local, overflow
      requires Valid()
      ensures n == LOCAL_SIZE
    {
      local.Length
    }

    /** yajlDualStorageGet: entry i of the logical sequence. */
    function Get(i: nat): (r: State)
      reads this, local, overflow
      requires Valid() && i < Capacity()
      ensures r == Slots()[i]
    {
      if i < LocalSize() then local[i] else overflow[i - LocalSize()]
    }

    /** yajlDualStorageGetPtr: the address of entry i, which holds what Get(i) reads. */
    function GetPtr(i: nat): (p: Address)
      reads this, local, overflow
      requires Valid() && i < Capacity()
      ensures p.0 == local || p.0 == overflow
      ensures p.1 < p.0.Length && p.0[p.1] == Get(i)
      ensures i < LOCAL_SIZE <==> p.0 == local
    {
      if i < LocalSize() then (local, i) else (overflow, i - LocalSize())
    }

    /** `*yajlDualStorageGetPtr(storage, i) = v`: writing through the address
        updates entry i of the logical sequence and nothing else. */
    method Put(i: nat, v: State)
      requires Valid() && i < Capacity()
      modifies this, local, overflow
      ensures Valid()
      ensures Slots() == old(Slots())[i := v]
      ensures overflow == old(overflow) && count == old(count)
      ensures totalCountOfAllocated == old(totalCountOfAllocated)
    {
      var p := GetPtr(i);
      p.0[p.1] := v;
      slots := slots[i := v];
      if i < LOCAL_SIZE {
        assert local[..] == old(local[..])[i := v];
      } else {
        assert overflow[..] == old(overflow[..])[i - LOCAL_SIZE := v];
      }
    }

    /** yajlDualStorageGrow: make index `newHighestExtent` addressable. The tail
        is reallocated only when the index reaches past it; nothing addressable
        before is lost and the capacity never shrinks. */
    method Grow(newHighestExtent: nat)
      requires Valid()
      modifies this
      ensures Valid()
      ensures newHighestExtent < Capacity()
      ensures count == old(count)
      ensures Capacity() >= old(Capacity())
      ensures newHighestExtent < old(Capacity()) ==>
        overflow == old(overflow) && totalCountOfAllocated == old(totalCountOfAllocated)
      ensures newHighestExtent >= old(Capacity()) ==>
        fresh(overflow) && totalCountOfAllocated == NextSize(newHighestExtent - LOCAL_SIZE)
      ensures Slots()[..old(Capacity())] == old(Slots())
    {
      if newHighestExtent >= LocalSize() {
        var allocateHigh := newHighestExtent - LocalSize();
        var allocatedCount := totalCountOfAllocated;
        if allocateHigh >= allocatedCount {
          var growCount := NextSize(allocateHigh);
          ghost var tail := if overflow == null then [] else overflow[..];
          overflow := Memory.Realloc(overflow, growCount);
          totalCountOfAllocated := growCount;
          slots := local[..] + overflow[..];
          assert overflow[..allocatedCount] == tail;
          assert Slots()[..old(Capacity())] == local[..] + overflow[..allocatedCount];
        }
      }
    }

    /** yajlDualStorageAppend: store `what` at index count, bump count, and
        return the address written. Earlier entries are unchanged. */
    method Append(what: State) returns (wrote: Address)
      requires Valid()
      modifies this, local, overflow
      ensures Valid()
      ensures count == old(count) + 1
      ensures Contents() == old(Contents()) + [what]
      ensures Capacity() >= old(Capacity())
      ensures wrote == GetPtr(old(count))
    {
      var c := count;
      ghost var before := Contents();
      if c < LocalSize() {
        local[c] := what;
        wrote := (local, c);
        count := count + 1;
        slots := slots[c := what];
        assert local[..] == old(local[..])[c := what];
      } else {
        wrote := AppendToTail(what);
      }
    }

    /** The branch of yajlDualStorageAppend for a full inline array: grow to
        count + 1, then write the tail entry count - LOCAL_SIZE. */
    method AppendToTail(what: State) returns (wrote: Address)
      requires Valid() && count >= LOCAL_SIZE
      modifies this, overflow
      ensures Valid()
      ensures count == old(count) + 1
      ensures Contents() == old(Contents()) + [what]
      ensures Capacity() >= old(Capacity())
      ensures wrote == GetPtr(old(count))
    {
      var c := count;
      ghost var before := Contents();
      Grow(c + 1);
      ghost var grown := Slots();
      ghost var tail := overflow[..];
      assert grown[..c] == before;
      var index := c - LocalSize();
      overflow[index] := what;
      count := count + 1;
      wrote := (overflow, index);
      slots := slots[c := what];
      assert overflow[..] == tail[c - LOCAL_SIZE := what];
    }

    /** yajlDualStorageMinimize: shrink the tail to exactly the appended
        entries. With a tail, the entries past the inline slots must be there
        (count - LOCAL_SIZE would wrap otherwise). */
    method Minimize()
      requires Valid()
      requires overflow != null ==> count >= LOCAL_SIZE
      modifies this
      ensures Valid()
      ensures count == old(count) && Contents() == old(Contents())
      ensures old(overflow) == null ==> overflow == null && totalCountOfAllocated == 0
      ensures old(overflow) != null ==> fresh(overflow) && Capacity() == count
    {
      if overflow != null {
        ghost var before := Contents();
        totalCountOfAllocated := count - LocalSize();
        ghost var tail := overflow[..];
        overflow := Memory.Realloc(overflow, totalCountOfAllocated);
        slots := local[..] + overflow[..];
        assert overflow[..] == tail[..totalCountOfAllocated];
        assert Contents() == before;
      }
    }

    /** yajlDualStorageReset: free the tail and zero the whole struct. */
    method Reset()
      requires Valid()
      modifies this, local
      ensures Valid()
      ensures overflow == null && count == 0 && totalCountOfAllocated == 0
      ensures Slots() == seq(LOCAL_SIZE, _ => ZERO_STATE)
    {
      overflow := null;
      count := 0;
      totalCountOfAllocated := 0;
      forall j | 0 <= j < local.Length {
        local[j] := ZERO_STATE;
      }
      slots := local[..];
    }

    /** yajlDualStorageGetPtrAllocate: the address of entry i, growing the tail
        only when i lies past it. */
    method GetPtrAllocate(i: nat) returns (p: Address)
      requires Valid()
      modifies this
      ensures Valid() && i < Capacity()
      ensures p == GetPtr(i)
      ensures count == old(count)
      ensures i < old(Capacity()) ==>
        overflow == old(overflow) && totalCountOfAllocated == old(totalCountOfAllocated)
      ensures Slots()[..old(Capacity())] == old(Slots())
    {
      if i < LocalSize() {
        p := (local, i);
      } else if i < LocalSize() + totalCountOfAllocated {
        p := (overflow, i - LocalSize());
      } else {
        Grow(i + 1);
        p := GetPtr(i);
      }
    }
  }
}
