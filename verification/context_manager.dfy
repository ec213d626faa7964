// The context slot table.  A context is a 256 KiB block (code then data)
// that the JIT and the cache loader place at one of eight fixed slot
// addresses, so that cached code can be reloaded at the address it was
// compiled for.  Two generations of the allocator exist: a `ContextManager`
// object with an occupancy array, and free functions over a global
// `ContextSlotTaken` array that reserve a slot before trying to map it.
// Results of `mmap` and `munmap` are inputs: the kernel decides them.

module ContextManager {
  import opened Common

  const ContextFixedAddr: nat := 0x7e00_0000
  const ContextSlotCount: nat := 8
  const ContextCodeSize: nat := 128 * 1024
  const ContextDataSize: nat := 128 * 1024
  const ContextSize: nat := ContextCodeSize + ContextDataSize
  const PageSize: nat := 4096

  /** What one `mmap` call returned. */
  datatype MmapOutcome = MapFailed | Mapped(addr: nat)

  /** `result && result != MAP_FAILED`. */
  predicate Succeeded(o: MmapOutcome)
  {
    o.Mapped? && o.addr != 0
  }

  /** Address of slot `k`. */
  function SlotAddress(k: nat): nat
  {
    ContextFixedAddr + ContextSize * k
  }

  /** `getSlotIndexFromAddress`: the slot whose address is `addr`, or -1.
    * The same test guards the slot arithmetic of the free-function
    * allocator. */
  function SlotIndexFromAddress(addr: nat): (r: int)
    ensures -1 <= r < ContextSlotCount as int
    ensures r >= 0 ==> addr == SlotAddress(r)
    ensures r == -1 ==> forall k :: 0 <= k < ContextSlotCount ==> addr != SlotAddress(k)
  {
    if addr >= ContextFixedAddr then
      var offset := addr - ContextFixedAddr;
      if offset % ContextSize == 0 then
        var slot := offset / ContextSize;
        if slot < ContextSlotCount then slot else -1
      else -1
    else -1
  }

  /** Each slot address maps back to its own slot. */
  lemma SlotIndexOfSlotAddress(k: nat)
    requires k < ContextSlotCount
    ensures SlotIndexFromAddress(SlotAddress(k)) == k
  {
    var r := SlotIndexFromAddress(SlotAddress(k));
    assert r != -1;
  }

  /** `imageOffset % pagesize > 0`: `off_t` is converted to `unsigned long`,
    * and since 2^64 is a multiple of the page size, the remainder equals
    * the non-negative (Euclidean) remainder of the signed offset. */
  predicate PageAligned(off: int)
  {
    off % PageSize == 0
  }

  /** The lowest free slot whose fixed-address `mmap` returned exactly the
    * slot address, searching from slot `i`. */
  function FirstExactSlotFrom(occ: seq<bool>, attempts: seq<MmapOutcome>, i: nat): (r: Option<nat>)
    requires |occ| == |attempts| && i <= |occ|
    ensures r.Some? ==>
      i <= r.value < |occ| && !occ[r.value]
      && attempts[r.value] == Mapped(SlotAddress(r.value))
    ensures r.Some? ==> forall j :: i <= j < r.value ==>
      occ[j] || attempts[j] != Mapped(SlotAddress(j))
    ensures r.None? ==> forall j :: i <= j < |occ| ==>
      occ[j] || attempts[j] != Mapped(SlotAddress(j))
    decreases |occ| - i
  {
    if i == |occ| then None
    else if !occ[i] && attempts[i] == Mapped(SlotAddress(i)) then Some(i)
    else FirstExactSlotFrom(occ, attempts, i + 1)
  }

  /** The manager object with its occupancy array. */
  class Manager {
    const occupied: array<bool>

    ghost predicate Valid()
    {
      occupied.Length == ContextSlotCount
    }

    /** Every slot starts unoccupied. */
    constructor ()
      ensures Valid() && fresh(occupied)
      ensures forall k :: 0 <= k < ContextSlotCount ==> !occupied[k]
    {
      var occ := new bool[ContextSlotCount];
      var i := 0;
      while i < ContextSlotCount
        invariant 0 <= i <= ContextSlotCount
        invariant forall k :: 0 <= k < i ==> !occ[k]
      {
        occ[i] := false;
        i := i + 1;
      }
      occupied := occ;
    }

    /** `allocateContext()`: `attempts[i]` is what mapping slot i would
      * return and `fallback` what the arbitrary-address mapping returns.
      * A slot is marked only when the kernel placed the context exactly at
      * it; the fallback marks nothing.  A result at a wrong address is
      * unmapped again (the `munmap` result is not checked). */
    method AllocateContext(attempts: seq<MmapOutcome>, fallback: MmapOutcome) returns (r: nat)
      requires Valid() && |attempts| == ContextSlotCount
      modifies occupied
      ensures var first := FirstExactSlotFrom(old(occupied[..]), attempts, 0);
        && (first.Some? ==>
              r == SlotAddress(first.value)
              && occupied[..] == old(occupied[..])[first.value := true])
        && (first.None? ==>
              occupied[..] == old(occupied[..])
              && r == (if Succeeded(fallback) then fallback.addr else 0))
    {
      var i := 0;
      while i < ContextSlotCount
        invariant 0 <= i <= ContextSlotCount
        invariant occupied[..] == old(occupied[..])
        invariant FirstExactSlotFrom(occupied[..], attempts, 0)
          == FirstExactSlotFrom(occupied[..], attempts, i)
      {
        if occupied[i] {
          i := i + 1;
          continue;
        }
        var addr := SlotAddress(i);
        var result := attempts[i];
        if result == Mapped(addr) {
          occupied[i] := true;
          return addr;
        }
        // a mapping elsewhere is given back with munmap
        i := i + 1;
      }
      if !Succeeded(fallback) {
        return 0;
      }
      return fallback.addr;
    }

    /** `allocateContext(addr, imageFd, imageOffset)`: maps a cache image at
      * a slot address.  Every rejection leaves the table unchanged; the
      * slot is marked only when the image landed exactly at `addr`. */
    method AllocateContextAt(addr: nat, imageFd: int, imageOffset: int, outcome: MmapOutcome)
      returns (r: nat)
      requires Valid()
      modifies occupied
      ensures r != 0 <==>
        && imageFd >= 0 && PageAligned(imageOffset)
        && SlotIndexFromAddress(addr) >= 0
        && !old(occupied[SlotIndexFromAddress(addr)])
        && Succeeded(outcome) && outcome.addr == addr
      ensures r != 0 ==>
        r == addr
        && occupied[..] == old(occupied[..])[SlotIndexFromAddress(addr) := true]
      ensures r == 0 ==> occupied[..] == old(occupied[..])
    {
      if imageFd < 0 {
        return 0;
      }
      if imageOffset % PageSize > 0 {
        return 0;
      }
      var slot := SlotIndexFromAddress(addr);
      if slot < 0 {
        return 0;
      }
      if occupied[slot] {
        return 0;
      }
      if !Succeeded(outcome) {
        return 0;
      }
      if outcome.addr != addr {
        // munmap(result) and fail
        return 0;
      }
      occupied[slot] := true;
      return outcome.addr;
    }

    /** `deallocateContext`: NULL is ignored; a failed `munmap` changes
      * nothing; otherwise a slot address gives its slot back. */
    method DeallocateContext(addr: nat, munmapOk: bool)
      requires Valid()
      modifies occupied
      ensures addr == 0 || !munmapOk || SlotIndexFromAddress(addr) < 0 ==>
        occupied[..] == old(occupied[..])
      ensures addr != 0 && munmapOk && SlotIndexFromAddress(addr) >= 0 ==>
        occupied[..] == old(occupied[..])[SlotIndexFromAddress(addr) := false]
    {
      if addr == 0 {
        return;
      }
      if !munmapOk {
        return;
      }
      var slot := SlotIndexFromAddress(addr);
      if slot >= 0 {
        occupied[slot] := false;
      }
    }

    /** `isManagingContext`. */
    function IsManagingContext(addr: nat): (r: bool)
      reads occupied
      requires Valid()
      ensures r <==> exists k :: 0 <= k < ContextSlotCount && addr == SlotAddress(k) && occupied[k]
    {
      var slot := SlotIndexFromAddress(addr);
      if slot < 0 then false
      else
        SlotIndexOfSlotAddress(slot);
        occupied[slot]
    }
  }

  /** Allocation through the manager is undone by deallocation: the slot the
    * image was mapped at is managed afterwards and free again after a
    * successful unmap. */
  method AllocateThenDeallocate(m: Manager, k: nat, fd: int)
    requires m.Valid() && k < ContextSlotCount && fd >= 0 && !m.occupied[k]
    modifies m.occupied
    ensures m.occupied[..] == old(m.occupied[..])
  {
    SlotIndexOfSlotAddress(k);
    var addr := m.AllocateContextAt(SlotAddress(k), fd, 0, Mapped(SlotAddress(k)));
    assert addr == SlotAddress(k);
    assert m.IsManagingContext(addr);
    m.DeallocateContext(addr, true);
    assert m.occupied[..] == old(m.occupied[..]);
  }

  // ---------------------------------------------------------------------
  // The free-function allocator over the global `ContextSlotTaken` table.

  /** The lowest free slot whose fixed mapping succeeded, from slot `i`. */
  function FirstMappedSlotFrom(taken: seq<bool>, attempts: seq<MmapOutcome>, i: nat): (r: Option<nat>)
    requires |taken| == |attempts| && i <= |taken|
    ensures r.Some? ==> i <= r.value < |taken| && !taken[r.value] && Succeeded(attempts[r.value])
    ensures r.Some? ==> forall j :: i <= j < r.value ==> taken[j] || !Succeeded(attempts[j])
    ensures r.None? ==> forall j :: i <= j < |taken| ==> taken[j] || !Succeeded(attempts[j])
    decreases |taken| - i
  {
    if i == |taken| then None
    else if !taken[i] && Succeeded(attempts[i]) then Some(i)
    else FirstMappedSlotFrom(taken, attempts, i + 1)
  }

  /** The table after the slot scan: every free slot tried is taken, i.e.
    * all slots up to the successful one, or all slots when none worked. */
  function TakenAfterScan(taken: seq<bool>, attempts: seq<MmapOutcome>): (r: seq<bool>)
    requires |taken| == |attempts|
    ensures |r| == |taken|
  {
    var first := FirstMappedSlotFrom(taken, attempts, 0);
    seq(|taken|, j requires 0 <= j < |taken| =>
      taken[j] || first.None? || j <= first.value)
  }

  class SlotTable {
    /** `ContextSlotTaken`. */
    const taken: array<bool>

    ghost predicate Valid()
    {
      taken.Length == ContextSlotCount
    }

    constructor ()
      ensures Valid() && fresh(taken)
      ensures forall k :: 0 <= k < ContextSlotCount ==> !taken[k]
    {
      taken := new bool[ContextSlotCount](_ => false);
    }

    /** `allocateContext()`: each free slot is taken before its `mmap` is
      * tried, so a slot whose mapping failed stays taken.  When no slot
      * works the context goes to an arbitrary address. */
    method AllocateContext(attempts: seq<MmapOutcome>, fallback: MmapOutcome) returns (r: nat)
      requires Valid() && |attempts| == ContextSlotCount
      modifies taken
      ensures taken[..] == TakenAfterScan(old(taken[..]), attempts)
      ensures var first := FirstMappedSlotFrom(old(taken[..]), attempts, 0);
        && (first.Some? ==> r == attempts[first.value].addr)
        && (first.None? ==> r == (if Succeeded(fallback) then fallback.addr else 0))
    {
      ghost var before := taken[..];
      var i := 0;
      while i < ContextSlotCount
        invariant 0 <= i <= ContextSlotCount
        invariant FirstMappedSlotFrom(before, attempts, 0) == FirstMappedSlotFrom(before, attempts, i)
        invariant forall j :: 0 <= j < i ==> taken[j]
        invariant forall j :: i <= j < ContextSlotCount ==> taken[j] == before[j]
      {
        if taken[i] {
          i := i + 1;
          continue;
        }
        taken[i] := true;
        var result := attempts[i];
        if Succeeded(result) {
          assert taken[..] == TakenAfterScan(before, attempts);
          return result.addr;
        }
        i := i + 1;
      }
      assert taken[..] == TakenAfterScan(before, attempts);
      if !Succeeded(fallback) {
        return 0;
      }
      return fallback.addr;
    }

    /** `allocateContext(addr, imageFd, imageOffset)`: after the argument
      * checks the slot is taken before the `mmap`, so it stays taken even
      * when the mapping fails and NULL is returned. */
    method AllocateContextAt(addr: nat, imageFd: int, imageOffset: int, outcome: MmapOutcome)
      returns (r: nat)
      requires Valid()
      modifies taken
      ensures var ok := imageFd >= 0 && PageAligned(imageOffset)
          && SlotIndexFromAddress(addr) >= 0
          && !old(taken[SlotIndexFromAddress(addr)]);
        && (ok ==> taken[..] == old(taken[..])[SlotIndexFromAddress(addr) := true]
                   && r == (if Succeeded(outcome) then outcome.addr else 0))
        && (!ok ==> taken[..] == old(taken[..]) && r == 0)
    {
      if imageFd < 0 {
        return 0;
      }
      if imageOffset % PageSize > 0 {
        return 0;
      }
      if addr < ContextFixedAddr {
        return 0;
      }
      var offset := addr - ContextFixedAddr;
      var slot := offset / ContextSize;
      if offset % ContextSize != 0 || slot >= ContextSlotCount {
        return 0;
      }
      if taken[slot] {
        return 0;
      }
      taken[slot] := true;
      r := if Succeeded(outcome) then outcome.addr else 0;
    }

    /** `deallocateContext`: frees the slot iff `addr` is exactly a slot
      * address and the unmap succeeded. */
    method DeallocateContext(addr: nat, munmapOk: bool)
      requires Valid()
      modifies taken
      ensures addr != 0 && munmapOk && SlotIndexFromAddress(addr) >= 0 ==>
        taken[..] == old(taken[..])[SlotIndexFromAddress(addr) := false]
      ensures !(addr != 0 && munmapOk && SlotIndexFromAddress(addr) >= 0) ==>
        taken[..] == old(taken[..])
    {
      if addr == 0 {
        return;
      }
      if !munmapOk {
        return;
      }
      if addr >= ContextFixedAddr {
        var offset := addr - ContextFixedAddr;
        var slot := offset / ContextSize;
        if offset % ContextSize == 0 && slot < ContextSlotCount {
          taken[slot] := false;
        }
      }
    }
  }

  /** In the free-function allocator a failed image mapping leaks its slot:
    * a second attempt at the same address is refused even though nothing
    * is mapped there. */
  method FailedMappingLeaksSlot(t: SlotTable, k: nat, fd: int)
    requires t.Valid() && k < ContextSlotCount && fd >= 0 && !t.taken[k]
    modifies t.taken
    ensures t.taken[k]
  {
    SlotIndexOfSlotAddress(k);
    var r1 := t.AllocateContextAt(SlotAddress(k), fd, 0, MapFailed);
    assert r1 == 0;
    var r2 := t.AllocateContextAt(SlotAddress(k), fd, 0, Mapped(SlotAddress(k)));
    assert r2 == 0;
  }
}
