// The bookkeeping of the old JIT's code emitter (CodeEmitter): the global
// address map, basic-block and jump-table addresses, the constant-pool
// size, the stub-buffer save/restore, and the memoised external-function
// stubs.  Addresses are machine addresses (`nat`, 0 is NULL); code-region
// offsets handed out by the memory manager become addresses by adding the
// region base.

module CodeEmitter {
  import opened Common
  import CodeMemory

  /** The code region's base address (the first context slot). */
  const CodeBase: nat := 0x7e00_0000

  /** Identity of an `llvm::GlobalValue`. */
  type GVId = nat

  // ---------------------------------------------------------------------
  // Global address map

  /** The map after `UpdateGlobalMapping(gv, addr)`: a NULL address erases
    * the entry, any other address installs it. */
  function MappingAfter(m: map<GVId, nat>, gv: GVId, addr: nat): (r: map<GVId, nat>)
    ensures gv in r <==> addr != 0
    ensures addr != 0 ==> r[gv] == addr
    ensures forall g :: g != gv ==> (g in r <==> g in m)
    ensures forall g :: g != gv && g in m ==> r[g] == m[g]
  {
    if addr == 0 then m - {gv} else m[gv := addr]
  }

  /** The value `UpdateGlobalMapping` returns: the previous address, or NULL
    * when there was none. */
  function PreviousMapping(m: map<GVId, nat>, gv: GVId): nat
  {
    if gv in m then m[gv] else 0
  }

  /** Installing an address and then removing it gives that address back and
    * leaves the map as it was without the entry. */
  lemma MappingRoundTrip(m: map<GVId, nat>, gv: GVId, addr: nat)
    requires addr != 0
    ensures PreviousMapping(MappingAfter(m, gv, addr), gv) == addr
    ensures MappingAfter(MappingAfter(m, gv, addr), gv, 0) == m - {gv}
  {
  }

  // ---------------------------------------------------------------------
  // Constant pool

  /** A constant-pool entry: its alignment (at least 1, as LLVM guarantees)
    * and its allocation size in bytes. */
  datatype PoolEntry = PoolEntry(align: nat, allocSize: nat)

  predicate AlignsPositive(cs: seq<PoolEntry>)
  {
    forall i :: 0 <= i < |cs| ==> cs[i].align >= 1
  }

  /** The pool size: the running size is aligned up to each entry's
    * alignment before that entry's size is added. */
  function PoolSize(cs: seq<PoolEntry>): (r: nat)
    requires AlignsPositive(cs)
  {
    if cs == [] then 0
    else
      var last := cs[|cs| - 1];
      AlignUp(PoolSize(cs[..|cs| - 1]), last.align) + last.allocSize
  }

  function SumSizes(cs: seq<PoolEntry>): nat
  {
    if cs == [] then 0 else SumSizes(cs[..|cs| - 1]) + cs[|cs| - 1].allocSize
  }

  function SumPadding(cs: seq<PoolEntry>): int
  {
    if cs == [] then 0 else SumPadding(cs[..|cs| - 1]) + cs[|cs| - 1].align - 1
  }

  /** The pool holds every entry, and the padding never exceeds one
    * alignment unit per entry. */
  lemma {:induction false} PoolSizeBounds(cs: seq<PoolEntry>)
    requires AlignsPositive(cs)
    ensures SumSizes(cs) <= PoolSize(cs) <= SumSizes(cs) + SumPadding(cs)
  {
    if cs != [] {
      PoolSizeBounds(cs[..|cs| - 1]);
    }
  }

  /** Adding an entry never shrinks the pool, and the new entry starts at an
    * offset aligned to its alignment. */
  lemma PoolEntryPlacement(cs: seq<PoolEntry>)
    requires AlignsPositive(cs) && cs != []
    ensures var start := PoolSize(cs) - cs[|cs| - 1].allocSize;
      && start % cs[|cs| - 1].align == 0
      && PoolSize(cs[..|cs| - 1]) <= start
  {
  }

  /** `GetConstantPoolSizeInBytes`. */
  method GetConstantPoolSizeInBytes(cs: seq<PoolEntry>) returns (size: nat)
    requires AlignsPositive(cs)
    ensures size == PoolSize(cs)
    ensures cs == [] ==> size == 0
  {
    if |cs| == 0 {
      return 0;
    }
    size := 0;
    var i := 0;
    while i != |cs|
      invariant 0 <= i <= |cs|
      invariant size == PoolSize(cs[..i])
    {
      assert cs[..i + 1][..i] == cs[..i];
      size := AlignUp(size, cs[i].align) + cs[i].allocSize;
      i := i + 1;
    }
    assert cs[..|cs|] == cs;
  }

  // ---------------------------------------------------------------------
  // Jump tables

  /** Number of basic blocks in the jump tables before `index`. */
  function EntriesBefore(counts: seq<nat>, index: nat): nat
    requires index <= |counts|
  {
    if index == 0 then 0 else EntriesBefore(counts, index - 1) + counts[index - 1]
  }

  /** Consecutive jump tables are laid out back to back. */
  lemma JumpTablesAdjacent(counts: seq<nat>, index: nat)
    requires index < |counts|
    ensures EntriesBefore(counts, index + 1) == EntriesBefore(counts, index) + counts[index]
  {
  }

  /** Jump-table addresses never decrease with the index. */
  lemma {:induction false} EntriesBeforeMonotone(counts: seq<nat>, i: nat, j: nat)
    requires i <= j <= |counts|
    ensures EntriesBefore(counts, i) <= EntriesBefore(counts, j)
    decreases j
  {
    if i < j {
      EntriesBeforeMonotone(counts, i, j - 1);
    }
  }

  /** `getJumpTableEntryAddress`: `counts[i]` is the number of basic blocks
    * of jump table i. */
  method GetJumpTableEntryAddress(jumpTableBase: nat, entrySize: nat, counts: seq<nat>, index: nat)
    returns (addr: nat)
    requires index < |counts|
    ensures addr == jumpTableBase + entrySize * EntriesBefore(counts, index)
  {
    var offset := 0;
    var i := 0;
    while i < index
      invariant 0 <= i <= index
      invariant offset == EntriesBefore(counts, i)
    {
      offset := offset + counts[i];
      i := i + 1;
    }
    offset := offset * entrySize;
    addr := jumpTableBase + offset;
  }

  // ---------------------------------------------------------------------
  // The emitter's mutable state

  class Emitter {
    var globalAddressMap: map<GVId, nat>
    /** `mMBBLocations`, indexed by basic-block number. */
    var mbbLocations: seq<nat>
    var labelLocations: map<nat, nat>
    var functionToLazyStubMap: map<nat, nat>
    var globalToIndirectSymMap: map<nat, nat>
    var externalFnToStubMap: map<nat, nat>
    var pendingFunctions: set<nat>

    /** The output buffer triple and the copy saved by `startGVStub`. */
    var bufferBegin: nat
    var bufferEnd: nat
    var curBufferPtr: nat
    var savedBufferBegin: nat
    var savedBufferEnd: nat
    var savedCurBufferPtr: nat

    /** Pointers the emitter holds (NULL is 0). */
    var result: nat
    var symbolLookupFn: nat
    var symbolLookupContext: nat
    var targetJITInfo: nat
    var targetData: nat

    const memMgr: CodeMemory.CodeMemoryManager

    ghost predicate Valid()
      reads this, memMgr
    {
      memMgr.Valid()
    }

    constructor (mgr: CodeMemory.CodeMemoryManager)
      requires mgr.Valid()
      ensures Valid() && memMgr == mgr
      ensures globalAddressMap == map[] && mbbLocations == []
    {
      memMgr := mgr;
      globalAddressMap := map[];
      mbbLocations := [];
      labelLocations := map[];
      functionToLazyStubMap := map[];
      globalToIndirectSymMap := map[];
      externalFnToStubMap := map[];
      pendingFunctions := {};
      bufferBegin, bufferEnd, curBufferPtr := 0, 0, 0;
      savedBufferBegin, savedBufferEnd, savedCurBufferPtr := 0, 0, 0;
      result, symbolLookupFn, symbolLookupContext := 0, 0, 0;
      targetJITInfo, targetData := 0, 0;
    }

    /** `UpdateGlobalMapping`: set-or-erase returning the previous value. */
    method UpdateGlobalMapping(gv: GVId, addr: nat) returns (oldVal: nat)
      modifies this
      ensures oldVal == PreviousMapping(old(globalAddressMap), gv)
      ensures globalAddressMap == MappingAfter(old(globalAddressMap), gv, addr)
      ensures mbbLocations == old(mbbLocations)
      ensures externalFnToStubMap == old(externalFnToStubMap)
    {
      if addr == 0 {
        if gv !in globalAddressMap {
          oldVal := 0;
        } else {
          oldVal := globalAddressMap[gv];
          globalAddressMap := globalAddressMap - {gv};
        }
        return;
      }
      // `operator[]` default-inserts NULL before the value is read
      var curVal := if gv in globalAddressMap then globalAddressMap[gv] else 0;
      oldVal := curVal;
      globalAddressMap := globalAddressMap[gv := addr];
    }

    /** `StartMachineBasicBlock`: grows the location vector to twice the
      * needed length when block `n` does not fit, then records the PC. */
    method StartMachineBasicBlock(n: nat, pc: nat)
      modifies this
      ensures |mbbLocations| > n
      ensures mbbLocations[n] == pc
      ensures |old(mbbLocations)| <= n ==> |mbbLocations| == (n + 1) * 2
      ensures |old(mbbLocations)| > n ==> |mbbLocations| == |old(mbbLocations)|
      ensures forall j :: 0 <= j < |old(mbbLocations)| && j != n ==>
        mbbLocations[j] == old(mbbLocations)[j]
      ensures forall j :: |old(mbbLocations)| <= j < |mbbLocations| && j != n ==>
        mbbLocations[j] == 0
      ensures globalAddressMap == old(globalAddressMap)
    {
      if |mbbLocations| <= n {
        var grown := seq((n + 1) * 2 - |mbbLocations|, _ => 0);
        mbbLocations := mbbLocations + grown;
      }
      mbbLocations := mbbLocations[n := pc];
    }

    /** `startGVStub(Buffer, StubSize)`: saves the buffer triple and points
      * the buffer at the stub; the end is one past `StubSize`. */
    method StartGVStubAt(buffer: nat, stubSize: nat)
      modifies this
      ensures savedBufferBegin == old(bufferBegin)
      ensures savedBufferEnd == old(bufferEnd)
      ensures savedCurBufferPtr == old(curBufferPtr)
      ensures bufferBegin == buffer && curBufferPtr == buffer
      ensures bufferEnd == buffer + stubSize + 1
      ensures globalAddressMap == old(globalAddressMap)
      ensures externalFnToStubMap == old(externalFnToStubMap)
      ensures mbbLocations == old(mbbLocations)
    {
      savedBufferBegin := bufferBegin;
      savedBufferEnd := bufferEnd;
      savedCurBufferPtr := curBufferPtr;
      bufferBegin := buffer;
      curBufferPtr := buffer;
      bufferEnd := bufferBegin + stubSize + 1;
    }

    /** `startGVStub(GV, StubSize, Alignment)`: the stub comes from the memory
      * manager's stub area (NULL if it is full). */
    method StartGVStub(gv: GVId, stubSize: nat, alignment: nat)
      requires Valid()
      modifies this, memMgr
      ensures Valid()
      ensures savedBufferBegin == old(bufferBegin)
      ensures savedBufferEnd == old(bufferEnd)
      ensures savedCurBufferPtr == old(curBufferPtr)
      ensures bufferBegin == curBufferPtr
      ensures bufferEnd == bufferBegin + stubSize + 1
      ensures bufferBegin != 0 ==>
        old(memMgr.funcIdx) <= bufferBegin - CodeBase
        && bufferBegin - CodeBase + stubSize <= old(memMgr.sgIdx)
      ensures globalAddressMap == old(globalAddressMap)
      ensures externalFnToStubMap == old(externalFnToStubMap)
      ensures mbbLocations == old(mbbLocations)
    {
      var stub := memMgr.AllocateStub(gv, stubSize, alignment);
      var addr := if stub.Some? then CodeBase + stub.value else 0;
      StartGVStubAt(addr, stubSize);
    }

    /** `finishGVStub`: restores the saved buffer triple.  The source asserts
      * that the stub did not run into the buffer end. */
    method FinishGVStub()
      requires curBufferPtr != bufferEnd
      modifies this
      ensures bufferBegin == old(savedBufferBegin)
      ensures bufferEnd == old(savedBufferEnd)
      ensures curBufferPtr == old(savedCurBufferPtr)
      ensures savedBufferBegin == old(savedBufferBegin)
      ensures savedBufferEnd == old(savedBufferEnd)
      ensures savedCurBufferPtr == old(savedCurBufferPtr)
      ensures globalAddressMap == old(globalAddressMap)
      ensures externalFnToStubMap == old(externalFnToStubMap)
      ensures mbbLocations == old(mbbLocations)
    {
      bufferBegin := savedBufferBegin;
      bufferEnd := savedBufferEnd;
      curBufferPtr := savedCurBufferPtr;
    }

    /** `GetExternalFunctionStub`: memoised per function address.  Emitting a
      * stub is target code; `emitted` is the address it returns and
      * `written` the number of bytes it writes (at most the stub size). */
    method GetExternalFunctionStub(fnAddr: nat, stubSize: nat, stubAlign: nat, emitted: nat, written: nat)
      returns (stub: nat)
      requires Valid()
      requires written <= stubSize
      modifies this, memMgr
      ensures Valid()
      ensures fnAddr in old(externalFnToStubMap) && old(externalFnToStubMap)[fnAddr] != 0 ==>
        stub == old(externalFnToStubMap)[fnAddr]
        && externalFnToStubMap == old(externalFnToStubMap)
        && bufferBegin == old(bufferBegin) && bufferEnd == old(bufferEnd)
        && curBufferPtr == old(curBufferPtr)
      ensures !(fnAddr in old(externalFnToStubMap) && old(externalFnToStubMap)[fnAddr] != 0) ==>
        stub == emitted && externalFnToStubMap == old(externalFnToStubMap)[fnAddr := emitted]
      ensures bufferBegin == old(bufferBegin) && bufferEnd == old(bufferEnd)
      ensures curBufferPtr == old(curBufferPtr)
      ensures globalAddressMap == old(globalAddressMap)
    {
      // `operator[]` default-inserts NULL
      var cur := if fnAddr in externalFnToStubMap then externalFnToStubMap[fnAddr] else 0;
      if cur != 0 {
        return cur;
      }
      externalFnToStubMap := externalFnToStubMap[fnAddr := 0];
      StartGVStub(0, stubSize, stubAlign);
      curBufferPtr := bufferBegin + written;
      stub := emitted;
      externalFnToStubMap := externalFnToStubMap[fnAddr := stub];
      FinishGVStub();
    }

    /** `releaseUnnecessary`: drops every compile-time map. */
    method ReleaseUnnecessary()
      modifies this
      ensures mbbLocations == [] && labelLocations == map[]
      ensures globalAddressMap == map[] && functionToLazyStubMap == map[]
      ensures globalToIndirectSymMap == map[] && externalFnToStubMap == map[]
      ensures pendingFunctions == {}
      ensures result == old(result) && targetData == old(targetData)
    {
      mbbLocations := [];
      labelLocations := map[];
      globalAddressMap := map[];
      functionToLazyStubMap := map[];
      globalToIndirectSymMap := map[];
      externalFnToStubMap := map[];
      pendingFunctions := {};
    }

    /** `reset`: releases the maps, drops the result, callbacks and target
      * objects, and resets the memory manager. */
    method Reset()
      requires Valid()
      modifies this, memMgr
      ensures Valid() && memMgr.IsReset()
      ensures mbbLocations == [] && labelLocations == map[]
      ensures globalAddressMap == map[] && functionToLazyStubMap == map[]
      ensures globalToIndirectSymMap == map[] && externalFnToStubMap == map[]
      ensures pendingFunctions == {}
      ensures result == 0 && symbolLookupFn == 0 && symbolLookupContext == 0
      ensures targetJITInfo == 0 && targetData == 0
    {
      ReleaseUnnecessary();
      result := 0;
      symbolLookupFn := 0;
      symbolLookupContext := 0;
      targetJITInfo := 0;
      targetData := 0;
      memMgr.Reset();
    }
  }
}
