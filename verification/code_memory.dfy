// The JIT code-memory allocator of the old JIT (CodeMemoryManager).
//
// One code region of MaxCodeSize bytes is filled from both ends: function
// bodies and constant/jump-table space grow upward from offset 0 (the
// function cursor), stubs and the global offset table grow downward from
// the tail (the stub/GOT cursor).  Global variables live in a separate bump
// region of MaxGlobalVarSize bytes.  Pointers are offsets from the
// page-aligned region base, so the alignment of a pointer is the alignment
// of its offset.

module CodeMemory {
  import opened Common

  const MaxCodeSize: int := 128 * 1024
  const MaxGOTSize: int := 1024
  const MaxGlobalVarSize: int := 128 * 1024

  /** Identity of an `llvm::Function`. */
  type FnId = nat

  /** A function body: `[start, end)` in code-region offsets. */
  datatype Span = Span(start: int, end: int)

  datatype FuncEntry = FuncEntry(fn: FnId, span: Span)

  /** The function map is a `std::map` keyed by function, so it is kept as a
    * sequence in ascending key order, which is its iteration order. */
  ghost predicate SortedByFn(es: seq<FuncEntry>)
  {
    forall i, j :: 0 <= i < j < |es| ==> es[i].fn < es[j].fn
  }

  /** The functions the map records. */
  function FnIds(es: seq<FuncEntry>): set<FnId>
  {
    set x | x in es :: x.fn
  }

  /** `std::map::insert` at the key's place in ascending order. */
  function InsertEntry(es: seq<FuncEntry>, e: FuncEntry): (r: seq<FuncEntry>)
    ensures |r| == |es| + 1
  {
    if es == [] || e.fn < es[0].fn then [e] + es
    else [es[0]] + InsertEntry(es[1..], e)
  }

  /** Inserting adds exactly the new entry. */
  lemma {:induction false} InsertEntryElements(es: seq<FuncEntry>, e: FuncEntry)
    ensures forall x :: x in InsertEntry(es, e) <==> x in es || x == e
  {
    if es != [] && e.fn >= es[0].fn {
      InsertEntryElements(es[1..], e);
      assert es == [es[0]] + es[1..];
    }
  }

  lemma SortedTail(es: seq<FuncEntry>)
    requires SortedByFn(es) && es != []
    ensures SortedByFn(es[1..])
    ensures forall x :: x in es[1..] ==> es[0].fn < x.fn
  {
    forall x | x in es[1..]
      ensures es[0].fn < x.fn
    {
      var k :| 0 <= k < |es[1..]| && es[1..][k] == x;
      assert es[k + 1] == x;
    }
  }

  lemma SortedCons(x: FuncEntry, es: seq<FuncEntry>)
    requires SortedByFn(es)
    requires forall y :: y in es ==> x.fn < y.fn
    ensures SortedByFn([x] + es)
  {
    var r := [x] + es;
    forall i, j | 0 <= i < j < |r|
      ensures r[i].fn < r[j].fn
    {
      assert r[j] == es[j - 1];
      assert r[j] in es;
      if i > 0 {
        assert r[i] == es[i - 1];
      }
    }
  }

  /** Inserting a key that is not yet present keeps the map order. */
  lemma {:induction false} InsertEntrySorted(es: seq<FuncEntry>, e: FuncEntry)
    requires SortedByFn(es) && e.fn !in FnIds(es)
    ensures SortedByFn(InsertEntry(es, e))
    ensures FnIds(InsertEntry(es, e)) == FnIds(es) + {e.fn}
  {
    InsertEntryElements(es, e);
    if es == [] || e.fn < es[0].fn {
      if es != [] {
        SortedTail(es);
        assert es == [es[0]] + es[1..];
      }
      SortedCons(e, es);
    } else {
      SortedTail(es);
      assert es[0] in es;
      assert e.fn !in FnIds(es[1..]) by {
        assert forall x :: x in es[1..] ==> x in es;
      }
      InsertEntrySorted(es[1..], e);
      InsertEntryElements(es[1..], e);
      SortedCons(es[0], InsertEntry(es[1..], e));
    }
  }

  /** The bytes after moving the `n` bytes at `src` down to `dst`: the bytes
    * before `dst`, the moved block, then the bytes from `dst + n` on. */
  function MovedDown<T>(s: seq<T>, dst: nat, src: nat, n: nat): (r: seq<T>)
    requires dst < src && src + n <= |s|
    ensures |r| == |s|
  {
    s[..dst] + s[src..src + n] + s[dst + n..]
  }

  /** A byte-by-byte description of the moved image. */
  lemma MovedDownElements<T>(before: seq<T>, after: seq<T>, dst: nat, src: nat, n: nat)
    requires dst < src && src + n <= |before| == |after|
    requires forall j | 0 <= j < dst :: after[j] == before[j]
    requires forall j | dst <= j < dst + n :: after[j] == before[j - dst + src]
    requires forall j | dst + n <= j < |after| :: after[j] == before[j]
    ensures after == MovedDown(before, dst, src, n)
  {
    var m := MovedDown(before, dst, src, n);
    forall j | 0 <= j < |after|
      ensures after[j] == m[j]
    {
      if j < dst {
        assert m[j] == before[j];
      } else if j < dst + n {
        assert m[j] == before[src..src + n][j - dst];
      } else {
        assert m[j] == before[dst + n..][j - dst - n];
      }
    }
  }

  /** Moving nothing leaves the bytes as they were. */
  lemma MovedDownNothing<T>(s: seq<T>, dst: nat, src: nat)
    requires dst < src <= |s|
    ensures MovedDown(s, dst, src, 0) == s
  {
    assert s[src..src] == [];
    assert s[..dst] + s[dst..] == s;
  }

  /** A recorded span found by its start lies inside the code region. */
  lemma RecordedSpanInRegion(es: seq<FuncEntry>, body: int)
    requires forall i :: 0 <= i < |es| ==> 0 <= es[i].span.start < es[i].span.end < MaxCodeSize
    requires FirstWithStart(es, body).Some?
    ensures var sp := FirstWithStart(es, body).value;
      0 <= sp.start < sp.end < MaxCodeSize
  {
    var i :| 0 <= i < |es| && es[i].span == FirstWithStart(es, body).value;
  }

  /** The first entry, in map order, whose body starts at `body`: the linear
    * search of `deallocateFunctionBody`. */
  function FirstWithStart(es: seq<FuncEntry>, body: int): (r: Option<Span>)
    ensures r.None? <==> forall i :: 0 <= i < |es| ==> es[i].span.start != body
    ensures r.Some? ==> r.value.start == body
    ensures r.Some? ==>
      exists i :: 0 <= i < |es| && es[i].span == r.value
        && (forall j :: 0 <= j < i ==> es[j].span.start != body)
  {
    if es == [] then None
    else if es[0].span.start == body then Some(es[0].span)
    else
      var r := FirstWithStart(es[1..], body);
      if r.Some? then
        assert exists i :: (0 <= i < |es| && es[i].span == r.value
          && (forall j :: 0 <= j < i ==> es[j].span.start != body)) by {
          var i :| 0 <= i < |es[1..]| && es[1..][i].span == r.value
            && (forall j :: 0 <= j < i ==> es[1..][j].span.start != body);
          assert es[i + 1].span == r.value;
          assert forall j :: 0 <= j < i + 1 ==> es[j].span.start != body by {
            forall j | 0 <= j < i + 1
              ensures es[j].span.start != body
            {
              if j > 0 {
                assert es[j] == es[1..][j - 1];
              }
            }
          }
        }
        r
      else
        assert forall i :: 0 <= i < |es| ==> es[i].span.start != body by {
          forall i | 0 <= i < |es|
            ensures es[i].span.start != body
          {
            if i > 0 {
              assert es[i] == es[1..][i - 1];
            }
          }
        }
        r
  }

  class CodeMemoryManager {
    /** `mCurFuncMemIdx`: end of the function code, growing upward. */
    var funcIdx: int
    /** `mCurSGMemIdx`: start of the stub/GOT area, growing downward. */
    var sgIdx: int
    /** `mCurGVMemIdx`: end of the global-variable area. */
    var gvIdx: int
    /** `mpGOTBase`, as an offset into the code region. */
    var gotBase: Option<int>
    var hasGOT: bool
    /** `mFunctionMap`: function -> (start, end). */
    var functions: seq<FuncEntry>
    /** The bytes of the code region. */
    const code: array<bv8>

    ghost predicate Valid()
      reads this
    {
      && code.Length == MaxCodeSize
      && 0 <= funcIdx <= sgIdx < MaxCodeSize
      && 0 <= gvIdx <= MaxGlobalVarSize
      && SortedByFn(functions)
      && (forall i :: 0 <= i < |functions| ==>
            0 <= functions[i].span.start < functions[i].span.end < MaxCodeSize)
    }

    /** The state `reset` establishes. */
    ghost predicate IsReset()
      reads this
    {
      && gotBase == None && !hasGOT
      && funcIdx == 0 && sgIdx == MaxCodeSize - 1 && gvIdx == 0
      && functions == []
    }

    /** The constructor resets the cursors before mapping the region; a
      * failed mapping is a fatal error, so only the success path exists. */
    constructor ()
      ensures Valid() && IsReset()
      ensures fresh(code)
    {
      gotBase := None;
      hasGOT := false;
      funcIdx := 0;
      sgIdx := MaxCodeSize - 1;
      gvIdx := 0;
      functions := [];
      code := new bv8[MaxCodeSize];
    }

    /** `getFreeCodeMemSize`: the gap between the two growing ends. */
    function FreeCodeMemSize(): (r: int)
      reads this
      requires Valid()
      ensures 0 <= r < MaxCodeSize
      ensures funcIdx + r == sgIdx
    {
      sgIdx - funcIdx
    }

    /** `getFreeGVMemSize`. */
    function FreeGVMemSize(): (r: int)
      reads this
      requires Valid()
      ensures 0 <= r <= MaxGlobalVarSize
      ensures gvIdx + r == MaxGlobalVarSize
    {
      MaxGlobalVarSize - gvIdx
    }

    /** Carves `size` bytes downward from the stub/GOT cursor.  The source
      * checks only `size` against the free space, so aligning the block
      * down can still cross the function cursor; here the aligned block
      * must stay above it. */
    method AllocateSGMemory(size: nat, alignment: nat) returns (r: Option<int>)
      requires Valid()
      modifies this
      ensures Valid()
      ensures r.None? <==>
        AlignDown(old(sgIdx) - size, EffectiveAlign(alignment)) < old(funcIdx)
      ensures r.None? ==> sgIdx == old(sgIdx)
      ensures r.Some? ==>
        && r.value == AlignDown(old(sgIdx) - size, EffectiveAlign(alignment))
        && r.value % EffectiveAlign(alignment) == 0
        && funcIdx <= r.value && r.value + size <= old(sgIdx)
        && sgIdx == r.value
      ensures sgIdx <= old(sgIdx)
      ensures funcIdx == old(funcIdx) && gvIdx == old(gvIdx)
      ensures functions == old(functions)
      ensures gotBase == old(gotBase) && hasGOT == old(hasGOT)
    {
      var free := FreeCodeMemSize();
      var align := EffectiveAlign(alignment);
      if free < size || AlignDown(sgIdx - size, align) < funcIdx {
        return None;
      }
      var result := AlignDown(sgIdx - size, align);
      sgIdx := result;
      return Some(result);
    }

    /** `allocateStub`: a stub is carved from the stub/GOT end. */
    method AllocateStub(fn: FnId, stubSize: nat, alignment: nat) returns (r: Option<int>)
      requires Valid()
      modifies this
      ensures Valid()
      ensures r.None? ==> sgIdx == old(sgIdx)
      ensures r.Some? ==>
        && r.value % EffectiveAlign(alignment) == 0
        && funcIdx <= r.value && r.value + stubSize <= old(sgIdx)
        && sgIdx == r.value
      ensures funcIdx == old(funcIdx) && gvIdx == old(gvIdx)
      ensures functions == old(functions)
      ensures gotBase == old(gotBase) && hasGOT == old(hasGOT)
    {
      r := AllocateSGMemory(stubSize, alignment);
    }

    /** `AllocateGOT`: takes MaxGOTSize bytes from the stub/GOT end and sets
      * HasGOT.  The GOT may be allocated only once; the source's assertion
      * states the opposite (see `GOTAssertionAsWritten`). */
    method AllocateGOT()
      requires Valid()
      requires gotBase.None?
      modifies this
      ensures Valid()
      ensures hasGOT
      ensures gotBase.Some? ==>
        && gotBase.value == AlignDown(old(sgIdx) - MaxGOTSize, 1)
        && funcIdx <= gotBase.value
        && gotBase.value + MaxGOTSize <= old(sgIdx)
        && sgIdx == gotBase.value
      ensures gotBase.None? ==> sgIdx == old(sgIdx)
      ensures funcIdx == old(funcIdx) && gvIdx == old(gvIdx)
      ensures functions == old(functions)
    {
      gotBase := AllocateSGMemory(MaxGOTSize, 1);
      hasGOT := true;
    }

    /** `startFunctionBody`: moves no cursor.  It fails when the free span is
      * smaller than the requested size, and otherwise hands out the whole
      * free span starting at the function cursor. */
    method StartFunctionBody(fn: FnId, actualSize: nat) returns (r: Option<int>, newActualSize: nat)
      requires Valid()
      ensures r.None? <==> sgIdx - funcIdx < actualSize
      ensures r.None? ==> newActualSize == actualSize
      ensures r.Some? ==>
        && r.value == funcIdx
        && newActualSize == sgIdx - funcIdx
        && actualSize <= newActualSize
        && r.value + newActualSize == sgIdx
    {
      var free := FreeCodeMemSize();
      if free < 0 || free < actualSize {
        return None, actualSize;
      }
      newActualSize := FreeCodeMemSize();
      r := Some(funcIdx);
    }

    /** `endFunctionBody`: the function's code ends at `end`; the cursor
      * advances by exactly its size and the function is recorded once.
      * The source's assertions are the preconditions. */
    method EndFunctionBody(fn: FnId, start: int, end: int)
      requires Valid()
      requires end > start
      requires start == funcIdx
      requires end - start <= sgIdx - funcIdx
      requires fn !in FnIds(functions)
      modifies this
      ensures Valid()
      ensures funcIdx == old(funcIdx) + (end - start)
      ensures functions == InsertEntry(old(functions), FuncEntry(fn, Span(start, end)))
      ensures fn in FnIds(functions)
      ensures sgIdx == old(sgIdx) && gvIdx == old(gvIdx)
      ensures gotBase == old(gotBase) && hasGOT == old(hasGOT)
    {
      var codeSize := end - start;
      funcIdx := funcIdx + codeSize;
      InsertEntrySorted(functions, FuncEntry(fn, Span(start, end)));
      InsertEntryElements(functions, FuncEntry(fn, Span(start, end)));
      functions := InsertEntry(functions, FuncEntry(fn, Span(start, end)));
      assert forall i :: 0 <= i < |functions| ==> functions[i] in functions;
    }

    /** `allocateSpace`: a block at the aligned-up function cursor.  The
      * source compares only `size` with the free space, ignoring the
      * alignment padding (see `AllocateSpaceAsWritten`); here the padded
      * block must fit below the stub/GOT cursor. */
    method AllocateSpace(size: nat, alignment: nat) returns (r: Option<int>)
      requires Valid()
      modifies this
      ensures Valid()
      ensures r.None? <==> AlignUp(old(funcIdx), EffectiveAlign(alignment)) + size > sgIdx
      ensures r.None? ==> funcIdx == old(funcIdx)
      ensures r.Some? ==>
        && r.value == AlignUp(old(funcIdx), EffectiveAlign(alignment))
        && r.value % EffectiveAlign(alignment) == 0
        && old(funcIdx) <= r.value
        && funcIdx == r.value + size
        && funcIdx <= sgIdx
      ensures sgIdx == old(sgIdx) && gvIdx == old(gvIdx)
      ensures functions == old(functions)
      ensures gotBase == old(gotBase) && hasGOT == old(hasGOT)
    {
      var align := EffectiveAlign(alignment);
      if FreeCodeMemSize() < size || AlignUp(funcIdx, align) + size > sgIdx {
        return None;
      }
      var result := AlignUp(funcIdx, align);
      funcIdx := result + size;
      return Some(result);
    }

    /** `allocateGlobal`: bump allocation in the global-variable region.
      * The source compares only `size` with the free space (see
      * `AllocateGlobalAsWritten`); here the padded block must fit. */
    method AllocateGlobal(size: nat, alignment: nat) returns (r: Option<int>)
      requires Valid()
      modifies this
      ensures Valid()
      ensures r.None? <==>
        AlignUp(old(gvIdx), EffectiveAlign(alignment)) + size > MaxGlobalVarSize
      ensures r.None? ==> gvIdx == old(gvIdx)
      ensures r.Some? ==>
        && r.value == AlignUp(old(gvIdx), EffectiveAlign(alignment))
        && r.value % EffectiveAlign(alignment) == 0
        && old(gvIdx) <= r.value
        && gvIdx == r.value + size
        && gvIdx <= MaxGlobalVarSize
      ensures funcIdx == old(funcIdx) && sgIdx == old(sgIdx)
      ensures functions == old(functions)
      ensures gotBase == old(gotBase) && hasGOT == old(hasGOT)
    {
      var align := EffectiveAlign(alignment);
      if FreeGVMemSize() < size || AlignUp(gvIdx, align) + size > MaxGlobalVarSize {
        return None;
      }
      var result := AlignUp(gvIdx, align);
      gvIdx := result + size;
      return Some(result);
    }

    /** The linear search over the function map. */
    method FindFunction(body: int) returns (r: Option<Span>)
      requires Valid()
      ensures r == FirstWithStart(functions, body)
    {
      var i := 0;
      while i < |functions|
        invariant 0 <= i <= |functions|
        invariant FirstWithStart(functions, body) == FirstWithStart(functions[i..], body)
      {
        if functions[i].span.start == body {
          assert functions[i..][0] == functions[i];
          return Some(functions[i].span);
        }
        assert functions[i..][1..] == functions[i + 1..];
        i := i + 1;
      }
      return None;
    }

    /** `memmove(dst, src, n)` with `dst < src`: a forward copy is safe
      * because every byte is read before it can be overwritten. */
    method MoveDown(dst: int, src: int, n: nat)
      requires 0 <= dst < src && src + n <= code.Length
      modifies code
      ensures code[..] == MovedDown(old(code[..]), dst, src, n)
    {
      ghost var before := code[..];
      var k := 0;
      while k < n
        invariant 0 <= k <= n
        invariant forall j | 0 <= j < dst :: code[j] == before[j]
        invariant forall j | dst <= j < dst + k :: code[j] == before[j - dst + src]
        invariant forall j | dst + k <= j < code.Length :: code[j] == before[j]
      {
        code[dst + k] := code[src + k];
        k := k + 1;
      }
      MovedDownElements(before, code[..], dst, src, n);
    }

    /** `deallocateFunctionBody`: the code after the freed function moves
      * down over it and the function cursor drops by the function's size.
      * The body must be one that `endFunctionBody` recorded (the source
      * asserts the opposite; see `DeallocAssertionAsWritten`) and must end
      * at or before the cursor (the second assertion).  As in the source,
      * the map entry is kept and later entries are not relocated. */
    method DeallocateFunctionBody(body: int)
      requires Valid()
      requires FirstWithStart(functions, body).Some?
      requires FirstWithStart(functions, body).value.end <= funcIdx
      modifies this`funcIdx, code
      ensures Valid()
      ensures var sp := FirstWithStart(old(functions), body).value;
        && funcIdx == old(funcIdx) - (sp.end - sp.start)
        && code[..] == MovedDown(old(code[..]), sp.start, sp.end, old(funcIdx) - sp.end)
      ensures functions == old(functions)
      ensures sgIdx == old(sgIdx) && gvIdx == old(gvIdx)
      ensures gotBase == old(gotBase) && hasGOT == old(hasGOT)
    {
      var found := FindFunction(body);
      var sp := found.value;
      RecordedSpanInRegion(functions, body);
      FreeSpan(sp);
    }

    /** The freeing half of `deallocateFunctionBody`: the code between the
      * span's end and the cursor moves down to the span's start. */
    method FreeSpan(sp: Span)
      requires Valid()
      requires 0 <= sp.start < sp.end <= funcIdx
      modifies this`funcIdx, code
      ensures Valid()
      ensures funcIdx == old(funcIdx) - (sp.end - sp.start)
      ensures code[..] == MovedDown(old(code[..]), sp.start, sp.end, old(funcIdx) - sp.end)
    {
      ghost var before := code[..];
      var sizeNeedMove := funcIdx - sp.end;
      if sizeNeedMove > 0 {
        MoveDown(sp.start, sp.end, sizeNeedMove);
      } else {
        MovedDownNothing(before, sp.start, sp.end);
      }
      funcIdx := funcIdx - (sp.end - sp.start);
    }

    /** `reset`: back to the initial cursors, no GOT, empty function map. */
    method Reset()
      requires Valid()
      modifies this
      ensures Valid() && IsReset()
    {
      gotBase := None;
      hasGOT := false;
      funcIdx := 0;
      sgIdx := MaxCodeSize - 1;
      gvIdx := 0;
      functions := [];
    }
  }

  // ---------------------------------------------------------------------
  // The allocator checks as written in the source, and what they let
  // through.

  /** `allocateGlobal` as written: the free check ignores the padding that
    * aligning the cursor adds.  Result: (block offset, new cursor). */
  function AllocateGlobalAsWritten(gvIdx: int, size: nat, alignment: nat): (r: Option<(int, int)>)
    ensures r.None? <==> MaxGlobalVarSize - gvIdx < size
    ensures r.Some? ==> r.value.1 - r.value.0 == size && r.value.0 >= gvIdx
  {
    if MaxGlobalVarSize - gvIdx < size then None
    else
      var result := AlignUp(gvIdx, EffectiveAlign(alignment));
      Some((result, result + size))
  }

  /** Whenever the cursor is not aligned, the largest request the as-written
    * check accepts runs past the end of the global-variable region. */
  lemma AllocateGlobalOverruns(gvIdx: int, alignment: nat)
    requires 0 <= gvIdx <= MaxGlobalVarSize
    requires gvIdx % EffectiveAlign(alignment) != 0
    ensures var r := AllocateGlobalAsWritten(gvIdx, MaxGlobalVarSize - gvIdx, alignment);
      r.Some? && r.value.1 > MaxGlobalVarSize
  {
    var a := EffectiveAlign(alignment);
    var up := AlignUp(gvIdx, a);
    assert up != gvIdx;
  }

  /** `allocateSpace` as written: same padding omission, so the block can
    * reach into the stub/GOT area.  Result: (block offset, new cursor). */
  function AllocateSpaceAsWritten(funcIdx: int, sgIdx: int, size: nat, alignment: nat): (r: Option<(int, int)>)
    ensures r.None? <==> sgIdx - funcIdx < size
    ensures r.Some? ==> r.value.1 - r.value.0 == size && r.value.0 >= funcIdx
  {
    if sgIdx - funcIdx < size then None
    else
      var result := AlignUp(funcIdx, EffectiveAlign(alignment));
      Some((result, result + size))
  }

  lemma AllocateSpaceOverlapsStubs(funcIdx: int, sgIdx: int, alignment: nat)
    requires 0 <= funcIdx <= sgIdx
    requires funcIdx % EffectiveAlign(alignment) != 0
    ensures var r := AllocateSpaceAsWritten(funcIdx, sgIdx, sgIdx - funcIdx, alignment);
      r.Some? && r.value.1 > sgIdx
  {
    var up := AlignUp(funcIdx, EffectiveAlign(alignment));
    assert up != funcIdx;
  }

  /** `allocateSGMemory` as written: the block is aligned down after the
    * free check, so it can start below the function cursor. */
  function AllocateSGMemoryAsWritten(funcIdx: int, sgIdx: int, size: nat, alignment: nat): (r: Option<int>)
    ensures r.None? <==> sgIdx - funcIdx < size
    ensures r.Some? ==> r.value <= sgIdx - size && r.value % EffectiveAlign(alignment) == 0
  {
    if sgIdx - funcIdx < 0 || sgIdx - funcIdx < size then None
    else Some(AlignDown(sgIdx - size, EffectiveAlign(alignment)))
  }

  lemma AllocateSGMemoryCrossesFunctions()
    ensures AllocateSGMemoryAsWritten(5, 10, 5, 16) == Some(0)
  {
    assert AlignDown(5, 16) == 0;
  }

  /** The `AllocateGOT` assertion as written: it holds only if a GOT
    * already exists. */
  predicate GOTAssertionAsWritten(gotBase: Option<int>)
  {
    gotBase.Some?
  }

  /** Right after `reset` there is no GOT, so the first `AllocateGOT` trips
    * the assertion. */
  lemma GOTAssertionFailsAfterReset(m: CodeMemoryManager)
    requires m.IsReset()
    ensures !GOTAssertionAsWritten(m.gotBase)
  {
  }

  /** The `deallocateFunctionBody` assertion as written: it holds only if
    * the search found nothing. */
  predicate DeallocAssertionAsWritten(functions: seq<FuncEntry>, body: int)
  {
    FirstWithStart(functions, body).None?
  }

  /** The assertion fails exactly for the bodies the function map records,
    * that is, for every legitimate call. */
  lemma DeallocAssertionRejectsRecordedBodies(functions: seq<FuncEntry>, i: int)
    requires 0 <= i < |functions|
    ensures !DeallocAssertionAsWritten(functions, functions[i].span.start)
  {
  }
}
