// The `bccGet*` interfaces of the libbcc compiler and of the old JIT's
// compiler: each reports the full count through an optional out-pointer,
// cuts it to the caller's signed capacity and copies entries into the
// caller's array.

module CompilerGetters {
  import opened BoundedCopy
  import CacheWriter

  /** Addresses read from the cache, moved by the distance between the
    * context's cached and actual addresses. */
  function Relocated(cached: seq<int>, cacheDiff: int): (r: seq<int>)
    ensures |r| == |cached|
    ensures forall i :: 0 <= i < |cached| ==> r[i] == cached[i] + cacheDiff
  {
    seq(|cached|, i requires 0 <= i < |cached| => cached[i] + cacheDiff)
  }

  /** `getExportVars` / `getExportFuncs` of the libbcc compiler: from a loaded
    * cache the relocated cached addresses, otherwise the compiled ones; in
    * both cases only as many as the capacity allows.  (The compiled branch
    * as written copies them all; see `CompiledExportsAsWritten`.) */
  method GetExportAddrs(cacheHit: bool, cached: seq<int>, cacheDiff: int, compiled: seq<int>,
                        maxCount: int, list: array?<int>) returns (actualCount: nat)
    requires list != null ==>
      SignedCopyCount(if cacheHit then |cached| else |compiled|, maxCount) <= list.Length
    modifies list
    ensures actualCount == if cacheHit then |cached| else |compiled|
    ensures list != null ==>
      var n := SignedCopyCount(actualCount, maxCount);
      list[..n] == (if cacheHit then Relocated(cached, cacheDiff) else compiled)[..n] &&
      list[n..] == old(list[n..])
  {
    var addrs := if cacheHit then Relocated(cached, cacheDiff) else compiled;
    actualCount := |addrs|;
    if list != null {
      CopyPrefix(addrs, SignedCopyCount(actualCount, maxCount), list);
    }
  }

  /** The compiled branch of `getExportVars` / `getExportFuncs` as written:
    * the full count is reported and cut to the capacity, but the loop runs
    * over the whole list.  Entries that fall inside the caller's array are
    * written there; `pastEnd` counts the writes that land beyond it, which
    * the method reports instead of performing. */
  method CompiledExportsAsWritten(compiled: seq<int>, maxCount: int, list: array?<int>)
    returns (actualCount: nat, pastEnd: nat)
    modifies list
    ensures actualCount == |compiled|
    ensures list == null ==> pastEnd == 0
    ensures list != null ==>
      var n := if |compiled| < list.Length then |compiled| else list.Length;
      pastEnd == |compiled| - n && list[..n] == compiled[..n] && list[n..] == old(list[n..])
  {
    actualCount := |compiled|;
    pastEnd := 0;
    if list != null {
      var i := 0;
      while i < |compiled|
        invariant 0 <= i <= |compiled|
        invariant var n := if i < list.Length then i else list.Length;
          pastEnd == i - n && list[..n] == compiled[..n] && list[n..] == old(list[n..])
      {
        if i < list.Length {
          list[i] := compiled[i];
        } else {
          pastEnd := pastEnd + 1;
        }
        i := i + 1;
      }
    }
  }

  /** Given an array with exactly the room the capacity grants, the loop
    * writes past it exactly when the list is longer than the cut count, by
    * the difference. */
  method CompiledExportsOverrunCapacity(compiled: seq<int>, maxCount: int) returns (pastEnd: nat)
    ensures pastEnd == |compiled| - SignedCopyCount(|compiled|, maxCount)
    ensures pastEnd > 0 <==> |compiled| > SignedCopyCount(|compiled|, maxCount)
  {
    var list := new int[SignedCopyCount(|compiled|, maxCount)];
    var actualCount;
    actualCount, pastEnd := CompiledExportsAsWritten(compiled, maxCount, list);
  }

  /** Strings `getPragmas` of the libbcc compiler writes: whole pairs while at
    * least two strings of the allowance remain. */
  function PairsWritten(stringCount: int): (k: nat)
    ensures stringCount <= 0 ==> k == 0
    ensures stringCount >= 0 ==> 2 * k <= stringCount < 2 * k + 2
  {
    if stringCount < 2 then 0 else 1 + PairsWritten(stringCount - 2)
  }

  /** `getPragmas` of the libbcc compiler (both the cached and the compiled
    * branch run this loop): key and value of pragma i go to slots 2i and
    * 2i + 1, and no slot at or beyond the capacity is written. */
  method GetPragmas(pragmas: seq<(seq<char>, seq<char>)>, maxStringCount: int,
                    strings: array?<seq<char>>) returns (actualStringCount: nat)
    requires strings != null ==> SignedCopyCount(2 * |pragmas|, maxStringCount) <= strings.Length
    modifies strings
    ensures actualStringCount == 2 * |pragmas|
    ensures strings != null ==>
      var w := 2 * PairsWritten(SignedCopyCount(2 * |pragmas|, maxStringCount));
      w <= SignedCopyCount(2 * |pragmas|, maxStringCount) &&
      strings[..w] == CacheWriter.PragmaStrings(pragmas)[..w] &&
      strings[w..] == old(strings[w..])
  {
    actualStringCount := 2 * |pragmas|;
    var stringCount: int := SignedCopyCount(actualStringCount, maxStringCount);
    if strings != null {
      ghost var k := PairsWritten(stringCount);
      var i := 0;
      while stringCount >= 2
        invariant 0 <= i <= k && stringCount == SignedCopyCount(actualStringCount, maxStringCount) - 2 * i
        invariant PairsWritten(stringCount) == k - i
        invariant forall j :: 0 <= j < 2 * i ==> strings[j] == CacheWriter.PragmaStrings(pragmas)[j]
        invariant forall j :: 2 * k <= j < strings.Length ==> strings[j] == old(strings[j])
      {
        CacheWriter.PragmaStringsAt(pragmas, i);
        strings[2 * i] := pragmas[i].0;
        strings[2 * i + 1] := pragmas[i].1;
        stringCount := stringCount - 2;
        i := i + 1;
      }
      assert strings[..2 * k] == CacheWriter.PragmaStrings(pragmas)[..2 * k];
    }
  }

  /** The old JIT's `getPragmas` as written: a pair is written while the
    * remaining allowance is positive, so an odd allowance gets one string
    * more than it allows. */
  function PragmaStringsAsWritten(pragmas: seq<(seq<char>, seq<char>)>, i: nat, stringCount: int):
    (written: seq<seq<char>>)
    requires stringCount <= 2 * (|pragmas| - i)
    ensures |written| == (if stringCount <= 0 then 0 else 2 * ((stringCount + 1) / 2))
    decreases stringCount
  {
    if stringCount <= 0 then []
    else [pragmas[i].0, pragmas[i].1] + PragmaStringsAsWritten(pragmas, i + 1, stringCount - 2)
  }

  /** With one pragma and room for one string, two strings are written. */
  lemma OddAllowanceOverruns()
    ensures var ps := [("version", "1")];
      |PragmaStringsAsWritten(ps, 0, SignedCopyCount(2 * |ps|, 1))| == 2
  {
  }

  /** `getFunctionNames` of the old JIT's code emitter: the names of the first
    * emitted functions in map order. */
  method GetFunctionNames(emitted: seq<EmittedFunc>, maxFunctionCount: int,
                          functions: array?<seq<char>>) returns (actualFunctionCount: nat)
    requires functions != null ==> SignedCopyCount(|emitted|, maxFunctionCount) <= functions.Length
    modifies functions
    ensures actualFunctionCount == |emitted|
    ensures functions != null ==>
      var n := SignedCopyCount(|emitted|, maxFunctionCount);
      functions[..n] == FuncNames(emitted)[..n] && functions[n..] == old(functions[n..])
  {
    actualFunctionCount := |emitted|;
    if functions != null {
      CopyPrefix(FuncNames(emitted), SignedCopyCount(|emitted|, maxFunctionCount), functions);
    }
  }
}
