// The RenderScript info file that accompanies a compiled script: its list
// headers laid out one after another after the header and the string pool,
// the string pool's index arithmetic, the floating-point precision its
// pragmas ask for, and the dependency checks that decide whether a cached
// script is stale.  Two generations exist: the execution engine's, with a
// dependency table, and the later one, with a single source hash.

module RSInfoLayout {
  import opened Common

  /** Header fields are 32-bit: offsets wrap modulo 2^32. */
  const U32: int := 0x1_0000_0000

  /** A list header: the list's offset in the file, its item count and the
    * size of one item. */
  datatype ListHeader = ListHeader(offset: nat, count: nat, itemSize: nat)

  /** `AFTER(list)`: the offset just past the list, as the 32-bit field
    * holds it. */
  function After(l: ListHeader): (r: nat)
    ensures r < U32
  {
    (l.offset + Bytes((l.itemSize, l.count))) % U32
  }

  /** The bytes taken by a list of the given (item size, count) shape. */
  function Bytes(shape: (nat, nat)): nat
  {
    shape.0 * shape.1
  }

  /** The bytes taken by lists of the given shapes. */
  function ListsSize(items: seq<(nat, nat)>): nat
  {
    if |items| == 0 then 0
    else ListsSize(items[..|items| - 1]) + Bytes(items[|items| - 1])
  }

  /** The list headers `layout` assigns: the first list at `start` (cut to
    * 32 bits), each later one at AFTER its predecessor. */
  function Chained(start: int, items: seq<(nat, nat)>): (r: seq<ListHeader>)
    ensures |r| == |items|
    ensures forall i :: 0 <= i < |items| ==> r[i].itemSize == items[i].0 && r[i].count == items[i].1
    ensures |items| > 0 ==> r[0].offset == start % U32
    ensures forall i :: 0 < i < |items| ==> r[i].offset == After(r[i - 1])
  {
    if |items| == 0 then []
    else
      var prev := Chained(start, items[..|items| - 1]);
      var last := items[|items| - 1];
      prev + [ListHeader(if |prev| == 0 then start % U32 else After(prev[|prev| - 1]), last.1, last.0)]
  }

  lemma {:induction false} ListsSizeMonotone(items: seq<(nat, nat)>, i: nat)
    requires i <= |items|
    ensures ListsSize(items[..i]) <= ListsSize(items)
    decreases |items|
  {
    if i < |items| {
      assert items[..|items| - 1][..i] == items[..i];
      ListsSizeMonotone(items[..|items| - 1], i);
    } else {
      assert items[..i] == items;
    }
  }

  /** The shapes before list i take the bytes before it plus list i-1's. */
  lemma ListsSizeStep(items: seq<(nat, nat)>, i: nat)
    requires 0 < i <= |items|
    ensures ListsSize(items[..i]) == ListsSize(items[..i - 1]) + Bytes(items[i - 1])
  {
    assert items[..i][..i - 1] == items[..i - 1];
  }

  lemma {:induction false} ChainedOffset(start: int, items: seq<(nat, nat)>, i: nat)
    requires 0 <= start && start + ListsSize(items) < U32
    requires i < |items|
    ensures Chained(start, items)[i].offset == start + ListsSize(items[..i])
    decreases i
  {
    var r := Chained(start, items);
    ListsSizeMonotone(items, i);
    if i == 0 {
      assert items[..0] == [];
    } else {
      ChainedOffset(start, items, i - 1);
      ListsSizeStep(items, i);
      assert (r[i - 1].itemSize, r[i - 1].count) == items[i - 1];
      var x := r[i - 1].offset + Bytes(items[i - 1]);
      assert x == start + ListsSize(items[..i]) < U32;
      assert r[i].offset == x % U32;
    }
  }

  /** When the file fits in 32 bits nothing wraps: list i starts exactly
    * where the lists before it end, so the lists follow one another without
    * gaps or overlap, and the last one ends `ListsSize` bytes after the
    * start. */
  lemma ChainedContiguous(start: int, items: seq<(nat, nat)>)
    requires 0 <= start && start + ListsSize(items) < U32
    ensures forall i :: 0 <= i < |items| ==>
      Chained(start, items)[i].offset == start + ListsSize(items[..i])
    ensures |items| > 0 ==>
      var last := Chained(start, items)[|items| - 1];
      last.offset + Bytes((last.itemSize, last.count)) == start + ListsSize(items)
  {
    forall i | 0 <= i < |items|
      ensures Chained(start, items)[i].offset == start + ListsSize(items[..i])
    {
      ChainedOffset(start, items, i);
    }
    if |items| > 0 {
      ListsSizeStep(items, |items|);
      assert items[..|items|] == items;
      var last := Chained(start, items)[|items| - 1];
      assert (last.itemSize, last.count) == items[|items| - 1];
    }
  }

  /** `gInvalidStringIndex`: the index -1 cast to 32 bits. */
  const InvalidStringIndex: nat := U32 - 1

  /** `getStringFromPool`: the pool position of the string at `idx`
    * (`&mStringPool[idx]`), or NULL when the index is not inside the
    * pool. */
  function StringFromPool(strPoolSize: nat, idx: nat): (p: Option<nat>)
    ensures p.None? <==> idx >= strPoolSize
    ensures p.Some? ==> p.value == idx
  {
    if idx >= strPoolSize then None else Some(idx)
  }

  /** `getStringIdxInPool` as written, for a string `offset` bytes after
    * the pool's start (negative when it lies before the pool): only
    * strings beyond the pool's end are rejected, and the pointer
    * difference is cut to 32 bits. */
  function StringIdxInPoolAsWritten(strPoolSize: nat, offset: int): (idx: nat)
    requires strPoolSize < U32
    ensures offset > strPoolSize ==> idx == InvalidStringIndex
    ensures 0 <= offset <= strPoolSize ==> idx == offset
  {
    if strPoolSize < offset then InvalidStringIndex else offset % U32
  }

  /** A string two bytes before the pool gets an index that is neither the
    * invalid marker nor its own position. */
  lemma StringBeforePoolAccepted()
    ensures StringIdxInPoolAsWritten(16, -2) != InvalidStringIndex
    ensures StringIdxInPoolAsWritten(16, -2) == U32 - 2
  {
  }

  /** `getStringIdxInPool` rejecting every string outside the pool. */
  function StringIdxInPool(strPoolSize: nat, offset: int): (idx: nat)
    requires strPoolSize < U32
    ensures idx == InvalidStringIndex <==> !(0 <= offset < strPoolSize)
  {
    if offset < 0 || strPoolSize <= offset then InvalidStringIndex else offset
  }

  /** Looking a string up by its index finds it again, and an index inside
    * the pool names the string found there. */
  lemma StringIndexRoundTrip(strPoolSize: nat, offset: int, idx: nat)
    requires strPoolSize < U32
    ensures StringIdxInPool(strPoolSize, offset) != InvalidStringIndex ==>
      StringFromPool(strPoolSize, StringIdxInPool(strPoolSize, offset)) == Some(offset)
    ensures StringFromPool(strPoolSize, idx).Some? ==>
      StringIdxInPool(strPoolSize, StringFromPool(strPoolSize, idx).value) == idx
  {
  }

  /** The floating-point precision a script requires, least to most
    * permissive. */
  datatype FloatPrecision = Full | Relaxed | Imprecise

  function Rank(p: FloatPrecision): nat
  {
    match p
    case Full => 0
    case Relaxed => 1
    case Imprecise => 2
  }

  const RelaxedPragma: seq<char> := "rs_fp_relaxed"
  const ImprecisePragma: seq<char> := "rs_fp_imprecise"
  const FullPragma: seq<char> := "rs_fp_full"

  predicate HasPragma(pragmas: seq<(seq<char>, seq<char>)>, key: seq<char>)
  {
    exists i :: 0 <= i < |pragmas| && pragmas[i].0 == key
  }

  /** The precision the pragmas ask for: imprecise wins over relaxed, and
    * with neither the precision is full. */
  function PrecisionOf(pragmas: seq<(seq<char>, seq<char>)>): FloatPrecision
  {
    if HasPragma(pragmas, ImprecisePragma) then Imprecise
    else if HasPragma(pragmas, RelaxedPragma) then Relaxed
    else Full
  }

  /** A key is among two lists of pragmas exactly when it is among one of
    * them. */
  lemma HasPragmaAppend(a: seq<(seq<char>, seq<char>)>, b: seq<(seq<char>, seq<char>)>, key: seq<char>)
    ensures HasPragma(a + b, key) <==> HasPragma(a, key) || HasPragma(b, key)
  {
    if HasPragma(a, key) {
      var i :| 0 <= i < |a| && a[i].0 == key;
      assert (a + b)[i].0 == key;
    }
    if HasPragma(b, key) {
      var i :| 0 <= i < |b| && b[i].0 == key;
      assert (a + b)[|a| + i].0 == key;
    }
    if HasPragma(a + b, key) {
      var i :| 0 <= i < |a + b| && (a + b)[i].0 == key;
      if i < |a| {
        assert a[i].0 == key;
      } else {
        assert b[i - |a|].0 == key;
      }
    }
  }

  /** More pragmas never ask for more precision, and the order of the
    * pragmas does not matter. */
  lemma PrecisionMonotone(pragmas: seq<(seq<char>, seq<char>)>, more: seq<(seq<char>, seq<char>)>)
    ensures Rank(PrecisionOf(pragmas)) <= Rank(PrecisionOf(pragmas + more))
    ensures PrecisionOf(pragmas + more) == PrecisionOf(more + pragmas)
  {
    HasPragmaAppend(pragmas, more, ImprecisePragma);
    HasPragmaAppend(pragmas, more, RelaxedPragma);
    HasPragmaAppend(more, pragmas, ImprecisePragma);
    HasPragmaAppend(more, pragmas, RelaxedPragma);
  }

  /** Lists of pragmas with one more pragma: whether the key is among them. */
  lemma HasPragmaSnoc(pragmas: seq<(seq<char>, seq<char>)>, i: nat, key: seq<char>)
    requires i < |pragmas|
    ensures HasPragma(pragmas[..i + 1], key) <==> HasPragma(pragmas[..i], key) || pragmas[i].0 == key
  {
    if HasPragma(pragmas[..i + 1], key) {
      var j :| 0 <= j < i + 1 && pragmas[..i + 1][j].0 == key;
      if j < i {
        assert pragmas[..i][j].0 == key;
      }
    }
    if HasPragma(pragmas[..i], key) {
      var j :| 0 <= j < i && pragmas[..i][j].0 == key;
      assert pragmas[..i + 1][j].0 == key;
    }
    if pragmas[i].0 == key {
      assert pragmas[..i + 1][i].0 == key;
    }
  }
}

// The execution engine's info file: a dependency table whose first two
// entries are libbcc and libRS.
module EERSInfo {
  import opened Common
  import opened CStrings
  import opened RSInfoLayout

  /** A SHA-1 digest: 20 bytes. */
  type Digest = s: seq<byte> | |s| == 20 witness ZeroSha1()

  /** A dependency table entry: the name recorded and its digest. */
  datatype DependencyEntry = DependencyEntry(name: seq<char>, sha1: Digest)

  /** A dependency of the script being loaded: its source name and
    * digest. */
  datatype SourceDependency = SourceDependency(sourceName: seq<char>, sha1: Digest)

  /** libbcc.so and libRS.so always come first in the table. */
  const NumBuiltInDependencies: nat := 2

  /** What `CheckDependency` accepts: a table with one entry per given
    * dependency after the two built-in ones, the built-in digests current,
    * and each dependency's name `strncmp`-equal over its own length and
    * its digest equal. */
  predicate DependenciesCurrent(table: seq<DependencyEntry>, deps: seq<SourceDependency>,
                                libBccSha1: Digest, libRSSha1: Digest)
  {
    |table| == |deps| + NumBuiltInDependencies &&
    table[0].sha1 == libBccSha1 && table[1].sha1 == libRSSha1 &&
    forall i :: 0 <= i < |deps| ==>
      StrNCmp(deps[i].sourceName, table[i + 2].name, |deps[i].sourceName|) == 0 &&
      deps[i].sha1 == table[i + 2].sha1
  }

  /** `CheckDependency`, with the digests of libbcc.so and libRS.so (read
    * from the file system by `LoadBuiltInSHA1Information`) as
    * parameters. */
  method CheckDependency(table: seq<DependencyEntry>, deps: seq<SourceDependency>,
                         libBccSha1: Digest, libRSSha1: Digest) returns (ok: bool)
    ensures ok <==> DependenciesCurrent(table, deps, libBccSha1, libRSSha1)
  {
    if |table| != |deps| + NumBuiltInDependencies {
      return false;
    }
    if table[0].sha1 != libBccSha1 {
      return false;
    }
    if table[1].sha1 != libRSSha1 {
      return false;
    }
    var i := 0;
    while i < |deps|
      invariant 0 <= i <= |deps|
      invariant forall j :: 0 <= j < i ==>
        StrNCmp(deps[j].sourceName, table[j + 2].name, |deps[j].sourceName|) == 0 &&
        deps[j].sha1 == table[j + 2].sha1
    {
      if StrNCmp(deps[i].sourceName, table[i + NumBuiltInDependencies].name, |deps[i].sourceName|) != 0 ||
         deps[i].sha1 != table[i + NumBuiltInDependencies].sha1 {
        return false;
      }
      i := i + 1;
    }
    return true;
  }

  /** The table recorded for these dependencies, built-in ones first. */
  function RecordedTable(deps: seq<SourceDependency>, libBccSha1: Digest, libRSSha1: Digest):
    (table: seq<DependencyEntry>)
    ensures |table| == |deps| + NumBuiltInDependencies
    ensures forall i :: 0 <= i < |deps| ==>
      table[i + 2] == DependencyEntry(deps[i].sourceName, deps[i].sha1)
  {
    [DependencyEntry("/system/lib/libbcc.so", libBccSha1), DependencyEntry("/system/lib/libRS.so", libRSSha1)] +
    seq(|deps|, i requires 0 <= i < |deps| => DependencyEntry(deps[i].sourceName, deps[i].sha1))
  }

  /** A table recorded for the same sources and libraries is current. */
  lemma RecordedTableCurrent(deps: seq<SourceDependency>, libBccSha1: Digest, libRSSha1: Digest)
    requires forall i :: 0 <= i < |deps| ==> CString(deps[i].sourceName)
    ensures DependenciesCurrent(RecordedTable(deps, libBccSha1, libRSSha1), deps, libBccSha1, libRSSha1)
  {
    var table := RecordedTable(deps, libBccSha1, libRSSha1);
    forall i | 0 <= i < |deps|
      ensures StrNCmp(deps[i].sourceName, table[i + 2].name, |deps[i].sourceName|) == 0
    {
      StrNCmpPrefix(deps[i].sourceName, table[i + 2].name);
    }
  }

  /** A changed library or a different number of dependencies makes the
    * cache stale. */
  lemma StaleOnChange(table: seq<DependencyEntry>, deps: seq<SourceDependency>,
                      libBccSha1: Digest, libRSSha1: Digest)
    requires |table| == |deps| + 2
    requires table[0].sha1 != libBccSha1 || table[1].sha1 != libRSSha1
    ensures !DependenciesCurrent(table, deps, libBccSha1, libRSSha1)
    ensures !DependenciesCurrent(table + table[..1], deps, libBccSha1, libRSSha1)
  {
  }

  /** The header fields `layout` reads and writes. */
  datatype Header = Header(headerSize: nat, strPoolSize: nat,
                           dependencyTable: ListHeader, pragmaList: ListHeader,
                           objectSlotList: ListHeader, exportVarNameList: ListHeader,
                           exportFuncNameList: ListHeader, exportForeachFuncList: ListHeader)

  function Lists(h: Header): seq<ListHeader>
  {
    [h.dependencyTable, h.pragmaList, h.objectSlotList, h.exportVarNameList,
     h.exportFuncNameList, h.exportForeachFuncList]
  }

  class Info {
    var header: Header
    var dependencyTable: seq<DependencyEntry>
    var pragmas: seq<(seq<char>, seq<char>)>
    var objectSlots: seq<nat>
    var exportVarNames: seq<seq<char>>
    var exportFuncNames: seq<seq<char>>
    var exportForeachFuncs: seq<(seq<char>, nat)>

    /** The (item size, count) shape of each list, in file order. */
    function Shapes(): (s: seq<(nat, nat)>)
      reads this
      ensures |s| == 6
    {
      [(header.dependencyTable.itemSize, |dependencyTable|), (header.pragmaList.itemSize, |pragmas|),
       (header.objectSlotList.itemSize, |objectSlots|), (header.exportVarNameList.itemSize, |exportVarNames|),
       (header.exportFuncNameList.itemSize, |exportFuncNames|),
       (header.exportForeachFuncList.itemSize, |exportForeachFuncs|)]
    }

    /** `layout`: the dependency table starts after the header and the
      * string pool, every other list after its predecessor, and each count
      * is the length of its list. */
    method Layout(initialOffset: int) returns (ok: bool)
      modifies this
      ensures ok
      ensures header.headerSize == old(header.headerSize) && header.strPoolSize == old(header.strPoolSize)
      ensures Shapes() == old(Shapes())
      ensures Lists(header) ==
        Chained(initialOffset + header.headerSize + header.strPoolSize, Shapes())
      ensures dependencyTable == old(dependencyTable) && pragmas == old(pragmas) &&
        objectSlots == old(objectSlots) && exportVarNames == old(exportVarNames) &&
        exportFuncNames == old(exportFuncNames) && exportForeachFuncs == old(exportForeachFuncs)
    {
      var h := header;
      var dep := ListHeader((initialOffset + h.headerSize + h.strPoolSize) % U32, |dependencyTable|,
                            h.dependencyTable.itemSize);
      var pragma := ListHeader(After(dep), |pragmas|, h.pragmaList.itemSize);
      var slot := ListHeader(After(pragma), |objectSlots|, h.objectSlotList.itemSize);
      var vars := ListHeader(After(slot), |exportVarNames|, h.exportVarNameList.itemSize);
      var funcs := ListHeader(After(vars), |exportFuncNames|, h.exportFuncNameList.itemSize);
      var foreach := ListHeader(After(funcs), |exportForeachFuncs|, h.exportForeachFuncList.itemSize);
      header := h.(dependencyTable := dep, pragmaList := pragma, objectSlotList := slot,
                   exportVarNameList := vars, exportFuncNameList := funcs,
                   exportForeachFuncList := foreach);
      ghost var c := Chained(initialOffset + header.headerSize + header.strPoolSize, Shapes());
      assert c[0] == dep && c[1] == pragma && c[2] == slot;
      assert c[3] == vars && c[4] == funcs && c[5] == foreach;
      ok := true;
    }
  }

  /** `getFloatPrecisionRequirement`: a scan of the pragma keys that
    * returns at once on "rs_fp_imprecise" and otherwise remembers whether
    * "rs_fp_relaxed" was seen. */
  method FloatPrecisionRequirement(pragmas: seq<(seq<char>, seq<char>)>) returns (p: FloatPrecision)
    ensures p == PrecisionOf(pragmas)
  {
    var relaxedSeen := false;
    var i := 0;
    while i < |pragmas|
      invariant 0 <= i <= |pragmas|
      invariant !HasPragma(pragmas[..i], ImprecisePragma)
      invariant relaxedSeen <==> HasPragma(pragmas[..i], RelaxedPragma)
    {
      HasPragmaSnoc(pragmas, i, ImprecisePragma);
      HasPragmaSnoc(pragmas, i, RelaxedPragma);
      if pragmas[i].0 == RelaxedPragma {
        relaxedSeen := true;
      } else if pragmas[i].0 == ImprecisePragma {
        assert pragmas[i].0 == ImprecisePragma;
        return Imprecise;
      }
      i := i + 1;
    }
    assert pragmas[..i] == pragmas;
    if relaxedSeen {
      return Relaxed;
    }
    return Full;
  }
}

// The later info file: the string pool holds the source's digest, and the
// lists are pragmas, object slots, exported variables, functions and
// foreach kernels.
module RenderscriptInfo {
  import opened Common
  import opened RSInfoLayout

  type Digest = s: seq<byte> | |s| == 20 witness ZeroSha1()

  /** `RSINFO_MAGIC`: "\0rsinfo\n". */
  const Magic: seq<byte> := [0x00, 0x72, 0x73, 0x69, 0x6e, 0x66, 0x6f, 0x0a]
  /** `RSINFO_VERSION`: "005\0". */
  const Version: seq<byte> := [0x30, 0x30, 0x35, 0x00]

  /** `sizeof(rsinfo::Header)`, packed: magic 8, version 4, two flags, a
    * 16-bit header size, the pool size and the digest index (4 each), and
    * five list headers of 9 bytes. */
  const HeaderSize: nat := 69
  const PragmaItemSize: nat := 8
  const ObjectSlotItemSize: nat := 4
  const ExportVarNameItemSize: nat := 4
  const ExportFuncNameItemSize: nat := 4
  const ExportForeachFuncItemSize: nat := 8

  datatype Header = Header(magic: seq<byte>, version: seq<byte>, isThreadable: bool,
                           hasDebugInformation: bool, headerSize: nat, strPoolSize: nat,
                           sourceSha1Idx: nat, pragmaList: ListHeader, objectSlotList: ListHeader,
                           exportVarNameList: ListHeader, exportFuncNameList: ListHeader,
                           exportForeachFuncList: ListHeader)

  function Lists(h: Header): seq<ListHeader>
  {
    [h.pragmaList, h.objectSlotList, h.exportVarNameList, h.exportFuncNameList, h.exportForeachFuncList]
  }

  /** `GetPath`: the info file beside an executable is its name with
    * ".info" appended. */
  function GetPath(filename: seq<char>): (path: seq<char>)
    ensures |path| == |filename| + 5
    ensures path[..|filename|] == filename && path[|filename|..] == ".info"
  {
    filename + ".info"
  }

  /** Different executables have different info files. */
  lemma GetPathInjective(a: seq<char>, b: seq<char>)
    ensures GetPath(a) == GetPath(b) ==> a == b
  {
    if GetPath(a) == GetPath(b) {
      assert |a| == |b|;
      assert a == GetPath(a)[..|a|];
    }
  }

  /** What the constructor does to the string pool: nothing for an empty
    * pool, zero-fill a fresh pool, or (when the allocation failed) write
    * zeros through a null pointer. */
  datatype PoolWrite = NoPool | ZeroFilled(pool: seq<char>) | NullWrite(size: nat)

  /** The constructor's pool step as written: the `memset` runs whether or
    * not the allocation succeeded. */
  function ConstructorPoolWriteAsWritten(poolSize: nat, allocOk: bool): (w: PoolWrite)
    ensures w.NullWrite? <==> poolSize > 0 && !allocOk
  {
    if poolSize == 0 then NoPool
    else if allocOk then ZeroFilled(seq(poolSize, i => '\0'))
    else NullWrite(poolSize)
  }

  /** A failed allocation of a 16-byte pool is followed by a 16-byte write
    * through NULL. */
  lemma FailedPoolAllocationWritten()
    ensures ConstructorPoolWriteAsWritten(16, false) == NullWrite(16)
  {
  }

  /** The constructor's pool step with the `memset` only on an allocated
    * pool: never a write through NULL, and an allocated pool is all
    * zeros. */
  function ConstructorPoolWrite(poolSize: nat, allocOk: bool): (w: PoolWrite)
    ensures !w.NullWrite?
    ensures w.ZeroFilled? <==> poolSize > 0 && allocOk
    ensures w.ZeroFilled? ==> |w.pool| == poolSize && forall i :: 0 <= i < poolSize ==> w.pool[i] == '\0'
  {
    if poolSize > 0 && allocOk then ZeroFilled(seq(poolSize, i => '\0')) else NoPool
  }

  /** The header a new info object starts with: magic, version, header
    * size and item sizes set, the pool size when a pool is asked for,
    * everything else zero. */
  function InitialHeader(poolSize: nat): Header
  {
    Header(Magic, Version, false, false, HeaderSize, poolSize, 0,
           ListHeader(0, 0, PragmaItemSize), ListHeader(0, 0, ObjectSlotItemSize),
           ListHeader(0, 0, ExportVarNameItemSize), ListHeader(0, 0, ExportFuncNameItemSize),
           ListHeader(0, 0, ExportForeachFuncItemSize))
  }

  class Info {
    var header: Header
    var stringPool: Option<seq<char>>
    var sourceHash: Option<Digest>
    var pragmas: seq<(seq<char>, seq<char>)>
    var objectSlots: seq<nat>
    var exportVarNames: seq<seq<char>>
    var exportFuncNames: seq<seq<char>>
    var exportForeachFuncs: seq<(seq<char>, nat)>

    /** The constructor, with `allocOk` standing for whether `new
      * (std::nothrow)` returned memory; the pool is zero-filled only when
      * it was allocated. */
    constructor (poolSize: nat, allocOk: bool)
      ensures header == InitialHeader(poolSize)
      ensures stringPool.Some? <==> poolSize > 0 && allocOk
      ensures stringPool.Some? ==> ConstructorPoolWrite(poolSize, allocOk) == ZeroFilled(stringPool.value)
      ensures sourceHash.None?
      ensures pragmas == [] && objectSlots == [] && exportVarNames == [] &&
        exportFuncNames == [] && exportForeachFuncs == []
    {
      header := InitialHeader(poolSize);
      var w := ConstructorPoolWrite(poolSize, allocOk);
      stringPool := if w.ZeroFilled? then Some(w.pool) else None;
      sourceHash := None;
      pragmas := [];
      objectSlots := [];
      exportVarNames := [];
      exportFuncNames := [];
      exportForeachFuncs := [];
    }

    /** `CheckDependency`: the recorded source digest equals the expected
      * one byte for byte. */
    function CheckDependency(expected: Digest): (ok: bool)
      reads this
      requires sourceHash.Some?
      ensures ok <==> forall i :: 0 <= i < 20 ==> sourceHash.value[i] == expected[i]
    {
      assert sourceHash.value == expected <==> forall i :: 0 <= i < 20 ==> sourceHash.value[i] == expected[i];
      sourceHash.value == expected
    }

    function Shapes(): (s: seq<(nat, nat)>)
      reads this
      ensures |s| == 5
    {
      [(header.pragmaList.itemSize, |pragmas|), (header.objectSlotList.itemSize, |objectSlots|),
       (header.exportVarNameList.itemSize, |exportVarNames|),
       (header.exportFuncNameList.itemSize, |exportFuncNames|),
       (header.exportForeachFuncList.itemSize, |exportForeachFuncs|)]
    }

    /** `layout`: the pragma list starts after the header and the string
      * pool, every other list after its predecessor, and each count is the
      * length of its list; nothing else changes. */
    method Layout(initialOffset: int) returns (ok: bool)
      modifies this
      ensures ok
      ensures Shapes() == old(Shapes())
      ensures header == old(header).(pragmaList := header.pragmaList, objectSlotList := header.objectSlotList,
                                     exportVarNameList := header.exportVarNameList,
                                     exportFuncNameList := header.exportFuncNameList,
                                     exportForeachFuncList := header.exportForeachFuncList)
      ensures Lists(header) ==
        Chained(initialOffset + header.headerSize + header.strPoolSize, Shapes())
      ensures stringPool == old(stringPool) && sourceHash == old(sourceHash) && pragmas == old(pragmas) &&
        objectSlots == old(objectSlots) && exportVarNames == old(exportVarNames) &&
        exportFuncNames == old(exportFuncNames) && exportForeachFuncs == old(exportForeachFuncs)
    {
      var h := header;
      var pragma := ListHeader((initialOffset + h.headerSize + h.strPoolSize) % U32, |pragmas|,
                               h.pragmaList.itemSize);
      var slot := ListHeader(After(pragma), |objectSlots|, h.objectSlotList.itemSize);
      var vars := ListHeader(After(slot), |exportVarNames|, h.exportVarNameList.itemSize);
      var funcs := ListHeader(After(vars), |exportFuncNames|, h.exportFuncNameList.itemSize);
      var foreach := ListHeader(After(funcs), |exportForeachFuncs|, h.exportForeachFuncList.itemSize);
      header := h.(pragmaList := pragma, objectSlotList := slot, exportVarNameList := vars,
                   exportFuncNameList := funcs, exportForeachFuncList := foreach);
      ghost var c := Chained(initialOffset + header.headerSize + header.strPoolSize, Shapes());
      assert c[0] == pragma && c[1] == slot && c[2] == vars;
      assert c[3] == funcs && c[4] == foreach;
      ok := true;
    }
  }

  /** The `debug.rs.precision` override (read on the device only; an empty
    * property changes nothing). */
  function Overridden(p: FloatPrecision, prop: seq<char>): FloatPrecision
  {
    if prop == RelaxedPragma then Relaxed
    else if prop == ImprecisePragma then Imprecise
    else if prop == FullPragma then Full
    else p
  }

  /** `getFloatPrecisionRequirement`: a full scan remembering whether each
    * precision pragma was seen, then imprecise over relaxed over full, then
    * the property override. */
  method FloatPrecisionRequirement(pragmas: seq<(seq<char>, seq<char>)>, prop: seq<char>)
    returns (result: FloatPrecision)
    ensures result == Overridden(PrecisionOf(pragmas), prop)
    ensures prop == [] ==> result == PrecisionOf(pragmas)
  {
    var relaxedSeen := false;
    var impreciseSeen := false;
    result := Full;
    var i := 0;
    while i < |pragmas|
      invariant 0 <= i <= |pragmas|
      invariant impreciseSeen <==> HasPragma(pragmas[..i], ImprecisePragma)
      invariant relaxedSeen <==> HasPragma(pragmas[..i], RelaxedPragma)
    {
      HasPragmaSnoc(pragmas, i, ImprecisePragma);
      HasPragmaSnoc(pragmas, i, RelaxedPragma);
      if pragmas[i].0 == RelaxedPragma {
        relaxedSeen := true;
      } else if pragmas[i].0 == ImprecisePragma {
        impreciseSeen := true;
      }
      i := i + 1;
    }
    assert pragmas[..i] == pragmas;
    if impreciseSeen {
      result := Imprecise;
    } else if relaxedSeen {
      result := Relaxed;
    }
    if |prop| > 0 {
      if prop == RelaxedPragma {
        result := Relaxed;
      } else if prop == ImprecisePragma {
        result := Imprecise;
      } else if prop == FullPragma {
        result := Full;
      }
    }
  }
}
