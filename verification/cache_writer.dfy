// The oBCC cache writers: the execution engine's writer (a class whose
// prepare steps fill the header and the section buffers, then lay them out
// and write them), and the parts in which the older libbcc writer differs.

module CacheWriter {
  import opened Common
  import opened CacheFormat

  /** One compiled function as the owning script reports it. */
  datatype FuncInfo = FuncInfo(name: seq<char>, addr: nat, size: nat)

  /** One entry of the dependency map: resource name, type and SHA-1. */
  datatype Dependency = Dependency(name: seq<char>, resType: nat, sha1: seq<byte>)

  /** The on-disk records; names are indices into the string pool. */
  datatype DepEntry = DepEntry(nameIndex: nat, resType: nat, sha1: seq<byte>)
  datatype FuncRecord = FuncRecord(nameIndex: nat, addr: nat, size: nat)
  datatype PragmaEntry = PragmaEntry(keyIndex: nat, valueIndex: nat)

  /** What the writer asks of the script that owns it. */
  datatype Owner = Owner(
    contextAddr: nat, context: seq<bv32>, funcs: seq<FuncInfo>,
    pragmas: seq<(seq<char>, seq<char>)>,
    exportVars: seq<nat>, exportFuncs: seq<nat>, objectSlots: seq<nat>)

  /** Everything `writeAll` puts into the information file. */
  datatype CacheImage = CacheImage(
    header: Header, pool: PoolImage, dependTable: seq<DepEntry>,
    exportVars: seq<nat>, exportFuncs: seq<nat>, pragmaList: seq<PragmaEntry>,
    funcTable: seq<FuncRecord>, objectSlots: seq<nat>)

  // ---------------------------------------------------------------------
  // Section sizes: a size_t count followed by the entries.

  function DepTableSize(env: Env, n: nat): nat { env.sizeTSize + env.depEntrySize * n }
  function FuncTableSize(env: Env, n: nat): nat { env.sizeTSize + env.funcEntrySize * n }
  function PragmaListSize(env: Env, n: nat): nat { env.sizeTSize + env.pragmaEntrySize * n }
  function AddrListSize(env: Env, n: nat): nat { env.sizeTSize + env.ptrSize * n }
  function SlotListSize(env: Env, n: nat): nat { env.sizeTSize + 4 * n }

  // ---------------------------------------------------------------------
  // What each prepare step produces.

  function DepNames(deps: seq<Dependency>): (r: seq<seq<char>>)
    ensures |r| == |deps|
  {
    seq(|deps|, i requires 0 <= i < |deps| => deps[i].name)
  }

  function FuncNames(funcs: seq<FuncInfo>): (r: seq<seq<char>>)
    ensures |r| == |funcs|
  {
    seq(|funcs|, i requires 0 <= i < |funcs| => funcs[i].name)
  }

  /** Key then value, pragma by pragma. */
  function PragmaStrings(ps: seq<(seq<char>, seq<char>)>): (r: seq<seq<char>>)
    ensures |r| == 2 * |ps|
  {
    seq(2 * |ps|, i requires 0 <= i < 2 * |ps| =>
      if i % 2 == 0 then ps[i / 2].0 else ps[i / 2].1)
  }

  /** Pragma i's key and value sit at 2i and 2i + 1. */
  lemma PragmaStringsAt(ps: seq<(seq<char>, seq<char>)>, i: nat)
    requires i < |ps|
    ensures PragmaStrings(ps)[2 * i] == ps[i].0 && PragmaStrings(ps)[2 * i + 1] == ps[i].1
  {
    assert (2 * i) % 2 == 0 && (2 * i) / 2 == i;
    assert (2 * i + 1) % 2 == 1 && (2 * i + 1) / 2 == i;
  }

  lemma PragmaStringsSnoc(ps: seq<(seq<char>, seq<char>)>, i: nat)
    requires i < |ps|
    ensures PragmaStrings(ps[..i + 1]) == PragmaStrings(ps[..i]) + [ps[i].0, ps[i].1]
  {
    var a := PragmaStrings(ps[..i + 1]);
    var b := PragmaStrings(ps[..i]) + [ps[i].0, ps[i].1];
    forall k | 0 <= k < 2 * i + 2
      ensures a[k] == b[k]
    {
      if k < 2 * i {
        assert k / 2 < i;
      }
    }
  }

  /** Dependency i names string `base + i`. */
  function DepTable(deps: seq<Dependency>, base: nat): (r: seq<DepEntry>)
    ensures |r| == |deps|
  {
    seq(|deps|, i requires 0 <= i < |deps| =>
      DepEntry(base + i, deps[i].resType, deps[i].sha1))
  }

  function FuncTable(funcs: seq<FuncInfo>, base: nat): (r: seq<FuncRecord>)
    ensures |r| == |funcs|
  {
    seq(|funcs|, i requires 0 <= i < |funcs| =>
      FuncRecord(base + i, funcs[i].addr, funcs[i].size))
  }

  /** Pragma i names key string `base + 2i` and value string `base + 2i + 1`. */
  function PragmaTable(n: nat, base: nat): (r: seq<PragmaEntry>)
    ensures |r| == n
  {
    seq(n, i requires 0 <= i < n => PragmaEntry(base + 2 * i, base + 2 * i + 1))
  }

  /** The header `prepareHeader` fills in. */
  function PreparedHeader(env: Env, owner: Owner, libRSThreadable: nat): (h: Header)
    ensures h.magic == env.magic && h.version == env.version
    ensures h.endianness == 'e' <==> env.littleEndian
    ensures h.endianness == 'e' || h.endianness == 'E'
  {
    ZeroHeader().(magic := env.magic, version := env.version,
                  endianness := EndiannessMark(env.littleEndian),
                  offTSize := env.offTSize, sizeTSize := env.sizeTSize,
                  ptrSize := env.ptrSize, contextCachedAddr := owner.contextAddr,
                  libRSThreadable := libRSThreadable)
  }

  /** Every string the writer adds, in the order the steps add them. */
  function PoolStrings(prior: seq<seq<char>>, deps: seq<Dependency>, owner: Owner): seq<seq<char>>
  {
    prior + DepNames(deps) + FuncNames(owner.funcs) + PragmaStrings(owner.pragmas)
  }

  /** Section sizes in `calcSectionOffset` order: string pool, dependency
    * table, export variables, export functions, pragmas, function table,
    * object slots. */
  function SectionSizes(env: Env, prior: seq<seq<char>>, deps: seq<Dependency>, owner: Owner): (s: seq<nat>)
    ensures |s| == 7
  {
    [|PoolImageOf(PoolStrings(prior, deps, owner), env).bytes|,
     DepTableSize(env, |deps|),
     AddrListSize(env, |owner.exportVars|), AddrListSize(env, |owner.exportFuncs|),
     PragmaListSize(env, |owner.pragmas|), FuncTableSize(env, |owner.funcs|),
     SlotListSize(env, |owner.objectSlots|)]
  }

  /** The prepared header with every section's size recorded, given the
    * string-pool section's size and the number of dependencies. */
  function HeaderWithSizes(env: Env, owner: Owner, libRSThreadable: nat, poolSize: nat,
                           depCount: nat): Header
  {
    PreparedHeader(env, owner, libRSThreadable).(
      strPool := Section(0, poolSize), dependTab := Section(0, DepTableSize(env, depCount)),
      exportVarList := Section(0, AddrListSize(env, |owner.exportVars|)),
      exportFuncList := Section(0, AddrListSize(env, |owner.exportFuncs|)),
      pragmaList := Section(0, PragmaListSize(env, |owner.pragmas|)),
      funcTable := Section(0, FuncTableSize(env, |owner.funcs|)),
      objectSlotList := Section(0, SlotListSize(env, |owner.objectSlots|)))
  }

  /** The header once the prepare steps have recorded every section size. */
  function SizedHeader(env: Env, prior: seq<seq<char>>, deps: seq<Dependency>,
                       owner: Owner, libRSThreadable: nat): (h: Header)
    ensures var s := SectionSizes(env, prior, deps, owner);
      h.strPool.size == s[0] && h.dependTab.size == s[1] && h.exportVarList.size == s[2] &&
      h.exportFuncList.size == s[3] && h.pragmaList.size == s[4] && h.funcTable.size == s[5] &&
      h.objectSlotList.size == s[6]
  {
    HeaderWithSizes(env, owner, libRSThreadable,
                    |PoolImageOf(PoolStrings(prior, deps, owner), env).bytes|, |deps|)
  }

  /** The sized header is what the named-table steps and then the pool and
    * export-list steps leave in the prepared header. */
  lemma HeaderWithSizesSteps(env: Env, owner: Owner, libRSThreadable: nat, poolSize: nat,
                             depCount: nat)
    ensures var h0 := PreparedHeader(env, owner, libRSThreadable);
      var h1 := h0.(
        dependTab := Section(h0.dependTab.offset, DepTableSize(env, depCount)),
        funcTable := Section(h0.funcTable.offset, FuncTableSize(env, |owner.funcs|)),
        pragmaList := Section(h0.pragmaList.offset, PragmaListSize(env, |owner.pragmas|)));
      HeaderWithSizes(env, owner, libRSThreadable, poolSize, depCount) == h1.(
        strPool := Section(h1.strPool.offset, poolSize),
        exportVarList := Section(h1.exportVarList.offset, AddrListSize(env, |owner.exportVars|)),
        exportFuncList := Section(h1.exportFuncList.offset, AddrListSize(env, |owner.exportFuncs|)),
        objectSlotList := Section(h1.objectSlotList.offset, SlotListSize(env, |owner.objectSlots|)))
  {
  }

  /** The header once every step has run: sections laid out from the end of
    * the header, and the context checksum recorded. */
  function FinalHeader(env: Env, prior: seq<seq<char>>, deps: seq<Dependency>,
                       owner: Owner, libRSThreadable: nat): Header
  {
    var s := SectionSizes(env, prior, deps, owner);
    var o := Layout(env.headerSize, s);
    SizedHeader(env, prior, deps, owner, libRSThreadable).(
      strPool := Section(o[0], s[0]), dependTab := Section(o[1], s[1]),
      exportVarList := Section(o[2], s[2]), exportFuncList := Section(o[3], s[3]),
      pragmaList := Section(o[4], s[4]), funcTable := Section(o[5], s[5]),
      objectSlotList := Section(o[6], s[6]), checksum := XorAll(owner.context))
  }

  /** The information file a successful `writeCacheFile` produces. */
  function WrittenImage(env: Env, prior: seq<seq<char>>, deps: seq<Dependency>,
                        owner: Owner, libRSThreadable: nat): CacheImage
  {
    var strs := PoolStrings(prior, deps, owner);
    var base := |prior| + |deps| + |owner.funcs|;
    CacheImage(FinalHeader(env, prior, deps, owner, libRSThreadable),
               PoolImageOf(strs, env), DepTable(deps, |prior|),
               owner.exportVars, owner.exportFuncs,
               PragmaTable(|owner.pragmas|, base),
               FuncTable(owner.funcs, |prior| + |deps|), owner.objectSlots)
  }

  /** Where each step's strings sit in the pool. */
  lemma PoolStringsAt(prior: seq<seq<char>>, deps: seq<Dependency>, owner: Owner)
    ensures var strs := PoolStrings(prior, deps, owner);
      var base := |prior| + |deps| + |owner.funcs|;
      |strs| == base + 2 * |owner.pragmas| &&
      (forall i | 0 <= i < |deps| :: strs[|prior| + i] == deps[i].name) &&
      (forall i | 0 <= i < |owner.funcs| :: strs[|prior| + |deps| + i] == owner.funcs[i].name) &&
      (forall i | 0 <= i < |owner.pragmas| ::
        strs[base + 2 * i] == owner.pragmas[i].0 && strs[base + 2 * i + 1] == owner.pragmas[i].1)
  {
    var ps := PragmaStrings(owner.pragmas);
    forall i | 0 <= i < |owner.pragmas|
      ensures ps[2 * i] == owner.pragmas[i].0 && ps[2 * i + 1] == owner.pragmas[i].1
    {
      assert (2 * i) / 2 == i && (2 * i + 1) / 2 == i;
    }
  }

  /** The dependency records name the dependencies' resource names. */
  lemma DependencyNamesReadBack(env: Env, prior: seq<seq<char>>, deps: seq<Dependency>, owner: Owner)
    ensures var pool := PoolImageOf(PoolStrings(prior, deps, owner), env);
      forall i | 0 <= i < |deps| ::
        ReadString(pool, DepTable(deps, |prior|)[i].nameIndex) == Some(deps[i].name)
  {
    var strs := PoolStrings(prior, deps, owner);
    PoolRoundTrip(strs, env);
    PoolStringsAt(prior, deps, owner);
    forall i | 0 <= i < |deps|
      ensures ReadString(PoolImageOf(strs, env), DepTable(deps, |prior|)[i].nameIndex) == Some(deps[i].name)
    {
      assert DepTable(deps, |prior|)[i].nameIndex == |prior| + i;
    }
  }

  /** The function records name the exported functions. */
  lemma FunctionNamesReadBack(env: Env, prior: seq<seq<char>>, deps: seq<Dependency>, owner: Owner)
    ensures var pool := PoolImageOf(PoolStrings(prior, deps, owner), env);
      forall i | 0 <= i < |owner.funcs| ::
        ReadString(pool, FuncTable(owner.funcs, |prior| + |deps|)[i].nameIndex) ==
          Some(owner.funcs[i].name)
  {
    var strs := PoolStrings(prior, deps, owner);
    PoolRoundTrip(strs, env);
    PoolStringsAt(prior, deps, owner);
    forall i | 0 <= i < |owner.funcs|
      ensures ReadString(PoolImageOf(strs, env), FuncTable(owner.funcs, |prior| + |deps|)[i].nameIndex) ==
        Some(owner.funcs[i].name)
    {
      assert FuncTable(owner.funcs, |prior| + |deps|)[i].nameIndex == |prior| + |deps| + i;
    }
  }

  /** Pragma i's record names pool strings `base + 2i` and `base + 2i + 1`,
    * which are its key and value. */
  lemma PragmaNamesReadBack(env: Env, prior: seq<seq<char>>, deps: seq<Dependency>, owner: Owner,
                                i: nat)
    requires i < |owner.pragmas|
    ensures var pool := PoolImageOf(PoolStrings(prior, deps, owner), env);
      var base := |prior| + |deps| + |owner.funcs|;
      ReadString(pool, PragmaTable(|owner.pragmas|, base)[i].keyIndex) == Some(owner.pragmas[i].0) &&
      ReadString(pool, PragmaTable(|owner.pragmas|, base)[i].valueIndex) == Some(owner.pragmas[i].1)
  {
    var strs := PoolStrings(prior, deps, owner);
    var base := |prior| + |deps| + |owner.funcs|;
    assert PragmaTable(|owner.pragmas|, base)[i] == PragmaEntry(base + 2 * i, base + 2 * i + 1);
    assert strs[base + 2 * i] == owner.pragmas[i].0 && strs[base + 2 * i + 1] == owner.pragmas[i].1 by {
      PragmaStringsAt(owner.pragmas, i);
    }
    PoolRoundTrip(strs, env);
  }

  /** The sections are laid out in order, word aligned, without overlap, and
    * each is large enough to hold its count word. */
  lemma WrittenLayout(env: Env, prior: seq<seq<char>>, deps: seq<Dependency>,
                      owner: Owner, libRSThreadable: nat, k: nat)
    requires k < 7
    ensures var s := SectionSizes(env, prior, deps, owner);
      var o := Layout(env.headerSize, s);
      o[k] % IntSize == 0 && env.headerSize <= o[k] &&
      o[k] + s[k] <= LayoutEnd(env.headerSize, s) &&
      s[k] >= env.sizeTSize &&
      (k < 6 ==> o[k] + s[k] <= o[k + 1])
  {
    var s := SectionSizes(env, prior, deps, owner);
    LayoutPlacement(env.headerSize, s, k);
    MulNonneg(env.strEntrySize, |PoolStrings(prior, deps, owner)|);
    MulNonneg(env.depEntrySize, |deps|);
    MulNonneg(env.ptrSize, |owner.exportVars|);
    MulNonneg(env.ptrSize, |owner.exportFuncs|);
    MulNonneg(env.pragmaEntrySize, |owner.pragmas|);
    MulNonneg(env.funcEntrySize, |owner.funcs|);
  }

  // ---------------------------------------------------------------------
  // Loops shared by the writers.

  /** `calcSectionOffset`'s cursor walk: pad to a word, record, advance. */
  method CalcSectionOffsets(start: nat, sizes: seq<nat>) returns (offs: seq<nat>, end: nat)
    ensures offs == Layout(start, sizes)
    ensures end == LayoutEnd(start, sizes)
  {
    offs, end := [], start;
    var i := 0;
    while i < |sizes|
      invariant 0 <= i <= |sizes|
      invariant offs == Layout(start, sizes[..i])
      invariant end == LayoutEnd(start, sizes[..i])
    {
      var rem := end % IntSize;
      if rem > 0 {
        end := end + (IntSize - rem);
      }
      PadUpIsAlignUp(LayoutEnd(start, sizes[..i]), IntSize);
      assert sizes[..i + 1][..i] == sizes[..i];
      offs := offs + [end];
      end := end + sizes[i];
      i := i + 1;
    }
    assert sizes[..i] == sizes;
  }

  /** `calcContextChecksum`: XOR of the context words. */
  method ContextChecksum(ctx: seq<bv32>) returns (sum: bv32)
    ensures sum == XorAll(ctx)
  {
    sum := 0;
    var i := 0;
    while i < |ctx|
      invariant 0 <= i <= |ctx|
      invariant sum == XorAll(ctx[..i])
    {
      assert ctx[..i + 1][..i] == ctx[..i];
      sum := sum ^ ctx[i];
      i := i + 1;
    }
    assert ctx[..i] == ctx;
  }

  /** `prepareStringPool`: one entry per string, offsets from the end of the
    * entry table advancing by length + 1, a NUL after every string. */
  method BuildStringPool(strs: seq<seq<char>>, env: Env) returns (pool: PoolImage)
    ensures pool == PoolImageOf(strs, env)
  {
    var tableEnd := PoolTableEnd(|strs|, env);
    var entries: seq<StrEntry> := [];
    var text: seq<char> := [];
    var strOffset := tableEnd;
    var i := 0;
    while i < |strs|
      invariant 0 <= i <= |strs|
      invariant entries == PoolEntries(strs[..i], tableEnd)
      invariant text == Terminated(strs[..i])
      invariant strOffset == tableEnd + |text|
    {
      assert strs[..i + 1][..i] == strs[..i];
      entries := entries + [StrEntry(strOffset, |strs[i]|)];
      text := text + strs[i] + ['\0'];
      strOffset := strOffset + |strs[i]| + 1;
      i := i + 1;
    }
    assert strs[..i] == strs;
    pool := PoolImage(|strs|, entries, Zeros(tableEnd) + text);
  }

  // ---------------------------------------------------------------------
  // Where the libbcc writer differs.

  /** The libbcc writer asks the script for a flat list of strings and reads
    * it as pairs: key 2i, value 2i + 1; a trailing odd string is dropped. */
  function PragmaPairs(strings: seq<seq<char>>): (ps: seq<(seq<char>, seq<char>)>)
    ensures |ps| == |strings| / 2
    ensures forall i | 0 <= i < |ps| :: ps[i] == (strings[2 * i], strings[2 * i + 1])
  {
    seq(|strings| / 2, i requires 0 <= i < |strings| / 2 => (strings[2 * i], strings[2 * i + 1]))
  }

  /** Flattening the pairs again gives back every string but a trailing odd
    * one. */
  lemma PragmaPairsRoundTrip(strings: seq<seq<char>>)
    ensures PragmaStrings(PragmaPairs(strings)) == strings[..2 * (|strings| / 2)]
  {
    var ps := PragmaPairs(strings);
    var flat := PragmaStrings(ps);
    forall k | 0 <= k < 2 * |ps|
      ensures flat[k] == strings[k]
    {
      assert k == 2 * (k / 2) + k % 2;
    }
  }

  /** The libbcc `calcSectionOffset`: six word-aligned sections (string pool,
    * dependency table, export variables, export functions, pragmas, function
    * table), then the context rounded up to a page. */
  method LibBccCalcSectionOffset(headerSize: nat, sizes: seq<nat>, pageSize: nat)
    returns (offs: seq<nat>, contextOffset: nat)
    requires |sizes| == 6 && pageSize >= 1
    ensures offs == Layout(headerSize, sizes)
    ensures contextOffset % pageSize == 0
    ensures LayoutEnd(headerSize, sizes) <= contextOffset < LayoutEnd(headerSize, sizes) + pageSize
    ensures forall k | 0 <= k < 6 :: offs[k] + sizes[k] <= contextOffset
  {
    var end;
    offs, end := CalcSectionOffsets(headerSize, sizes);
    var rem := end % pageSize;
    if rem > 0 {
      end := end + (pageSize - rem);
    }
    PadUpIsAlignUp(LayoutEnd(headerSize, sizes), pageSize);
    contextOffset := end;
    forall k | 0 <= k < 6
      ensures offs[k] + sizes[k] <= contextOffset
    {
      LayoutPlacement(headerSize, sizes, k);
    }
  }

  /** The libbcc `prepareStringPool` as written: the running offset advances
    * by the string's length only, not past its NUL, while the bytes are laid
    * out as in `PoolImageOf`; the pool's count field is never assigned (taken
    * here, most favourably, as the number of strings). */
  function PoolEntriesAsWritten(strs: seq<seq<char>>, tableEnd: nat): (es: seq<StrEntry>)
    ensures |es| == |strs|
  {
    if |strs| == 0 then []
    else
      var prefix := strs[..|strs| - 1];
      PoolEntriesAsWritten(prefix, tableEnd) +
        [StrEntry(tableEnd + SumLengths(prefix), |strs[|strs| - 1]|)]
  }

  /** Σ length over the strings. */
  function SumLengths(strs: seq<seq<char>>): nat
  {
    if |strs| == 0 then 0 else SumLengths(strs[..|strs| - 1]) + |strs[|strs| - 1]|
  }

  function LibBccPoolAsWritten(strs: seq<seq<char>>, env: Env): PoolImage
  {
    var t := PoolTableEnd(|strs|, env);
    PoolImage(|strs|, PoolEntriesAsWritten(strs, t), Zeros(t) + Terminated(strs))
  }

  /** With two one-letter strings the second entry points at the first
    * string's NUL: the reader's NUL check fails and the string reads back
    * wrong. */
  lemma LibBccPoolAsWrittenBreaksReadBack(env: Env)
    ensures var p := LibBccPoolAsWritten(["a", "b"], env);
      !CheckStringPool(p) && ReadString(p, 1) != Some("b")
  {
    var strs: seq<seq<char>> := ["a", "b"];
    var t := PoolTableEnd(2, env);
    var p := LibBccPoolAsWritten(strs, env);
    assert strs[..1] == ["a"];
    assert strs[..1][..0] == [];
    assert Terminated(strs[..1]) == "a\0";
    assert SumLengths(strs[..1]) == 1;
    assert Terminated(strs) == "a\0b\0";
    assert p.entries[1] == StrEntry(t + 1, 1);
    assert p.bytes[t + 2] == 'b';
    assert !EntryTerminated(p, 1);
    assert ReadString(p, 1) == Some(p.bytes[t + 1..t + 2]);
    assert p.bytes[t + 1] == '\0';
  }

  // ---------------------------------------------------------------------
  // The execution engine's writer.

  class Writer {
    const env: Env
    /** mStringPool: strings added so far, in order. */
    var stringPool: seq<seq<char>>
    /** mDependencies, in key order. */
    const dependencies: seq<Dependency>
    var header: Header
    var poolSection: PoolImage
    var dependTable: seq<DepEntry>
    var funcTable: seq<FuncRecord>
    var pragmaList: seq<PragmaEntry>
    var exportVars: seq<nat>
    var exportFuncs: seq<nat>
    var objectSlots: seq<nat>
    /** What `writeAll` left in the two files, if it ran. */
    var infoFile: Option<CacheImage>
    var objFile: Option<seq<bv32>>

    constructor(env: Env, dependencies: seq<Dependency>)
      ensures this.env == env && this.dependencies == dependencies
      ensures stringPool == [] && infoFile == None && objFile == None
    {
      this.env := env;
      this.dependencies := dependencies;
      stringPool := [];
      header := ZeroHeader();
      poolSection := PoolImage(0, [], []);
      dependTable, funcTable, pragmaList := [], [], [];
      exportVars, exportFuncs, objectSlots := [], [], [];
      infoFile, objFile := None, None;
    }

    /** `addString`: appends and returns the new string's index. */
    method AddString(s: seq<char>) returns (idx: nat)
      modifies this`stringPool
      ensures stringPool == old(stringPool) + [s]
      ensures idx == |old(stringPool)| && stringPool[idx] == s
    {
      stringPool := stringPool + [s];
      idx := |stringPool| - 1;
    }

    method PrepareHeader(owner: Owner, libRSThreadable: nat, allocOk: bool) returns (ok: bool)
      modifies this`header
      ensures ok == allocOk
      ensures ok ==> header == PreparedHeader(env, owner, libRSThreadable)
      ensures !ok ==> header == old(header)
    {
      ok := allocOk;
      if ok {
        header := PreparedHeader(env, owner, libRSThreadable);
      }
    }

    method PrepareDependencyTable(allocOk: bool) returns (ok: bool)
      modifies this`header, this`dependTable, this`stringPool
      ensures ok == allocOk
      ensures ok ==> header == old(header).(dependTab := Section(old(header).dependTab.offset, DepTableSize(env, |dependencies|)))
      ensures ok ==> dependTable == DepTable(dependencies, |old(stringPool)|)
      ensures ok ==> stringPool == old(stringPool) + DepNames(dependencies)
    {
      ok := allocOk;
      if !ok { return; }
      var base := |stringPool|;
      var table: seq<DepEntry> := [];
      var i := 0;
      while i < |dependencies|
        invariant 0 <= i <= |dependencies|
        modifies this`stringPool
        invariant stringPool == old(stringPool) + DepNames(dependencies[..i])
        invariant table == DepTable(dependencies[..i], base)
      {
        var idx := AddString(dependencies[i].name);
        table := table + [DepEntry(idx, dependencies[i].resType, dependencies[i].sha1)];
        i := i + 1;
      }
      assert dependencies[..i] == dependencies;
      dependTable := table;
      header := header.(dependTab := header.dependTab.(size := DepTableSize(env, |dependencies|)));
    }

    method PrepareFuncTable(funcs: seq<FuncInfo>, allocOk: bool) returns (ok: bool)
      modifies this`header, this`funcTable, this`stringPool
      ensures ok == allocOk
      ensures ok ==> header == old(header).(funcTable := Section(old(header).funcTable.offset, FuncTableSize(env, |funcs|)))
      ensures ok ==> funcTable == FuncTable(funcs, |old(stringPool)|)
      ensures ok ==> stringPool == old(stringPool) + FuncNames(funcs)
    {
      ok := allocOk;
      if !ok { return; }
      var base := |stringPool|;
      var table: seq<FuncRecord> := [];
      var i := 0;
      while i < |funcs|
        invariant 0 <= i <= |funcs|
        modifies this`stringPool
        invariant stringPool == old(stringPool) + FuncNames(funcs[..i])
        invariant table == FuncTable(funcs[..i], base)
      {
        var idx := AddString(funcs[i].name);
        table := table + [FuncRecord(idx, funcs[i].addr, funcs[i].size)];
        i := i + 1;
      }
      assert funcs[..i] == funcs;
      funcTable := table;
      header := header.(funcTable := header.funcTable.(size := FuncTableSize(env, |funcs|)));
    }

    method PreparePragmaList(pragmas: seq<(seq<char>, seq<char>)>, allocOk: bool) returns (ok: bool)
      modifies this`header, this`pragmaList, this`stringPool
      ensures ok == allocOk
      ensures ok ==> header == old(header).(pragmaList := Section(old(header).pragmaList.offset, PragmaListSize(env, |pragmas|)))
      ensures ok ==> pragmaList == PragmaTable(|pragmas|, |old(stringPool)|)
      ensures ok ==> stringPool == old(stringPool) + PragmaStrings(pragmas)
    {
      ok := allocOk;
      if !ok { return; }
      var base := |stringPool|;
      var list: seq<PragmaEntry> := [];
      var i := 0;
      while i < |pragmas|
        invariant 0 <= i <= |pragmas|
        modifies this`stringPool
        invariant stringPool == old(stringPool) + PragmaStrings(pragmas[..i])
        invariant list == PragmaTable(i, base)
      {
        PragmaStringsSnoc(pragmas, i);
        var keyIdx := AddString(pragmas[i].0);
        var valueIdx := AddString(pragmas[i].1);
        list := list + [PragmaEntry(keyIdx, valueIdx)];
        i := i + 1;
      }
      assert pragmas[..i] == pragmas;
      pragmaList := list;
      header := header.(pragmaList := header.pragmaList.(size := PragmaListSize(env, |pragmas|)));
    }

    method PrepareStringPool(allocOk: bool) returns (ok: bool)
      modifies this`header, this`poolSection
      ensures ok == allocOk
      ensures ok ==> poolSection == PoolImageOf(stringPool, env)
      ensures ok ==> header == old(header).(strPool := Section(old(header).strPool.offset, |poolSection.bytes|))
    {
      ok := allocOk;
      if !ok { return; }
      poolSection := BuildStringPool(stringPool, env);
      header := header.(strPool := header.strPool.(size := |poolSection.bytes|));
    }

    method PrepareExportLists(owner: Owner, varOk: bool, funcOk: bool, slotOk: bool) returns (ok: bool)
      modifies this`header, this`exportVars, this`exportFuncs, this`objectSlots
      ensures ok == (varOk && funcOk && slotOk)
      ensures ok ==> (exportVars == owner.exportVars && exportFuncs == owner.exportFuncs &&
                      objectSlots == owner.objectSlots)
      ensures ok ==> header == old(header).(
        exportVarList := Section(old(header).exportVarList.offset, AddrListSize(env, |owner.exportVars|)),
        exportFuncList := Section(old(header).exportFuncList.offset, AddrListSize(env, |owner.exportFuncs|)),
        objectSlotList := Section(old(header).objectSlotList.offset, SlotListSize(env, |owner.objectSlots|)))
    {
      ok := varOk;
      if !ok { return; }
      header := header.(exportVarList := header.exportVarList.(size := AddrListSize(env, |owner.exportVars|)));
      exportVars := owner.exportVars;
      ok := funcOk;
      if !ok { return; }
      header := header.(exportFuncList := header.exportFuncList.(size := AddrListSize(env, |owner.exportFuncs|)));
      exportFuncs := owner.exportFuncs;
      ok := slotOk;
      if !ok { return; }
      header := header.(objectSlotList := header.objectSlotList.(size := SlotListSize(env, |owner.objectSlots|)));
      objectSlots := owner.objectSlots;
    }

    method CalcSectionOffset()
      modifies this`header
      ensures var s := [old(header).strPool.size, old(header).dependTab.size,
                        old(header).exportVarList.size, old(header).exportFuncList.size,
                        old(header).pragmaList.size, old(header).funcTable.size,
                        old(header).objectSlotList.size];
        var o := Layout(env.headerSize, s);
        header == old(header).(
          strPool := Section(o[0], s[0]), dependTab := Section(o[1], s[1]),
          exportVarList := Section(o[2], s[2]), exportFuncList := Section(o[3], s[3]),
          pragmaList := Section(o[4], s[4]), funcTable := Section(o[5], s[5]),
          objectSlotList := Section(o[6], s[6]))
    {
      var h := header;
      var s := [h.strPool.size, h.dependTab.size, h.exportVarList.size,
                h.exportFuncList.size, h.pragmaList.size, h.funcTable.size,
                h.objectSlotList.size];
      var o, _ := CalcSectionOffsets(env.headerSize, s);
      header := h.(
        strPool := Section(o[0], s[0]), dependTab := Section(o[1], s[1]),
        exportVarList := Section(o[2], s[2]), exportFuncList := Section(o[3], s[3]),
        pragmaList := Section(o[4], s[4]), funcTable := Section(o[5], s[5]),
        objectSlotList := Section(o[6], s[6]));
    }

    method CalcContextChecksum(context: seq<bv32>)
      modifies this`header
      ensures header == old(header).(checksum := XorAll(context))
    {
      var sum := ContextChecksum(context);
      header := header.(checksum := sum);
    }

    /** `writeAll`: the information file receives the header and every
      * section; the object file receives the context. */
    method WriteAll(context: seq<bv32>, writeOk: bool) returns (ok: bool)
      modifies this`infoFile, this`objFile
      ensures ok == writeOk
      ensures ok ==> infoFile == Some(CacheImage(header, poolSection, dependTable,
        exportVars, exportFuncs, pragmaList, funcTable, objectSlots))
      ensures ok ==> objFile == Some(context)
    {
      ok := writeOk;
      if ok {
        infoFile := Some(CacheImage(header, poolSection, dependTable,
          exportVars, exportFuncs, pragmaList, funcTable, objectSlots));
        objFile := Some(context);
      }
    }

    /** The dependency, function and pragma steps, which add their names to
      * the string pool. */
    method PrepareNamedTables(owner: Owner, depOk: bool, funcOk: bool, pragmaOk: bool)
      returns (ok: bool)
      modifies this`header, this`stringPool, this`dependTable, this`funcTable, this`pragmaList
      ensures ok == (depOk && funcOk && pragmaOk)
      ensures ok ==> header == old(header).(
        dependTab := Section(old(header).dependTab.offset, DepTableSize(env, |dependencies|)),
        funcTable := Section(old(header).funcTable.offset, FuncTableSize(env, |owner.funcs|)),
        pragmaList := Section(old(header).pragmaList.offset, PragmaListSize(env, |owner.pragmas|)))
      ensures ok ==> stringPool == PoolStrings(old(stringPool), dependencies, owner)
      ensures ok ==> dependTable == DepTable(dependencies, |old(stringPool)|)
      ensures ok ==> funcTable == FuncTable(owner.funcs, |old(stringPool)| + |dependencies|)
      ensures ok ==> pragmaList == PragmaTable(|owner.pragmas|,
                                               |old(stringPool)| + |dependencies| + |owner.funcs|)
    {
      ok := PrepareDependencyTable(depOk);
      if !ok { return; }
      ok := PrepareFuncTable(owner.funcs, funcOk);
      if !ok { return; }
      ok := PreparePragmaList(owner.pragmas, pragmaOk);
    }

    /** The string-pool and export-list steps, which only size and fill
      * their sections. */
    method PreparePoolAndLists(owner: Owner, poolOk: bool, varOk: bool, funcOk: bool, slotOk: bool)
      returns (ok: bool)
      modifies this`header, this`poolSection, this`exportVars, this`exportFuncs, this`objectSlots
      ensures ok == (poolOk && varOk && funcOk && slotOk)
      ensures ok ==> header == old(header).(
        strPool := Section(old(header).strPool.offset, |poolSection.bytes|),
        exportVarList := Section(old(header).exportVarList.offset, AddrListSize(env, |owner.exportVars|)),
        exportFuncList := Section(old(header).exportFuncList.offset, AddrListSize(env, |owner.exportFuncs|)),
        objectSlotList := Section(old(header).objectSlotList.offset, SlotListSize(env, |owner.objectSlots|)))
      ensures ok ==> poolSection == PoolImageOf(stringPool, env)
      ensures ok ==> (exportVars == owner.exportVars && exportFuncs == owner.exportFuncs &&
                      objectSlots == owner.objectSlots)
    {
      ok := PrepareStringPool(poolOk);
      if !ok { return; }
      ok := PrepareExportLists(owner, varOk, funcOk, slotOk);
    }

    /** The prepare steps of `writeCacheFile`, in order, stopping at the
      * first allocation that fails. */
    method PrepareSections(owner: Owner, libRSThreadable: nat, allocOk: seq<bool>)
      returns (ok: bool)
      requires |allocOk| == 8
      modifies this`header, this`stringPool, this`poolSection, this`dependTable,
               this`funcTable, this`pragmaList, this`exportVars, this`exportFuncs,
               this`objectSlots
      ensures ok <==> (allocOk[0] && allocOk[1] && allocOk[2] && allocOk[3] &&
                       allocOk[4] && allocOk[5] && allocOk[6] && allocOk[7])
      ensures ok ==> header == HeaderWithSizes(env, owner, libRSThreadable, |poolSection.bytes|,
                                               |dependencies|)
      ensures ok ==> stringPool == PoolStrings(old(stringPool), dependencies, owner)
      ensures ok ==> poolSection == PoolImageOf(stringPool, env)
      ensures ok ==> dependTable == DepTable(dependencies, |old(stringPool)|)
      ensures ok ==> funcTable == FuncTable(owner.funcs, |old(stringPool)| + |dependencies|)
      ensures ok ==> pragmaList == PragmaTable(|owner.pragmas|,
                                               |old(stringPool)| + |dependencies| + |owner.funcs|)
      ensures ok ==> (exportVars == owner.exportVars && exportFuncs == owner.exportFuncs &&
                      objectSlots == owner.objectSlots)
    {
      ghost var prior := stringPool;
      ok := PrepareHeader(owner, libRSThreadable, allocOk[0]);
      if !ok { return; }
      ok := PrepareNamedTables(owner, allocOk[1], allocOk[2], allocOk[3]);
      if !ok { return; }
      ok := PreparePoolAndLists(owner, allocOk[4], allocOk[5], allocOk[6], allocOk[7]);
      if !ok { return; }
      HeaderWithSizesSteps(env, owner, libRSThreadable, |poolSection.bytes|, |dependencies|);
    }

    /** The steps of `writeCacheFile` after the prepare steps: lay out the
      * sections, record the checksum, write both files. */
    method LayOutAndWrite(owner: Owner, libRSThreadable: nat, writeOk: bool,
                          ghost prior: seq<seq<char>>) returns (ok: bool)
      requires header == HeaderWithSizes(env, owner, libRSThreadable, |poolSection.bytes|,
                                         |dependencies|)
      requires stringPool == PoolStrings(prior, dependencies, owner)
      requires poolSection == PoolImageOf(stringPool, env)
      requires dependTable == DepTable(dependencies, |prior|)
      requires funcTable == FuncTable(owner.funcs, |prior| + |dependencies|)
      requires pragmaList == PragmaTable(|owner.pragmas|, |prior| + |dependencies| + |owner.funcs|)
      requires exportVars == owner.exportVars && exportFuncs == owner.exportFuncs &&
               objectSlots == owner.objectSlots
      modifies this`header, this`infoFile, this`objFile
      ensures ok == writeOk
      ensures ok ==> infoFile == Some(WrittenImage(env, prior, dependencies, owner, libRSThreadable))
      ensures ok ==> objFile == Some(owner.context)
    {
      ghost var img := WrittenImage(env, prior, dependencies, owner, libRSThreadable);
      assert img.pool == poolSection;
      assert img.dependTable == dependTable;
      assert img.funcTable == funcTable;
      assert img.pragmaList == pragmaList;
      CalcSectionOffset();
      CalcContextChecksum(owner.context);
      assert img.header == header;
      assert img == CacheImage(header, poolSection, dependTable, exportVars, exportFuncs,
                               pragmaList, funcTable, objectSlots);
      ok := WriteAll(owner.context, writeOk);
    }

    /** `writeCacheFile`: refuses a missing or closed file handle, then runs
      * the steps in order and stops at the first that fails. The allocation
      * and write outcomes are parameters. */
    method WriteCacheFile(objFd: Option<int>, infoFd: Option<int>, owner: Owner,
                          libRSThreadable: nat, allocOk: seq<bool>, writeOk: bool)
      returns (ok: bool)
      requires |allocOk| == 8
      modifies this
      ensures ok <==> (objFd.Some? && objFd.value >= 0 && infoFd.Some? && infoFd.value >= 0 &&
                       false !in allocOk && writeOk)
      ensures ok ==> infoFile == Some(WrittenImage(env, old(stringPool), dependencies, owner, libRSThreadable))
      ensures ok ==> objFile == Some(owner.context)
    {
      if objFd.None? || objFd.value < 0 || infoFd.None? || infoFd.value < 0 {
        return false;
      }
      ghost var prior := stringPool;
      ok := PrepareSections(owner, libRSThreadable, allocOk);
      assert ok <==> false !in allocOk;
      if !ok { return; }
      ok := LayOutAndWrite(owner, libRSThreadable, writeOk, prior);
    }
  }
}
