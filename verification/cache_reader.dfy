// The oBCC cache readers: the checks each step of `readCacheFile` makes on
// the header and sections, the chain of steps, and what a successful read
// yields. The execution engine's reader is checked against its writer.

module CacheReader {
  import opened Common
  import opened CacheFormat
  import opened CacheWriter
  import ContextManager

  /** Context words the parity loop visits: ContextSize / sizeof(uint32_t). */
  const ContextWords: nat := ContextManager.ContextSize / 4

  // ---------------------------------------------------------------------
  // The execution engine's checks.

  /** `checkFileSize`: the information file holds a header and the object
    * file holds a whole context. */
  predicate CheckFileSize(infoSize: nat, objSize: nat, env: Env)
  {
    infoSize >= env.headerSize && objSize >= ContextManager.ContextSize
  }

  /** `checkHeader`: the 4-byte magic and version words match. */
  predicate CheckHeader(h: Header, env: Env)
  {
    h.magic == env.magic && h.version == env.version
  }

  /** `checkMachineIntType`: the endianness mark and the off_t, size_t and
    * pointer sizes are this host's. */
  predicate CheckMachineIntType(h: Header, env: Env)
  {
    h.endianness == EndiannessMark(env.littleEndian) &&
    h.offTSize == env.offTSize && h.sizeTSize == env.sizeTSize && h.ptrSize == env.ptrSize
  }

  /** One `CHECK_SECTION_OFFSET`: inside the file, word aligned, and big
    * enough for its count word. */
  predicate SectionOk(s: Section, fileSize: nat, env: Env)
  {
    s.offset <= fileSize && s.offset + s.size <= fileSize &&
    s.offset % IntSize == 0 && s.size >= env.sizeTSize
  }

  /** `checkSectionOffsetAndSize`: five sections (not the function table or
    * the object-slot list) and a page-aligned cached context address. */
  predicate CheckSectionOffsetAndSize(h: Header, fileSize: nat, env: Env)
    requires env.Valid()
  {
    SectionOk(h.strPool, fileSize, env) && SectionOk(h.dependTab, fileSize, env) &&
    SectionOk(h.exportVarList, fileSize, env) && SectionOk(h.exportFuncList, fileSize, env) &&
    SectionOk(h.pragmaList, fileSize, env) &&
    h.contextCachedAddr % env.pageSize == 0
  }

  /** `checkDependency`: as many cached dependencies as given ones and, in map
    * order, the same names, SHA-1s and resource types. */
  predicate CheckDependency(given: seq<Dependency>, table: seq<DepEntry>, pool: PoolImage)
  {
    |given| == |table| &&
    forall i | 0 <= i < |table| ::
      ReadString(pool, table[i].nameIndex) == Some(given[i].name) &&
      given[i].sha1 == table[i].sha1 && given[i].resType == table[i].resType
  }

  /** `checkContext`: start from the stored checksum, XOR in every context
    * word, and pass iff the result is 0. */
  method CheckContext(context: seq<bv32>, checksum: bv32) returns (ok: bool)
    ensures ok <==> XorAll(context) == checksum
  {
    var sum := checksum;
    var i := 0;
    while i < |context|
      invariant 0 <= i <= |context|
      invariant sum == XorAll([checksum] + context[..i])
    {
      assert ([checksum] + context[..i + 1])[..i + 1] == [checksum] + context[..i];
      sum := sum ^ context[i];
      i := i + 1;
    }
    assert context[..i] == context;
    XorPrepend(checksum, context);
    XorZero(checksum, XorAll(context));
    ok := sum == 0;
  }

  /** Two words XOR to 0 exactly when they are equal. */
  lemma XorZero(a: bv32, b: bv32)
    ensures a ^ b == 0 <==> b == a
  {
  }

  /** Folding a word in first is XOR-ing it into the fold of the rest. */
  lemma {:induction false} XorPrepend(w: bv32, ws: seq<bv32>)
    ensures XorAll([w] + ws) == w ^ XorAll(ws)
  {
    if |ws| > 0 {
      var n := |ws| - 1;
      assert ([w] + ws)[..n + 1] == [w] + ws[..n];
      XorPrepend(w, ws[..n]);
      var x := XorAll(ws[..n]);
      assert (w ^ x) ^ ws[n] == w ^ (x ^ ws[n]);
    }
  }

  /** What a successful read hands to the script: the sections as read and
    * the mapped context. */
  datatype Cached = Cached(
    libRSThreadable: bool, pool: PoolImage, exportVars: seq<nat>, exportFuncs: seq<nat>,
    pragmas: seq<PragmaEntry>, funcs: seq<FuncRecord>, objectSlots: seq<nat>,
    context: seq<bv32>)

  /** The outcomes of the steps that touch the outside world: allocating the
    * result, the seeks and reads of the sections, and mapping the context at
    * its cached address. */
  datatype ReadIO = ReadIO(resultAllocated: bool, readsOk: bool, contextMapped: bool)

  /** The outcome of each step of `readCacheFile`, in chain order. */
  function ReaderSteps(img: CacheImage, infoSize: nat, objSize: nat, context: seq<bv32>,
                       deps: seq<Dependency>, env: Env, io: ReadIO): (steps: seq<bool>)
    requires env.Valid()
    ensures |steps| == 16
  {
    [CheckFileSize(infoSize, objSize, env),
     io.readsOk,                                      // readHeader
     CheckHeader(img.header, env),
     CheckMachineIntType(img.header, env),
     CheckSectionOffsetAndSize(img.header, infoSize, env),
     io.readsOk,                                      // readStringPool
     CheckStringPool(img.pool),
     io.readsOk,                                      // readDependencyTable
     CheckDependency(deps, img.dependTable, img.pool),
     io.readsOk, io.readsOk, io.readsOk, io.readsOk,  // export vars, export funcs, pragmas, function table
     io.readsOk,                                      // readObjectSlotList
     io.contextMapped,                                // readContext
     XorAll(context) == img.header.checksum]          // checkContext
  }

  /** `readCacheFile`: refuses a missing or closed handle, then yields a
    * result iff every step of the chain succeeds. */
  function ReadCacheFile(objFd: Option<int>, infoFd: Option<int>, img: CacheImage,
                         infoSize: nat, objSize: nat, context: seq<bv32>,
                         deps: seq<Dependency>, env: Env, io: ReadIO): (r: Option<Cached>)
    requires env.Valid()
    ensures r.Some? <==>
      objFd.Some? && objFd.value >= 0 && infoFd.Some? && infoFd.value >= 0 &&
      io.resultAllocated &&
      FirstFailure(ReaderSteps(img, infoSize, objSize, context, deps, env, io)) == 16
    ensures r.Some? ==>
      r.value.pool == img.pool && r.value.pragmas == img.pragmaList &&
      r.value.funcs == img.funcTable && r.value.context == context &&
      XorAll(r.value.context) == img.header.checksum &&
      CheckStringPool(r.value.pool)
  {
    if objFd.None? || objFd.value < 0 || infoFd.None? || infoFd.value < 0 then None
    else if !io.resultAllocated then None
    else if false in ReaderSteps(img, infoSize, objSize, context, deps, env, io) then None
    else
      assert ReaderSteps(img, infoSize, objSize, context, deps, env, io)[6];
      assert ReaderSteps(img, infoSize, objSize, context, deps, env, io)[15];
      Some(Cached(img.header.libRSThreadable != 0, img.pool, img.exportVars,
                  img.exportFuncs, img.pragmaList, img.funcTable, img.objectSlots, context))
  }

  /** The header the writer produces passes every header check of the
    * reader on the same host, against a file that ends where the last
    * section ends. */
  lemma WrittenHeaderPasses(env: Env, prior: seq<seq<char>>, deps: seq<Dependency>,
                            owner: Owner, libRSThreadable: nat)
    requires env.Valid()
    requires owner.contextAddr % env.pageSize == 0
    ensures var h := FinalHeader(env, prior, deps, owner, libRSThreadable);
      var infoSize := LayoutEnd(env.headerSize, SectionSizes(env, prior, deps, owner));
      infoSize >= env.headerSize &&
      CheckHeader(h, env) && CheckMachineIntType(h, env) &&
      CheckSectionOffsetAndSize(h, infoSize, env) &&
      h.checksum == XorAll(owner.context)
  {
    var h := FinalHeader(env, prior, deps, owner, libRSThreadable);
    var infoSize := LayoutEnd(env.headerSize, SectionSizes(env, prior, deps, owner));
    WrittenLayout(env, prior, deps, owner, libRSThreadable, 0);
    WrittenLayout(env, prior, deps, owner, libRSThreadable, 1);
    WrittenLayout(env, prior, deps, owner, libRSThreadable, 2);
    WrittenLayout(env, prior, deps, owner, libRSThreadable, 3);
    WrittenLayout(env, prior, deps, owner, libRSThreadable, 4);
    assert SectionOk(h.strPool, infoSize, env);
    assert SectionOk(h.dependTab, infoSize, env);
    assert SectionOk(h.exportVarList, infoSize, env);
    assert SectionOk(h.exportFuncList, infoSize, env);
    assert SectionOk(h.pragmaList, infoSize, env);
  }

  /** The pool and dependency table the writer produces pass the reader's
    * string-pool and dependency checks for the same dependencies. */
  lemma WrittenTablesPass(env: Env, prior: seq<seq<char>>, deps: seq<Dependency>, owner: Owner)
    ensures var pool := PoolImageOf(PoolStrings(prior, deps, owner), env);
      CheckStringPool(pool) && CheckDependency(deps, DepTable(deps, |prior|), pool)
  {
    PoolRoundTrip(PoolStrings(prior, deps, owner), env);
    DependencyNamesReadBack(env, prior, deps, owner);
  }

  /** `readCacheFile` succeeds on an image whose every check passes and
    * whose I/O works. */
  lemma ChecksPassThenRead(img: CacheImage, infoSize: nat, objSize: nat, context: seq<bv32>,
                           deps: seq<Dependency>, env: Env, objFd: int, infoFd: int)
    requires env.Valid() && objFd >= 0 && infoFd >= 0
    requires CheckFileSize(infoSize, objSize, env)
    requires CheckHeader(img.header, env) && CheckMachineIntType(img.header, env)
    requires CheckSectionOffsetAndSize(img.header, infoSize, env)
    requires CheckStringPool(img.pool) && CheckDependency(deps, img.dependTable, img.pool)
    requires XorAll(context) == img.header.checksum
    ensures ReadCacheFile(Some(objFd), Some(infoFd), img, infoSize, objSize, context,
                          deps, env, ReadIO(true, true, true)).Some?
  {
    var steps := ReaderSteps(img, infoSize, objSize, context, deps, env, ReadIO(true, true, true));
    assert forall k | 0 <= k < 16 :: steps[k];
  }

  /** In the written image, pragma record i names pragma i's key and value. */
  lemma WrittenPragmaReadsBack(env: Env, prior: seq<seq<char>>, deps: seq<Dependency>,
                               owner: Owner, libRSThreadable: nat, i: nat)
    requires i < |owner.pragmas|
    ensures var img := WrittenImage(env, prior, deps, owner, libRSThreadable);
      i < |img.pragmaList| &&
      ReadString(img.pool, img.pragmaList[i].keyIndex) == Some(owner.pragmas[i].0) &&
      ReadString(img.pool, img.pragmaList[i].valueIndex) == Some(owner.pragmas[i].1)
  {
    PragmaNamesReadBack(env, prior, deps, owner, i);
  }

  /** The writer's output passes every check of the reader on the same
    * host, and the reader hands back the written pool, pragma list and
    * context. */
  lemma WrittenFileReads(env: Env, prior: seq<seq<char>>, deps: seq<Dependency>,
                         owner: Owner, libRSThreadable: nat, objFd: int, infoFd: int)
    requires env.Valid()
    requires owner.contextAddr % env.pageSize == 0
    requires objFd >= 0 && infoFd >= 0
    ensures var img := WrittenImage(env, prior, deps, owner, libRSThreadable);
      var infoSize := LayoutEnd(env.headerSize, SectionSizes(env, prior, deps, owner));
      var r := ReadCacheFile(Some(objFd), Some(infoFd), img, infoSize,
                             ContextManager.ContextSize, owner.context, deps, env,
                             ReadIO(true, true, true));
      r.Some? && r.value.context == owner.context &&
      r.value.pool == img.pool && r.value.pragmas == img.pragmaList
  {
    var img := WrittenImage(env, prior, deps, owner, libRSThreadable);
    var infoSize := LayoutEnd(env.headerSize, SectionSizes(env, prior, deps, owner));
    WrittenHeaderPasses(env, prior, deps, owner, libRSThreadable);
    WrittenTablesPass(env, prior, deps, owner);
    ChecksPassThenRead(img, infoSize, ContextManager.ContextSize, owner.context,
                       deps, env, objFd, infoFd);
  }

  /** The writer's output reads back on the same host: given the files it
    * wrote, the same dependencies and working I/O, every check passes and the
    * strings named by the cached pragmas are the pragmas the writer got. */
  lemma WriteThenRead(env: Env, prior: seq<seq<char>>, deps: seq<Dependency>,
                      owner: Owner, libRSThreadable: nat, objFd: int, infoFd: int)
    requires env.Valid()
    requires owner.contextAddr % env.pageSize == 0
    requires objFd >= 0 && infoFd >= 0
    ensures var img := WrittenImage(env, prior, deps, owner, libRSThreadable);
      var infoSize := LayoutEnd(env.headerSize, SectionSizes(env, prior, deps, owner));
      var r := ReadCacheFile(Some(objFd), Some(infoFd), img, infoSize,
                             ContextManager.ContextSize, owner.context, deps, env,
                             ReadIO(true, true, true));
      r.Some? && r.value.context == owner.context &&
      |r.value.pragmas| == |owner.pragmas| &&
      forall i | 0 <= i < |owner.pragmas| ::
        ReadString(r.value.pool, r.value.pragmas[i].keyIndex) == Some(owner.pragmas[i].0) &&
        ReadString(r.value.pool, r.value.pragmas[i].valueIndex) == Some(owner.pragmas[i].1)
  {
    var img := WrittenImage(env, prior, deps, owner, libRSThreadable);
    WrittenFileReads(env, prior, deps, owner, libRSThreadable, objFd, infoFd);
    forall i | 0 <= i < |owner.pragmas|
      ensures ReadString(img.pool, img.pragmaList[i].keyIndex) == Some(owner.pragmas[i].0)
      ensures ReadString(img.pool, img.pragmaList[i].valueIndex) == Some(owner.pragmas[i].1)
    {
      WrittenPragmaReadsBack(env, prior, deps, owner, libRSThreadable, i);
    }
  }

  // ---------------------------------------------------------------------
  // The libbcc reader.

  /** `checkFileSize`: one file holding at least a header and a context. */
  predicate LibBccCheckFileSize(fileSize: nat, env: Env)
  {
    fileSize >= env.headerSize && fileSize >= ContextManager.ContextSize
  }

  /** `checkSectionOffsetAndSize`: six sections including the relocation
    * table, then the context inside the file at a page-aligned offset, and a
    * page-aligned cached address. */
  predicate LibBccCheckSectionOffsetAndSize(h: Header, fileSize: nat, env: Env)
    requires env.Valid()
  {
    SectionOk(h.strPool, fileSize, env) && SectionOk(h.dependTab, fileSize, env) &&
    SectionOk(h.relocTab, fileSize, env) &&
    SectionOk(h.exportVarList, fileSize, env) && SectionOk(h.exportFuncList, fileSize, env) &&
    SectionOk(h.pragmaList, fileSize, env) &&
    h.contextOffset <= fileSize && h.contextOffset + ContextManager.ContextSize <= fileSize &&
    h.contextOffset % env.pageSize == 0 &&
    h.contextCachedAddr % env.pageSize == 0
  }

  /** The libbcc writer never sizes a relocation table, so the size stays at
    * the 0 the header was cleared to, and its own reader rejects the file. */
  lemma LibBccRelocTableRejected(h: Header, fileSize: nat, env: Env)
    requires env.Valid()
    requires h.relocTab.size == ZeroHeader().relocTab.size
    ensures !LibBccCheckSectionOffsetAndSize(h, fileSize, env)
  {
  }

  /** The steps of the libbcc `readCacheFile`: `readDependencyTable` and
    * `checkDependency` accept anything and `readFuncTable` always fails. */
  function LibBccReaderSteps(img: CacheImage, fileSize: nat, context: seq<bv32>,
                             env: Env, io: ReadIO): (steps: seq<bool>)
    requires env.Valid()
    ensures |steps| == 15
    ensures !steps[12]
  {
    [LibBccCheckFileSize(fileSize, env),
     io.readsOk,                                      // readHeader
     CheckHeader(img.header, env),
     CheckMachineIntType(img.header, env),
     LibBccCheckSectionOffsetAndSize(img.header, fileSize, env),
     io.readsOk,                                      // readStringPool
     CheckStringPool(img.pool),
     true, true,                                      // readDependencyTable, checkDependency
     io.readsOk, io.readsOk, io.readsOk,              // export vars, export funcs, pragmas
     false,                                           // readFuncTable
     io.contextMapped,                                // readContext
     XorAll(context) == img.header.checksum]          // checkContext
  }

  /** `readCacheFile` yields a result iff the handle is open and every step
    * succeeds. */
  function LibBccReadCacheFile(fd: Option<int>, img: CacheImage, fileSize: nat,
                               context: seq<bv32>, env: Env, io: ReadIO): (r: Option<Cached>)
    requires env.Valid()
    ensures r.Some? <==> (fd.Some? && fd.value >= 0 && io.resultAllocated &&
      FirstFailure(LibBccReaderSteps(img, fileSize, context, env, io)) == 15)
  {
    if fd.None? || fd.value < 0 || !io.resultAllocated then None
    else if false in LibBccReaderSteps(img, fileSize, context, env, io) then None
    else Some(Cached(img.header.libRSThreadable != 0, img.pool, img.exportVars,
                     img.exportFuncs, img.pragmaList, img.funcTable, img.objectSlots, context))
  }

  /** So the libbcc reader never yields a result, and the chain stops at
    * `readFuncTable` at the latest. */
  lemma LibBccReadCacheFileNeverSucceeds(fd: Option<int>, img: CacheImage, fileSize: nat,
                                         context: seq<bv32>, env: Env, io: ReadIO)
    requires env.Valid()
    ensures LibBccReadCacheFile(fd, img, fileSize, context, env, io).None?
    ensures FirstFailure(LibBccReaderSteps(img, fileSize, context, env, io)) <= 12
  {
  }
}
