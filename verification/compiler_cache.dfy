// The libbcc compiler's own cache format: the cache file name, the header
// `genCacheFile` lays out, the pragma table it writes, the checks
// `checkHeaderAndDependencies` and `loadCacheFile` make, and the cached
// `lookup`.

module CompilerCache {
  import opened Common
  import opened CacheFormat
  import opened CacheWriter
  import CodeMemory
  import CacheReader

  // ---------------------------------------------------------------------
  // Cache file names.

  predicate Absolute(path: seq<char>)
  {
    |path| > 0 && path[0] == '/'
  }

  /** The name before flattening: the working directory and a '/' in front
    * of a relative resource name, then the resource name and the
    * extension. */
  function CacheFileBase(resName: seq<char>, extName: Option<seq<char>>, cwd: seq<char>): (r: seq<char>)
    ensures |r| > 0
  {
    (if Absolute(resName) then [] else cwd + ['/']) + resName +
    (if extName.Some? then extName.value else [])
  }

  /** Every '/' after the first character turned into '@'. */
  function Flattened(name: seq<char>): (r: seq<char>)
    ensures |r| == |name|
    ensures forall i | 1 <= i < |r| :: r[i] != '/'
    ensures |name| > 0 ==> r[0] == name[0]
  {
    seq(|name|, i requires 0 <= i < |name| => if i > 0 && name[i] == '/' then '@' else name[i])
  }

  /** The cache file name for a resource: none when the name is relative
    * and the working directory cannot be had. */
  function CacheFileName(cacheDir: seq<char>, resName: seq<char>, extName: Option<seq<char>>,
                         cwd: Option<seq<char>>): Option<seq<char>>
  {
    if !Absolute(resName) && cwd.None? then None
    else Some(cacheDir + Flattened(CacheFileBase(resName, extName, if cwd.Some? then cwd.value else [])))
  }

  /** `genCacheFileName`: no name when the working directory is needed and
    * cannot be had; otherwise the cache directory followed by the flattened
    * name, rewritten in place one character at a time. */
  method GenCacheFileName(cacheDir: seq<char>, resName: seq<char>, extName: Option<seq<char>>,
                          cwd: Option<seq<char>>) returns (r: Option<seq<char>>)
    ensures r.None? <==> (!Absolute(resName) && cwd.None?)
    ensures r.Some? ==>
      var base := CacheFileBase(resName, extName, if cwd.Some? then cwd.value else []);
      |r.value| == |cacheDir| + |base| && r.value[..|cacheDir|] == cacheDir &&
      (forall i | 0 <= i < |base| ::
        r.value[|cacheDir| + i] == (if i > 0 && base[i] == '/' then '@' else base[i]))
    ensures r == CacheFileName(cacheDir, resName, extName, cwd)
  {
    if !Absolute(resName) && cwd.None? {
      return None;
    }
    var file := CacheFileBase(resName, extName, if cwd.Some? then cwd.value else []);
    var buf := new char[|file|](k requires 0 <= k < |file| => file[k]);
    var i := 1;
    while i < buf.Length
      invariant 1 <= i <= buf.Length
      invariant forall k | 0 <= k < i :: buf[k] == Flattened(file)[k]
      invariant forall k | i <= k < buf.Length :: buf[k] == file[k]
    {
      if buf[i] == '/' {
        buf[i] := '@';
      }
      i := i + 1;
    }
    assert buf[..] == Flattened(file);
    r := Some(cacheDir + buf[..]);
  }

  /** Flattening twice is flattening once: a flattened name has no '/'
    * left to rewrite. */
  lemma FlattenedIdempotent(name: seq<char>)
    ensures Flattened(Flattened(name)) == Flattened(name)
  {
  }

  // ---------------------------------------------------------------------
  // The oBCC header of the compiler's cache files.

  const ObccMagic: seq<char> := "bcc\n"
  const ObccVersion: seq<char> := ['0', '0', '1', '\0']
  /** sizeof(oBCCRelocEntry): three 32-bit words. */
  const RelocEntrySize: nat := 12
  /** sizeof(oBCCPragmaEntry): four 32-bit words. */
  const PragmaRecordSize: nat := 16
  /** sizeof(uint32_t), the export-table entry size. */
  const WordSize: nat := 4

  datatype CacheHeader = CacheHeader(
    magic: seq<char>, version: seq<char>,
    sourceWhen: nat, rslibWhen: nat, libRSWhen: nat, libbccWhen: nat,
    sourceSha1: seq<byte>,
    cachedCodeDataAddr: nat, rootAddr: nat, initAddr: nat, libRSThreadable: nat,
    relocOffset: nat, relocCount: nat,
    exportVarsOffset: nat, exportVarsCount: nat,
    exportFuncsOffset: nat, exportFuncsCount: nat,
    exportPragmasOffset: nat, exportPragmasCount: nat, exportPragmasSize: nat,
    codeOffset: nat, codeSize: nat, dataOffset: nat, dataSize: nat,
    checksum: bv32)

  /** What the compiler has when it writes the cache. */
  datatype Compiled = Compiled(
    relocCount: nat, exportVars: seq<nat>, exportFuncs: seq<nat>,
    pragmas: seq<(seq<char>, seq<char>)>,
    codeDataAddr: nat, rootAddr: nat, initAddr: nat, libRSThreadable: nat,
    sourceSha1: seq<byte>, context: seq<bv32>)

  /** What the host contributes: sizeof(oBCCHeader), the page size and the
    * modification times of libRS and libbcc. */
  datatype Host = Host(headerSize: nat, pageSize: nat, libRSWhen: nat, libbccWhen: nat)

  /** Bytes of the pragma table: the records, then every name and value
    * with its NUL. */
  function PragmaTableSize(ps: seq<(seq<char>, seq<char>)>): nat
  {
    PragmaRecordSize * |ps| + PragmaStringBytes(ps)
  }

  /** Σ (|name| + 1 + |value| + 1) over the pragmas. */
  function PragmaStringBytes(ps: seq<(seq<char>, seq<char>)>): nat
  {
    if |ps| == 0 then 0
    else PragmaStringBytes(ps[..|ps| - 1]) + |ps[|ps| - 1].0| + |ps[|ps| - 1].1| + 2
  }

  /** The pair-wise sum is the length of the names and values laid out
    * with their terminators. */
  lemma {:induction false} PragmaStringBytesIsTerminated(ps: seq<(seq<char>, seq<char>)>)
    ensures PragmaStringBytes(ps) == |Terminated(PragmaStrings(ps))|
  {
    if |ps| == 0 {
      assert PragmaStrings(ps) == [];
    } else {
      var n := |ps| - 1;
      assert ps[..n + 1] == ps;
      PragmaStringBytesIsTerminated(ps[..n]);
      PragmaStringsSnoc(ps, n);
      TerminatedLength(PragmaStrings(ps[..n]));
      TerminatedLength(PragmaStrings(ps));
      SumTerminatedPair(PragmaStrings(ps[..n]), ps[n].0, ps[n].1);
    }
  }

  /** The header `genCacheFile` writes. */
  function GeneratedHeader(c: Compiled, host: Host): CacheHeader
    requires host.pageSize >= 1
  {
    var varsOff := host.headerSize + RelocEntrySize * c.relocCount;
    var funcsOff := varsOff + WordSize * |c.exportVars|;
    var pragmasOff := funcsOff + WordSize * |c.exportFuncs|;
    var codeOff := AlignUp(pragmasOff + PragmaTableSize(c.pragmas), host.pageSize);
    CacheHeader(ObccMagic, ObccVersion, 0, 0, host.libRSWhen, host.libbccWhen, c.sourceSha1,
                c.codeDataAddr, c.rootAddr, c.initAddr, c.libRSThreadable,
                host.headerSize, c.relocCount,
                varsOff, |c.exportVars|, funcsOff, |c.exportFuncs|,
                pragmasOff, |c.pragmas|, PragmaTableSize(c.pragmas),
                codeOff, CodeMemory.MaxCodeSize, codeOff + CodeMemory.MaxCodeSize,
                CodeMemory.MaxGlobalVarSize, XorAll(c.context))
  }

  lemma SumTerminatedPair(strs: seq<seq<char>>, k: seq<char>, v: seq<char>)
    ensures SumTerminated(strs + [k, v]) == SumTerminated(strs) + |k| + |v| + 2
  {
    var s := strs + [k, v];
    assert s[..|s| - 1] == strs + [k];
    assert (strs + [k])[..|strs|] == strs;
  }

  /** The header part of `genCacheFile`: the running offset past the
    * relocation, variable, function and pragma tables, the pragma strings
    * added one pragma at a time, the page padding in front of the code,
    * and the context parity. */
  method GenCacheHeader(c: Compiled, host: Host) returns (h: CacheHeader)
    requires host.pageSize >= 1
    ensures h == GeneratedHeader(c, host)
  {
    var offset := host.headerSize;
    var relocOffset := offset;
    offset := offset + c.relocCount * RelocEntrySize;
    var varsOffset := offset;
    offset := offset + |c.exportVars| * WordSize;
    var funcsOffset := offset;
    offset := offset + |c.exportFuncs| * WordSize;
    var pragmasOffset := offset;
    var pragmasSize := |c.pragmas| * PragmaRecordSize;
    offset := offset + |c.pragmas| * PragmaRecordSize;
    var i := 0;
    while i < |c.pragmas|
      invariant 0 <= i <= |c.pragmas|
      invariant pragmasSize == PragmaRecordSize * |c.pragmas| + PragmaStringBytes(c.pragmas[..i])
      invariant offset == pragmasOffset + pragmasSize
    {
      assert c.pragmas[..i + 1][..i] == c.pragmas[..i];
      offset := offset + |c.pragmas[i].0| + 1;
      offset := offset + |c.pragmas[i].1| + 1;
      pragmasSize := pragmasSize + |c.pragmas[i].0| + |c.pragmas[i].1| + 2;
      i := i + 1;
    }
    assert c.pragmas[..i] == c.pragmas;
    var rem := offset % host.pageSize;
    PadUpIsAlignUp(offset, host.pageSize);
    if rem > 0 {
      offset := offset + (host.pageSize - rem);
    }
    var codeOffset := offset;
    var sum := ContextChecksum(c.context);
    h := CacheHeader(ObccMagic, ObccVersion, 0, 0, host.libRSWhen, host.libbccWhen, c.sourceSha1,
                     c.codeDataAddr, c.rootAddr, c.initAddr, c.libRSThreadable,
                     relocOffset, c.relocCount,
                     varsOffset, |c.exportVars|, funcsOffset, |c.exportFuncs|,
                     pragmasOffset, |c.pragmas|, pragmasSize,
                     codeOffset, CodeMemory.MaxCodeSize, codeOffset + CodeMemory.MaxCodeSize,
                     CodeMemory.MaxGlobalVarSize, sum);
  }

  /** The tables follow one another without overlap from the end of the
    * header, the code starts on a page boundary after the pragma table, and
    * the data follows the code. */
  lemma GeneratedLayout(c: Compiled, host: Host)
    requires host.pageSize >= 1
    ensures var h := GeneratedHeader(c, host);
      h.relocOffset == host.headerSize &&
      h.relocOffset + RelocEntrySize * h.relocCount == h.exportVarsOffset &&
      h.exportVarsOffset + WordSize * h.exportVarsCount == h.exportFuncsOffset &&
      h.exportFuncsOffset + WordSize * h.exportFuncsCount == h.exportPragmasOffset &&
      h.exportPragmasOffset + h.exportPragmasSize <= h.codeOffset &&
      h.codeOffset < h.exportPragmasOffset + h.exportPragmasSize + host.pageSize &&
      h.codeOffset % host.pageSize == 0 &&
      h.dataOffset == h.codeOffset + h.codeSize
  {
    var h := GeneratedHeader(c, host);
    PadUpIsAlignUp(h.exportPragmasOffset + h.exportPragmasSize, host.pageSize);
  }

  // ---------------------------------------------------------------------
  // The pragma table.

  /** One `oBCCPragmaEntry`: offsets are from the start of the table. */
  datatype PragmaRecord = PragmaRecord(nameOffset: nat, nameSize: nat, valueOffset: nat, valueSize: nat)

  /** The table as written: the records, then the NUL-terminated names and
    * values in record order. */
  datatype PragmaTable = PragmaTable(records: seq<PragmaRecord>, strings: seq<char>)

  /** The records `genCacheFile` computes: the running offset starts past the
    * records and grows by each name's and value's length plus one. */
  function PragmaRecords(ps: seq<(seq<char>, seq<char>)>): (r: seq<PragmaRecord>)
    ensures |r| == |ps|
  {
    seq(|ps|, i requires 0 <= i < |ps| =>
      var name := PragmaNameOffset(ps, i);
      PragmaRecord(name, |ps[i].0|, name + |ps[i].0| + 1, |ps[i].1|))
  }

  /** Where pragma i's name starts: past the records and the names and
    * values of the pragmas before it. */
  function PragmaNameOffset(ps: seq<(seq<char>, seq<char>)>, i: nat): nat
    requires i < |ps|
  {
    PragmaRecordSize * |ps| + PragmaStringBytes(ps[..i])
  }

  function PragmaTableOf(ps: seq<(seq<char>, seq<char>)>): PragmaTable
  {
    PragmaTable(PragmaRecords(ps), Terminated(PragmaStrings(ps)))
  }

  /** Reading `size` characters at table offset `offset`: present iff they
    * lie in the string area and a NUL follows them. */
  function ReadPragmaString(t: PragmaTable, offset: nat, size: nat): (r: Option<seq<char>>)
    ensures r.Some? <==>
      (var start := PragmaRecordSize * |t.records|;
       start <= offset && offset - start + size < |t.strings| &&
       t.strings[offset - start + size] == '\0')
    ensures r.Some? ==> |r.value| == size
  {
    var start := PragmaRecordSize * |t.records|;
    if start <= offset && offset - start + size < |t.strings| &&
       t.strings[offset - start + size] == '\0'
    then Some(t.strings[offset - start..offset - start + size])
    else None
  }

  lemma PragmaStringsPrefix(ps: seq<(seq<char>, seq<char>)>, i: nat)
    requires i <= |ps|
    ensures PragmaStrings(ps)[..2 * i] == PragmaStrings(ps[..i])
  {
  }

  /** The pragma-record loop of `genCacheFile`. */
  method WritePragmaRecords(ps: seq<(seq<char>, seq<char>)>) returns (records: seq<PragmaRecord>)
    ensures records == PragmaRecords(ps)
  {
    var offset := |ps| * PragmaRecordSize;
    records := [];
    var i := 0;
    while i < |ps|
      invariant 0 <= i <= |ps|
      invariant records == PragmaRecords(ps)[..i]
      invariant offset == PragmaRecordSize * |ps| + PragmaStringBytes(ps[..i])
    {
      var nameOffset := offset;
      offset := offset + |ps[i].0| + 1;
      var valueOffset := offset;
      offset := offset + |ps[i].1| + 1;
      assert ps[..i + 1][..i] == ps[..i];
      PrefixSnoc(PragmaRecords(ps), i);
      records := records + [PragmaRecord(nameOffset, |ps[i].0|, valueOffset, |ps[i].1|)];
      i := i + 1;
    }
    assert PragmaRecords(ps)[..i] == PragmaRecords(ps);
  }

  /** A string of a terminated sequence reads back from where its
    * predecessors end. */
  lemma ReadTerminatedString(t: PragmaTable, strs: seq<seq<char>>, j: nat)
    requires t.strings == Terminated(strs) && j < |strs|
    ensures ReadPragmaString(t, PragmaRecordSize * |t.records| + |Terminated(strs[..j])|, |strs[j]|)
            == Some(strs[j])
  {
    TerminatedAt(strs, j);
  }

  /** The record offsets are where the flattened names and values start. */
  lemma PragmaRecordOffsets(ps: seq<(seq<char>, seq<char>)>, i: nat)
    requires i < |ps|
    ensures var r := PragmaRecords(ps)[i];
      var strs := PragmaStrings(ps);
      r.nameOffset == PragmaRecordSize * |ps| + |Terminated(strs[..2 * i])| &&
      r.valueOffset == PragmaRecordSize * |ps| + |Terminated(strs[..2 * i + 1])| &&
      r.nameSize == |strs[2 * i]| && r.valueSize == |strs[2 * i + 1]|
  {
    var strs := PragmaStrings(ps);
    var before := strs[..2 * i];
    PragmaStringsPrefix(ps, i);
    PragmaStringsAt(ps, i);
    PragmaStringBytesIsTerminated(ps[..i]);
    assert strs[..2 * i + 1][..2 * i] == before;
    assert Terminated(strs[..2 * i + 1]) == Terminated(before) + ps[i].0 + ['\0'];
  }

  /** Record i leads back to pragma i's name. */
  lemma PragmaNameReadsBack(ps: seq<(seq<char>, seq<char>)>, i: nat)
    requires i < |ps|
    ensures var t := PragmaTableOf(ps);
      ReadPragmaString(t, t.records[i].nameOffset, t.records[i].nameSize) == Some(ps[i].0)
  {
    var t := PragmaTableOf(ps);
    var strs := PragmaStrings(ps);
    assert |t.records| == |ps| && t.strings == Terminated(strs);
    PragmaRecordOffsets(ps, i);
    PragmaStringsAt(ps, i);
    ReadTerminatedString(t, strs, 2 * i);
  }

  /** Record i leads back to pragma i's value. */
  lemma PragmaValueReadsBack(ps: seq<(seq<char>, seq<char>)>, i: nat)
    requires i < |ps|
    ensures var t := PragmaTableOf(ps);
      ReadPragmaString(t, t.records[i].valueOffset, t.records[i].valueSize) == Some(ps[i].1)
  {
    var t := PragmaTableOf(ps);
    var strs := PragmaStrings(ps);
    assert |t.records| == |ps| && t.strings == Terminated(strs);
    PragmaRecordOffsets(ps, i);
    PragmaStringsAt(ps, i);
    ReadTerminatedString(t, strs, 2 * i + 1);
  }

  /** Every record leads back to its own name and value, and the table's
    * size is the header's `exportPragmasSize`. */
  lemma PragmaTableRoundTrip(ps: seq<(seq<char>, seq<char>)>)
    ensures var t := PragmaTableOf(ps);
      PragmaRecordSize * |t.records| + |t.strings| == PragmaTableSize(ps) &&
      forall i | 0 <= i < |ps| ::
        ReadPragmaString(t, t.records[i].nameOffset, t.records[i].nameSize) == Some(ps[i].0) &&
        ReadPragmaString(t, t.records[i].valueOffset, t.records[i].valueSize) == Some(ps[i].1)
  {
    PragmaStringBytesIsTerminated(ps);
    forall i | 0 <= i < |ps|
      ensures var t := PragmaTableOf(ps);
        ReadPragmaString(t, t.records[i].nameOffset, t.records[i].nameSize) == Some(ps[i].0) &&
        ReadPragmaString(t, t.records[i].valueOffset, t.records[i].valueSize) == Some(ps[i].1)
    {
      PragmaNameReadsBack(ps, i);
      PragmaValueReadsBack(ps, i);
    }
  }

  // ---------------------------------------------------------------------
  // Validation when the cache is opened and loaded.

  /** `checkHeaderAndDependencies` once the header is read: the magic and
    * version match, each recorded time is 0 or the current one, and the
    * recorded source SHA-1 is the current one. */
  predicate HeaderAndDependenciesOk(h: CacheHeader, rslibWhen: nat, libRSWhen: nat,
                                    libbccWhen: nat, sourceSha1: seq<byte>)
  {
    h.magic == ObccMagic && h.version == ObccVersion &&
    (h.rslibWhen == 0 || h.rslibWhen == rslibWhen) &&
    (h.libRSWhen == 0 || h.libRSWhen == libRSWhen) &&
    (h.libbccWhen == 0 || h.libbccWhen == libbccWhen) &&
    h.sourceSha1 == sourceSha1
  }

  /** `checkHeaderAndDependencies`: fails when the header cannot be read. */
  function CheckHeaderAndDependencies(readOk: bool, h: CacheHeader, rslibWhen: nat,
                                      libRSWhen: nat, libbccWhen: nat,
                                      sourceSha1: seq<byte>): (ok: bool)
    ensures ok <==> readOk && HeaderAndDependenciesOk(h, rslibWhen, libRSWhen, libbccWhen, sourceSha1)
  {
    readOk && h.magic == ObccMagic && h.version == ObccVersion &&
    !(h.rslibWhen != 0 && h.rslibWhen != rslibWhen) &&
    !(h.libRSWhen != 0 && h.libRSWhen != libRSWhen) &&
    !(h.libbccWhen != 0 && h.libbccWhen != libbccWhen) &&
    h.sourceSha1 == sourceSha1
  }

  /** A header the compiler generated passes while libRS, libbcc and the
    * source are unchanged (whatever rslib's time), and fails once the
    * source changes. */
  lemma GeneratedHeaderFreshness(c: Compiled, host: Host, rslibWhen: nat, sha1: seq<byte>)
    requires host.pageSize >= 1
    ensures var ok := HeaderAndDependenciesOk(GeneratedHeader(c, host), rslibWhen,
                                              host.libRSWhen, host.libbccWhen, sha1);
      ok <==> sha1 == c.sourceSha1
  {
  }

  /** 2^32: the header's fields are `uint32_t`, and on the 32-bit target
    * `size_t` is too, so the table checks' sums and products wrap. */
  const U32: nat := 0x1_0000_0000

  /** A sum of header fields as the 32-bit target computes it. */
  function Sum32(a: nat, b: nat): (r: nat)
    ensures r < U32 && r <= a + b && (a + b - r) % U32 == 0
    ensures a + b < U32 ==> r == a + b
  {
    (a + b) % U32
  }

  /** `loadCacheFile`'s checks on the non-code part, in order: the file is
    * larger than the code and data and holds a header, the code sits exactly
    * code-and-data bytes before the end (compared as a `uint32_t`), the
    * magic and version match, every table's end, computed in 32 bits, is
    * within the file, and the code offset is page aligned. */
  predicate LoadableLayout(size: nat, h: CacheHeader, host: Host)
    requires host.pageSize >= 1
  {
    size >= host.headerSize &&
    size > CodeMemory.MaxCodeSize + CodeMemory.MaxGlobalVarSize &&
    h.codeOffset == (size - CodeMemory.MaxCodeSize - CodeMemory.MaxGlobalVarSize) % U32 &&
    h.magic == ObccMagic && h.version == ObccVersion &&
    size >= Sum32(h.relocOffset, (h.relocCount * RelocEntrySize) % U32) &&
    size >= Sum32(h.exportVarsOffset, (h.exportVarsCount * WordSize) % U32) &&
    size >= Sum32(h.exportFuncsOffset, (h.exportFuncsCount * WordSize) % U32) &&
    size >= Sum32(h.exportPragmasOffset, h.exportPragmasSize) &&
    size >= Sum32(h.codeOffset, h.codeSize) &&
    size >= Sum32(h.dataOffset, h.dataSize) &&
    h.codeOffset % host.pageSize == 0
  }

  /** The checks let a section through whose end passes 2^32: a data
    * section moved to 0xFFFFF000 with 0x2000 bytes ends past the file, yet
    * its wrapped end 0x1000 is within it, so the layout is still accepted. */
  lemma WrappedDataSectionAccepted(size: nat, h: CacheHeader, host: Host)
    requires host.pageSize >= 1 && LoadableLayout(size, h, host) && size < U32
    ensures var w := h.(dataOffset := 0xFFFF_F000, dataSize := 0x2000);
      LoadableLayout(size, w, host) && w.dataOffset + w.dataSize > size
  {
    var w := h.(dataOffset := 0xFFFF_F000, dataSize := 0x2000);
    assert Sum32(w.dataOffset, w.dataSize) == 0x1000;
  }

  /** The outcomes of `loadCacheFile`'s system calls: fstat, seek and read of
    * the non-code part, its buffer allocation, and where `allocateContext`
    * mapped the code and data (None when it failed). */
  datatype LoadIO = LoadIO(statOk: bool, readOk: bool, bufferOk: bool, mapped: Option<nat>)

  /** Everything `loadCacheFile` demands before it returns 0. */
  predicate LoadSucceeds(fd: int, size: nat, h: CacheHeader, context: seq<bv32>,
                         host: Host, io: LoadIO)
    requires host.pageSize >= 1
  {
    fd >= 0 && io.statOk && io.readOk && io.bufferOk &&
    LoadableLayout(size, h, host) &&
    h.cachedCodeDataAddr % host.pageSize == 0 &&
    io.mapped == Some(h.cachedCodeDataAddr) &&
    XorAll(context) == h.checksum
  }

  /** The size of the file `genCacheFile` leaves: the code and data are
    * written last, at the code offset. */
  function GeneratedFileSize(c: Compiled, host: Host): nat
    requires host.pageSize >= 1
  {
    var h := GeneratedHeader(c, host);
    h.dataOffset + h.dataSize
  }

  /** Tables that follow one another from the header, then page-aligned code
    * and data ending the file, pass the layout checks when the file is
    * under 4 GiB: no 32-bit sum wraps. */
  lemma ChainedTablesLoadable(size: nat, h: CacheHeader, host: Host)
    requires host.pageSize >= 1 && host.headerSize >= 1 && size < U32
    requires h.magic == ObccMagic && h.version == ObccVersion
    requires h.relocOffset == host.headerSize
    requires h.relocOffset + RelocEntrySize * h.relocCount == h.exportVarsOffset
    requires h.exportVarsOffset + WordSize * h.exportVarsCount == h.exportFuncsOffset
    requires h.exportFuncsOffset + WordSize * h.exportFuncsCount == h.exportPragmasOffset
    requires h.exportPragmasOffset + h.exportPragmasSize <= h.codeOffset
    requires h.codeOffset % host.pageSize == 0
    requires h.codeSize == CodeMemory.MaxCodeSize && h.dataSize == CodeMemory.MaxGlobalVarSize
    requires h.dataOffset == h.codeOffset + h.codeSize && size == h.dataOffset + h.dataSize
    ensures LoadableLayout(size, h, host)
  {
    var relocSize := h.relocCount * RelocEntrySize;
    var varsSize := h.exportVarsCount * WordSize;
    var funcsSize := h.exportFuncsCount * WordSize;
    assert relocSize < U32 && varsSize < U32 && funcsSize < U32;
    assert relocSize % U32 == relocSize;
    assert varsSize % U32 == varsSize;
    assert funcsSize % U32 == funcsSize;
    var codeOffset := size - CodeMemory.MaxCodeSize - CodeMemory.MaxGlobalVarSize;
    assert h.codeOffset == codeOffset && codeOffset % U32 == codeOffset;
  }

  /** A cache the compiler wrote, smaller than 4 GiB, loads again on the
    * same host when the context can be mapped back at its old, page-aligned
    * address. */
  lemma GeneratedCacheLoads(c: Compiled, host: Host, fd: int)
    requires host.pageSize >= 1 && host.headerSize >= 1 && fd >= 0
    requires GeneratedFileSize(c, host) < U32
    requires c.codeDataAddr % host.pageSize == 0
    ensures LoadSucceeds(fd, GeneratedFileSize(c, host), GeneratedHeader(c, host), c.context,
                         host, LoadIO(true, true, true, Some(c.codeDataAddr)))
  {
    GeneratedLayout(c, host);
    ChainedTablesLoadable(GeneratedFileSize(c, host), GeneratedHeader(c, host), host);
  }

  /** A single corrupted context word makes the load fail. */
  lemma CorruptedContextFailsLoad(c: Compiled, host: Host, fd: int, i: nat, w: bv32)
    requires host.pageSize >= 1
    requires i < |c.context| && w != c.context[i]
    ensures !LoadSucceeds(fd, GeneratedFileSize(c, host), GeneratedHeader(c, host),
                          c.context[i := w], host, LoadIO(true, true, true, Some(c.codeDataAddr)))
  {
    ChecksumDetectsOneWord(c.context, i, w);
  }

  /** The cache part of `Compiler`. */
  class Compiler {
    var cacheFd: int
    var cacheNew: bool
    var useCache: bool
    var cacheLoadFailed: bool
    var cacheHdr: Option<CacheHeader>
    var codeDataAddr: Option<nat>

    constructor (fd: int, isNew: bool)
      ensures cacheFd == fd && cacheNew == isNew && useCache && !cacheLoadFailed
      ensures cacheHdr.None? && codeDataAddr.None?
    {
      cacheFd := fd;
      cacheNew := isNew;
      useCache := true;
      cacheLoadFailed := false;
      cacheHdr := None;
      codeDataAddr := None;
    }

    /** `loadCacheFile`: 0 with the header and the mapped context kept when
      * every check passes; otherwise 1, with the descriptor closed, caching
      * off and the failure recorded. */
    method LoadCacheFile(size: nat, h: CacheHeader, context: seq<bv32>, host: Host, io: LoadIO)
      returns (r: int)
      requires host.pageSize >= 1
      modifies this
      ensures r == 0 <==> LoadSucceeds(old(cacheFd), size, h, context, host, io)
      ensures r == 0 ==> cacheHdr == Some(h) && codeDataAddr == Some(h.cachedCodeDataAddr) &&
                         cacheFd == old(cacheFd) && useCache == old(useCache) &&
                         cacheLoadFailed == old(cacheLoadFailed) && cacheNew == old(cacheNew)
      ensures r != 0 ==> r == 1 && cacheFd == -1 && !useCache && cacheLoadFailed &&
                         cacheHdr.None? && codeDataAddr.None? && cacheNew == old(cacheNew)
    {
      var ok := cacheFd >= 0 && io.statOk;
      if ok {
        ok := size >= host.headerSize &&
              size > CodeMemory.MaxCodeSize + CodeMemory.MaxGlobalVarSize && io.readOk;
      }
      if ok {
        var heuristicCodeOffset := size - CodeMemory.MaxCodeSize - CodeMemory.MaxGlobalVarSize;
        ok := io.bufferOk && h.codeOffset == heuristicCodeOffset % U32 &&
              h.magic == ObccMagic && h.version == ObccVersion;
      }
      if ok {
        ok := !(size < (h.relocOffset + (h.relocCount * RelocEntrySize) % U32) % U32) &&
              !(size < (h.exportVarsOffset + (h.exportVarsCount * WordSize) % U32) % U32) &&
              !(size < (h.exportFuncsOffset + (h.exportFuncsCount * WordSize) % U32) % U32) &&
              !(size < (h.exportPragmasOffset + h.exportPragmasSize) % U32) &&
              !(size < (h.codeOffset + h.codeSize) % U32) &&
              !(size < (h.dataOffset + h.dataSize) % U32) &&
              h.codeOffset % host.pageSize == 0;
      }
      if ok {
        // Only a context mapped back at its cached address can be used.
        ok := h.cachedCodeDataAddr % host.pageSize == 0 &&
              io.mapped == Some(h.cachedCodeDataAddr);
      }
      if ok {
        ok := CacheReader.CheckContext(context, h.checksum);
      }
      if ok {
        cacheHdr := Some(h);
        codeDataAddr := Some(h.cachedCodeDataAddr);
        return 0;
      }
      cacheHdr := None;
      codeDataAddr := None;
      cacheFd := -1;
      useCache := false;
      cacheLoadFailed := true;
      return 1;
    }

    /** Whether `lookup` and the getters answer from the loaded cache. */
    predicate CacheHit()
      reads this
    {
      useCache && cacheFd >= 0 && !cacheNew
    }

    /** `lookup`: from a loaded cache only "root" and "init" are known;
      * otherwise the emitter's functions (0 stands for NULL). */
    function Lookup(name: seq<char>, emitted: Option<map<seq<char>, nat>>): (addr: nat)
      reads this
      requires CacheHit() ==> cacheHdr.Some?
      ensures CacheHit() && name != "root" && name != "init" ==> addr == 0
      ensures CacheHit() && name == "root" ==> addr == cacheHdr.value.rootAddr
      ensures CacheHit() && name == "init" ==> addr == cacheHdr.value.initAddr
      ensures !CacheHit() ==>
        addr == (if emitted.Some? && name in emitted.value then emitted.value[name] else 0)
    {
      if CacheHit() then
        if name == "root" then cacheHdr.value.rootAddr
        else if name == "init" then cacheHdr.value.initAddr
        else 0
      else if emitted.Some? && name in emitted.value then emitted.value[name]
      else 0
    }
  }

  /** After loading a cache it wrote, the compiler finds "root" and "init"
    * where the compiling run found them. */
  lemma LoadedLookupMatchesCompiled(cmp: Compiler, c: Compiled, host: Host,
                                    emitted: Option<map<seq<char>, nat>>)
    requires host.pageSize >= 1
    requires cmp.CacheHit() && cmp.cacheHdr == Some(GeneratedHeader(c, host))
    ensures cmp.Lookup("root", emitted) == c.rootAddr
    ensures cmp.Lookup("init", emitted) == c.initAddr
  {
  }
}
