// The execution engine's `Script`: it collects up to two bitcode sources,
// is prepared once (from a cache file or by compiling), and then answers
// queries through the cached or compiled object its status selects.
// Errors are written to `mErrorCode` directly by the operations, and
// through the sticky `setError` by callers.

module EEScript {
  import opened Common
  import opened ErrorRegister
  import opened SourceInfo
  import opened BoundedCopy
  import opened EEScriptCompiled

  datatype Status = Unknown | Compiled | Cached

  /** The dependencies the script's sources introduce to a cache reader or
    * writer: those of source 0, then those of source 1. */
  function SourceDependencies(sourceList: seq<Option<Source>>): (deps: seq<SourceDependency>)
    requires |sourceList| == 2
    requires forall i :: 0 <= i < 2 && sourceList[i].Some? ==> WellFormed(sourceList[i].value)
    ensures |deps| <= 2
    ensures forall d :: d in deps ==>
      exists i :: 0 <= i < 2 && sourceList[i].Some? && IntroDependency(sourceList[i].value) == Some(d)
  {
    var first := if sourceList[0].Some? then IntroDependency(sourceList[0].value) else None;
    var second := if sourceList[1].Some? then IntroDependency(sourceList[1].value) else None;
    (if first.Some? then [first.value] else []) + (if second.Some? then [second.value] else [])
  }

  /** The cache directory as `prepareExecutable` keeps it: a '/' is added to
    * a non-empty directory that lacks one. */
  function WithSeparator(dir: seq<char>): (d: seq<char>)
    ensures |dir| > 0 ==> |d| > 0 && d[|d| - 1] == '/'
    ensures dir <= d && |d| <= |dir| + 1
    ensures |dir| == 0 ==> d == dir
  {
    if |dir| > 0 && dir[|dir| - 1] != '/' then dir + "/" else dir
  }

  /** Adding the separator twice changes nothing. */
  lemma WithSeparatorIdempotent(dir: seq<char>)
    ensures WithSeparator(WithSeparator(dir)) == WithSeparator(dir)
  {
  }

  /** The build's JIT, which names the cache files: the old JIT's
    * ".jit-image" and ".oBCC", MCJIT's ".o" and ".info". */
  datatype Jit = OldJit | McJit

  function ObjectPath(jit: Jit, dir: seq<char>, name: seq<char>): seq<char>
  {
    dir + name + (if jit == OldJit then ".jit-image" else ".o")
  }

  function InfoPath(jit: Jit, dir: seq<char>, name: seq<char>): seq<char>
  {
    dir + name + (if jit == OldJit then ".oBCC" else ".info")
  }

  /** A cache reader's answer: the cached object, or none together with
    * whether that was for want of a context slot. */
  datatype ReadOutcome = ReadOutcome(cached: Option<ScriptCompiled>, contextSlotNotAvail: bool)

  /** What `internalLoadCache` meets outside the script: the build's JIT,
    * the digests of libbcc (read from "libbcc.so.sha1") and of libRS taken
    * at start-up, which files open for reading, and what the reader's
    * check and read make of the two files and the dependencies. */
  datatype CacheEnv = CacheEnv(
    jit: Jit, libBccSha1: seq<byte>, libRSSha1: seq<byte>,
    opens: seq<char> -> bool,
    check: (seq<char>, seq<char>, seq<SourceDependency>) -> bool,
    read: (seq<char>, seq<char>, seq<SourceDependency>) -> ReadOutcome)

  const LibBccSha1Path: seq<char> := "/system/lib/libbcc.so.sha1"
  const LibRSPath: seq<char> := "/system/lib/libRS.so"

  /** The dependencies the reader is given: libbcc's and libRS's, then the
    * sources'. */
  function ReaderDependencies(env: CacheEnv, sourceList: seq<Option<Source>>): (deps: seq<SourceDependency>)
    requires |sourceList| == 2
    requires forall i :: 0 <= i < 2 && sourceList[i].Some? ==> WellFormed(sourceList[i].value)
    ensures 2 <= |deps| <= 4
    ensures deps[0] == SourceDependency(FileResource, LibBccSha1Path, env.libBccSha1)
    ensures deps[1] == SourceDependency(FileResource, LibRSPath, env.libRSSha1)
    ensures deps[2..] == SourceDependencies(sourceList)
  {
    [SourceDependency(FileResource, LibBccSha1Path, env.libBccSha1),
     SourceDependency(FileResource, LibRSPath, env.libRSSha1)] + SourceDependencies(sourceList)
  }

  /** A reader given the dependencies sees every change of libbcc or libRS:
    * two environments whose library digests differ give different
    * dependency lists for the same sources. */
  lemma LibraryChangeSeen(env: CacheEnv, env': CacheEnv, sourceList: seq<Option<Source>>)
    requires |sourceList| == 2
    requires forall i :: 0 <= i < 2 && sourceList[i].Some? ==> WellFormed(sourceList[i].value)
    requires env.libBccSha1 != env'.libBccSha1 || env.libRSSha1 != env'.libRSSha1
    ensures ReaderDependencies(env, sourceList) != ReaderDependencies(env', sourceList)
  {
    var d, d' := ReaderDependencies(env, sourceList), ReaderDependencies(env', sourceList);
    assert d[0] != d'[0] || d[1] != d'[1];
  }

  /** What happens when the script is compiled: whether the compiled object
    * could be allocated, what it ends up holding, and whether every stage
    * after it (parsing each source, reading the main module, linking the
    * library, code generation) succeeds. */
  datatype CompileOutcome = CompileOutcome(allocOk: bool, compiled: ScriptCompiled, stagesOk: bool)

  class Script {
    var errorCode: int
    var status: Status
    /** `mSourceList`: the main source and the library source. */
    var sourceList: seq<Option<Source>>
    var externalSymbols: seq<seq<char>>
    /** The registered symbol lookup function and its context. */
    var lookupFn: Option<nat>
    var lookupContext: nat
    var cacheDir: seq<char>
    var cacheName: seq<char>
    /** The cached or compiled object, whichever `status` names. */
    var loaded: Option<ScriptCompiled>
    /** `mIsContextSlotNotAvail`: the last cache read failed for want of a
      * context slot. */
    var contextSlotNotAvail: bool

    ghost predicate Valid()
      reads this
    {
      |sourceList| == 2 &&
      (forall i :: 0 <= i < 2 && sourceList[i].Some? ==> WellFormed(sourceList[i].value)) &&
      (status != Unknown <==> loaded.Some?)
    }

    /** A new script: no error, not prepared, both source slots empty. */
    constructor ()
      ensures Valid()
      ensures errorCode == NoError && status == Unknown && sourceList == [None, None]
      ensures externalSymbols == [] && lookupFn.None? && loaded.None?
    {
      errorCode := NoError;
      status := Unknown;
      sourceList := [None, None];
      externalSymbols := [];
      lookupFn := None;
      lookupContext := 0;
      cacheDir := "";
      cacheName := "";
      loaded := None;
      contextSlotNotAvail := false;
    }

    /** `setError`: a code is kept only while none is recorded. */
    method SetError(e: int)
      modifies this
      ensures errorCode == Recorded(old(errorCode), e)
      ensures status == old(status) && sourceList == old(sourceList) && loaded == old(loaded)
      ensures externalSymbols == old(externalSymbols) && lookupFn == old(lookupFn)
    {
      if errorCode == NoError && e != NoError {
        errorCode := e;
      }
    }

    /** `getError`: hands out the recorded code and clears it. */
    method GetError() returns (result: int)
      modifies this
      ensures result == old(errorCode) && errorCode == NoError
      ensures status == old(status) && sourceList == old(sourceList) && loaded == old(loaded)
    {
      result := errorCode;
      errorCode := NoError;
    }

    /** `markExternalSymbol`: names are kept in call order. */
    method MarkExternalSymbol(name: seq<char>)
      modifies this
      ensures externalSymbols == old(externalSymbols) + [name]
      ensures errorCode == old(errorCode) && status == old(status)
      ensures sourceList == old(sourceList) && loaded == old(loaded)
    {
      externalSymbols := externalSymbols + [name];
    }

    /** `addSourceBC`: the checks run in order (no resource name, already
      * prepared, no bitcode) and each failure sets its code and returns 1;
      * otherwise the slot takes the new source, or NULL with OUT_OF_MEMORY
      * when it cannot be allocated. */
    method AddSourceBC(idx: nat, resName: Option<seq<char>>, bitcode: Option<seq<byte>>,
                       flags: set<Flag>, digest: seq<byte>, allocOk: bool) returns (r: int)
      requires Valid() && idx < 2
      modifies this
      ensures Valid()
      ensures status == old(status) && loaded == old(loaded) && externalSymbols == old(externalSymbols)
      ensures resName.None? ==>
        r == 1 && errorCode == InvalidValue && sourceList == old(sourceList)
      ensures resName.Some? && old(status) != Unknown ==>
        r == 1 && errorCode == InvalidOperation && sourceList == old(sourceList)
      ensures resName.Some? && old(status) == Unknown && bitcode.None? ==>
        r == 1 && errorCode == InvalidValue && sourceList == old(sourceList)
      ensures resName.Some? && old(status) == Unknown && bitcode.Some? ==>
        sourceList == old(sourceList)[idx := CreateFromBuffer(resName, bitcode.value, flags, digest, allocOk)] &&
        (r == 0 <==> allocOk) &&
        (allocOk ==> errorCode == old(errorCode)) &&
        (!allocOk ==> r == 1 && errorCode == OutOfMemory)
    {
      if resName.None? {
        errorCode := InvalidValue;
        return 1;
      }
      if status != Unknown {
        errorCode := InvalidOperation;
        return 1;
      }
      if bitcode.None? {
        errorCode := InvalidValue;
        return 1;
      }
      sourceList := sourceList[idx := CreateFromBuffer(resName, bitcode.value, flags, digest, allocOk)];
      if sourceList[idx].None? {
        errorCode := OutOfMemory;
        return 1;
      }
      return 0;
    }

    /** `addSourceModule`: already prepared, then no module, are rejected;
      * a parsed module never carries a dependency. */
    method AddSourceModule(idx: nat, hasModule: bool, flags: set<Flag>, allocOk: bool)
      returns (r: int)
      requires Valid() && idx < 2
      modifies this
      ensures Valid()
      ensures status == old(status) && loaded == old(loaded) && externalSymbols == old(externalSymbols)
      ensures old(status) != Unknown ==>
        r == 1 && errorCode == InvalidOperation && sourceList == old(sourceList)
      ensures old(status) == Unknown && !hasModule ==>
        r == 1 && errorCode == InvalidValue && sourceList == old(sourceList)
      ensures old(status) == Unknown && hasModule ==>
        sourceList == old(sourceList)[idx := CreateFromModule(flags, allocOk)] &&
        (r == 0 <==> allocOk) &&
        (allocOk ==> errorCode == old(errorCode)) &&
        (!allocOk ==> r == 1 && errorCode == OutOfMemory)
    {
      if status != Unknown {
        errorCode := InvalidOperation;
        return 1;
      }
      if !hasModule {
        errorCode := InvalidValue;
        return 1;
      }
      sourceList := sourceList[idx := CreateFromModule(flags, allocOk)];
      if sourceList[idx].None? {
        errorCode := OutOfMemory;
        return 1;
      }
      return 0;
    }

    /** `addSourceFile`: already prepared, no path, and a file that cannot be
      * `stat`ed are rejected, in that order. */
    method AddSourceFile(idx: nat, path: Option<seq<char>>, flags: set<Flag>, statOk: bool,
                         fileDigest: seq<byte>, allocOk: bool) returns (r: int)
      requires Valid() && idx < 2
      modifies this
      ensures Valid()
      ensures status == old(status) && loaded == old(loaded) && externalSymbols == old(externalSymbols)
      ensures old(status) != Unknown ==>
        r == 1 && errorCode == InvalidOperation && sourceList == old(sourceList)
      ensures old(status) == Unknown && (path.None? || !statOk) ==>
        r == 1 && errorCode == InvalidValue && sourceList == old(sourceList)
      ensures old(status) == Unknown && path.Some? && statOk ==>
        sourceList == old(sourceList)[idx := CreateFromFile(path.value, flags, fileDigest, allocOk)] &&
        (r == 0 <==> allocOk) &&
        (allocOk ==> errorCode == old(errorCode)) &&
        (!allocOk ==> r == 1 && errorCode == OutOfMemory)
    {
      if status != Unknown {
        errorCode := InvalidOperation;
        return 1;
      }
      if path.None? {
        errorCode := InvalidValue;
        return 1;
      }
      if !statOk {
        errorCode := InvalidValue;
        return 1;
      }
      sourceList := sourceList[idx := CreateFromFile(path.value, flags, fileDigest, allocOk)];
      if sourceList[idx].None? {
        errorCode := OutOfMemory;
        return 1;
      }
      return 0;
    }

    /** `internalLoadCache`: with caching switched off, no cache directory
      * or name, or either cache file failing to open it fails; otherwise the
      * reader gets the libraries' and the sources' dependencies.  Only
      * checking, it succeeds exactly when the reader's check does and
      * changes nothing; reading, a cached object makes the script Cached,
      * and no object records whether a context slot was missing. */
    method InternalLoadCache(checkOnly: bool, noCacheProp: bool, env: CacheEnv) returns (r: int)
      requires Valid() && status == Unknown
      modifies this
      ensures Valid()
      ensures sourceList == old(sourceList) && errorCode == old(errorCode)
      ensures cacheDir == old(cacheDir) && cacheName == old(cacheName)
      ensures r == 0 || r == 1
      ensures var obj := ObjectPath(env.jit, cacheDir, cacheName);
        var info := InfoPath(env.jit, cacheDir, cacheName);
        var deps := ReaderDependencies(env, sourceList);
        var reached := !noCacheProp && |cacheDir| > 0 && |cacheName| > 0 &&
                       env.opens(obj) && env.opens(info);
        (r == 0 <==> reached && (if checkOnly then env.check(obj, info, deps)
                                 else env.read(obj, info, deps).cached.Some?)) &&
        (r == 0 && !checkOnly ==> status == Cached && loaded == env.read(obj, info, deps).cached) &&
        (r == 1 || checkOnly ==> status == Unknown && loaded == old(loaded)) &&
        contextSlotNotAvail ==
          (if reached && !checkOnly && r == 1 then env.read(obj, info, deps).contextSlotNotAvail
           else old(contextSlotNotAvail))
    {
      if noCacheProp || |cacheDir| == 0 || |cacheName| == 0 {
        return 1;
      }
      var objPath := ObjectPath(env.jit, cacheDir, cacheName);
      var infoPath := InfoPath(env.jit, cacheDir, cacheName);
      if !env.opens(objPath) || !env.opens(infoPath) {
        return 1;
      }
      var deps := ReaderDependencies(env, sourceList);
      if checkOnly {
        return if env.check(objPath, infoPath, deps) then 0 else 1;
      }
      var outcome := env.read(objPath, infoPath, deps);
      if outcome.cached.None? {
        contextSlotNotAvail := outcome.contextSlotNotAvail;
        return 1;
      }
      loaded := outcome.cached;
      status := Cached;
      return 0;
    }

    /** `internalCompile`: once the compiled object exists the script is
      * Compiled, even when a later stage fails; success also needs a main
      * source.  Writing the new cache file is not part of this model. */
    method InternalCompile(outcome: CompileOutcome) returns (r: int)
      requires Valid()
      modifies this
      ensures Valid()
      ensures sourceList == old(sourceList) && cacheDir == old(cacheDir) && cacheName == old(cacheName)
      ensures !outcome.allocOk ==>
        r == 1 && errorCode == OutOfMemory && status == old(status) && loaded == old(loaded)
      ensures outcome.allocOk ==>
        status == Compiled && loaded == Some(outcome.compiled) && errorCode == old(errorCode) &&
        (r == 0 <==> outcome.stagesOk && sourceList[0].Some?) && (r == 0 || r == 1)
    {
      if !outcome.allocOk {
        errorCode := OutOfMemory;
        return 1;
      }
      loaded := Some(outcome.compiled);
      status := Compiled;
      if sourceList[0].None? || !outcome.stagesOk {
        return 1;
      }
      return 0;
    }

    /** `prepareExecutable`: only an unprepared script may be prepared.  With
      * both a cache directory and a name they are kept (the directory ending
      * in '/') and the cache is tried first; otherwise, or when that fails,
      * the script is compiled. */
    method PrepareExecutable(dir: Option<seq<char>>, name: Option<seq<char>>, noCacheProp: bool,
                             env: CacheEnv, outcome: CompileOutcome) returns (r: int)
      requires Valid()
      modifies this
      ensures Valid()
      ensures sourceList == old(sourceList)
      ensures old(status) != Unknown ==>
        r == 1 && errorCode == InvalidOperation && status == old(status) && loaded == old(loaded)
      ensures old(status) == Unknown && dir.Some? && name.Some? ==>
        cacheDir == WithSeparator(dir.value) && cacheName == name.value
      ensures old(status) == Unknown ==> status != Unknown || (!outcome.allocOk && r == 1)
      ensures old(status) == Unknown && status == Cached ==> r == 0 && dir.Some? && name.Some?
      ensures old(status) == Unknown && status == Compiled ==>
        loaded == Some(outcome.compiled) && (r == 0 <==> outcome.stagesOk && sourceList[0].Some?)
    {
      if status != Unknown {
        errorCode := InvalidOperation;
        return 1;
      }
      if dir.Some? && name.Some? {
        cacheDir := WithSeparator(dir.value);
        cacheName := name.value;
        r := InternalLoadCache(false, noCacheProp, env);
        if r == 0 {
          return 0;
        }
      }
      r := InternalCompile(outcome);
    }

    /** `getCompilerErrorMessage`: only a compiled script has one; asking
      * any other sets INVALID_OPERATION and gives NULL. */
    method GetCompilerErrorMessage(message: seq<char>) returns (m: Option<seq<char>>)
      modifies this
      ensures status == old(status) && loaded == old(loaded) && sourceList == old(sourceList)
      ensures status == Compiled ==> m == Some(message) && errorCode == old(errorCode)
      ensures status != Compiled ==> m.None? && errorCode == InvalidOperation
    {
      if status != Compiled {
        errorCode := InvalidOperation;
        return None;
      }
      return Some(message);
    }

    /** `lookup`: the prepared object's address for the name; an unprepared
      * script answers NULL (0) and sets INVALID_OPERATION. */
    method Lookup(name: seq<char>) returns (addr: nat)
      requires Valid()
      modifies this
      ensures status == old(status) && loaded == old(loaded) && sourceList == old(sourceList)
      ensures status != Unknown ==>
        addr == LookupCode(loaded.value.emitted, name) && errorCode == old(errorCode)
      ensures status == Unknown ==> addr == 0 && errorCode == InvalidOperation
    {
      if status == Unknown {
        errorCode := InvalidOperation;
        return 0;
      }
      addr := LookupCode(loaded.value.emitted, name);
    }

    /** The count getters: the prepared object's count, 0 before
      * preparation. */
    function ExportVarCount(): (n: nat)
      requires Valid()
      reads this
      ensures status == Unknown ==> n == 0
      ensures status != Unknown ==> n == |loaded.value.exportVars|
    {
      if status == Unknown then 0 else |loaded.value.exportVars|
    }

    function ExportFuncCount(): (n: nat)
      requires Valid()
      reads this
      ensures status == Unknown ==> n == 0
      ensures status != Unknown ==> n == |loaded.value.exportFuncs|
    {
      if status == Unknown then 0 else |loaded.value.exportFuncs|
    }

    function PragmaCount(): (n: nat)
      requires Valid()
      reads this
      ensures status == Unknown ==> n == 0
      ensures status != Unknown ==> n == |loaded.value.pragmas|
    {
      if status == Unknown then 0 else |loaded.value.pragmas|
    }

    function FuncCount(): (n: nat)
      requires Valid()
      reads this
      ensures status == Unknown ==> n == 0
      ensures status != Unknown ==> n == |loaded.value.emitted|
    {
      if status == Unknown then 0 else |loaded.value.emitted|
    }

    function ObjectSlotCount(): (n: nat)
      requires Valid()
      reads this
      ensures status == Unknown ==> n == 0
      ensures status != Unknown ==> n == |loaded.value.objectSlots|
    {
      if status == Unknown then 0 else |loaded.value.objectSlots|
    }

    /** `getExportVarList`: delegated to the prepared object; before
      * preparation it sets INVALID_OPERATION and writes nothing. */
    method GetExportVarList(varListSize: nat, varList: array?<nat>)
      requires Valid()
      requires varList != null ==> varListSize <= varList.Length
      modifies this, varList
      ensures status == old(status) && loaded == old(loaded) && sourceList == old(sourceList)
      ensures status == Unknown ==>
        errorCode == InvalidOperation &&
        (varList != null ==> varList[..] == old(varList[..]))
      ensures status != Unknown ==>
        errorCode == old(errorCode) &&
        (varList != null ==>
          var n := CopyCount(ExportVarCount(), varListSize);
          varList[..n] == loaded.value.exportVars[..n] && varList[n..] == old(varList[n..]))
    {
      if status == Unknown {
        errorCode := InvalidOperation;
        return;
      }
      EEScriptCompiled.GetExportVarList(loaded.value, varListSize, varList);
    }

    /** `getExportFuncList`: the same for the exported functions. */
    method GetExportFuncList(funcListSize: nat, funcList: array?<nat>)
      requires Valid()
      requires funcList != null ==> funcListSize <= funcList.Length
      modifies this, funcList
      ensures status == old(status) && loaded == old(loaded) && sourceList == old(sourceList)
      ensures status == Unknown ==>
        errorCode == InvalidOperation &&
        (funcList != null ==> funcList[..] == old(funcList[..]))
      ensures status != Unknown ==>
        errorCode == old(errorCode) &&
        (funcList != null ==>
          var n := CopyCount(ExportFuncCount(), funcListSize);
          funcList[..n] == loaded.value.exportFuncs[..n] && funcList[n..] == old(funcList[n..]))
    {
      if status == Unknown {
        errorCode := InvalidOperation;
        return;
      }
      EEScriptCompiled.GetExportFuncList(loaded.value, funcListSize, funcList);
    }

    /** `getPragmaList`: keys and values of the first pragmas. */
    method GetPragmaList(pragmaListSize: nat, keyList: array?<seq<char>>, valueList: array?<seq<char>>)
      requires Valid()
      requires keyList != null ==> pragmaListSize <= keyList.Length
      requires valueList != null ==> pragmaListSize <= valueList.Length
      modifies this, keyList, valueList
      ensures status == old(status) && loaded == old(loaded) && sourceList == old(sourceList)
      ensures status == Unknown ==>
        errorCode == InvalidOperation &&
        (keyList != null ==> keyList[..] == old(keyList[..])) &&
        (valueList != null ==> valueList[..] == old(valueList[..]))
      ensures status != Unknown ==>
        errorCode == old(errorCode) &&
        var n := CopyCount(PragmaCount(), pragmaListSize);
        (valueList != null ==>
          valueList[..n] == Values(loaded.value.pragmas)[..n] && valueList[n..] == old(valueList[n..])) &&
        (keyList != null && keyList != valueList ==>
          keyList[..n] == Keys(loaded.value.pragmas)[..n] && keyList[n..] == old(keyList[n..]))
    {
      if status == Unknown {
        errorCode := InvalidOperation;
        return;
      }
      EEScriptCompiled.GetPragmaList(loaded.value, pragmaListSize, keyList, valueList);
    }

    /** `getFuncInfoList`: name, address and size of the first functions. */
    method GetFuncInfoList(funcInfoListSize: nat, funcInfoList: array?<FuncInfo>)
      requires Valid()
      requires funcInfoList != null ==> funcInfoListSize <= funcInfoList.Length
      modifies this, funcInfoList
      ensures status == old(status) && loaded == old(loaded) && sourceList == old(sourceList)
      ensures status == Unknown ==>
        errorCode == InvalidOperation &&
        (funcInfoList != null ==> funcInfoList[..] == old(funcInfoList[..]))
      ensures status != Unknown ==>
        errorCode == old(errorCode) &&
        (funcInfoList != null ==>
          var n := CopyCount(FuncCount(), funcInfoListSize);
          funcInfoList[..n] == FuncInfos(loaded.value.emitted)[..n] &&
          funcInfoList[n..] == old(funcInfoList[n..]))
    {
      if status == Unknown {
        errorCode := InvalidOperation;
        return;
      }
      EEScriptCompiled.GetFuncInfoList(loaded.value, funcInfoListSize, funcInfoList);
      if funcInfoList != null {
        var n := CopyCount(FuncCount(), funcInfoListSize);
        assert funcInfoList[..n] == FuncInfos(loaded.value.emitted)[..n];
      }
    }

    /** `getObjectSlotList`: the first object slots. */
    method GetObjectSlotList(objectSlotListSize: nat, objectSlotList: array?<nat>)
      requires Valid()
      requires objectSlotList != null ==> objectSlotListSize <= objectSlotList.Length
      modifies this, objectSlotList
      ensures status == old(status) && loaded == old(loaded) && sourceList == old(sourceList)
      ensures status == Unknown ==>
        errorCode == InvalidOperation &&
        (objectSlotList != null ==> objectSlotList[..] == old(objectSlotList[..]))
      ensures status != Unknown ==>
        errorCode == old(errorCode) &&
        (objectSlotList != null ==>
          var n := CopyCount(ObjectSlotCount(), objectSlotListSize);
          objectSlotList[..n] == loaded.value.objectSlots[..n] &&
          objectSlotList[n..] == old(objectSlotList[n..]))
    {
      if status == Unknown {
        errorCode := InvalidOperation;
        return;
      }
      EEScriptCompiled.GetObjectSlotList(loaded.value, objectSlotListSize, objectSlotList);
    }

    /** `registerSymbolCallback`: the callback is always stored; once the
      * script is prepared the call also sets INVALID_OPERATION and returns 1. */
    method RegisterSymbolCallback(fn: Option<nat>, context: nat) returns (r: int)
      modifies this
      ensures lookupFn == fn && lookupContext == context
      ensures status == old(status) && loaded == old(loaded) && sourceList == old(sourceList)
      ensures old(status) != Unknown ==> r == 1 && errorCode == InvalidOperation
      ensures old(status) == Unknown ==> r == 0 && errorCode == old(errorCode)
    {
      lookupFn := fn;
      lookupContext := context;
      if status != Unknown {
        errorCode := InvalidOperation;
        return 1;
      }
      return 0;
    }
  }

  /** A script is prepared at most once: a second `prepareExecutable` is
    * refused whatever the first one's result, and the status it reached is
    * kept. */
  method PrepareTwice(dir: seq<char>, name: seq<char>,
                      env: CacheEnv, outcome: CompileOutcome)
    returns (first: int, second: int, err: int)
    requires outcome.allocOk
    ensures second == 1 && err == InvalidOperation
  {
    var s := new Script();
    first := s.PrepareExecutable(Some(dir), Some(name), false, env, outcome);
    var reached := s.status;
    second := s.PrepareExecutable(Some(dir), Some(name), false, env, outcome);
    assert s.status == reached;
    err := s.GetError();
  }
}
