// libbcc's `Script`: it takes a source bitcode (or module) and a library
// bitcode, is compiled once (from its cache file when one loads), and then
// answers lookups through the cached or compiled object its status
// selects.

module BccScript {
  import opened Common
  import opened ErrorRegister
  import opened BoundedCopy
  import CompilerCache
  import BccScriptCompiled
  import BccScriptCached
  import SourceInfo

  datatype Status = Unknown | Compiled | Cached

  /** What happens when the script is compiled: whether the compiled object
    * could be allocated, what it ends up holding, and whether reading,
    * linking and code generation succeed. */
  datatype CompileOutcome = CompileOutcome(allocOk: bool, compiled: BccScriptCompiled.ScriptCompiled,
                                           stagesOk: bool)

  /** A dependency the cache reader checks: its kind, its name (a source
    * bitcode may have none) and its SHA-1. */
  datatype Dependency = Dependency(resType: SourceInfo.ResourceType, name: Option<seq<char>>,
                                   sha1: seq<byte>)

  /** What `internalLoadCache` meets outside the script: the digests of
    * libbcc and libRS taken at start-up, `calcSHA1`, which files open for
    * reading, and what the reader makes of the file and the dependencies. */
  datatype CacheEnv = CacheEnv(
    libBccSha1: seq<byte>, libRSSha1: seq<byte>, sha1: seq<byte> -> seq<byte>,
    opens: seq<char> -> bool,
    read: (seq<char>, seq<Dependency>) -> Option<BccScriptCached.ScriptCached>)

  const LibBccPath: seq<char> := "/system/lib/libbcc.so"
  const LibRSPath: seq<char> := "/system/lib/libRS.so"

  /** The dependencies the reader is given: libbcc's and libRS's, then the
    * source bitcode's under its resource name, when there is one. */
  function ReaderDependencies(env: CacheEnv, sourceBC: Option<seq<byte>>,
                              sourceResName: Option<seq<char>>): (deps: seq<Dependency>)
    ensures |deps| == (if sourceBC.Some? then 3 else 2)
    ensures deps[0] == Dependency(SourceInfo.FileResource, Some(LibBccPath), env.libBccSha1)
    ensures deps[1] == Dependency(SourceInfo.FileResource, Some(LibRSPath), env.libRSSha1)
    ensures sourceBC.Some? ==>
      deps[2] == Dependency(SourceInfo.ApkResource, sourceResName, env.sha1(sourceBC.value))
  {
    [Dependency(SourceInfo.FileResource, Some(LibBccPath), env.libBccSha1),
     Dependency(SourceInfo.FileResource, Some(LibRSPath), env.libRSSha1)] +
    (if sourceBC.Some? then [Dependency(SourceInfo.ApkResource, sourceResName, env.sha1(sourceBC.value))]
     else [])
  }

  /** The reader sees every change of libbcc, of libRS and of the source
    * bitcode's digest: different digests give different dependency
    * lists. */
  lemma ChangeSeen(env: CacheEnv, env': CacheEnv, sourceBC: Option<seq<byte>>,
                   sourceResName: Option<seq<char>>)
    requires env.libBccSha1 != env'.libBccSha1 || env.libRSSha1 != env'.libRSSha1 ||
             (sourceBC.Some? && env.sha1(sourceBC.value) != env'.sha1(sourceBC.value))
    ensures ReaderDependencies(env, sourceBC, sourceResName) !=
            ReaderDependencies(env', sourceBC, sourceResName)
  {
    var d, d' := ReaderDependencies(env, sourceBC, sourceResName),
                 ReaderDependencies(env', sourceBC, sourceResName);
    assert d[0] != d'[0] || d[1] != d'[1] || d[2] != d'[2];
  }

  class Script {
    var errorCode: int
    var status: Status
    var sourceBC: Option<seq<byte>>
    var sourceResName: Option<seq<char>>
    var hasSourceModule: bool
    var libraryBC: Option<seq<byte>>
    var cacheFile: Option<seq<char>>
    var lookupFn: Option<nat>
    var lookupContext: nat
    var compiled: Option<BccScriptCompiled.ScriptCompiled>
    var cached: Option<BccScriptCached.ScriptCached>

    ghost predicate Valid()
      reads this
    {
      (status == Compiled <==> compiled.Some?) && (status == Cached <==> cached.Some?)
    }

    constructor ()
      ensures Valid() && errorCode == NoError && status == Unknown
      ensures sourceBC.None? && !hasSourceModule && libraryBC.None? && cacheFile.None?
    {
      errorCode := NoError;
      status := Unknown;
      sourceBC := None;
      sourceResName := None;
      hasSourceModule := false;
      libraryBC := None;
      cacheFile := None;
      lookupFn := None;
      lookupContext := 0;
      compiled := None;
      cached := None;
    }

    /** `readBC`: refused once the script is compiled.  The cache file name
      * (with extension ".oBCC") is computed only when both a cache
      * directory and a resource name are given; otherwise the earlier one
      * is kept. */
    method ReadBC(bitcode: seq<byte>, resName: Option<seq<char>>, cacheDir: Option<seq<char>>,
                  cwd: Option<seq<char>>) returns (r: int)
      requires Valid()
      modifies this
      ensures Valid() && status == old(status)
      ensures old(status) != Unknown ==>
        r == 1 && errorCode == InvalidOperation && sourceBC == old(sourceBC) &&
        sourceResName == old(sourceResName) && cacheFile == old(cacheFile)
      ensures old(status) == Unknown ==>
        r == 0 && errorCode == old(errorCode) &&
        sourceBC == Some(bitcode) && sourceResName == resName &&
        cacheFile == (if cacheDir.Some? && resName.Some?
                      then CompilerCache.CacheFileName(cacheDir.value, resName.value, Some(".oBCC"), cwd)
                      else old(cacheFile))
      ensures libraryBC == old(libraryBC) && hasSourceModule == old(hasSourceModule)
    {
      if status != Unknown {
        errorCode := InvalidOperation;
        return 1;
      }
      sourceBC := Some(bitcode);
      sourceResName := resName;
      if cacheDir.Some? && resName.Some? {
        cacheFile := CompilerCache.GenCacheFileName(cacheDir.value, resName.value, Some(".oBCC"), cwd);
      }
      return 0;
    }

    /** `readModule`: refused once compiled. */
    method ReadModule() returns (r: int)
      requires Valid()
      modifies this
      ensures Valid() && status == old(status) && sourceBC == old(sourceBC)
      ensures old(status) != Unknown ==>
        r == 1 && errorCode == InvalidOperation && hasSourceModule == old(hasSourceModule)
      ensures old(status) == Unknown ==> r == 0 && errorCode == old(errorCode) && hasSourceModule
    {
      if status != Unknown {
        errorCode := InvalidOperation;
        return 1;
      }
      hasSourceModule := true;
      return 0;
    }

    /** `linkBC`: refused once compiled; otherwise the library bitcode is
      * replaced. */
    method LinkBC(bitcode: seq<byte>) returns (r: int)
      requires Valid()
      modifies this
      ensures Valid() && status == old(status) && sourceBC == old(sourceBC)
      ensures old(status) != Unknown ==>
        r == 1 && errorCode == InvalidOperation && libraryBC == old(libraryBC)
      ensures old(status) == Unknown ==>
        r == 0 && errorCode == old(errorCode) && libraryBC == Some(bitcode)
    {
      if status != Unknown {
        errorCode := InvalidOperation;
        return 1;
      }
      libraryBC := Some(bitcode);
      return 0;
    }

    /** `internalLoadCache`: with caching switched off, no cache file or a
      * file that does not open it fails; otherwise the reader reads the
      * file against the libraries' and the source's dependencies, and a
      * cached object makes the script Cached. */
    method InternalLoadCache(noCacheProp: bool, env: CacheEnv) returns (r: int)
      requires Valid() && status == Unknown
      modifies this
      ensures Valid() && errorCode == old(errorCode) && compiled == old(compiled)
      ensures sourceBC == old(sourceBC) && sourceResName == old(sourceResName) &&
              cacheFile == old(cacheFile)
      ensures r == 0 <==>
        !noCacheProp && cacheFile.Some? && env.opens(cacheFile.value) &&
        env.read(cacheFile.value, ReaderDependencies(env, sourceBC, sourceResName)).Some?
      ensures r == 0 ==>
        status == Cached && cached == env.read(cacheFile.value, ReaderDependencies(env, sourceBC, sourceResName))
      ensures r != 0 ==> r == 1 && status == Unknown && cached == old(cached)
    {
      if noCacheProp || cacheFile.None? || !env.opens(cacheFile.value) {
        return 1;
      }
      var c := env.read(cacheFile.value, ReaderDependencies(env, sourceBC, sourceResName));
      if c.None? {
        return 1;
      }
      cached := c;
      status := Cached;
      return 0;
    }

    /** `internalCompile`: once the compiled object exists the script is
      * Compiled, even when a later stage fails.  Writing the cache file
      * afterwards is not part of this model. */
    method InternalCompile(outcome: CompileOutcome) returns (r: int)
      requires Valid() && status == Unknown
      modifies this
      ensures Valid() && cached == old(cached)
      ensures !outcome.allocOk ==>
        r == 1 && errorCode == OutOfMemory && status == Unknown && compiled == old(compiled)
      ensures outcome.allocOk ==>
        status == Compiled && compiled == Some(outcome.compiled) && errorCode == old(errorCode) &&
        (r == 0 <==> outcome.stagesOk) && (r == 0 || r == 1)
    {
      if !outcome.allocOk {
        errorCode := OutOfMemory;
        return 1;
      }
      compiled := Some(outcome.compiled);
      status := Compiled;
      if !outcome.stagesOk {
        return 1;
      }
      return 0;
    }

    /** `compile`: refused once compiled; with a cache file the cache is
      * tried first, and otherwise, or when it does not load, the script is
      * compiled. */
    method Compile(noCacheProp: bool, env: CacheEnv, outcome: CompileOutcome) returns (r: int)
      requires Valid()
      modifies this
      ensures Valid()
      ensures old(status) != Unknown ==>
        r == 1 && errorCode == InvalidOperation && status == old(status) &&
        compiled == old(compiled) && cached == old(cached)
      ensures old(status) == Unknown ==> status != Unknown || (!outcome.allocOk && r == 1)
      ensures old(status) == Unknown && status == Cached ==>
        r == 0 && cacheFile.Some? && !noCacheProp &&
        cached == env.read(cacheFile.value, ReaderDependencies(env, sourceBC, sourceResName))
      ensures old(status) == Unknown && status == Compiled ==>
        compiled == Some(outcome.compiled) && (r == 0 <==> outcome.stagesOk)
    {
      if status != Unknown {
        errorCode := InvalidOperation;
        return 1;
      }
      if cacheFile.Some? {
        r := InternalLoadCache(noCacheProp, env);
        if r == 0 {
          return 0;
        }
      }
      r := InternalCompile(outcome);
    }

    /** `lookup`: the compiled or cached object's address for the name; an
      * uncompiled script answers NULL (0) and sets INVALID_OPERATION. */
    method Lookup(name: seq<char>) returns (addr: nat)
      requires Valid()
      modifies this
      ensures status == old(status) && compiled == old(compiled) && cached == old(cached)
      ensures status == Compiled ==>
        addr == LookupCode(compiled.value.emitted, name) && errorCode == old(errorCode)
      ensures status == Cached ==>
        addr == LookupCode(cached.value.functions, name) && errorCode == old(errorCode)
      ensures status == Unknown ==> addr == 0 && errorCode == InvalidOperation
    {
      match status
      case Compiled =>
        addr := LookupCode(compiled.value.emitted, name);
      case Cached =>
        addr := LookupCode(cached.value.functions, name);
      case Unknown =>
        errorCode := InvalidOperation;
        addr := 0;
    }

    /** `getFunctionBinary`: only a compiled script answers, with the
      * function's code address and size ((NULL, 0) for an unknown name); in
      * any other status nothing is written and INVALID_OPERATION is set. */
    method GetFunctionBinary(name: seq<char>) returns (binary: Option<(nat, nat)>)
      requires Valid()
      modifies this
      ensures status == old(status) && compiled == old(compiled) && cached == old(cached)
      ensures status == Compiled ==>
        binary == Some(FuncBinary(compiled.value.emitted, name)) && errorCode == old(errorCode)
      ensures status != Compiled ==> binary.None? && errorCode == InvalidOperation
    {
      if status != Compiled {
        errorCode := InvalidOperation;
        return None;
      }
      binary := Some(FuncBinary(compiled.value.emitted, name));
    }

    /** `registerSymbolCallback`: the callback is stored even when the call
      * is refused with INVALID_OPERATION because the script is compiled. */
    method RegisterSymbolCallback(fn: Option<nat>, context: nat)
      modifies this
      ensures lookupFn == fn && lookupContext == context
      ensures status == old(status) && compiled == old(compiled) && cached == old(cached)
      ensures old(status) != Unknown ==> errorCode == InvalidOperation
      ensures old(status) == Unknown ==> errorCode == old(errorCode)
    {
      lookupFn := fn;
      lookupContext := context;
      if status != Unknown {
        errorCode := InvalidOperation;
      }
    }
  }

  /** Once compiled, whatever the result, the inputs are frozen: reading,
    * linking and compiling again are refused and change nothing. */
  method FrozenAfterCompile(bitcode: seq<byte>, library: seq<byte>, env: CacheEnv,
                            outcome: CompileOutcome)
    returns (readAgain: int, linkAgain: int, compileAgain: int, err: int)
    requires outcome.allocOk
    ensures readAgain == 1 && linkAgain == 1 && compileAgain == 1 && err == InvalidOperation
  {
    var s := new Script();
    var r := s.ReadBC(bitcode, Some("res"), None, None);
    r := s.Compile(false, env, outcome);
    readAgain := s.ReadBC(library, Some("res"), None, None);
    linkAgain := s.LinkBC(library);
    compileAgain := s.Compile(false, env, outcome);
    err := s.errorCode;
  }
}
