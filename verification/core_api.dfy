// The C interface of the RenderScript compiler driver: a script context
// holding the script being assembled from bitcode sources and the
// executable built from it.

module CoreApi {
  import opened Common
  import opened BoundedCopy

  /** A recorded source dependency: the source's name (none when the caller
    * gave NULL) and its SHA-1. */
  datatype Dependency = Dependency(name: Option<seq<char>>, sha1: seq<byte>)

  /** The script under construction: its bitcode sources in the order they
    * were merged, and the dependencies recorded for it. */
  datatype RSScript = RSScript(sources: seq<seq<byte>>, deps: seq<Dependency>)

  /** The built executable: its export lists and its symbol table. */
  datatype Executable = Executable(exportVarAddrs: seq<nat>, exportFuncAddrs: seq<nat>,
                                   exportForeachFuncAddrs: seq<nat>,
                                   symbols: map<seq<char>, nat>)

  /** How the calls `helper_add_source` makes into other components turn
    * out: creating the source, allocating the script, merging or resetting,
    * and recording the dependency. */
  datatype AddOutcome = AddOutcome(sourceOk: bool, scriptOk: bool, mergeOk: bool, depOk: bool)

  /** The script after a source is added: the first source creates it; a
    * later one is merged when linking and otherwise resets the script to
    * that source alone, dropping its recorded dependencies. */
  function WithSource(s: Option<RSScript>, bitcode: seq<byte>, isLink: bool): (r: RSScript)
    ensures s.Some? && isLink ==> r.sources == s.value.sources + [bitcode] && r.deps == s.value.deps
    ensures s.None? || !isLink ==> r.sources == [bitcode] && r.deps == []
  {
    if s.Some? && isLink then RSScript(s.value.sources + [bitcode], s.value.deps)
    else RSScript([bitcode], [])
  }

  /** Reading into a context that already has a script is the same as
    * reading into an empty one. */
  lemma ResetIsFreshRead(s: RSScript, bitcode: seq<byte>)
    ensures WithSource(Some(s), bitcode, false) == WithSource(None, bitcode, false)
  {
  }

  /** The dependency `helper_add_source` records as written: one whenever
    * the caller did not ask to skip the check, even with no name, because
    * the flag it sets for a missing name is never read again. */
  function DependencyAsWritten(name: Option<seq<char>>, flags: set<Flag>, digest: seq<byte>):
    (d: Option<Dependency>)
    ensures d.Some? <==> SkipDepSha1 !in flags
  {
    if SkipDepSha1 !in flags then Some(Dependency(name, digest)) else None
  }

  /** With no name and no flags, a dependency without a name is recorded. */
  lemma UnnamedSourceRecordsDependency(digest: seq<byte>)
    ensures DependencyAsWritten(None, {}, digest) == Some(Dependency(None, digest))
  {
  }

  /** The dependency the warning for a missing name promises: none when the
    * caller skips the check or gives no name, otherwise the name with the
    * bitcode's SHA-1. */
  function RecordedDependency(name: Option<seq<char>>, flags: set<Flag>, digest: seq<byte>):
    (d: Option<Dependency>)
    ensures d.Some? <==> SkipDepSha1 !in flags && name.Some?
    ensures d.Some? ==> d.value.name == name && d.value.name.Some? && d.value.sha1 == digest
  {
    if SkipDepSha1 !in flags && name.Some? then Some(Dependency(name, digest)) else None
  }

  /** Where the two differ: only for a missing name. */
  lemma DependencyDiffersOnlyWithoutName(name: Option<seq<char>>, flags: set<Flag>, digest: seq<byte>)
    ensures name.Some? ==> RecordedDependency(name, flags, digest) == DependencyAsWritten(name, flags, digest)
    ensures name.None? ==> RecordedDependency(name, flags, digest).None?
  {
  }

  /** `bccPrepareExecutable`'s output path: the cache directory, a '/' when
    * the directory is non-empty and does not end in one, the cache name and
    * ".o". */
  function OutputPath(cacheDir: seq<char>, cacheName: seq<char>): (p: seq<char>)
    ensures |p| == |cacheDir| + |cacheName| + 2 ||
            (|cacheDir| > 0 && cacheDir[|cacheDir| - 1] != '/' &&
             |p| == |cacheDir| + |cacheName| + 3)
    ensures cacheDir <= p
    ensures p[|p| - |cacheName| - 2..] == cacheName + ".o"
    ensures |cacheDir| > 0 ==> p[|p| - |cacheName| - 3] == '/'
  {
    var dir := if |cacheDir| > 0 && cacheDir[|cacheDir| - 1] != '/' then cacheDir + "/" else cacheDir;
    assert dir + cacheName + ".o" == dir + (cacheName + ".o");
    dir + cacheName + ".o"
  }

  /** A caller that writes the separator after a non-empty directory itself
    * gets the same path. */
  lemma SeparatorGivenOrAdded(cacheDir: seq<char>, cacheName: seq<char>)
    requires |cacheDir| > 0 && cacheDir[|cacheDir| - 1] != '/'
    ensures OutputPath(cacheDir + "/", cacheName) == OutputPath(cacheDir, cacheName)
  {
    var withSlash := cacheDir + "/";
    assert withSlash[|withSlash| - 1] == '/';
  }

  /** The driver's `RSScriptContext`. */
  class ScriptContext {
    var script: Option<RSScript>
    var result: Option<Executable>

    /** `bccCreateScript`: no script and no result yet. */
    constructor ()
      ensures script.None? && result.None?
    {
      script := None;
      result := None;
    }

    /** `helper_add_source` for a bitcode buffer (`bccReadBC`, `bccLinkBC`),
      * with the missing-name case recording no dependency.  `digest` is
      * the SHA-1 of the bitcode. */
    method AddSource(name: Option<seq<char>>, bitcode: seq<byte>, flags: set<Flag>, isLink: bool,
                     digest: seq<byte>, env: AddOutcome) returns (ok: bool)
      modifies this
      ensures result == old(result)
      ensures !env.sourceOk ==> !ok && script == old(script)
      ensures env.sourceOk && old(script).None? && !env.scriptOk ==> !ok && script.None?
      ensures env.sourceOk && old(script).Some? && !env.mergeOk ==> !ok && script == old(script)
      ensures ok <==>
        env.sourceOk && (if old(script).None? then env.scriptOk else env.mergeOk) &&
        (RecordedDependency(name, flags, digest).Some? ==> env.depOk)
      ensures ok ==>
        var s := WithSource(old(script), bitcode, isLink);
        var d := RecordedDependency(name, flags, digest);
        script == Some(if d.Some? then RSScript(s.sources, s.deps + [d.value]) else s)
    {
      if !env.sourceOk {
        return false;
      }
      if script.None? {
        if !env.scriptOk {
          return false;
        }
      } else if !env.mergeOk {
        return false;
      }
      script := Some(WithSource(script, bitcode, isLink));
      var d := RecordedDependency(name, flags, digest);
      if d.Some? {
        if !env.depOk {
          return false;
        }
        script := Some(RSScript(script.value.sources, script.value.deps + [d.value]));
      }
      return true;
    }

    /** `bccPrepareExecutable`: 1 with no script; otherwise any previous
      * result is discarded, the driver's `build` runs on the script and the
      * output path, and the call returns 1 exactly when it yields nothing. */
    method PrepareExecutable(cacheDir: seq<char>, cacheName: seq<char>,
                             build: (RSScript, seq<char>) -> Option<Executable>)
      returns (r: int)
      modifies this
      ensures script == old(script)
      ensures old(script).None? ==> r == 1 && result == old(result)
      ensures old(script).Some? ==>
        result == build(old(script).value, OutputPath(cacheDir, cacheName)) &&
        (r == 1 <==> result.None?) && (r == 0 <==> result.Some?)
    {
      if script.None? {
        return 1;
      }
      var outputPath := OutputPath(cacheDir, cacheName);
      result := None;
      result := build(script.value, outputPath);
      r := if result.None? then 1 else 0;
    }

    /** `bccGetFuncAddr`: NULL (0) without a result, otherwise the result's
      * address for the symbol, NULL for an unknown one. */
    function FuncAddr(funcname: seq<char>): (addr: nat)
      reads this
      ensures result.None? ==> addr == 0
      ensures result.Some? && funcname !in result.value.symbols ==> addr == 0
      ensures result.Some? && funcname in result.value.symbols ==>
        addr == result.value.symbols[funcname]
    {
      if result.None? then 0
      else if funcname in result.value.symbols then result.value.symbols[funcname]
      else 0
    }

    /** `bccGetExportVarList`: with a list and a result, the first
      * min(count, size) export variable addresses; otherwise nothing. */
    method GetExportVarList(varListSize: nat, varList: array?<nat>)
      requires varList != null ==> varListSize <= varList.Length
      modifies varList
      ensures varList != null && result.Some? ==>
        var n := CopyCount(|result.value.exportVarAddrs|, varListSize);
        varList[..n] == result.value.exportVarAddrs[..n] && varList[n..] == old(varList[n..])
      ensures varList != null && result.None? ==> varList[..] == old(varList[..])
    {
      if varList != null && result.Some? {
        var addrs := result.value.exportVarAddrs;
        CopyPrefix(addrs, CopyCount(|addrs|, varListSize), varList);
      }
    }

    /** `bccGetExportFuncList`: the same for the exported functions. */
    method GetExportFuncList(funcListSize: nat, funcList: array?<nat>)
      requires funcList != null ==> funcListSize <= funcList.Length
      modifies funcList
      ensures funcList != null && result.Some? ==>
        var n := CopyCount(|result.value.exportFuncAddrs|, funcListSize);
        funcList[..n] == result.value.exportFuncAddrs[..n] && funcList[n..] == old(funcList[n..])
      ensures funcList != null && result.None? ==> funcList[..] == old(funcList[..])
    {
      if funcList != null && result.Some? {
        var addrs := result.value.exportFuncAddrs;
        CopyPrefix(addrs, CopyCount(|addrs|, funcListSize), funcList);
      }
    }

    /** `bccGetExportForEachList`: the same for the forEach kernels. */
    method GetExportForEachList(forEachListSize: nat, forEachList: array?<nat>)
      requires forEachList != null ==> forEachListSize <= forEachList.Length
      modifies forEachList
      ensures forEachList != null && result.Some? ==>
        var n := CopyCount(|result.value.exportForeachFuncAddrs|, forEachListSize);
        forEachList[..n] == result.value.exportForeachFuncAddrs[..n] &&
        forEachList[n..] == old(forEachList[n..])
      ensures forEachList != null && result.None? ==> forEachList[..] == old(forEachList[..])
    {
      if forEachList != null && result.Some? {
        var addrs := result.value.exportForeachFuncAddrs;
        CopyPrefix(addrs, CopyCount(|addrs|, forEachListSize), forEachList);
      }
    }
  }

  /** Reading one named source into a new context and linking a second
    * leaves both sources, in order, and both dependencies. */
  method ReadThenLink(a: seq<byte>, b: seq<byte>, nameA: seq<char>, nameB: seq<char>,
                      digestA: seq<byte>, digestB: seq<byte>)
    returns (sources: seq<seq<byte>>, deps: seq<Dependency>)
    ensures sources == [a, b]
    ensures deps == [Dependency(Some(nameA), digestA), Dependency(Some(nameB), digestB)]
  {
    var ctx := new ScriptContext();
    var env := AddOutcome(true, true, true, true);
    var ok := ctx.AddSource(Some(nameA), a, {}, false, digestA, env);
    ok := ctx.AddSource(Some(nameB), b, {}, true, digestB, env);
    sources := ctx.script.value.sources;
    deps := ctx.script.value.deps;
  }
}
