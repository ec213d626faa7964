// The list getters of the compiled and cached script objects.  Each copies
// min(count, capacity) entries, in list order, into the caller's array and
// leaves the rest of the array alone; a NULL array is left untouched.

// The execution engine's `ScriptCompiled`.
module EEScriptCompiled {
  import opened BoundedCopy

  /** One entry of `getFuncInfoList`: name, address and size. */
  datatype FuncInfo = FuncInfo(name: seq<char>, addr: nat, size: nat)

  /** What the getters read: the export lists, the pragmas, the emitted
    * functions in map order and the object slots. */
  datatype ScriptCompiled = ScriptCompiled(
    exportVars: seq<nat>, exportFuncs: seq<nat>,
    pragmas: seq<(seq<char>, seq<char>)>, emitted: seq<EmittedFunc>,
    objectSlots: seq<nat>)

  method GetExportVarList(sc: ScriptCompiled, varListSize: nat, varList: array?<nat>)
    requires varList != null ==> varListSize <= varList.Length
    modifies varList
    ensures varList != null ==>
      var n := CopyCount(|sc.exportVars|, varListSize);
      varList[..n] == sc.exportVars[..n] && varList[n..] == old(varList[n..])
  {
    if varList != null {
      CopyPrefix(sc.exportVars, CopyCount(|sc.exportVars|, varListSize), varList);
    }
  }

  method GetExportFuncList(sc: ScriptCompiled, funcListSize: nat, funcList: array?<nat>)
    requires funcList != null ==> funcListSize <= funcList.Length
    modifies funcList
    ensures funcList != null ==>
      var n := CopyCount(|sc.exportFuncs|, funcListSize);
      funcList[..n] == sc.exportFuncs[..n] && funcList[n..] == old(funcList[n..])
  {
    if funcList != null {
      CopyPrefix(sc.exportFuncs, CopyCount(|sc.exportFuncs|, funcListSize), funcList);
    }
  }

  /** Keys and values go to their own lists, either of which may be NULL. */
  method GetPragmaList(sc: ScriptCompiled, pragmaListSize: nat,
                       keyList: array?<seq<char>>, valueList: array?<seq<char>>)
    requires keyList != null ==> pragmaListSize <= keyList.Length
    requires valueList != null ==> pragmaListSize <= valueList.Length
    modifies keyList, valueList
    ensures var n := CopyCount(|sc.pragmas|, pragmaListSize);
      (valueList != null ==>
        valueList[..n] == Values(sc.pragmas)[..n] && valueList[n..] == old(valueList[n..])) &&
      (keyList != null && keyList != valueList ==>
        keyList[..n] == Keys(sc.pragmas)[..n] && keyList[n..] == old(keyList[n..]))
  {
    CopyPragmaPairs(sc.pragmas, CopyCount(|sc.pragmas|, pragmaListSize), keyList, valueList);
  }

  function FuncInfos(fs: seq<EmittedFunc>): (r: seq<FuncInfo>)
    ensures |r| == |fs|
    ensures forall i :: 0 <= i < |fs| ==> r[i] == FuncInfo(fs[i].name, fs[i].code, fs[i].size)
  {
    seq(|fs|, i requires 0 <= i < |fs| => FuncInfo(fs[i].name, fs[i].code, fs[i].size))
  }

  /** Name, address and size of the first functions in map order. */
  method GetFuncInfoList(sc: ScriptCompiled, funcInfoListSize: nat, funcInfoList: array?<FuncInfo>)
    requires funcInfoList != null ==> funcInfoListSize <= funcInfoList.Length
    modifies funcInfoList
    ensures funcInfoList != null ==>
      var n := CopyCount(|sc.emitted|, funcInfoListSize);
      (forall i :: 0 <= i < n ==>
        funcInfoList[i] == FuncInfo(sc.emitted[i].name, sc.emitted[i].code, sc.emitted[i].size)) &&
      funcInfoList[n..] == old(funcInfoList[n..])
  {
    if funcInfoList != null {
      var n := CopyCount(|sc.emitted|, funcInfoListSize);
      CopyPrefix(FuncInfos(sc.emitted), n, funcInfoList);
      assert forall i :: 0 <= i < n ==> funcInfoList[i] == funcInfoList[..n][i];
    }
  }

  method GetObjectSlotList(sc: ScriptCompiled, objectSlotListSize: nat, objectSlotList: array?<nat>)
    requires objectSlotList != null ==> objectSlotListSize <= objectSlotList.Length
    modifies objectSlotList
    ensures objectSlotList != null ==>
      var n := CopyCount(|sc.objectSlots|, objectSlotListSize);
      objectSlotList[..n] == sc.objectSlots[..n] &&
      objectSlotList[n..] == old(objectSlotList[n..])
  {
    if objectSlotList != null {
      CopyPrefix(sc.objectSlots, CopyCount(|sc.objectSlots|, objectSlotListSize), objectSlotList);
    }
  }
}

// libbcc's `ScriptCompiled`.
module BccScriptCompiled {
  import opened BoundedCopy

  datatype ScriptCompiled = ScriptCompiled(
    exportVars: seq<nat>, exportFuncs: seq<nat>,
    pragmas: seq<(seq<char>, seq<char>)>, emitted: seq<EmittedFunc>)

  method GetExportVarList(sc: ScriptCompiled, varListSize: nat, varList: array?<nat>)
    requires varList != null ==> varListSize <= varList.Length
    modifies varList
    ensures varList != null ==>
      var n := CopyCount(|sc.exportVars|, varListSize);
      varList[..n] == sc.exportVars[..n] && varList[n..] == old(varList[n..])
  {
    if varList != null {
      CopyPrefix(sc.exportVars, CopyCount(|sc.exportVars|, varListSize), varList);
    }
  }

  method GetExportFuncList(sc: ScriptCompiled, funcListSize: nat, funcList: array?<nat>)
    requires funcList != null ==> funcListSize <= funcList.Length
    modifies funcList
    ensures funcList != null ==>
      var n := CopyCount(|sc.exportFuncs|, funcListSize);
      funcList[..n] == sc.exportFuncs[..n] && funcList[n..] == old(funcList[n..])
  {
    if funcList != null {
      CopyPrefix(sc.exportFuncs, CopyCount(|sc.exportFuncs|, funcListSize), funcList);
    }
  }

  method GetPragmaList(sc: ScriptCompiled, pragmaListSize: nat,
                       keyList: array?<seq<char>>, valueList: array?<seq<char>>)
    requires keyList != null ==> pragmaListSize <= keyList.Length
    requires valueList != null ==> pragmaListSize <= valueList.Length
    modifies keyList, valueList
    ensures var n := CopyCount(|sc.pragmas|, pragmaListSize);
      (valueList != null ==>
        valueList[..n] == Values(sc.pragmas)[..n] && valueList[n..] == old(valueList[n..])) &&
      (keyList != null && keyList != valueList ==>
        keyList[..n] == Keys(sc.pragmas)[..n] && keyList[n..] == old(keyList[n..]))
  {
    CopyPragmaPairs(sc.pragmas, CopyCount(|sc.pragmas|, pragmaListSize), keyList, valueList);
  }

  /** Names of the first emitted functions, in map order. */
  method GetFuncNameList(sc: ScriptCompiled, funcNameListSize: nat, funcNameList: array?<seq<char>>)
    requires funcNameList != null ==> funcNameListSize <= funcNameList.Length
    modifies funcNameList
    ensures funcNameList != null ==>
      var n := CopyCount(|sc.emitted|, funcNameListSize);
      funcNameList[..n] == FuncNames(sc.emitted)[..n] &&
      funcNameList[n..] == old(funcNameList[n..])
  {
    if funcNameList != null {
      CopyPrefix(FuncNames(sc.emitted), CopyCount(|sc.emitted|, funcNameListSize), funcNameList);
    }
  }
}

// libbcc's `ScriptCached`: the export lists are `memcpy`d from the cached
// address lists, and the pragma keys and values are copied by two separate
// loops.
module BccScriptCached {
  import opened BoundedCopy

  datatype ScriptCached = ScriptCached(
    exportVars: seq<nat>, exportFuncs: seq<nat>,
    pragmas: seq<(seq<char>, seq<char>)>, functions: seq<EmittedFunc>)

  /** `memcpy` of `n` addresses. */
  method GetExportVarList(sc: ScriptCached, varListSize: nat, varList: array?<nat>)
    requires varList != null ==> varListSize <= varList.Length
    modifies varList
    ensures varList != null ==>
      var n := CopyCount(|sc.exportVars|, varListSize);
      varList[..n] == sc.exportVars[..n] && varList[n..] == old(varList[n..])
  {
    if varList != null {
      CopyPrefix(sc.exportVars, CopyCount(|sc.exportVars|, varListSize), varList);
    }
  }

  method GetExportFuncList(sc: ScriptCached, funcListSize: nat, funcList: array?<nat>)
    requires funcList != null ==> funcListSize <= funcList.Length
    modifies funcList
    ensures funcList != null ==>
      var n := CopyCount(|sc.exportFuncs|, funcListSize);
      funcList[..n] == sc.exportFuncs[..n] && funcList[n..] == old(funcList[n..])
  {
    if funcList != null {
      CopyPrefix(sc.exportFuncs, CopyCount(|sc.exportFuncs|, funcListSize), funcList);
    }
  }

  /** All keys first, then all values; when the two lists are one array the
    * values are what remains. */
  method GetPragmaList(sc: ScriptCached, pragmaListSize: nat,
                       keyList: array?<seq<char>>, valueList: array?<seq<char>>)
    requires keyList != null ==> pragmaListSize <= keyList.Length
    requires valueList != null ==> pragmaListSize <= valueList.Length
    modifies keyList, valueList
    ensures var n := CopyCount(|sc.pragmas|, pragmaListSize);
      (valueList != null ==>
        valueList[..n] == Values(sc.pragmas)[..n] && valueList[n..] == old(valueList[n..])) &&
      (keyList != null && keyList != valueList ==>
        keyList[..n] == Keys(sc.pragmas)[..n] && keyList[n..] == old(keyList[n..]))
  {
    var n := CopyCount(|sc.pragmas|, pragmaListSize);
    if keyList != null {
      CopyPrefix(Keys(sc.pragmas), n, keyList);
    }
    if valueList != null {
      CopyPrefix(Values(sc.pragmas), n, valueList);
    }
  }

  method GetFuncNameList(sc: ScriptCached, funcNameListSize: nat, funcNameList: array?<seq<char>>)
    requires funcNameList != null ==> funcNameListSize <= funcNameList.Length
    modifies funcNameList
    ensures funcNameList != null ==>
      var n := CopyCount(|sc.functions|, funcNameListSize);
      funcNameList[..n] == FuncNames(sc.functions)[..n] &&
      funcNameList[n..] == old(funcNameList[n..])
  {
    if funcNameList != null {
      CopyPrefix(FuncNames(sc.functions), CopyCount(|sc.functions|, funcNameListSize), funcNameList);
    }
  }
}
