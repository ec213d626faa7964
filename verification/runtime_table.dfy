// The runtime-function table: a constant array of (name, address) entries
// that the JIT searches with the C library's binary search, and the
// start-up check that every entry can be found under its own name.

module RuntimeTable {
  import opened Common
  import opened CStrings

  /** One table entry; `ptr` is the function's address. */
  datatype RuntimeFunction = RuntimeFunction(name: seq<char>, ptr: nat)

  function Names(t: seq<RuntimeFunction>): (r: seq<seq<char>>)
    ensures |r| == |t|
    ensures forall i :: 0 <= i < |t| ==> r[i] == t[i].name
  {
    seq(|t|, i requires 0 <= i < |t| => t[i].name)
  }

  /** A table whose names are C strings in strictly ascending `strcmp` order,
    * as the entries of the runtime definition file are meant to be. */
  predicate WellFormed(t: seq<RuntimeFunction>)
  {
    (forall i :: 0 <= i < |t| ==> CString(t[i].name)) && StrictlySorted(Names(t))
  }

  /** `bsearch` over the entries `lo` up to (excluding) `hi`: probe the middle,
    * continue in the lower half when the key compares below it and in the
    * upper half when above, and stop at an entry that compares equal. */
  function BSearch(t: seq<RuntimeFunction>, key: seq<char>, lo: nat, hi: nat): (r: Option<nat>)
    requires lo <= hi <= |t|
    ensures r.Some? ==> lo <= r.value < hi && StrCmp(key, t[r.value].name) == 0
    decreases hi - lo
  {
    if lo >= hi then None
    else
      var mid := (lo + hi) / 2;
      var c := StrCmp(key, t[mid].name);
      if c < 0 then BSearch(t, key, lo, mid)
      else if c > 0 then BSearch(t, key, mid + 1, hi)
      else Some(mid)
  }

  /** `FindRuntimeFunction`: the address of the entry the search finds over
    * the whole table, NULL (0) when it finds none. */
  function FindRuntimeFunction(t: seq<RuntimeFunction>, name: seq<char>): nat
  {
    var r := BSearch(t, name, 0, |t|);
    if r.Some? then t[r.value].ptr else 0
  }

  /** Whatever the table's order, an address that the search reports belongs
    * to an entry whose name compares equal to the key; with no such entry
    * the search reports NULL. */
  lemma FindIsSound(t: seq<RuntimeFunction>, name: seq<char>)
    ensures (forall i :: 0 <= i < |t| ==> StrCmp(name, t[i].name) != 0) ==>
              FindRuntimeFunction(t, name) == 0
    ensures FindRuntimeFunction(t, name) != 0 ==>
              exists i :: 0 <= i < |t| && StrCmp(name, t[i].name) == 0 &&
                          t[i].ptr == FindRuntimeFunction(t, name)
  {
  }

  /** On a well-formed table the search finds every entry under its name. */
  lemma {:induction false} BSearchFinds(t: seq<RuntimeFunction>, i: nat, lo: nat, hi: nat)
    requires WellFormed(t)
    requires lo <= i < hi <= |t|
    ensures BSearch(t, t[i].name, lo, hi) == Some(i)
    decreases hi - lo
  {
    var key := t[i].name;
    var mid := (lo + hi) / 2;
    var c := StrCmp(key, t[mid].name);
    StrCmpZero(key, t[mid].name);
    if i < mid {
      assert StrLess(Names(t)[i], Names(t)[mid]);
      BSearchFinds(t, i, lo, mid);
    } else if i > mid {
      assert StrLess(Names(t)[mid], Names(t)[i]);
      StrCmpAntisymmetric(t[mid].name, key);
      BSearchFinds(t, i, mid + 1, hi);
    }
  }

  /** On a well-formed table `FindRuntimeFunction` returns the address of the
    * entry with exactly that name, and NULL when no entry has it. */
  lemma FindRuntimeFunctionCorrect(t: seq<RuntimeFunction>, name: seq<char>)
    requires WellFormed(t) && CString(name)
    ensures forall i :: 0 <= i < |t| && t[i].name == name ==>
              FindRuntimeFunction(t, name) == t[i].ptr
    ensures (forall i :: 0 <= i < |t| ==> t[i].name != name) ==>
              FindRuntimeFunction(t, name) == 0
  {
    forall i | 0 <= i < |t| && t[i].name == name
      ensures FindRuntimeFunction(t, name) == t[i].ptr
    {
      BSearchFinds(t, i, 0, |t|);
    }
    forall i | 0 <= i < |t|
      ensures StrCmp(name, t[i].name) == 0 ==> t[i].name == name
    {
      StrCmpZero(name, t[i].name);
    }
  }

  /** `VerifyRuntimesTable`: looks every entry up under its own name and
    * reports whether each lookup gave that entry's address (the source
    * asserts on the first mismatch). */
  method VerifyRuntimesTable(t: seq<RuntimeFunction>) returns (ok: bool)
    ensures ok <==> forall i :: 0 <= i < |t| ==> FindRuntimeFunction(t, t[i].name) == t[i].ptr
  {
    ok := true;
    var i := 0;
    while i < |t|
      invariant 0 <= i <= |t|
      invariant ok <==> forall j :: 0 <= j < i ==> FindRuntimeFunction(t, t[j].name) == t[j].ptr
    {
      var p := FindRuntimeFunction(t, t[i].name);
      if p != t[i].ptr {
        ok := false;
      }
      i := i + 1;
    }
  }

  /** A well-formed table passes the start-up check. */
  lemma WellFormedTableVerifies(t: seq<RuntimeFunction>)
    requires WellFormed(t)
    ensures forall i :: 0 <= i < |t| ==> FindRuntimeFunction(t, t[i].name) == t[i].ptr
  {
    forall i | 0 <= i < |t|
      ensures FindRuntimeFunction(t, t[i].name) == t[i].ptr
    {
      BSearchFinds(t, i, 0, |t|);
    }
  }

  /** A table listed out of order fails it: with "b" before "a", the search
    * for "b" probes "a", moves above it and finds nothing. */
  lemma UnsortedTableFailsVerification()
    ensures var t := [RuntimeFunction("b", 1), RuntimeFunction("a", 2)];
      FindRuntimeFunction(t, t[0].name) != t[0].ptr
  {
    var t := [RuntimeFunction("b", 1), RuntimeFunction("a", 2)];
    assert StrCmp("b", "a") > 0;
    assert BSearch(t, "b", 0, 2) == BSearch(t, "b", 2, 2);
  }
}
