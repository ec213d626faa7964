// The shape shared by every list getter of the script objects: report the
// number of entries, cut it to the caller's capacity, and copy that many
// entries, in list order, into the caller's array.

module BoundedCopy {
  import opened CStrings
  import opened Common

  /** The number of entries a getter copies: the count, cut to the caller's
    * capacity. */
  function CopyCount(count: nat, capacity: nat): (n: nat)
    ensures n <= count && n <= capacity
    ensures n == count || n == capacity
  {
    if count > capacity then capacity else count
  }

  /** The same cut with the signed capacity of the `BCCsizei` interfaces;
    * a negative capacity makes the loops copy nothing. */
  function SignedCopyCount(count: nat, capacity: int): (n: nat)
    ensures n <= count && (n <= capacity || (capacity < 0 && n == 0))
    ensures capacity >= 0 ==> n == CopyCount(count, capacity)
  {
    if capacity < 0 then 0 else CopyCount(count, capacity)
  }

  /** Copies the first `n` entries, one at a time, counting `n` down as the
    * getters' loops do; the rest of the caller's array is left alone. */
  method CopyPrefix<T>(items: seq<T>, n: nat, list: array<T>)
    requires n <= |items| && n <= list.Length
    modifies list
    ensures list[..n] == items[..n]
    ensures list[n..] == old(list[n..])
  {
    var remaining := n;
    var i := 0;
    while i < |items| && remaining > 0
      invariant 0 <= i <= n && remaining == n - i
      invariant forall k :: 0 <= k < i ==> list[k] == items[k]
      invariant forall k :: n <= k < list.Length ==> list[k] == old(list[k])
    {
      list[i] := items[i];
      i := i + 1;
      remaining := remaining - 1;
    }
    assert list[..n] == items[..n];
  }

  function Keys(ps: seq<(seq<char>, seq<char>)>): (r: seq<seq<char>>)
    ensures |r| == |ps|
    ensures forall i :: 0 <= i < |ps| ==> r[i] == ps[i].0
  {
    seq(|ps|, i requires 0 <= i < |ps| => ps[i].0)
  }

  function Values(ps: seq<(seq<char>, seq<char>)>): (r: seq<seq<char>>)
    ensures |r| == |ps|
    ensures forall i :: 0 <= i < |ps| ==> r[i] == ps[i].1
  {
    seq(|ps|, i requires 0 <= i < |ps| => ps[i].1)
  }

  /** The pragma-list loop of the script objects: for each of the first `n`
    * pragmas, the key goes to the key list and the value to the value list,
    * each list skipped when NULL.  When both lists are one array, each slot
    * ends with the value. */
  method CopyPragmaPairs(ps: seq<(seq<char>, seq<char>)>, n: nat,
                         keyList: array?<seq<char>>, valueList: array?<seq<char>>)
    requires n <= |ps|
    requires keyList != null ==> n <= keyList.Length
    requires valueList != null ==> n <= valueList.Length
    modifies keyList, valueList
    ensures valueList != null ==>
      valueList[..n] == Values(ps)[..n] && valueList[n..] == old(valueList[n..])
    ensures keyList != null && keyList != valueList ==>
      keyList[..n] == Keys(ps)[..n] && keyList[n..] == old(keyList[n..])
  {
    var remaining := n;
    var i := 0;
    while i < |ps| && remaining > 0
      invariant 0 <= i <= n && remaining == n - i
      invariant valueList != null ==> forall k :: 0 <= k < i ==> valueList[k] == ps[k].1
      invariant valueList != null ==>
        forall k :: n <= k < valueList.Length ==> valueList[k] == old(valueList[k])
      invariant keyList != null && keyList != valueList ==>
        forall k :: 0 <= k < i ==> keyList[k] == ps[k].0
      invariant keyList != null && keyList != valueList ==>
        forall k :: n <= k < keyList.Length ==> keyList[k] == old(keyList[k])
    {
      if keyList != null {
        keyList[i] := ps[i].0;
      }
      if valueList != null {
        valueList[i] := ps[i].1;
      }
      i := i + 1;
      remaining := remaining - 1;
    }
    if valueList != null {
      assert valueList[..n] == Values(ps)[..n];
    }
    if keyList != null && keyList != valueList {
      assert keyList[..n] == Keys(ps)[..n];
    }
  }

  // ---------------------------------------------------------------------
  // Emitted-function tables, kept as `std::map`s keyed by name.

  /** One emitted function: its name, code address and code size. */
  datatype EmittedFunc = EmittedFunc(name: seq<char>, code: nat, size: nat)

  function FuncNames(fs: seq<EmittedFunc>): (r: seq<seq<char>>)
    ensures |r| == |fs|
    ensures forall i :: 0 <= i < |fs| ==> r[i] == fs[i].name
  {
    seq(|fs|, i requires 0 <= i < |fs| => fs[i].name)
  }

  /** A map's entries in iteration order: names are C strings, strictly
    * ascending. */
  predicate MapOrder(fs: seq<EmittedFunc>)
  {
    (forall i :: 0 <= i < |fs| ==> CString(fs[i].name)) && StrictlySorted(FuncNames(fs))
  }

  /** `find`: the entry with that name, if any. */
  function FindFunc(fs: seq<EmittedFunc>, name: seq<char>): (r: Option<EmittedFunc>)
    ensures r.Some? <==> exists i :: 0 <= i < |fs| && fs[i].name == name
    ensures r.Some? ==> r.value.name == name && r.value in fs
  {
    if |fs| == 0 then None
    else if fs[0].name == name then Some(fs[0])
    else
      var r := FindFunc(fs[1..], name);
      assert forall i :: 1 <= i < |fs| ==> fs[i] == fs[1..][i - 1];
      r
  }

  /** In a map the entry found is the one at the name's position. */
  lemma FindFuncAt(fs: seq<EmittedFunc>, i: nat)
    requires MapOrder(fs) && i < |fs|
    ensures FindFunc(fs, fs[i].name) == Some(fs[i])
  {
    var r := FindFunc(fs, fs[i].name);
    var j :| 0 <= j < |fs| && fs[j] == r.value;
    if j < i {
      assert StrLess(FuncNames(fs)[j], FuncNames(fs)[i]);
      StrCmpZero(fs[j].name, fs[i].name);
    } else if j > i {
      assert StrLess(FuncNames(fs)[i], FuncNames(fs)[j]);
      StrCmpZero(fs[i].name, fs[j].name);
    }
  }

  /** `lookup`: the entry's code address, NULL (0) for an unknown name. */
  function LookupCode(fs: seq<EmittedFunc>, name: seq<char>): (addr: nat)
    ensures (forall i :: 0 <= i < |fs| ==> fs[i].name != name) ==> addr == 0
    ensures forall i :: 0 <= i < |fs| && fs[i].name == name && MapOrder(fs) ==>
              addr == fs[i].code
  {
    forall i | 0 <= i < |fs| && fs[i].name == name && MapOrder(fs)
      ensures FindFunc(fs, name) == Some(fs[i])
    {
      FindFuncAt(fs, i);
    }
    var e := FindFunc(fs, name);
    if e.None? then 0 else e.value.code
  }

  /** `getFuncBinary`: (NULL, 0) for an unknown name, otherwise the entry's
    * code address and size. */
  function FuncBinary(fs: seq<EmittedFunc>, name: seq<char>): (r: (nat, nat))
    ensures (forall i :: 0 <= i < |fs| ==> fs[i].name != name) ==> r == (0, 0)
    ensures forall i :: 0 <= i < |fs| && fs[i].name == name && MapOrder(fs) ==>
              r == (fs[i].code, fs[i].size)
  {
    forall i | 0 <= i < |fs| && fs[i].name == name && MapOrder(fs)
      ensures FindFunc(fs, name) == Some(fs[i])
    {
      FindFuncAt(fs, i);
    }
    var e := FindFunc(fs, name);
    if e.None? then (0, 0) else (e.value.code, e.value.size)
  }
}
