// The oBCC cache-file format shared by the writers and readers: the header,
// the section layout rule, the NUL-terminated string pool and the XOR parity
// checksum over the context words.

module CacheFormat {
  import opened Common

  /** sizeof(int): every section offset is aligned to it. */
  const IntSize: nat := 4

  /** Facts about the host and the build that the format depends on but that
    * no header in this model fixes: the magic and version words, the machine
    * integer sizes, the page size and the sizes of the on-disk structs. */
  datatype Env = Env(
    magic: seq<char>, version: seq<char>,
    littleEndian: bool, offTSize: nat, sizeTSize: nat, ptrSize: nat,
    pageSize: nat, headerSize: nat,
    strEntrySize: nat, depEntrySize: nat, pragmaEntrySize: nat,
    funcEntrySize: nat)
  {
    predicate Valid()
    {
      |magic| == 4 && |version| == 4 && pageSize >= 1 &&
      sizeTSize >= 1 && ptrSize >= 1
    }
  }

  datatype Section = Section(offset: nat, size: nat)
  {
    function End(): nat { offset + size }
  }

  /** The fixed-size header at offset 0 of the information file. */
  datatype Header = Header(
    magic: seq<char>, version: seq<char>, endianness: char,
    offTSize: nat, sizeTSize: nat, ptrSize: nat,
    contextCachedAddr: nat, libRSThreadable: nat,
    strPool: Section, dependTab: Section, relocTab: Section,
    exportVarList: Section, exportFuncList: Section, pragmaList: Section,
    funcTable: Section, objectSlotList: Section,
    contextOffset: nat, checksum: bv32)

  /** The header right after `memset(header, '\0', sizeof(OBCC_Header))`. */
  function ZeroHeader(): (h: Header)
    ensures h.strPool.size == 0 && h.relocTab.size == 0 && h.checksum == 0
  {
    Header("\0\0\0\0", "\0\0\0\0", '\0', 0, 0, 0, 0, 0,
           Section(0, 0), Section(0, 0), Section(0, 0), Section(0, 0),
           Section(0, 0), Section(0, 0), Section(0, 0), Section(0, 0), 0, 0)
  }

  /** The endianness byte a writer on this host records. */
  function EndiannessMark(littleEndian: bool): (c: char)
    ensures c == 'e' || c == 'E'
    ensures c == 'e' <==> littleEndian
  {
    if littleEndian then 'e' else 'E'
  }

  // ---------------------------------------------------------------------
  // Rounding by remainder, the way both writers spell it.

  /** `rem = x % a; if (rem) x += a - rem;` */
  function PadUp(x: nat, a: nat): nat
    requires a >= 1
  {
    var rem := x % a;
    if rem > 0 then x + (a - rem) else x
  }

  lemma PadUpIsAlignUp(x: nat, a: nat)
    requires a >= 1
    ensures PadUp(x, a) == AlignUp(x, a)
    ensures PadUp(x, a) % a == 0 && x <= PadUp(x, a) < x + a
  {
    var u := AlignUp(x, a);
    var c := PadUp(x, a);
    assert x == a * (x / a) + x % a;
    assert a * (x / a + 1) == a * (x / a) + a;
    assert c == if x % a > 0 then a * (x / a + 1) else x;
    MultipleMod(a, x / a + 1);
    assert c % a == 0;
    assert x <= c < x + a;
    var k := u / a - c / a;
    assert u - c == a * k;
    MulBound(a, k);
  }

  // ---------------------------------------------------------------------
  // Section layout: each section starts at the next word boundary after the
  // previous one ends.

  /** The cursor after laying out `sizes` from `start`. */
  function LayoutEnd(start: nat, sizes: seq<nat>): (e: nat)
    ensures e >= start
  {
    if |sizes| == 0 then start
    else AlignUp(LayoutEnd(start, sizes[..|sizes| - 1]), IntSize) + sizes[|sizes| - 1]
  }

  /** The offsets the sections of `sizes` receive, in order. */
  function Layout(start: nat, sizes: seq<nat>): (offs: seq<nat>)
    ensures |offs| == |sizes|
  {
    if |sizes| == 0 then []
    else
      var prefix := sizes[..|sizes| - 1];
      Layout(start, prefix) + [AlignUp(LayoutEnd(start, prefix), IntSize)]
  }

  lemma LayoutPrefix(start: nat, sizes: seq<nat>, n: nat)
    requires n <= |sizes|
    ensures Layout(start, sizes[..n]) == Layout(start, sizes)[..n]
    ensures LayoutEnd(start, sizes[..n]) <= LayoutEnd(start, sizes)
    decreases |sizes|
  {
    if n < |sizes| {
      var prefix := sizes[..|sizes| - 1];
      assert sizes[..n] == prefix[..n];
      LayoutPrefix(start, prefix, n);
    } else {
      assert sizes[..n] == sizes;
    }
  }

  /** Every section is word aligned, starts no earlier than `start`, lies
    * inside the laid-out extent, and is followed at most three padding bytes
    * later by the next one. */
  lemma {:induction false} LayoutPlacement(start: nat, sizes: seq<nat>, k: nat)
    requires k < |sizes|
    ensures Layout(start, sizes)[k] % IntSize == 0
    ensures Layout(start, sizes)[k] >= start
    ensures Layout(start, sizes)[k] + sizes[k] <= LayoutEnd(start, sizes)
    ensures k + 1 < |sizes| ==>
      Layout(start, sizes)[k] + sizes[k] <= Layout(start, sizes)[k + 1] <
        Layout(start, sizes)[k] + sizes[k] + IntSize
  {
    var offs := Layout(start, sizes);
    var p := sizes[..k];
    var q := sizes[..k + 1];
    LayoutPrefix(start, sizes, k + 1);
    assert q[..k] == p;
    assert offs[k] == Layout(start, q)[k] == AlignUp(LayoutEnd(start, p), IntSize);
    assert LayoutEnd(start, q) == offs[k] + sizes[k];
    if k + 1 < |sizes| {
      var r := sizes[..k + 2];
      LayoutPrefix(start, sizes, k + 2);
      assert r[..k + 1] == q;
      assert offs[k + 1] == AlignUp(LayoutEnd(start, q), IntSize);
    }
  }

  // ---------------------------------------------------------------------
  // String pool: a table of (offset, length) entries followed by the
  // strings, each with a NUL after it. Offsets are from the pool's start.

  datatype StrEntry = StrEntry(offset: nat, length: nat)

  /** A string-pool section: its entry count, its entry table and its bytes
    * (the table region itself is left as zeros in `bytes`). */
  datatype PoolImage = PoolImage(count: nat, entries: seq<StrEntry>, bytes: seq<char>)

  /** The strings, each followed by a NUL, in order. */
  function Terminated(strs: seq<seq<char>>): (t: seq<char>)
  {
    if |strs| == 0 then []
    else Terminated(strs[..|strs| - 1]) + strs[|strs| - 1] + ['\0']
  }

  /** Σ (length + 1) over the strings. */
  function SumTerminated(strs: seq<seq<char>>): nat
  {
    if |strs| == 0 then 0
    else SumTerminated(strs[..|strs| - 1]) + |strs[|strs| - 1]| + 1
  }

  lemma {:induction false} TerminatedLength(strs: seq<seq<char>>)
    ensures |Terminated(strs)| == SumTerminated(strs)
  {
    if |strs| > 0 {
      TerminatedLength(strs[..|strs| - 1]);
    }
  }

  lemma TerminatedPrefix(strs: seq<seq<char>>, n: nat)
    requires n <= |strs|
    ensures Terminated(strs[..n]) <= Terminated(strs)
    decreases |strs|
  {
    if n < |strs| {
      var prefix := strs[..|strs| - 1];
      assert strs[..n] == prefix[..n];
      TerminatedPrefix(prefix, n);
    } else {
      assert strs[..n] == strs;
    }
  }

  /** Inside `Terminated(strs)`, string i starts at |Terminated(strs[..i])|
    * and a NUL follows it. */
  lemma TerminatedAt(strs: seq<seq<char>>, i: nat)
    requires i < |strs|
    ensures var o := |Terminated(strs[..i])|;
      o + |strs[i]| < |Terminated(strs)| &&
      Terminated(strs)[o..o + |strs[i]|] == strs[i] &&
      Terminated(strs)[o + |strs[i]|] == '\0'
  {
    var q := strs[..i + 1];
    assert q[..i] == strs[..i];
    assert Terminated(q) == Terminated(strs[..i]) + strs[i] + ['\0'];
    TerminatedPrefix(strs, i + 1);
  }

  /** End of the entry table: the count word then one entry per string. */
  function PoolTableEnd(n: nat, env: Env): nat
  {
    env.sizeTSize + env.strEntrySize * n
  }

  /** The entries a correct writer records: string i at the table end plus
    * the terminated lengths of the strings before it. */
  function PoolEntries(strs: seq<seq<char>>, tableEnd: nat): (es: seq<StrEntry>)
    ensures |es| == |strs|
  {
    if |strs| == 0 then []
    else
      var prefix := strs[..|strs| - 1];
      PoolEntries(prefix, tableEnd) +
        [StrEntry(tableEnd + |Terminated(prefix)|, |strs[|strs| - 1]|)]
  }

  lemma PoolEntriesAt(strs: seq<seq<char>>, tableEnd: nat, i: nat)
    requires i < |strs|
    ensures PoolEntries(strs, tableEnd)[i] ==
      StrEntry(tableEnd + |Terminated(strs[..i])|, |strs[i]|)
    decreases |strs|
  {
    if i < |strs| - 1 {
      var prefix := strs[..|strs| - 1];
      assert prefix[..i] == strs[..i];
      PoolEntriesAt(prefix, tableEnd, i);
    }
  }

  function Zeros(n: nat): (z: seq<char>)
    ensures |z| == n && forall k | 0 <= k < n :: z[k] == '\0'
  {
    seq(n, _ => '\0')
  }

  /** The string-pool section a correct writer produces for `strs`. */
  function PoolImageOf(strs: seq<seq<char>>, env: Env): PoolImage
  {
    var t := PoolTableEnd(|strs|, env);
    PoolImage(|strs|, PoolEntries(strs, t), Zeros(t) + Terminated(strs))
  }

  /** Reads string i back the way a reader does: `length` bytes at `offset`. */
  function ReadString(p: PoolImage, i: nat): (r: Option<seq<char>>)
    ensures r.Some? <==>
      i < |p.entries| && p.entries[i].offset + p.entries[i].length <= |p.bytes|
    ensures r.Some? ==> |r.value| == p.entries[i].length
  {
    if i < |p.entries| && p.entries[i].offset + p.entries[i].length <= |p.bytes|
    then Some(p.bytes[p.entries[i].offset..p.entries[i].offset + p.entries[i].length])
    else None
  }

  /** The byte right after string i is a NUL. A recorded position outside the
    * section counts as a failed check. */
  predicate EntryTerminated(p: PoolImage, i: nat)
  {
    i < |p.entries| &&
    p.entries[i].offset + p.entries[i].length < |p.bytes| &&
    p.bytes[p.entries[i].offset + p.entries[i].length] == '\0'
  }

  /** The readers' `checkStringPool`. */
  predicate CheckStringPool(p: PoolImage)
  {
    forall i | 0 <= i < p.count :: EntryTerminated(p, i)
  }

  /** The pool a correct writer builds passes the reader's check, and every
    * string reads back unchanged. */
  lemma PoolRoundTrip(strs: seq<seq<char>>, env: Env)
    ensures PoolImageOf(strs, env).count == |strs|
    ensures CheckStringPool(PoolImageOf(strs, env))
    ensures forall i | 0 <= i < |strs| :: ReadString(PoolImageOf(strs, env), i) == Some(strs[i])
  {
    var p := PoolImageOf(strs, env);
    var t := PoolTableEnd(|strs|, env);
    forall i | 0 <= i < |strs|
      ensures EntryTerminated(p, i) && ReadString(p, i) == Some(strs[i])
    {
      PoolEntriesAt(strs, t, i);
      TerminatedAt(strs, i);
      var o := |Terminated(strs[..i])|;
      assert p.bytes[t + o..t + o + |strs[i]|] == Terminated(strs)[o..o + |strs[i]|];
      assert p.bytes[t + o + |strs[i]|] == Terminated(strs)[o + |strs[i]|];
    }
  }

  /** The section size a correct writer records for `strs`:
    * the table plus Σ(length + 1). */
  lemma PoolImageSize(strs: seq<seq<char>>, env: Env)
    ensures |PoolImageOf(strs, env).bytes| ==
      PoolTableEnd(|strs|, env) + SumTerminated(strs)
  {
    TerminatedLength(strs);
  }

  // ---------------------------------------------------------------------
  // Context parity checksum.

  /** XOR of all the 32-bit words. */
  function XorAll(ws: seq<bv32>): bv32
  {
    if |ws| == 0 then 0 else XorAll(ws[..|ws| - 1]) ^ ws[|ws| - 1]
  }

  /** Replacing one word changes the XOR by exactly old ^ new. */
  lemma {:induction false} XorUpdate(ws: seq<bv32>, i: nat, w: bv32)
    requires i < |ws|
    ensures XorAll(ws[i := w]) == XorAll(ws) ^ ws[i] ^ w
  {
    var n := |ws| - 1;
    if i < n {
      XorUpdate(ws[..n], i, w);
      XorUpdateBefore(ws, i, w);
    } else {
      XorUpdateLast(ws, w);
    }
  }

  /** The last word replaced. */
  lemma XorUpdateLast(ws: seq<bv32>, w: bv32)
    requires |ws| > 0
    ensures XorAll(ws[|ws| - 1 := w]) == XorAll(ws) ^ ws[|ws| - 1] ^ w
  {
    var n := |ws| - 1;
    assert ws[n := w][..n] == ws[..n];
  }

  /** An earlier word replaced, given the effect on the words before the
    * last. */
  lemma XorUpdateBefore(ws: seq<bv32>, i: nat, w: bv32)
    requires i < |ws| - 1
    requires XorAll(ws[..|ws| - 1][i := w]) == XorAll(ws[..|ws| - 1]) ^ ws[i] ^ w
    ensures XorAll(ws[i := w]) == XorAll(ws) ^ ws[i] ^ w
  {
    var n := |ws| - 1;
    assert ws[i := w][..n] == ws[..n][i := w];
  }

  /** So a single corrupted context word always fails the parity check. */
  lemma ChecksumDetectsOneWord(ws: seq<bv32>, i: nat, w: bv32)
    requires i < |ws| && w != ws[i]
    ensures XorAll(ws[i := w]) ^ XorAll(ws) != 0
  {
    XorUpdate(ws, i, w);
  }

  // ---------------------------------------------------------------------
  // The `step() && step() && ...` chains of the writers and readers.

  /** The number of steps that succeed before the first failure; a chain
    * evaluates exactly the steps up to and including that one. */
  function FirstFailure(outcomes: seq<bool>): (n: nat)
    ensures n <= |outcomes|
    ensures forall k | 0 <= k < n :: outcomes[k]
    ensures n < |outcomes| ==> !outcomes[n]
    ensures n == |outcomes| <==> false !in outcomes
  {
    if |outcomes| == 0 then 0
    else if !outcomes[0] then 0
    else 1 + FirstFailure(outcomes[1..])
  }
}
