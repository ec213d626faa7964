// The allocation accessors of the compiler's own RenderScript runtime:
// rows of an allocation's level 0 are `stride` bytes apart, elements are
// addressed from the level's storage, and stores copy the element's bytes
// into that storage.

module RsAllocation {
  import opened Common

  const U32: int := 0x1_0000_0000

  /** The storage with `data` written over its bytes from `off` on; every
    * other byte keeps its value. */
  function Stored(mem: seq<byte>, off: nat, data: seq<byte>): (r: seq<byte>)
    requires off + |data| <= |mem|
    ensures |r| == |mem| && r[off..off + |data|] == data
    ensures forall i :: 0 <= i < |mem| && !(off <= i < off + |data|) ==> r[i] == mem[i]
  {
    mem[..off] + data + mem[off + |data|..]
  }

  /** A store leaves any byte range it does not overlap as it was. */
  lemma StoredElsewhere(mem: seq<byte>, off: nat, data: seq<byte>, off2: nat, len2: nat)
    requires off + |data| <= |mem| && off2 + len2 <= |mem|
    requires off + |data| <= off2 || off2 + len2 <= off
    ensures Stored(mem, off, data)[off2..off2 + len2] == mem[off2..off2 + len2]
  {
  }

  /** The byte offset of element (x, y, z) with elements of `eSize` bytes,
    * rows `stride` bytes apart and `dimY` rows to a plane, in 32-bit
    * unsigned arithmetic; the one- and two-coordinate forms are y = z = 0
    * and z = 0. */
  function StridedOffset(eSize: nat, stride: nat, dimY: nat, x: nat, y: nat, z: nat): (off: nat)
    ensures off < U32
  {
    (eSize * x + y * stride + z * stride * dimY) % U32
  }

  lemma MulMonotoneLeft(a: nat, b: nat, c: nat)
    requires a <= b
    ensures a * c <= b * c
  {
  }

  /** Rows of a plane and planes of a box, counted row after row: the row
    * number y + z·dimY stays below dimY·dimZ, and a smaller row number
    * means an earlier row. */
  lemma RowNumber(dimY: nat, dimZ: nat, y1: nat, z1: nat, y2: nat, z2: nat)
    requires y1 < dimY && z1 < dimZ && y2 < dimY
    ensures y1 + z1 * dimY < dimY * dimZ
    ensures y1 + z1 * dimY == y2 + z2 * dimY ==> y1 == y2 && z1 == z2
  {
    MulMonotoneLeft(z1 + 1, dimZ, dimY);
    assert z1 * dimY + dimY == (z1 + 1) * dimY;
    if z1 < z2 {
      MulMonotoneLeft(z1 + 1, z2, dimY);
      assert z1 * dimY + dimY == (z1 + 1) * dimY;
    }
    if z2 < z1 {
      MulMonotoneLeft(z2 + 1, z1, dimY);
      assert z2 * dimY + dimY == (z2 + 1) * dimY;
    }
  }

  /** Level 0 of an allocation holds dimX·dimY·dimZ elements when each row
    * of dimX elements fits in the stride and the rows fit the 32-bit
    * address arithmetic. */
  predicate RowsFit(eSize: nat, stride: nat, dimX: nat, dimY: nat, dimZ: nat)
  {
    eSize * dimX <= stride && stride * (dimY * dimZ) <= U32
  }

  /** The unwrapped offset of element x of row `row`. */
  function InRow(eSize: nat, stride: nat, row: nat, x: nat): nat
  {
    row * stride + eSize * x
  }

  /** Element x of a row ends within the row. */
  lemma InRowEnd(eSize: nat, stride: nat, dimX: nat, row: nat, x: nat)
    requires x < dimX && eSize * dimX <= stride
    ensures InRow(eSize, stride, row, x) + eSize <= row * stride + stride
  {
    MulMonotoneLeft(x + 1, dimX, eSize);
    assert (x + 1) * eSize == eSize * x + eSize && dimX * eSize == eSize * dimX;
  }

  /** An element of an earlier row ends before any element of a later
    * row starts. */
  lemma RowBefore(eSize: nat, stride: nat, dimX: nat, r1: nat, x1: nat, r2: nat, x2: nat)
    requires x1 < dimX && eSize * dimX <= stride && r1 < r2
    ensures InRow(eSize, stride, r1, x1) + eSize <= InRow(eSize, stride, r2, x2)
  {
    InRowEnd(eSize, stride, dimX, r1, x1);
    RowsBelow(stride, r1, r2);
  }

  /** Within a row, an element ends before the next ones start. */
  lemma ColumnBefore(eSize: nat, stride: nat, row: nat, x1: nat, x2: nat)
    requires x1 < x2
    ensures InRow(eSize, stride, row, x1) + eSize <= InRow(eSize, stride, row, x2)
  {
    MulMonotoneLeft(x1 + 1, x2, eSize);
    assert (x1 + 1) * eSize == eSize * x1 + eSize && x2 * eSize == eSize * x2;
  }

  /** Elements at different places of the rows occupy disjoint bytes. */
  lemma {:induction false} InRowDisjoint(eSize: nat, stride: nat, dimX: nat,
                                         r1: nat, x1: nat, r2: nat, x2: nat)
    requires x1 < dimX && x2 < dimX && eSize * dimX <= stride
    requires r1 != r2 || x1 != x2
    ensures InRow(eSize, stride, r1, x1) + eSize <= InRow(eSize, stride, r2, x2) ||
      InRow(eSize, stride, r2, x2) + eSize <= InRow(eSize, stride, r1, x1)
  {
    if r1 < r2 {
      RowBefore(eSize, stride, dimX, r1, x1, r2, x2);
    } else if r2 < r1 {
      RowBefore(eSize, stride, dimX, r2, x2, r1, x1);
    } else if x1 < x2 {
      ColumnBefore(eSize, stride, r1, x1, x2);
    } else {
      ColumnBefore(eSize, stride, r1, x2, x1);
    }
  }

  /** The offset of (x, y, z) is element x of row y + z·dimY, and inside the
    * allocation no wrap-around occurs. */
  lemma StridedIsInRow(eSize: nat, stride: nat, dimX: nat, dimY: nat, dimZ: nat, x: nat, y: nat, z: nat)
    requires RowsFit(eSize, stride, dimX, dimY, dimZ)
    requires x < dimX && y < dimY && z < dimZ
    ensures StridedOffset(eSize, stride, dimY, x, y, z) == InRow(eSize, stride, y + z * dimY, x)
    ensures InRow(eSize, stride, y + z * dimY, x) + eSize <= stride * (dimY * dimZ)
  {
    var row := y + z * dimY;
    RowNumber(dimY, dimZ, y, z, y, z);
    assert row * stride == y * stride + z * stride * dimY;
    InRowEnd(eSize, stride, dimX, row, x);
    RowsBelow(stride, row, dimY * dimZ);
    assert (dimY * dimZ) * stride == stride * (dimY * dimZ);
  }

  /** Inside level 0, element (x, y, z) lies within the dimY·dimZ rows, and
    * two different coordinates occupy disjoint bytes. */
  lemma {:induction false} StridedDisjoint(eSize: nat, stride: nat, dimX: nat, dimY: nat, dimZ: nat,
                                           x1: nat, y1: nat, z1: nat, x2: nat, y2: nat, z2: nat)
    requires RowsFit(eSize, stride, dimX, dimY, dimZ)
    requires x1 < dimX && y1 < dimY && z1 < dimZ && x2 < dimX && y2 < dimY && z2 < dimZ
    ensures StridedOffset(eSize, stride, dimY, x1, y1, z1) + eSize <= stride * (dimY * dimZ)
    ensures x1 != x2 || y1 != y2 || z1 != z2 ==>
      StridedOffset(eSize, stride, dimY, x1, y1, z1) + eSize <= StridedOffset(eSize, stride, dimY, x2, y2, z2) ||
      StridedOffset(eSize, stride, dimY, x2, y2, z2) + eSize <= StridedOffset(eSize, stride, dimY, x1, y1, z1)
  {
    var row1, row2 := y1 + z1 * dimY, y2 + z2 * dimY;
    assert StridedOffset(eSize, stride, dimY, x1, y1, z1) == InRow(eSize, stride, row1, x1) &&
           InRow(eSize, stride, row1, x1) + eSize <= stride * (dimY * dimZ) by {
      StridedIsInRow(eSize, stride, dimX, dimY, dimZ, x1, y1, z1);
    }
    assert StridedOffset(eSize, stride, dimY, x2, y2, z2) == InRow(eSize, stride, row2, x2) by {
      StridedIsInRow(eSize, stride, dimX, dimY, dimZ, x2, y2, z2);
    }
    if x1 != x2 || y1 != y2 || z1 != z2 {
      assert row1 != row2 || x1 != x2 by {
        RowNumber(dimY, dimZ, y1, z1, y2, z2);
      }
      InRowDisjoint(eSize, stride, dimX, row1, x1, row2, x2);
    }
  }

  /** A row before row `hi` ends at or before row `hi` starts. */
  lemma RowsBelow(stride: nat, row: nat, hi: nat)
    requires row < hi
    ensures row * stride + stride <= hi * stride
    ensures hi * stride <= U32 ==> row * stride + stride <= U32
  {
    MulMonotoneLeft(row + 1, hi, stride);
    assert row * stride + stride == (row + 1) * stride;
  }

  /** An allocation as the runtime's accessors see it: level 0's storage,
    * dimensions and row stride, and the element size and flags of its
    * state. */
  class Allocation {
    const mem: array<byte>
    var lodDimX: nat
    var lodDimY: nat
    var lodDimZ: nat
    var stride: nat
    var elementSizeBytes: nat
    var hasMipmaps: bool
    var hasFaces: bool

    constructor (storage: array<byte>, dimX: nat, dimY: nat, dimZ: nat, rowStride: nat,
                 eSize: nat, mipmaps: bool, faces: bool)
      ensures mem == storage && lodDimX == dimX && lodDimY == dimY && lodDimZ == dimZ
      ensures stride == rowStride && elementSizeBytes == eSize
      ensures hasMipmaps == mipmaps && hasFaces == faces
    {
      mem := storage;
      lodDimX := dimX;
      lodDimY := dimY;
      lodDimZ := dimZ;
      stride := rowStride;
      elementSizeBytes := eSize;
      hasMipmaps := mipmaps;
      hasFaces := faces;
    }

    /** `rsAllocationGetDimX`, `DimY`, `DimZ`, `DimLOD` and `DimFaces`: the
      * three dimensions of level 0, and the mipmap and faces flags as 1 or
      * 0. */
    function GetDims(): (d: (nat, nat, nat, nat, nat))
      reads this
      ensures d.0 == lodDimX && d.1 == lodDimY && d.2 == lodDimZ
      ensures (d.3 == 1 <==> hasMipmaps) && (d.3 == 0 <==> !hasMipmaps)
      ensures (d.4 == 1 <==> hasFaces) && (d.4 == 0 <==> !hasFaces)
    {
      (lodDimX, lodDimY, lodDimZ, if hasMipmaps then 1 else 0, if hasFaces then 1 else 0)
    }

    /** `rsGetElementAt(a, x[, y[, z]])`: the element's offset in level 0's
      * storage. */
    function ElementAt(x: nat, y: nat, z: nat): (off: nat)
      reads this
      ensures off < U32
    {
      StridedOffset(elementSizeBytes, stride, lodDimY, x, y, z)
    }

    /** The bytes of the element at `off`. */
    function ElementBytes(off: nat): seq<byte>
      reads this, mem
      requires off + elementSizeBytes <= mem.Length
    {
      mem[off..off + elementSizeBytes]
    }

    /** `rsSetElementAt(a, ptr, x)` and `(a, ptr, x, y)`: the element's
      * bytes are copied from `ptr` to the offset `rsGetElementAt` gives for
      * the same coordinates; nothing else in the storage changes. */
    method SetElementAt(ptr: seq<byte>, x: nat, y: nat)
      requires elementSizeBytes <= |ptr|
      requires ElementAt(x, y, 0) + elementSizeBytes <= mem.Length
      modifies mem
      ensures mem[..] == Stored(old(mem[..]), ElementAt(x, y, 0), ptr[..elementSizeBytes])
      ensures ElementBytes(ElementAt(x, y, 0)) == ptr[..elementSizeBytes]
    {
      var off := ElementAt(x, y, 0);
      Memcpy(mem, off, ptr, elementSizeBytes);
    }

    /** `__rsSetElementAt_T(a, val, x)` and `(a, val, x, y)`: a store of one
      * value of type T, whose size (the byte count of `val`) stands for
      * the element size in the offset. */
    method SetElementAtTyped(val: seq<byte>, x: nat, y: nat)
      requires StridedOffset(|val|, stride, lodDimY, x, y, 0) + |val| <= mem.Length
      modifies mem
      ensures mem[..] == Stored(old(mem[..]), StridedOffset(|val|, stride, lodDimY, x, y, 0), val)
    {
      var off := StridedOffset(|val|, stride, lodDimY, x, y, 0);
      forall i | 0 <= i < |val| {
        mem[off + i] := val[i];
      }
      assert mem[..] == Stored(old(mem[..]), off, val) by {
        var r := Stored(old(mem[..]), off, val);
        assert forall i :: 0 <= i < mem.Length ==> mem[i] == r[i] by {
          assert forall i :: off <= i < off + |val| ==> r[i] == r[off..off + |val|][i - off];
        }
      }
    }
  }

  /** The local `memcpy`: the count runs down from `size` to 0, copying one
    * byte per step, so exactly `size` bytes of `src` land at `dstOff`. */
  method Memcpy(dst: array<byte>, dstOff: nat, src: seq<byte>, size: nat)
    requires dstOff + size <= dst.Length && size <= |src|
    modifies dst
    ensures dst[..] == Stored(old(dst[..]), dstOff, src[..size])
  {
    var count := size;
    var d := dstOff;
    var s := 0;
    while count > 0
      invariant s + count == size && d == dstOff + s
      invariant dst[dstOff..d] == src[..s]
      invariant forall i :: 0 <= i < dst.Length && !(dstOff <= i < d) ==> dst[i] == old(dst[i])
    {
      dst[d] := src[s];
      d := d + 1;
      s := s + 1;
      count := count - 1;
    }
    assert dst[..] == Stored(old(dst[..]), dstOff, src[..size]) by {
      var r := Stored(old(dst[..]), dstOff, src[..size]);
      assert forall i :: dstOff <= i < dstOff + size ==> r[i] == src[..size][i - dstOff] == dst[dstOff..d][i - dstOff];
    }
  }

  /** A typed store with T the allocation's element type writes what the
    * untyped store writes. */
  lemma TypedStoreIsElementStore(mem: seq<byte>, eSize: nat, stride: nat, dimY: nat, val: seq<byte>,
                                 x: nat, y: nat)
    requires |val| == eSize
    requires StridedOffset(eSize, stride, dimY, x, y, 0) + eSize <= |mem|
    ensures Stored(mem, StridedOffset(|val|, stride, dimY, x, y, 0), val) ==
      Stored(mem, StridedOffset(eSize, stride, dimY, x, y, 0), val[..eSize])
  {
    assert val[..eSize] == val;
  }

  /** A store to element (x1, y1) leaves every other element of level 0 as
    * it was. */
  lemma {:induction false} StoreKeepsOtherElements(mem: seq<byte>, eSize: nat, stride: nat, dimX: nat,
                                                   dimY: nat, data: seq<byte>,
                                                   x1: nat, y1: nat, x2: nat, y2: nat)
    requires RowsFit(eSize, stride, dimX, dimY, 1) && stride * dimY <= |mem|
    requires |data| == eSize
    requires x1 < dimX && y1 < dimY && x2 < dimX && y2 < dimY && (x1 != x2 || y1 != y2)
    ensures StridedOffset(eSize, stride, dimY, x1, y1, 0) + eSize <= |mem|
    ensures StridedOffset(eSize, stride, dimY, x2, y2, 0) + eSize <= |mem|
    ensures var o2 := StridedOffset(eSize, stride, dimY, x2, y2, 0);
      Stored(mem, StridedOffset(eSize, stride, dimY, x1, y1, 0), data)[o2..o2 + eSize] == mem[o2..o2 + eSize]
  {
    StridedDisjoint(eSize, stride, dimX, dimY, 1, x1, y1, 0, x2, y2, 0);
    StridedDisjoint(eSize, stride, dimX, dimY, 1, x2, y2, 0, x1, y1, 0);
    assert dimY * 1 == dimY;
    StoredElsewhere(mem, StridedOffset(eSize, stride, dimY, x1, y1, 0), data,
                    StridedOffset(eSize, stride, dimY, x2, y2, 0), eSize);
  }
}
