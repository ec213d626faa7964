// The script-side RenderScript runtime: integer clamping, matrix cell
// access, element addressing inside an allocation, the null-defaulting
// getters over runtime objects, and the YUV to RGBA conversion.  Runtime
// objects are seen through their handles: `None` is a NULL handle, and a
// handle a getter returns is an address, 0 for NULL.

module ScriptRuntime {
  import opened Common
  import opened CStrings

  const U32: int := 0x1_0000_0000

  /** An object address; 0 is NULL. */
  type Ptr = nat

  const Null: Ptr := 0

  /** A value of one of the runtime's enumerations (data type, data kind,
    * depth function, blend function, cull mode, sampler value, primitive),
    * or that enumeration's INVALID value. */
  datatype Enum = Value(code: nat) | Invalid

  // ---------------------------------------------------------------------
  // rsClamp

  /** `rsClamp` (int, short, ushort, char and uchar): below `low` gives
    * `low`, above `high` gives `high`, anything else is kept.  The result is
    * always one of the three arguments, so it has their width. */
  function Clamp(amount: int, low: int, high: int): (r: int)
    ensures r == amount || r == low || r == high
    ensures amount < low ==> r == low
    ensures low <= amount <= high ==> r == amount
    ensures low <= high ==> low <= r <= high
  {
    if amount < low then low else if amount > high then high else amount
  }

  /** With `low <= high`, clamping is idempotent and monotone. */
  lemma ClampIdempotentMonotone(a: int, b: int, low: int, high: int)
    requires low <= high && a <= b
    ensures Clamp(Clamp(a, low, high), low, high) == Clamp(a, low, high)
    ensures Clamp(a, low, high) <= Clamp(b, low, high)
  {
  }

  // ---------------------------------------------------------------------
  // rsMatrixSet / rsMatrixGet

  /** The index of cell (row, col) in an N×N matrix stored row after row. */
  function CellIndex(n: nat, row: nat, col: nat): nat
  {
    row * n + col
  }

  /** Row-major numbering with rows of `width` cells: a cell in an earlier
    * row has a smaller number. */
  lemma RowMajorOrdered(width: nat, r1: nat, c1: nat, r2: nat, c2: nat)
    requires c1 < width
    ensures r1 < r2 ==> r1 * width + c1 < r2 * width + c2
  {
    if r1 < r2 {
      MulMonotoneLeft(r1 + 1, r2, width);
      assert r1 * width + width == (r1 + 1) * width;
    }
  }

  /** A cell's row-major number determines its row and column. */
  lemma {:induction false} RowMajorInjective(width: nat, r1: nat, c1: nat, r2: nat, c2: nat)
    requires c1 < width && c2 < width
    requires r1 * width + c1 == r2 * width + c2
    ensures r1 == r2 && c1 == c2
  {
    RowMajorOrdered(width, r1, c1, r2, c2);
    RowMajorOrdered(width, r2, c2, r1, c1);
  }

  /** Row-major numbering of `rows` rows of `width` cells stays below
    * rows·width. */
  lemma RowMajorBound(width: nat, rows: nat, r: nat, c: nat)
    requires r < rows && c < width
    ensures r * width + c < rows * width
  {
    MulMonotoneLeft(r + 1, rows, width);
    assert r * width + width == (r + 1) * width;
  }

  /** Distinct cells of an N×N matrix have distinct indices, all inside the
    * N·N floats. */
  lemma CellIndexInjective(n: nat, r1: nat, c1: nat, r2: nat, c2: nat)
    requires r1 < n && c1 < n && r2 < n && c2 < n
    ensures CellIndex(n, r1, c1) < n * n
    ensures CellIndex(n, r1, c1) == CellIndex(n, r2, c2) ==> r1 == r2 && c1 == c2
  {
    RowMajorBound(n, n, r1, c1);
    if CellIndex(n, r1, c1) == CellIndex(n, r2, c2) {
      RowMajorInjective(n, r1, c1, r2, c2);
    }
  }

  lemma MulMonotoneLeft(a: nat, b: nat, c: nat)
    requires a <= b
    ensures a * c <= b * c
  {
  }

  /** `rsMatrixGet` for the 4×4, 3×3 and 2×2 matrices (N = 4, 3, 2). */
  function MatrixGet<T>(m: array<T>, n: nat, row: nat, col: nat): T
    reads m
    requires m.Length == n * n && row < n && col < n
  {
    RowMajorBound(n, n, row, col);
    m[CellIndex(n, row, col)]
  }

  /** `rsMatrixSet`: exactly float number row·N+col of the matrix takes the
    * value; reading the cell back gives it, and every other cell of the
    * matrix keeps its value. */
  method MatrixSet<T>(m: array<T>, n: nat, row: nat, col: nat, v: T)
    requires m.Length == n * n && row < n && col < n
    modifies m
    ensures MatrixGet(m, n, row, col) == v
    ensures forall k :: 0 <= k < m.Length && k != CellIndex(n, row, col) ==> m[k] == old(m[k])
  {
    var i := CellIndex(n, row, col);
    assert i < m.Length by {
      RowMajorBound(n, n, row, col);
    }
    m[i] := v;
  }

  // ---------------------------------------------------------------------
  // rsGetElementAt

  /** The allocation fields the script runtime reads. */
  datatype Allocation = Allocation(dimensionX: nat, dimensionY: nat, dimensionZ: nat,
                                   elementSizeBytes: nat, hasMipmaps: bool, hasFaces: bool,
                                   typeElement: Ptr)

  /** The cell number of (x, y, z) in an allocation stored x fastest, then y,
    * then z. */
  function Cell(dimX: nat, dimY: nat, x: nat, y: nat, z: nat): nat
  {
    x + y * dimX + z * (dimX * dimY)
  }

  /** `rsGetElementAt(a, x)`, `(a, x, y)` and `(a, x, y, z)`: the byte offset
    * from the allocation's storage, computed in 32-bit unsigned arithmetic
    * (wrapping each product and sum gives the same residue as wrapping the
    * exact value once). */
  function ElementOffset(a: Allocation, x: nat, y: nat, z: nat): (off: nat)
    ensures off < U32
  {
    (a.elementSizeBytes * Cell(a.dimensionX, a.dimensionY, x, y, z)) % U32
  }

  /** The cells of a box are numbered 0 .. dimX·dimY·dimZ−1 without
    * repetition. */
  lemma {:induction false} CellInjective(dimX: nat, dimY: nat, dimZ: nat,
                                         x1: nat, y1: nat, z1: nat, x2: nat, y2: nat, z2: nat)
    requires x1 < dimX && y1 < dimY && z1 < dimZ && x2 < dimX && y2 < dimY && z2 < dimZ
    ensures Cell(dimX, dimY, x1, y1, z1) < dimX * dimY * dimZ
    ensures Cell(dimX, dimY, x1, y1, z1) == Cell(dimX, dimY, x2, y2, z2) ==>
      x1 == x2 && y1 == y2 && z1 == z2
  {
    var plane := dimX * dimY;
    var in1 := y1 * dimX + x1;
    var in2 := y2 * dimX + x2;
    RowMajorBound(dimX, dimY, y1, x1);
    RowMajorBound(dimX, dimY, y2, x2);
    assert dimY * dimX == plane;
    RowMajorBound(plane, dimZ, z1, in1);
    assert dimZ * plane == dimX * dimY * dimZ;
    assert Cell(dimX, dimY, x1, y1, z1) == z1 * plane + in1;
    assert Cell(dimX, dimY, x2, y2, z2) == z2 * plane + in2;
    if Cell(dimX, dimY, x1, y1, z1) == Cell(dimX, dimY, x2, y2, z2) {
      RowMajorInjective(plane, z1, in1, z2, in2);
      RowMajorInjective(dimX, y1, x1, y2, x2);
    }
  }

  /** The allocation's storage, dimX·dimY·dimZ elements of elementSizeBytes
    * bytes, fits in the 32-bit address arithmetic. */
  predicate Addressable(a: Allocation)
  {
    a.elementSizeBytes * (a.dimensionX * a.dimensionY * a.dimensionZ) <= U32
  }

  /** Inside an addressable allocation, the element at (x, y, z) occupies
    * bytes that lie within the storage, and two different coordinates
    * occupy disjoint bytes. */
  lemma {:induction false} ElementsDisjoint(a: Allocation, x1: nat, y1: nat, z1: nat,
                                            x2: nat, y2: nat, z2: nat)
    requires Addressable(a)
    requires x1 < a.dimensionX && y1 < a.dimensionY && z1 < a.dimensionZ
    requires x2 < a.dimensionX && y2 < a.dimensionY && z2 < a.dimensionZ
    ensures ElementOffset(a, x1, y1, z1) + a.elementSizeBytes <=
      a.elementSizeBytes * (a.dimensionX * a.dimensionY * a.dimensionZ)
    ensures x1 != x2 || y1 != y2 || z1 != z2 ==>
      ElementOffset(a, x1, y1, z1) + a.elementSizeBytes <= ElementOffset(a, x2, y2, z2) ||
      ElementOffset(a, x2, y2, z2) + a.elementSizeBytes <= ElementOffset(a, x1, y1, z1)
  {
    var e := a.elementSizeBytes;
    var total := a.dimensionX * a.dimensionY * a.dimensionZ;
    var c1 := Cell(a.dimensionX, a.dimensionY, x1, y1, z1);
    var c2 := Cell(a.dimensionX, a.dimensionY, x2, y2, z2);
    CellInjective(a.dimensionX, a.dimensionY, a.dimensionZ, x1, y1, z1, x2, y2, z2);
    CellInjective(a.dimensionX, a.dimensionY, a.dimensionZ, x2, y2, z2, x1, y1, z1);
    ScaledBelow(e, c1, total);
    ScaledBelow(e, c2, total);
    assert ElementOffset(a, x1, y1, z1) == e * c1;
    assert ElementOffset(a, x2, y2, z2) == e * c2;
    if c1 < c2 {
      ScaledBelow(e, c1, c2);
    } else if c2 < c1 {
      ScaledBelow(e, c2, c1);
    }
  }

  /** An element before cell `hi` ends at or before that cell starts. */
  lemma ScaledBelow(e: nat, c: nat, hi: nat)
    requires c < hi
    ensures e * c + e <= e * hi
    ensures e * hi <= U32 ==> e * c < U32 && (e * c) % U32 == e * c
  {
    assert e * c + e == e * (c + 1);
    MulMonotoneLeft(c + 1, hi, e);
    assert (c + 1) * e == e * (c + 1) && hi * e == e * hi;
    MulNonneg(e, c);
  }

  /** The two- and one-coordinate forms are the three-coordinate form with
    * the missing coordinates 0. */
  lemma ElementOffsetLowerRanks(a: Allocation, x: nat, y: nat)
    ensures ElementOffset(a, x, y, 0) == (a.elementSizeBytes * (x + y * a.dimensionX)) % U32
    ensures ElementOffset(a, x, 0, 0) == (a.elementSizeBytes * x) % U32
  {
  }

  // ---------------------------------------------------------------------
  // The object getters

  /** The element fields the getters read; the per-field arrays hold
    * `fieldsCount` entries. */
  datatype Element = Element(dataType: Enum, dataKind: Enum, vectorSize: nat,
                             elementSizeBytes: nat, fields: seq<Ptr>, fieldArraySizes: seq<nat>,
                             fieldNames: seq<seq<char>>, fieldNameLengths: seq<nat>,
                             fieldOffsetBytes: seq<nat>, fieldsCount: nat)

  predicate ElementValid(e: Element)
  {
    |e.fields| == e.fieldsCount && |e.fieldArraySizes| == e.fieldsCount &&
    |e.fieldNames| == e.fieldsCount && |e.fieldNameLengths| == e.fieldsCount &&
    |e.fieldOffsetBytes| == e.fieldsCount &&
    // a recorded name length counts the name's characters and its terminator
    forall i :: 0 <= i < e.fieldsCount ==> e.fieldNameLengths[i] <= |e.fieldNames[i]| + 1
  }

  function AllocationGetElement(a: Option<Allocation>): Ptr
  {
    if a.None? then Null else a.value.typeElement
  }

  function ElementGetSubElementCount(e: Option<Element>): nat
  {
    if e.None? then 0 else e.value.fieldsCount
  }

  function ElementGetSubElement(e: Option<Element>, index: nat): Ptr
    requires e.Some? ==> ElementValid(e.value)
  {
    if e.None? || index >= e.value.fieldsCount then Null else e.value.fields[index]
  }

  function ElementGetSubElementNameLength(e: Option<Element>, index: nat): nat
    requires e.Some? ==> ElementValid(e.value)
  {
    if e.None? || index >= e.value.fieldsCount then 0 else e.value.fieldNameLengths[index]
  }

  function ElementGetSubElementArraySize(e: Option<Element>, index: nat): nat
    requires e.Some? ==> ElementValid(e.value)
  {
    if e.None? || index >= e.value.fieldsCount then 0 else e.value.fieldArraySizes[index]
  }

  function ElementGetSubElementOffsetBytes(e: Option<Element>, index: nat): nat
    requires e.Some? ==> ElementValid(e.value)
  {
    if e.None? || index >= e.value.fieldsCount then 0 else e.value.fieldOffsetBytes[index]
  }

  function ElementGetSizeBytes(e: Option<Element>): nat
  {
    if e.None? then 0 else e.value.elementSizeBytes
  }

  function ElementGetDataType(e: Option<Element>): Enum
  {
    if e.None? then Invalid else e.value.dataType
  }

  function ElementGetDataKind(e: Option<Element>): Enum
  {
    if e.None? then Invalid else e.value.dataKind
  }

  function ElementGetVectorSize(e: Option<Element>): nat
  {
    if e.None? then 0 else e.value.vectorSize
  }

  /** A NULL allocation has a NULL element, and a NULL element answers 0,
    * NULL or INVALID to every question. */
  lemma NullElementDefaults(index: nat)
    ensures AllocationGetElement(None) == Null
    ensures ElementGetSubElementCount(None) == 0 && ElementGetSubElement(None, index) == Null
    ensures ElementGetSubElementNameLength(None, index) == 0
    ensures ElementGetSubElementArraySize(None, index) == 0
    ensures ElementGetSubElementOffsetBytes(None, index) == 0
    ensures ElementGetSizeBytes(None) == 0 && ElementGetVectorSize(None) == 0
    ensures ElementGetDataType(None) == Invalid && ElementGetDataKind(None) == Invalid
  {
  }

  /** The sub-element getters answer NULL or 0 exactly at the indices past
    * the last sub-element; below it they report the sub-element's entry, so
    * reading every index below the count gives back each per-field array. */
  lemma SubElementGettersReadBack(e: Element, index: nat)
    requires ElementValid(e)
    ensures index >= e.fieldsCount ==>
      ElementGetSubElement(Some(e), index) == Null &&
      ElementGetSubElementNameLength(Some(e), index) == 0 &&
      ElementGetSubElementArraySize(Some(e), index) == 0 &&
      ElementGetSubElementOffsetBytes(Some(e), index) == 0
    ensures ElementGetSubElementCount(Some(e)) == e.fieldsCount
    ensures (seq(e.fieldsCount, i requires 0 <= i < e.fieldsCount => ElementGetSubElement(Some(e), i))) == e.fields
    ensures (seq(e.fieldsCount, i requires 0 <= i < e.fieldsCount => ElementGetSubElementArraySize(Some(e), i))) ==
      e.fieldArraySizes
    ensures (seq(e.fieldsCount, i requires 0 <= i < e.fieldsCount => ElementGetSubElementOffsetBytes(Some(e), i))) ==
      e.fieldOffsetBytes
    ensures (seq(e.fieldsCount, i requires 0 <= i < e.fieldsCount => ElementGetSubElementNameLength(Some(e), i))) ==
      e.fieldNameLengths
  {
  }

  /** The copy count of `rsElementGetSubElementName` as written: the smaller
    * of the recorded name length and the buffer size, less one, in 32-bit
    * unsigned arithmetic. */
  function SubElementNameCountAsWritten(nameLengthRecorded: nat, nameLength: nat): (n: nat)
    requires nameLengthRecorded < U32 && nameLength < U32
    ensures n < U32
  {
    (Min(nameLengthRecorded, nameLength) - 1) % U32
  }

  /** For a sub-element whose recorded name length is 0, the count wraps to
    * 2^32−1: the terminator is stored 4 GiB past the start of an 8-byte
    * buffer and the copy loop runs 2^32−1 times. */
  lemma EmptyNameCountWraps()
    ensures SubElementNameCountAsWritten(0, 8) == U32 - 1
    ensures SubElementNameCountAsWritten(0, 8) >= 8
  {
  }

  /** The number of characters `rsElementGetSubElementName` copies: the
    * smaller of the recorded name length and the buffer size, less the
    * terminator, and 0 when either is 0. */
  function SubElementNameCount(nameLengthRecorded: nat, nameLength: nat): (n: nat)
    requires nameLength > 0
    ensures n < nameLength && n <= nameLengthRecorded
    ensures nameLengthRecorded > 0 ==> n == Min(nameLengthRecorded, nameLength) - 1
  {
    if Min(nameLengthRecorded, nameLength) == 0 then 0 else Min(nameLengthRecorded, nameLength) - 1
  }

  /** `rsElementGetSubElementName`: 0, with the buffer untouched, for a NULL
    * element, an index past the last sub-element, a zero-sized or NULL
    * buffer.  Otherwise the name, cut to the buffer, is copied and
    * terminated: the buffer then holds as a C string the first
    * `SubElementNameCount` characters of the name, and the count is
    * returned.  The terminator is placed at that count, also when the
    * recorded name length is 0. */
  method ElementGetSubElementName(e: Option<Element>, index: nat, name: array?<char>, nameLength: nat)
    returns (copied: nat)
    requires e.Some? ==> ElementValid(e.value)
    requires name != null ==> nameLength <= name.Length
    requires e.Some? && index < e.value.fieldsCount ==> CString(e.value.fieldNames[index])
    modifies name
    ensures e.None? || index >= e.value.fieldsCount || nameLength == 0 || name == null ==>
      copied == 0 && (name != null ==> name[..] == old(name[..]))
    ensures e.Some? && index < e.value.fieldsCount && nameLength > 0 && name != null ==>
      copied == SubElementNameCount(e.value.fieldNameLengths[index], nameLength) &&
      name[..copied] == e.value.fieldNames[index][..copied] && name[copied] == '\0' &&
      UpToNul(name[..nameLength]) == e.value.fieldNames[index][..copied] &&
      name[copied + 1..] == old(name[copied + 1..])
  {
    if e.None? || index >= e.value.fieldsCount || nameLength == 0 || name == null {
      return 0;
    }
    var source := e.value.fieldNames[index];
    var numToCopy := Min(e.value.fieldNameLengths[index], nameLength);
    if numToCopy > 0 {
      numToCopy := numToCopy - 1;
    }
    name[numToCopy] := '\0';
    var i := 0;
    while i < numToCopy
      invariant 0 <= i <= numToCopy
      invariant name[..i] == source[..i]
      invariant name[numToCopy] == '\0'
      invariant name[numToCopy + 1..] == old(name[numToCopy + 1..])
    {
      name[i] := source[i];
      i := i + 1;
    }
    copied := numToCopy;
    assert name[..nameLength] == source[..copied] + ['\0'] + name[copied + 1..nameLength];
    UpToNulTerminated(source[..copied], name[copied + 1..nameLength]);
  }

  /** The mesh fields the getters read.  The index buffers run parallel to
    * the primitives: `indexBuffers[i]`, which may be NULL, goes with
    * `primitives[i]`. */
  datatype Mesh = Mesh(vertexBuffers: seq<Ptr>, vertexBuffersCount: nat,
                       indexBuffers: seq<Ptr>, indexBuffersCount: nat,
                       primitives: seq<Enum>, primitivesCount: nat)

  predicate MeshValid(m: Mesh)
  {
    |m.vertexBuffers| == m.vertexBuffersCount && |m.primitives| == m.primitivesCount &&
    |m.indexBuffers| == m.indexBuffersCount && m.indexBuffersCount == m.primitivesCount
  }

  function MeshGetVertexAllocationCount(m: Option<Mesh>): nat
  {
    if m.None? then 0 else m.value.vertexBuffersCount
  }

  function MeshGetPrimitiveCount(m: Option<Mesh>): nat
  {
    if m.None? then 0 else m.value.primitivesCount
  }

  function MeshGetVertexAllocation(m: Option<Mesh>, index: nat): Ptr
    requires m.Some? ==> MeshValid(m.value)
  {
    if m.None? || index >= m.value.vertexBuffersCount then Null else m.value.vertexBuffers[index]
  }

  /** Bounded by the primitive count, the index buffers' parallel array. */
  function MeshGetIndexAllocation(m: Option<Mesh>, index: nat): Ptr
    requires m.Some? ==> MeshValid(m.value)
  {
    if m.None? || index >= m.value.primitivesCount then Null else m.value.indexBuffers[index]
  }

  function MeshGetPrimitive(m: Option<Mesh>, index: nat): Enum
    requires m.Some? ==> MeshValid(m.value)
  {
    if m.None? || index >= m.value.primitivesCount then Invalid else m.value.primitives[index]
  }

  /** The mesh getters: a NULL mesh counts 0 of everything; the vertex
    * allocation is NULL past the vertex buffer count, and the index
    * allocation and primitive are NULL and INVALID past the primitive
    * count; below their bounds the getters read back the mesh's arrays. */
  lemma MeshGettersReadBack(m: Option<Mesh>, index: nat)
    requires m.Some? ==> MeshValid(m.value)
    ensures m.None? ==> MeshGetVertexAllocationCount(m) == 0 && MeshGetPrimitiveCount(m) == 0
    ensures m.None? || index >= MeshGetVertexAllocationCount(m) ==> MeshGetVertexAllocation(m, index) == Null
    ensures m.None? || index >= MeshGetPrimitiveCount(m) ==>
      MeshGetIndexAllocation(m, index) == Null && MeshGetPrimitive(m, index) == Invalid
    ensures m.Some? ==>
      (seq(m.value.vertexBuffersCount, i requires 0 <= i < m.value.vertexBuffersCount =>
         MeshGetVertexAllocation(m, i))) == m.value.vertexBuffers &&
      (seq(m.value.primitivesCount, i requires 0 <= i < m.value.primitivesCount =>
         MeshGetIndexAllocation(m, i))) == m.value.indexBuffers &&
      (seq(m.value.primitivesCount, i requires 0 <= i < m.value.primitivesCount =>
         MeshGetPrimitive(m, i))) == m.value.primitives
  {
  }

  /** The program store state the getters read. */
  datatype ProgramStore = ProgramStore(ditherEnable: bool, colorRWriteEnable: bool,
                                       colorGWriteEnable: bool, colorBWriteEnable: bool,
                                       colorAWriteEnable: bool, blendSrc: Enum, blendDst: Enum,
                                       depthWriteEnable: bool, depthFunc: Enum)

  function ProgramStoreGetDepthFunc(ps: Option<ProgramStore>): Enum
  {
    if ps.None? then Invalid else ps.value.depthFunc
  }

  function ProgramStoreGetDepthMask(ps: Option<ProgramStore>): bool
  {
    if ps.None? then false else ps.value.depthWriteEnable
  }

  function ProgramStoreGetColorMaskR(ps: Option<ProgramStore>): bool
  {
    if ps.None? then false else ps.value.colorRWriteEnable
  }

  function ProgramStoreGetColorMaskG(ps: Option<ProgramStore>): bool
  {
    if ps.None? then false else ps.value.colorGWriteEnable
  }

  function ProgramStoreGetColorMaskB(ps: Option<ProgramStore>): bool
  {
    if ps.None? then false else ps.value.colorBWriteEnable
  }

  function ProgramStoreGetColorMaskA(ps: Option<ProgramStore>): bool
  {
    if ps.None? then false else ps.value.colorAWriteEnable
  }

  function ProgramStoreGetBlendSrcFunc(ps: Option<ProgramStore>): Enum
  {
    if ps.None? then Invalid else ps.value.blendSrc
  }

  function ProgramStoreGetBlendDstFunc(ps: Option<ProgramStore>): Enum
  {
    if ps.None? then Invalid else ps.value.blendDst
  }

  function ProgramStoreGetDitherEnabled(ps: Option<ProgramStore>): bool
  {
    if ps.None? then false else ps.value.ditherEnable
  }

  /** The store a handle's getters describe. */
  function StoreSeenThroughGetters(ps: Option<ProgramStore>): ProgramStore
  {
    ProgramStore(ProgramStoreGetDitherEnabled(ps), ProgramStoreGetColorMaskR(ps),
                 ProgramStoreGetColorMaskG(ps), ProgramStoreGetColorMaskB(ps),
                 ProgramStoreGetColorMaskA(ps), ProgramStoreGetBlendSrcFunc(ps),
                 ProgramStoreGetBlendDstFunc(ps), ProgramStoreGetDepthMask(ps),
                 ProgramStoreGetDepthFunc(ps))
  }

  /** The program store getters read back a store exactly, and a NULL store
    * reads as every flag off and every function INVALID. */
  lemma ProgramStoreGettersReadBack(s: ProgramStore)
    ensures StoreSeenThroughGetters(Some(s)) == s
    ensures StoreSeenThroughGetters(None) ==
      ProgramStore(false, false, false, false, false, Invalid, Invalid, false, Invalid)
  {
  }

  datatype ProgramRaster = ProgramRaster(pointSprite: bool, cull: Enum)

  function ProgramRasterGetPointSpriteEnabled(pr: Option<ProgramRaster>): bool
  {
    if pr.None? then false else pr.value.pointSprite
  }

  function ProgramRasterGetCullMode(pr: Option<ProgramRaster>): Enum
  {
    if pr.None? then Invalid else pr.value.cull
  }

  /** The raster getters read back a raster state; a NULL one reads as no
    * point sprites and an INVALID cull mode. */
  lemma ProgramRasterGettersReadBack(r: ProgramRaster)
    ensures ProgramRaster(ProgramRasterGetPointSpriteEnabled(Some(r)), ProgramRasterGetCullMode(Some(r))) == r
    ensures !ProgramRasterGetPointSpriteEnabled(None) && ProgramRasterGetCullMode(None) == Invalid
  {
  }

  /** The sampler state the getters read; the anisotropy is a float, carried
    * here without arithmetic. */
  datatype Sampler = Sampler(magFilter: Enum, minFilter: Enum, wrapS: Enum, wrapT: Enum,
                             wrapR: Enum, aniso: real)

  function SamplerGetMinification(s: Option<Sampler>): Enum
  {
    if s.None? then Invalid else s.value.minFilter
  }

  function SamplerGetMagnification(s: Option<Sampler>): Enum
  {
    if s.None? then Invalid else s.value.magFilter
  }

  function SamplerGetWrapS(s: Option<Sampler>): Enum
  {
    if s.None? then Invalid else s.value.wrapS
  }

  function SamplerGetWrapT(s: Option<Sampler>): Enum
  {
    if s.None? then Invalid else s.value.wrapT
  }

  function SamplerGetAnisotropy(s: Option<Sampler>): real
  {
    if s.None? then 0.0 else s.value.aniso
  }

  /** The sampler getters read back every field they expose (the R wrap mode
    * has no getter); a NULL sampler reads as INVALID with anisotropy 0. */
  lemma SamplerGettersReadBack(s: Sampler)
    ensures Sampler(SamplerGetMagnification(Some(s)), SamplerGetMinification(Some(s)),
                    SamplerGetWrapS(Some(s)), SamplerGetWrapT(Some(s)), s.wrapR,
                    SamplerGetAnisotropy(Some(s))) == s
    ensures SamplerGetMinification(None) == Invalid && SamplerGetMagnification(None) == Invalid
    ensures SamplerGetWrapS(None) == Invalid && SamplerGetWrapT(None) == Invalid
    ensures SamplerGetAnisotropy(None) == 0.0
  {
  }

  // ---------------------------------------------------------------------
  // rsYuvToRGBA_uchar4

  datatype Rgba = Rgba(r: byte, g: byte, b: byte, a: byte)

  /** `x >> 8` on a signed int, an arithmetic shift: the floor of x/256
    * (Dafny's `/` by a positive divisor rounds down). */
  function Shr8(x: int): int
  {
    x / 256
  }

  /** Storing an int into a `short`: the value modulo 2^16, read as signed. */
  function ToShort(x: int): int
  {
    var m := x % 0x1_0000;
    if m >= 0x8000 then m - 0x1_0000 else m
  }

  /** The three channels before clamping, as computed into the `short4`: Y is
    * y−16, U is u−128 and V is v−128. */
  function RawRed(y: byte, u: byte, v: byte): int
  {
    ToShort(Shr8((y as int - 16) * 298 + (v as int - 128) * 409 + 128))
  }

  function RawGreen(y: byte, u: byte, v: byte): int
  {
    ToShort(Shr8((y as int - 16) * 298 - (u as int - 128) * 100 - (v as int - 128) * 208 + 128))
  }

  function RawBlue(y: byte, u: byte, v: byte): int
  {
    ToShort(Shr8((y as int - 16) * 298 + (u as int - 128) * 516 + 128))
  }

  /** `rsYuvToRGBA_uchar4`: each channel clamped to [0, 255], alpha opaque. */
  function YuvToRgba(y: byte, u: byte, v: byte): (c: Rgba)
    ensures c.a == 255
    ensures c.r as int == Clamp(RawRed(y, u, v), 0, 255)
    ensures c.g as int == Clamp(RawGreen(y, u, v), 0, 255)
    ensures c.b as int == Clamp(RawBlue(y, u, v), 0, 255)
  {
    Rgba(Clamp(RawRed(y, u, v), 0, 255) as byte, Clamp(RawGreen(y, u, v), 0, 255) as byte,
         Clamp(RawBlue(y, u, v), 0, 255) as byte, 255)
  }

  /** The `short` intermediates never overflow: each channel is the exact
    * rounded-down value of its formula, within [−277, 534]. */
  lemma {:induction false} ChannelsFitShort(y: byte, u: byte, v: byte)
    ensures RawRed(y, u, v) == Shr8((y as int - 16) * 298 + (v as int - 128) * 409 + 128)
    ensures RawGreen(y, u, v) ==
      Shr8((y as int - 16) * 298 - (u as int - 128) * 100 - (v as int - 128) * 208 + 128)
    ensures RawBlue(y, u, v) == Shr8((y as int - 16) * 298 + (u as int - 128) * 516 + 128)
    ensures -277 <= RawRed(y, u, v) <= 534 && -277 <= RawGreen(y, u, v) <= 534
    ensures -277 <= RawBlue(y, u, v) <= 534
  {
    var Y := y as int - 16;
    var U := u as int - 128;
    var V := v as int - 128;
    ShortExact(Y * 298 + V * 409 + 128);
    ShortExact(Y * 298 - U * 100 - V * 208 + 128);
    ShortExact(Y * 298 + U * 516 + 128);
  }

  lemma ShortExact(x: int)
    requires -70912 <= x <= 136960
    ensures ToShort(Shr8(x)) == Shr8(x) && -277 <= Shr8(x) <= 535
  {
  }

  /** Without chroma (u = v = 128) the colour is a grey: the three channels
    * are equal, rise with y, and the video range 16..235 maps onto black
    * and white. */
  lemma {:induction false} GreyWithoutChroma(y1: byte, y2: byte)
    requires y1 <= y2
    ensures var c := YuvToRgba(y1, 128, 128); c.r == c.g == c.b
    ensures YuvToRgba(y1, 128, 128).r <= YuvToRgba(y2, 128, 128).r
    ensures YuvToRgba(16, 128, 128) == Rgba(0, 0, 0, 255)
    ensures YuvToRgba(235, 128, 128) == Rgba(255, 255, 255, 255)
  {
    ChannelsFitShort(y1, 128, 128);
    ChannelsFitShort(y2, 128, 128);
    ChannelsFitShort(16, 128, 128);
    ChannelsFitShort(235, 128, 128);
    ShiftMonotone((y1 as int - 16) * 298 + 128, (y2 as int - 16) * 298 + 128);
  }

  lemma ShiftMonotone(a: int, b: int)
    requires a <= b
    ensures Shr8(a) <= Shr8(b)
  {
  }
}
