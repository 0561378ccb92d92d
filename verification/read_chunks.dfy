/**
 * The slab bookkeeping of the script that downsamples a large `.npy` volume
 * one slab at a time: the element-type lookup, the reordering of the stored
 * shape, the list of slab boundaries, the target shape, the byte address of
 * each slab and the loop that writes one resampled plane per boundary.
 *
 * Reading the `.npy` header, writing the METAImage header, reading it back
 * and reslicing/casting the slab are foreign steps: the header arrives as an
 * `NpyHeader` value, each written header is recorded as a `MetaHeader`, and
 * the plane produced from a header is the opaque function `reslice`.
 */
module ReadChunks {
  import opened Wrappers
  import opened Builtins
  import opened DownsampleShape

  /** One entry of the fixed list of numpy types the script tries: the type
      descriptor without its byte-order mark, the type character and the
      number of bytes per element. */
  datatype DtypeEntry = DtypeEntry(name: string, descr: string, typecode: char, itemSize: nat)

  /** The types in the order the script tries them. */
  const DtypeTable: seq<DtypeEntry> := [
    DtypeEntry("uint8", "u1", 'B', 1),
    DtypeEntry("int8", "i1", 'b', 1),
    DtypeEntry("int16", "i2", 'h', 2),
    DtypeEntry("uint16", "u2", 'H', 2),
    DtypeEntry("int32", "i4", 'i', 4),
    DtypeEntry("uint32", "u4", 'I', 4),
    DtypeEntry("float16", "f2", 'e', 2),
    DtypeEntry("float32", "f4", 'f', 4),
    DtypeEntry("float64", "f8", 'd', 8)
  ]

  /** The volume the script aims for: 256 elements along each axis. */
  const MaxSize: int := 256 * 256 * 256

  /** What the `.npy` header gives: the type descriptor (byte-order mark
      first), the shape as stored, the ordering flag and the header length. */
  datatype NpyHeader = NpyHeader(descr: string, shape: seq<nat>, fortranOrder: bool, headerLength: nat)

  /** A METAImage header written before each slab is read: element type,
      byte order, byte offset of the slab in the `.npy` file, dimensions. */
  datatype MetaHeader = MetaHeader(typecode: string, bigEndian: string, headerLength: int, dims: seq<int>)

  /** The exceptions the script raises before its loop:
      `IndexError` in the total-size product on a shape of fewer than three
      entries, `ZeroDivisionError` in `max_size/total_size` when the volume is
      empty, `ValueError` from `range` with a zero step, and `IndexError` in
      `descr[0]` on an empty type descriptor. */
  datatype ChunkError = ShapeTooShort | ZeroTotalSize | ZeroRangeStep | EmptyDescriptor

  /** Everything the script has computed when its loop starts. */
  datatype Plan = Plan(
    typecode: string,
    nbytes: nat,
    bigEndian: string,
    headerLength: nat,
    shape: seq<nat>,
    reductionFactor: nat,
    lowSlice: seq<int>,
    targetShape: Shape3,
    sliceLength: nat)

  /** Python's `s[1:]`. */
  function DropFirst(s: string): (t: string)
    ensures s != [] ==> s == [s[0]] + t
    ensures s == [] ==> t == []
  {
    if s == [] then [] else s[1..]
  }

  /** Entry `k` is the first entry of the table whose descriptor is `d`. */
  ghost predicate FirstMatch(k: int, d: string)
  {
    && 0 <= k < |DtypeTable|
    && DtypeTable[k].descr == d
    && forall j :: 0 <= j < k ==> DtypeTable[j].descr != d
  }

  /** The type lookup: the first table entry whose descriptor equals the
      header's descriptor without its byte-order mark; no match leaves the
      type character empty and the element size zero. */
  method FindDtype(descr: string) returns (typecode: string, nbytes: nat)
    ensures typecode == "" <==> forall k :: 0 <= k < |DtypeTable| ==> DtypeTable[k].descr != DropFirst(descr)
    ensures typecode == "" ==> nbytes == 0
    ensures typecode != "" ==> exists k :: (FirstMatch(k, DropFirst(descr))
      && typecode == [DtypeTable[k].typecode] && nbytes == DtypeTable[k].itemSize)
  {
    typecode, nbytes := "", 0;
    for k := 0 to |DtypeTable|
      invariant typecode == "" && nbytes == 0
      invariant forall j :: 0 <= j < k ==> DtypeTable[j].descr != DropFirst(descr)
    {
      var arrayDescr := DropFirst(descr);
      if arrayDescr == DtypeTable[k].descr {
        typecode := [DtypeTable[k].typecode];
        nbytes := DtypeTable[k].itemSize;
        assert FirstMatch(k, DropFirst(descr));
        break;
      }
    }
  }

  /** Fortran-ordered data keeps the stored shape; C-ordered data reverses it. */
  function ReorderShape(readShape: seq<nat>, isFortran: bool): (shape: seq<nat>)
    ensures |shape| == |readShape|
    ensures isFortran ==> shape == readShape
    ensures !isFortran ==> forall i :: 0 <= i < |shape| ==> shape[i] == readShape[|readShape| - 1 - i]
  {
    if isFortran then readShape else Reversed(readShape)
  }

  /** `'True'` when the descriptor's byte-order mark is `'>'`. */
  function BigEndianFlag(descr: string): (flag: string)
    requires descr != ""
    ensures flag == "True" || flag == "False"
    ensures flag == "True" <==> descr[0] == '>'
  {
    if descr[0] == '>' then "True" else "False"
  }

  /** The slab boundaries: `range(0, n, r)` followed by `n` itself. */
  function BoundaryList(n: nat, r: int): seq<int>
    requires r >= 1
  {
    Range(0, n, r) + [n]
  }

  /** The boundaries start at 0, step by exactly `r`, end at `n` after a last
      step in `(0, r]`, strictly increase, and there are `ceil(n / r) + 1`. */
  lemma {:induction false} BoundaryListShape(n: nat, r: int)
    requires r >= 1
    ensures var b := BoundaryList(n, r);
      && |b| == CeilDiv(n, r) + 1
      && b[0] == 0
      && b[|b| - 1] == n
      && (forall k :: 0 <= k < |b| - 2 ==> b[k + 1] - b[k] == r)
      && (n >= 1 ==> 0 < b[|b| - 1] - b[|b| - 2] <= r)
      && (forall i, j :: 0 <= i < j < |b| ==> b[i] < b[j])
  {
    BoundaryListLength(n, r);
    BoundaryListSteps(n, r);
    BoundaryListIncreasing(n, r);
  }

  /** There are `ceil(n / r) + 1` boundaries. */
  lemma BoundaryListLength(n: nat, r: int)
    requires r >= 1
    ensures |BoundaryList(n, r)| == CeilDiv(n, r) + 1
  {
    RangeLength(0, n, r);
    assert CeilDiv(0, r) == 0;
  }

  /** Consecutive boundaries are `r` apart, except the last two, which are at
      most `r` apart. */
  lemma BoundaryListSteps(n: nat, r: int)
    requires r >= 1
    ensures var b := BoundaryList(n, r);
      && (forall k :: 0 <= k < |b| - 2 ==> b[k + 1] - b[k] == r)
      && (n >= 1 ==> 0 < b[|b| - 1] - b[|b| - 2] <= r)
  {
    var b := BoundaryList(n, r);
    var range := Range(0, n, r);
    forall k | 0 <= k < |b| - 2
      ensures b[k + 1] - b[k] == r
    {
      assert b[k + 1] == range[k + 1] == (k + 1) * r;
      assert b[k] == range[k] == k * r;
    }
    if n >= 1 {
      var last := |range| - 1;
      assert b[|b| - 2] == range[last] == last * r;
      assert last * r < n <= (last + 1) * r;
    }
  }

  /** The boundaries strictly increase. */
  lemma BoundaryListIncreasing(n: nat, r: int)
    requires r >= 1
    ensures var b := BoundaryList(n, r);
      forall i, j :: 0 <= i < j < |b| ==> b[i] < b[j]
  {
    var b := BoundaryList(n, r);
    var range := Range(0, n, r);
    forall i, j | 0 <= i < j < |b|
      ensures b[i] < b[j]
    {
      assert b[i] == range[i] == i * r;
      if j < |range| {
        assert b[j] == range[j] == j * r;
        MulLess(i, j, r);
      } else {
        MulLess(i, |range| - 1, r);
        assert b[j] == n;
      }
    }
  }

  /** The boundary loop: one element appended per value of the `range`, then
      the extent of the slab axis. */
  method SlabBoundaries(n: nat, r: int) returns (lowSlice: seq<int>)
    requires r >= 1
    ensures lowSlice == BoundaryList(n, r)
  {
    lowSlice := [];
    var i := 0;
    while i < n
      invariant lowSlice + Range(i, n, r) == Range(0, n, r)
      decreases n - i
    {
      assert Range(i, n, r) == [i] + Range(i + r, n, r);
      lowSlice := lowSlice + [i];
      i := i + r;
    }
    lowSlice := lowSlice + [n];
  }

  /** The target shape: the in-plane sizes scaled by `m` and truncated, and
      one plane per pair of consecutive boundaries. */
  function TargetImageShape(m: real, shape: seq<nat>, r: int): (t: Shape3)
    requires m > 0.0 && |shape| >= 3 && r >= 1
    ensures t.x as real <= m * shape[0] as real < t.x as real + 1.0
    ensures t.y as real <= m * shape[1] as real < t.y as real + 1.0
    ensures t.z == CeilDiv(shape[2], r)
  {
    BoundaryListLength(shape[2], r);
    Shape3(IntOf(m * shape[0] as real), IntOf(m * shape[1] as real), |BoundaryList(shape[2], r)| - 1)
  }

  /** What holds of every plan the script reaches its loop with. */
  ghost predicate PlanInvariant(p: Plan)
  {
    && |p.shape| >= 3
    && p.shape[2] >= 1
    && p.reductionFactor >= 1
    && p.lowSlice == BoundaryList(p.shape[2], p.reductionFactor)
    && p.targetShape.z == |p.lowSlice| - 1
    && p.sliceLength == p.shape[1] * p.shape[0] * p.nbytes
  }

  /** `shape[0] * shape[1] * shape[2]` of the reordered shape: the number of
      elements the script divides the size budget by. */
  function TotalSize(header: NpyHeader): (total: nat)
    requires |header.shape| >= 3
    ensures |header.shape| == 3 ==> total == header.shape[0] * header.shape[1] * header.shape[2]
  {
    var shape := ReorderShape(header.shape, header.fortranOrder);
    shape[0] * shape[1] * shape[2]
  }

  /** `p` is the plan the script computes from `header` and magnification
      `m`: the header's data offset, the reordered shape, the reduction
      factor `int(1/m)`, its boundaries and target shape, the byte order and
      the first matching element type. */
  ghost predicate PlanFor(header: NpyHeader, m: real, p: Plan)
  {
    && m > 0.0
    && header.descr != ""
    && PlanInvariant(p)
    && p.headerLength == header.headerLength
    && p.shape == ReorderShape(header.shape, header.fortranOrder)
    && p.reductionFactor as real <= 1.0 / m < p.reductionFactor as real + 1.0
    && p.targetShape == TargetImageShape(m, p.shape, p.reductionFactor)
    && p.targetShape.z == CeilDiv(p.shape[2], p.reductionFactor)
    && p.bigEndian == BigEndianFlag(header.descr)
    && (p.typecode == "" <==> forall k :: 0 <= k < |DtypeTable| ==> DtypeTable[k].descr != DropFirst(header.descr))
    && (p.typecode != "" ==> exists k :: (FirstMatch(k, DropFirst(header.descr))
          && p.typecode == [DtypeTable[k].typecode] && p.nbytes == DtypeTable[k].itemSize))
    && (p.typecode == "" ==> p.nbytes == 0)
  }

  /** The script up to its loop: type lookup, shape reordering, boundaries,
      target shape, slice length and byte order, or the exception it raises. */
  method PlanChunks(header: NpyHeader, m: real) returns (r: Result<Plan, ChunkError>)
    requires m > 0.0
    ensures |header.shape| < 3 ==> r == Failure(ShapeTooShort)
    ensures |header.shape| >= 3 && TotalSize(header) == 0 ==> r == Failure(ZeroTotalSize)
    ensures |header.shape| >= 3 && TotalSize(header) > 0 && m > 1.0 ==> r == Failure(ChunkError.ZeroRangeStep)
    ensures |header.shape| >= 3 && TotalSize(header) > 0 && m <= 1.0 && header.descr == "" ==> r == Failure(EmptyDescriptor)
    ensures r.Success? <==> |header.shape| >= 3 && TotalSize(header) > 0 && m <= 1.0 && header.descr != ""
    ensures r.Success? ==> PlanFor(header, m, r.value)
  {
    var typecode, nbytes := FindDtype(header.descr);
    if |header.shape| < 3 {
      return Failure(ShapeTooShort);
    }
    var shape := ReorderShape(header.shape, header.fortranOrder);
    var totalSize := shape[0] * shape[1] * shape[2];
    if totalSize == 0 {
      return Failure(ZeroTotalSize);
    }
    var reductionFactor := IntOf(1.0 / m);
    if reductionFactor == 0 {
      return Failure(ChunkError.ZeroRangeStep);
    }
    var lowSlice := SlabBoundaries(shape[2], reductionFactor);
    BoundaryListLength(shape[2], reductionFactor);
    var targetImageShape := TargetImageShape(m, shape, reductionFactor);
    var sliceLength := shape[1] * shape[0] * nbytes;
    if header.descr == "" {
      return Failure(EmptyDescriptor);
    }
    var bigEndian := BigEndianFlag(header.descr);
    r := Success(Plan(typecode, nbytes, bigEndian, header.headerLength, shape,
                      reductionFactor, lowSlice, targetImageShape, sliceLength));
  }

  /** For a non-empty slab axis the script's target shape is exactly the
      shape the test helper predicts for the same magnification. */
  lemma TargetShapeMatchesHelper(m: real, shape: seq<nat>)
    requires 0.0 < m <= 1.0 && |shape| >= 3 && shape[2] >= 1
    ensures CalculateTargetDownsampleShape(m, Shape3(shape[0], shape[1], shape[2]), false)
      == Success(TargetImageShape(m, shape, IntOf(1.0 / m)))
  {
    var r := IntOf(1.0 / m);
    BoundaryListLength(shape[2], r);
    var helper := CalculateTargetDownsampleShape(m, Shape3(shape[0], shape[1], shape[2]), false);
    assert SlicesPerChunk(m, false) == r;
    assert helper.Success? && helper.value.z == CeilDiv(shape[2], r);
    assert helper.value.x == IntOf(m * shape[0] as real);
    assert helper.value.y == IntOf(m * shape[1] as real);
  }

  /** A volume smaller than the 256 x 256 x 256 target makes the reduction
      factor zero, so the script cannot plan its slabs. */
  lemma SmallVolumeHasZeroReduction(m: real, totalSize: int)
    requires MagnificationFor(m, MaxSize, totalSize, false)
    ensures IntOf(1.0 / m) == 0 <==> totalSize < MaxSize
  {
    BudgetDecidesStride(m, MaxSize, totalSize, Shape3(0, 0, 0));
  }

  /** The header the loop writes for boundary `i`, as written: the slab is
      read from the boundary itself and always `r` slices deep. */
  function AsWrittenHeader(p: Plan, i: int): (h: MetaHeader)
    requires PlanInvariant(p) && 0 <= i < |p.lowSlice|
    ensures |h.dims| == |p.shape| && h.dims[..2] == p.shape[..2] && h.dims[2] == p.reductionFactor
    ensures i < |p.lowSlice| - 1 ==> h.headerLength == p.headerLength + i * p.reductionFactor * p.sliceLength
    ensures i == |p.lowSlice| - 1 ==> h.headerLength == p.headerLength + p.shape[2] * p.sliceLength
    ensures h.typecode == p.typecode && h.bigEndian == p.bigEndian
  {
    MetaHeader(p.typecode, p.bigEndian, p.headerLength + p.lowSlice[i] * p.sliceLength,
               p.shape[2 := p.reductionFactor])
  }

  /** The header for slab `k` when each slab is the range between two
      consecutive boundaries. */
  function SlabHeader(p: Plan, k: int): (h: MetaHeader)
    requires PlanInvariant(p) && 0 <= k < |p.lowSlice| - 1
    ensures |h.dims| == |p.shape| && h.dims[..2] == p.shape[..2]
    ensures h.headerLength == p.headerLength + k * p.reductionFactor * p.sliceLength
    ensures k < |p.lowSlice| - 2 ==> h.dims[2] == p.reductionFactor
    ensures k == |p.lowSlice| - 2 ==> h.dims[2] == p.shape[2] - k * p.reductionFactor
    ensures h.typecode == p.typecode && h.bigEndian == p.bigEndian
  {
    MetaHeader(p.typecode, p.bigEndian, p.headerLength + p.lowSlice[k] * p.sliceLength,
               p.shape[2 := p.lowSlice[k + 1] - p.lowSlice[k]])
  }

  /** A header addresses bytes of the `.npy` data only: its slab starts at or
      after the data and ends at or before the end of the last slice. */
  ghost predicate ReadsWithinData(p: Plan, h: MetaHeader)
    requires |p.shape| >= 3 && |h.dims| >= 3
  {
    && p.headerLength <= h.headerLength
    && h.headerLength + h.dims[2] * p.sliceLength <= p.headerLength + p.shape[2] * p.sliceLength
  }

  /** The loop as written runs once per boundary, that is `target z + 1`
      times, writes every plane of the allocated inclusive extent, declares
      the same slab depth `r` every time and reads at strictly increasing
      offsets. */
  lemma {:induction false} AsWrittenAddressing(p: Plan)
    requires PlanInvariant(p) && p.sliceLength > 0
    ensures |p.lowSlice| == p.targetShape.z + 1
    ensures forall i :: 0 <= i < |p.lowSlice| ==> AsWrittenHeader(p, i).dims[2] == p.reductionFactor
    ensures forall i, j :: 0 <= i < j < |p.lowSlice| ==>
      AsWrittenHeader(p, i).headerLength < AsWrittenHeader(p, j).headerLength
  {
    BoundaryListIncreasing(p.shape[2], p.reductionFactor);
    forall i, j | 0 <= i < j < |p.lowSlice|
      ensures AsWrittenHeader(p, i).headerLength < AsWrittenHeader(p, j).headerLength
    {
      MulLess(p.lowSlice[i], p.lowSlice[j], p.sliceLength);
    }
  }

  /** The last header the loop writes addresses the `r` slices that follow
      the end of the data: the appended boundary `n` is read as a slab. */
  lemma AsWrittenLastSlabPastData(p: Plan)
    requires PlanInvariant(p) && p.sliceLength > 0
    ensures !ReadsWithinData(p, AsWrittenHeader(p, |p.lowSlice| - 1))
  {
    var n := p.shape[2];
    assert p.lowSlice[|p.lowSlice| - 1] == n;
    MulLess(n, n + p.reductionFactor, p.sliceLength);
    assert (n + p.reductionFactor) * p.sliceLength == n * p.sliceLength + p.reductionFactor * p.sliceLength;
  }

  /** A 10-slice volume read 5 slices at a time: the third header asks for
      slices 10 to 14. */
  lemma AsWrittenReadsPastTenSlices()
    ensures var p := Plan("B", 1, "False", 128, [4, 3, 10], 5, [0, 5, 10], Shape3(2, 1, 2), 12);
      && PlanInvariant(p)
      && AsWrittenHeader(p, 2) == MetaHeader("B", "False", 128 + 10 * 12, [4, 3, 5])
      && !ReadsWithinData(p, AsWrittenHeader(p, 2))
  {
    var p := Plan("B", 1, "False", 128, [4, 3, 10], 5, [0, 5, 10], Shape3(2, 1, 2), 12);
    assert Range(0, 10, 5) == [0, 5];
  }

  /** Reading the range between consecutive boundaries instead tiles the data:
      the first slab starts at the data, each slab ends where the next one
      starts, the last ends at the end of the data, every slab is between 1
      and `r` slices deep, and there is one slab per target plane. */
  lemma {:induction false} SlabHeadersTileData(p: Plan)
    requires PlanInvariant(p)
    ensures |p.lowSlice| - 1 == p.targetShape.z == CeilDiv(p.shape[2], p.reductionFactor)
    ensures SlabHeader(p, 0).headerLength == p.headerLength
    ensures forall k :: 0 <= k < |p.lowSlice| - 1 ==>
      0 < SlabHeader(p, k).dims[2] <= p.reductionFactor && ReadsWithinData(p, SlabHeader(p, k))
    ensures forall k :: 0 <= k < |p.lowSlice| - 2 ==>
      SlabHeader(p, k).headerLength + SlabHeader(p, k).dims[2] * p.sliceLength == SlabHeader(p, k + 1).headerLength
    ensures var last := |p.lowSlice| - 2;
      SlabHeader(p, last).headerLength + SlabHeader(p, last).dims[2] * p.sliceLength
        == p.headerLength + p.shape[2] * p.sliceLength
  {
    var n, r, b, sl := p.shape[2], p.reductionFactor, p.lowSlice, p.sliceLength;
    BoundaryListShape(n, r);
    forall k | 0 <= k < |b| - 1
      ensures SlabHeader(p, k).headerLength + SlabHeader(p, k).dims[2] * sl == p.headerLength + b[k + 1] * sl
      ensures 0 < SlabHeader(p, k).dims[2] <= r && ReadsWithinData(p, SlabHeader(p, k))
    {
      assert b[k] * sl + (b[k + 1] - b[k]) * sl == b[k + 1] * sl;
      if k + 1 < |b| - 1 {
        assert b[k + 1] < b[|b| - 1];
      }
      MulLess(b[k + 1], n, sl);
      MulLess(0, b[k], sl);
    }
  }

  /** The slab loop exactly as written: for every boundary `el`, declare a
      slab of depth `el - (el - r)` at the byte offset of slice `el`, read it,
      reslice it into output plane `i` and copy that plane into an image
      allocated with the inclusive extent `0 .. target z`. */
  method WriteSlabsAsWritten<P>(p: Plan, image: array<P>, reslice: (MetaHeader, int) -> P) returns (headers: seq<MetaHeader>)
    requires PlanInvariant(p)
    requires image.Length == p.targetShape.z + 1
    modifies image
    ensures |headers| == |p.lowSlice| == image.Length
    ensures forall i :: 0 <= i < |headers| ==> headers[i] == AsWrittenHeader(p, i)
    ensures forall i :: 0 <= i < image.Length ==> image[i] == reslice(headers[i], i)
  {
    var shape := p.shape;
    headers := [];
    for i := 0 to |p.lowSlice|
      invariant |headers| == i
      invariant i > 0 ==> shape == p.shape[2 := p.reductionFactor]
      invariant i == 0 ==> shape == p.shape
      invariant forall j :: 0 <= j < i ==> headers[j] == AsWrittenHeader(p, j)
      invariant forall j :: 0 <= j < i ==> image[j] == reslice(headers[j], j)
    {
      var el := p.lowSlice[i];
      var endSlice := el;
      var startSlice := endSlice - p.reductionFactor;
      var headerLength := p.headerLength + el * p.sliceLength;
      shape := shape[2 := endSlice - startSlice];
      var header := MetaHeader(p.typecode, p.bigEndian, headerLength, shape);
      headers := headers + [header];
      image[i] := reslice(header, i);
    }
  }

  /** The slab loop reading the range between consecutive boundaries into
      plane `k` of an image with one plane per slab. */
  method WriteSlabs<P>(p: Plan, image: array<P>, reslice: (MetaHeader, int) -> P) returns (headers: seq<MetaHeader>)
    requires PlanInvariant(p)
    requires image.Length == p.targetShape.z
    modifies image
    ensures |headers| == |p.lowSlice| - 1 == image.Length
    ensures forall k :: 0 <= k < |headers| ==> headers[k] == SlabHeader(p, k)
    ensures forall k :: 0 <= k < image.Length ==> image[k] == reslice(headers[k], k)
  {
    var shape := p.shape;
    headers := [];
    for k := 0 to |p.lowSlice| - 1
      invariant |headers| == k
      invariant |shape| == |p.shape| && shape[..2] == p.shape[..2] && shape[3..] == p.shape[3..]
      invariant forall j :: 0 <= j < k ==> headers[j] == SlabHeader(p, j)
      invariant forall j :: 0 <= j < k ==> image[j] == reslice(headers[j], j)
    {
      var startSlice := p.lowSlice[k];
      var endSlice := p.lowSlice[k + 1];
      var headerLength := p.headerLength + startSlice * p.sliceLength;
      shape := shape[2 := endSlice - startSlice];
      assert shape == p.shape[2 := endSlice - startSlice];
      var header := MetaHeader(p.typecode, p.bigEndian, headerLength, shape);
      headers := headers + [header];
      image[k] := reslice(header, k);
    }
  }

  /** The whole script as written: plan, allocate the inclusive extent
      `0 .. target z` (one plane more than there are slabs), then run the
      slab loop as written. `blank` is the content of a freshly allocated
      plane; `reslice(h, i)` is output plane `i` resliced from the slab that
      header `h` describes. */
  method ReadChunks<P>(header: NpyHeader, m: real, blank: P, reslice: (MetaHeader, int) -> P)
    returns (r: Result<Plan, ChunkError>, image: array<P>, headers: seq<MetaHeader>)
    requires m > 0.0
    ensures fresh(image)
    ensures r.Success? <==> |header.shape| >= 3 && TotalSize(header) > 0 && m <= 1.0 && header.descr != ""
    ensures r.Failure? ==> image.Length == 0 && headers == []
    ensures r.Success? ==>
      && PlanFor(header, m, r.value)
      && image.Length == r.value.targetShape.z + 1 == |headers|
      && (forall i :: 0 <= i < |headers| ==> headers[i] == AsWrittenHeader(r.value, i))
      && (forall i :: 0 <= i < image.Length ==> image[i] == reslice(headers[i], i))
  {
    r := PlanChunks(header, m);
    if r.Failure? {
      image := new P[0](_ => blank);
      headers := [];
      return;
    }
    var p := r.value;
    image := new P[p.targetShape.z + 1](_ => blank);
    headers := WriteSlabsAsWritten(p, image, reslice);
  }

  /** The whole script with the corrected slab loop: plan, allocate one plane
      per slab, fill every plane from the slab between two boundaries. */
  method ReadChunksCorrected<P>(header: NpyHeader, m: real, blank: P, reslice: (MetaHeader, int) -> P)
    returns (r: Result<Plan, ChunkError>, image: array<P>, headers: seq<MetaHeader>)
    requires m > 0.0
    ensures fresh(image)
    ensures r.Success? <==> |header.shape| >= 3 && TotalSize(header) > 0 && m <= 1.0 && header.descr != ""
    ensures r.Failure? ==> image.Length == 0 && headers == []
    ensures r.Success? ==>
      && PlanFor(header, m, r.value)
      && image.Length == r.value.targetShape.z == |headers|
      && (forall k :: 0 <= k < |headers| ==> headers[k] == SlabHeader(r.value, k))
      && (forall k :: 0 <= k < image.Length ==> image[k] == reslice(headers[k], k))
  {
    r := PlanChunks(header, m);
    if r.Failure? {
      image := new P[0](_ => blank);
      headers := [];
      return;
    }
    var p := r.value;
    image := new P[p.targetShape.z](_ => blank);
    headers := WriteSlabs(p, image, reslice);
  }
}
