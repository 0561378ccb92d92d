/**
 * The target-shape helper `calculate_target_downsample_shape`, which both
 * resampler tests use to predict the shape the chunked resampler produces,
 * and the shape and size arithmetic the tests do around it.
 *
 * The magnification `m` is the value `np.power(max_size/total_size, 1/3)`
 * (or `1/2` for acquisition data) evaluates to; it is an input here, and
 * `MagnificationFor` states the relation it has to the size budget.
 */
module DownsampleShape {
  import opened Wrappers
  import opened Builtins

  /** A shape triple `(shape[0], shape[1], shape[2])`. */
  datatype Shape3 = Shape3(x: nat, y: nat, z: nat)

  /** An inclusive VTK extent `(x0, x1, y0, y1, z0, z1)`. */
  datatype Extent = Extent(x0: int, x1: int, y0: int, y1: int, z0: int, z1: int)

  /** `range(s, n, s)` with `s == 0` raises `ValueError`. */
  datatype ShapeError = ZeroRangeStep

  /** The size budget `maxSize` and the source size `totalSize` determine `m`:
      a cube root in general, a square root for acquisition data. Either way
      the image is shrunk (`m <= 1`) exactly when the budget does not exceed
      the source size. */
  ghost predicate MagnificationFor(m: real, maxSize: int, totalSize: int, acq: bool): (b: bool)
    ensures b ==> m > 0.0 && totalSize > 0
    ensures b ==> (m <= 1.0 <==> maxSize <= totalSize)
  {
    if m > 0.0 && totalSize > 0 then
      PowerAboveOne(m, acq);
      RatioAboveOne(maxSize, totalSize);
      (if acq then m * m else m * m * m) == maxSize as real / totalSize as real
    else
      false
  }

  /** A budget ratio is above one exactly when the budget exceeds the size. */
  lemma RatioAboveOne(maxSize: int, totalSize: int)
    requires totalSize > 0
    ensures maxSize as real / totalSize as real > 1.0 <==> maxSize > totalSize
  {
  }

  /** Source slices merged into one output slice (`slice_per_chunk`). */
  function SlicesPerChunk(m: real, acq: bool): (s: int)
    requires m > 0.0
    ensures acq ==> s == 1
    ensures !acq ==> 0 <= s && s as real <= 1.0 / m < s as real + 1.0
    ensures !acq ==> (s >= 1 <==> m <= 1.0)
  {
    if acq then 1 else IntOf(1.0 / m)
  }

  /** The number of output slabs is `ceil(n / s)` for a non-empty slab axis. */
  lemma {:induction false} NumChunksIsCeil(s: int, n: int)
    requires s >= 1
    ensures n >= 1 ==> 1 + |Range(s, n, s)| == CeilDiv(n, s)
  {
    var count := |Range(s, n, s)|;
    if n < 1 {
    } else if s < n {
      assert (count - 1) * s < n - s <= count * s;
      assert count * s < n <= (count + 1) * s;
      CeilDivUnique(count + 1, n, s);
    } else {
      assert count == 0;
      CeilDivUnique(1, n, s);
    }
  }

  /** `calculate_target_downsample_shape`: the in-plane sizes are scaled by
      `m` and truncated, the slab axis becomes the number of output slabs. */
  function CalculateTargetDownsampleShape(m: real, shape: Shape3, acq: bool): (r: Result<Shape3, ShapeError>)
    requires m > 0.0
    ensures r.Failure? <==> !acq && m > 1.0
    ensures r.Success? ==> r.value.x as real <= m * shape.x as real < r.value.x as real + 1.0
    ensures r.Success? ==> r.value.y as real <= m * shape.y as real < r.value.y as real + 1.0
    ensures r.Success? && m <= 1.0 ==> r.value.x <= shape.x && r.value.y <= shape.y
    ensures r.Success? && shape.z >= 1 ==> r.value.z == CeilDiv(shape.z, SlicesPerChunk(m, acq))
    ensures r.Success? && shape.z == 0 ==> r.value.z == 1
  {
    var s := SlicesPerChunk(m, acq);
    if s == 0 then
      Failure(ZeroRangeStep)
    else
      var numChunks := 1 + |Range(s, shape.z, s)|;
      NumChunksIsCeil(s, shape.z);
      Success(Shape3(IntOf(m * shape.x as real), IntOf(m * shape.y as real), numChunks))
  }

  /** With `m == 1` the helper gives the source shape back: the shape the
      tests expect when the budget covers the whole image. */
  lemma UnitMagnificationIsIdentity(shape: Shape3, acq: bool)
    requires shape.z >= 1
    ensures CalculateTargetDownsampleShape(1.0, shape, acq) == Success(shape)
  {
  }

  /** An empty slab axis still yields one output slab. */
  lemma EmptySlabAxisGivesOneSlab(m: real, shape: Shape3, acq: bool)
    requires m > 0.0 && shape.z == 0 && (acq || m <= 1.0)
    ensures CalculateTargetDownsampleShape(m, shape, acq) == Success(Shape3(IntOf(m * shape.x as real), IntOf(m * shape.y as real), 1))
  {
  }

  /** Acquisition data is never decimated along the slab (angle) axis, and
      the helper cannot fail for it. */
  lemma AcquisitionKeepsSlabAxis(m: real, shape: Shape3)
    requires m > 0.0 && shape.z >= 1
    ensures CalculateTargetDownsampleShape(m, shape, true).Success?
    ensures CalculateTargetDownsampleShape(m, shape, true).value.z == shape.z
  {
  }

  /** The square and the cube of a positive real are above one exactly when
      the real is. */
  lemma PowerAboveOne(m: real, acq: bool)
    requires m > 0.0
    ensures (if acq then m * m else m * m * m) > 1.0 <==> m > 1.0
  {
    if m > 1.0 {
      assert m * m > 1.0;
      assert m * m * m > m * m;
    } else {
      assert m * m <= m;
      assert m * m * m <= m * m;
    }
  }

  /** In the general (non-acquisition) mode the stride is at least one
      exactly when the budget does not exceed the source size; a budget
      above it makes `range` fail with a zero step. */
  lemma BudgetDecidesStride(m: real, maxSize: int, totalSize: int, shape: Shape3)
    requires MagnificationFor(m, maxSize, totalSize, false)
    ensures SlicesPerChunk(m, false) >= 1 <==> maxSize <= totalSize
    ensures CalculateTargetDownsampleShape(m, shape, false).Failure? <==> maxSize > totalSize
  {
  }

  /** The numpy shape `(z, y, x)` in VTK order `(x, y, z)`. */
  function VtkOrder(numpyShape: Shape3): (s: Shape3)
    ensures ElementCount(s) == ElementCount(numpyShape)
  {
    Shape3(numpyShape.z, numpyShape.y, numpyShape.x)
  }

  /** The number of elements of an image of the given shape. */
  function ElementCount(s: Shape3): nat
  {
    s.x * s.y * s.z
  }

  /** The size in bytes of an image of the given shape. */
  function ByteSize(s: Shape3, bytesPerElement: nat): (size: nat)
    ensures bytesPerElement > 0 ==> size / bytesPerElement == ElementCount(s) && size % bytesPerElement == 0
  {
    if bytesPerElement > 0 then
      DivideMultiple(ElementCount(s), bytesPerElement);
      ElementCount(s) * bytesPerElement
    else
      0
  }

  /** The shape a VTK image reports through its inclusive extent. */
  function ResultingShape(e: Extent): (s: Shape3)
    requires e.x1 >= -1 && e.y1 >= -1 && e.z1 >= -1
  {
    Shape3(e.x1 + 1, e.y1 + 1, e.z1 + 1)
  }

  /** The whole inclusive extent of an image of the given shape. */
  function WholeExtent(s: Shape3): (e: Extent)
    ensures e.x1 >= -1 && e.y1 >= -1 && e.z1 >= -1
    ensures ResultingShape(e) == s
  {
    Extent(0, s.x - 1, 0, s.y - 1, 0, s.z - 1)
  }

  /** An extent starting at the origin is the whole extent of the shape read
      back from it. */
  lemma ExtentRoundTrip(e: Extent)
    requires e.x0 == 0 && e.y0 == 0 && e.z0 == 0
    requires e.x1 >= -1 && e.y1 >= -1 && e.z1 >= -1
    ensures WholeExtent(ResultingShape(e)) == e
  {
  }

  /** The two assertions both tests make about acquisition data: the element
      count of the resampled image equals that of the helper's shape, and its
      slab-axis extent equals the numpy axis-0 length of the source. */
  predicate AcquisitionChecksPass(e: Extent, expected: Shape3, numpyShape: Shape3)
    requires e.x1 >= -1 && e.y1 >= -1 && e.z1 >= -1
  {
    && ElementCount(ResultingShape(e)) == ElementCount(expected)
    && e.z1 + 1 == numpyShape.x
  }

  /** An output covering exactly the helper's acquisition-mode shape passes
      both checks, provided the source has at least one projection. */
  lemma AcquisitionChecksConsistent(m: real, numpyShape: Shape3)
    requires m > 0.0 && numpyShape.x >= 1
    ensures CalculateTargetDownsampleShape(m, VtkOrder(numpyShape), true).Success?
    ensures var t := CalculateTargetDownsampleShape(m, VtkOrder(numpyShape), true).value;
      AcquisitionChecksPass(WholeExtent(t), t, numpyShape)
  {
    AcquisitionKeepsSlabAxis(m, VtkOrder(numpyShape));
  }

  /** Conversely, an output that passes both checks keeps the slab axis of
      the helper's shape and has the helper's in-plane element count. */
  lemma {:induction false} AcquisitionChecksDetermineShape(m: real, numpyShape: Shape3, e: Extent)
    requires m > 0.0 && numpyShape.x >= 1
    requires e.x1 >= -1 && e.y1 >= -1 && e.z1 >= -1
    requires CalculateTargetDownsampleShape(m, VtkOrder(numpyShape), true).Success?
    requires AcquisitionChecksPass(e, CalculateTargetDownsampleShape(m, VtkOrder(numpyShape), true).value, numpyShape)
    ensures var t := CalculateTargetDownsampleShape(m, VtkOrder(numpyShape), true).value;
      var s := ResultingShape(e);
      s.z == t.z && s.x * s.y == t.x * t.y
  {
    AcquisitionKeepsSlabAxis(m, VtkOrder(numpyShape));
    var t := CalculateTargetDownsampleShape(m, VtkOrder(numpyShape), true).value;
    var s := ResultingShape(e);
    assert s.z == t.z;
    assert (s.x * s.y) * s.z == (t.x * t.y) * s.z;
    CancelPositiveFactor(s.x * s.y, t.x * t.y, s.z);
  }

  /** Equal multiples of a positive number have equal factors. */
  lemma CancelPositiveFactor(a: int, b: int, c: int)
    requires c > 0 && a * c == b * c
    ensures a == b
  {
    assert (a - b) * c == a * c - b * c;
  }

  /** Cubing is strictly increasing on the positive reals. */
  lemma CubeLess(a: real, b: real)
    requires 0.0 < a < b
    ensures a * a * a < b * b * b
  {
    assert a * a < a * b < b * b;
    assert a * a * a < b * b * a < b * b * b;
  }

  /** Squaring is strictly increasing on the positive reals. */
  lemma SquareLess(a: real, b: real)
    requires 0.0 < a < b
    ensures a * a < b * b
  {
    assert a * a < a * b < b * b;
  }

  /** The shape the general-mode test expects for its 50 x 10 x 60 uint16
      array (60000 bytes) and a budget of 100 bytes. */
  lemma VtkResamplerTestShape(m: real)
    requires MagnificationFor(m, 100, ByteSize(VtkOrder(Shape3(50, 10, 60)), 2), false)
    ensures CalculateTargetDownsampleShape(m, VtkOrder(Shape3(50, 10, 60)), false) == Success(Shape3(7, 1, 7))
  {
    assert m * m * m == 1.0 / 600.0;
    if m <= 0.118 {
      if m < 0.118 { CubeLess(m, 0.118); }
      assert false;
    }
    if m >= 0.119 {
      if m > 0.119 { CubeLess(0.119, m); }
      assert false;
    }
    assert 8.0 <= 1.0 / m < 9.0;
    assert 7.0 <= m * 60.0 < 8.0;
    assert 1.0 <= m * 10.0 < 2.0;
    assert CeilDiv(50, 8) == 7;
  }

  /** The shape the command-line test expects for its 5 x 10 x 6 array
      (300 elements) read as acquisition data with a budget of 100: the
      slab axis keeps its 5 projections. */
  lemma CliResampleTestShape(m: real)
    requires MagnificationFor(m, 100, ElementCount(VtkOrder(Shape3(5, 10, 6))), true)
    ensures CalculateTargetDownsampleShape(m, VtkOrder(Shape3(5, 10, 6)), true) == Success(Shape3(3, 5, 5))
  {
    assert m * m == 1.0 / 3.0;
    if m <= 0.577 {
      if m < 0.577 { SquareLess(m, 0.577); }
      assert false;
    }
    if m >= 0.578 {
      if m > 0.578 { SquareLess(0.578, m); }
      assert false;
    }
    assert 3.0 <= m * 6.0 < 4.0;
    assert 5.0 <= m * 10.0 < 6.0;
  }
}
