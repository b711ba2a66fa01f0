/**
  The shape helpers of the plans (namespace `detail` of basic_plan.h): the
  views they inspect, `dims`, `extents` and `dims_r2c`.

  A view is described by its extents in index order and its layout tag. In a
  `layout_right` view the last index varies fastest; in any other layout the
  helpers read the two axes the other way round, so the row-major order of a
  view's extents (`RowMajor`) is its extents, reversed unless it is
  `layout_right`.
 */
module PlanDetail {
  import opened Util

  datatype Layout = LayoutRight | LayoutLeft | LayoutStride

  /** What a plan reads of a buffer or view: extents in index order and the layout tag. */
  datatype View = View(extents: seq<SizeT>, layout: Layout)

  function Product(s: seq<nat>): nat {
    if s == [] then 1 else s[0] * Product(s[1..])
  }

  /** `size()` of a view or buffer: the number of elements. */
  function Size(v: View): nat {
    Product(v.extents)
  }

  function Reverse<T>(s: seq<T>): (r: seq<T>)
    ensures |r| == |s|
  {
    if s == [] then [] else Reverse(s[1..]) + [s[0]]
  }

  /** The extents of a view in row-major order. */
  function RowMajor(v: View): seq<SizeT> {
    if v.layout == LayoutRight then v.extents else Reverse(v.extents)
  }

  /** Each extent converted to `int`, as the engine's planners take them. */
  function IntsOf(s: seq<nat>): (r: seq<int>)
    ensures |r| == |s|
    ensures forall i :: 0 <= i < |s| ==> r[i] == IntOfSize(s[i])
    ensures forall i :: 0 <= i < |s| ==> INT_MIN <= r[i] <= INT_MAX
    ensures FitsInt(s) ==> r == s
  {
    seq(|s|, i requires 0 <= i < |s| => IntOfSize(s[i]))
  }

  /** A sequence of extents that each fit in an `int`. */
  predicate FitsInt(s: seq<nat>) {
    forall i :: 0 <= i < |s| ==> s[i] <= INT_MAX
  }

  /** The halved-last-axis rule of the real transforms: the complex shape for a real shape. */
  function HalfSpectrum(s: seq<nat>): (c: seq<nat>)
    requires |s| > 0
    ensures |c| == |s| && c[..|s| - 1] == s[..|s| - 1]
    ensures c[|s| - 1] == s[|s| - 1] / 2 + 1
  {
    s[..|s| - 1] + [s[|s| - 1] / 2 + 1]
  }

  lemma {:induction false} ProductAppend(s: seq<nat>, x: nat)
    ensures Product(s + [x]) == Product(s) * x
  {
    if s == [] {
      assert s + [x] == [x];
    } else {
      assert (s + [x])[1..] == s[1..] + [x];
      ProductAppend(s[1..], x);
      assert Product(s + [x]) == s[0] * (Product(s[1..]) * x);
    }
  }

  /** Reading the axes in the other order does not change the number of elements. */
  lemma {:induction false} ProductReverse(s: seq<SizeT>)
    ensures Product(Reverse(s)) == Product(s)
  {
    if s != [] {
      ProductReverse(s[1..]);
      ProductAppend(Reverse(s[1..]), s[0]);
    }
  }

  /** The row-major extents of a view describe as many elements as the view holds. */
  lemma RowMajorSize(v: View)
    ensures Product(RowMajor(v)) == Size(v)
  {
    if v.layout != LayoutRight {
      ProductReverse(v.extents);
    }
  }

  lemma Reverse2<T>(a: T, b: T)
    ensures Reverse([a, b]) == [b, a]
  {
  }

  /**
    `detail::dims` for two 2-D views: when both or neither are `layout_right`
    the extents must agree index by index, otherwise crosswise; the result is
    the input's extents, converted to `int`, in row-major order.
   */
  function Dims(src: View, dst: View): (r: Result<seq<int>>)
    requires |src.extents| == 2 && |dst.extents| == 2
    ensures r.Ok? ==> |r.value| == 2
    ensures r.Err? ==> r.error == ExtentsDontMatch
  {
    var srcRight := src.layout == LayoutRight;
    var dstRight := dst.layout == LayoutRight;
    var agree :=
      if srcRight == dstRight then
        src.extents[0] == dst.extents[0] && src.extents[1] == dst.extents[1]
      else
        src.extents[0] == dst.extents[1] && src.extents[1] == dst.extents[0];
    if !agree then Err(ExtentsDontMatch)
    else if srcRight then Ok([IntOfSize(src.extents[0]), IntOfSize(src.extents[1])])
    else Ok([IntOfSize(src.extents[1]), IntOfSize(src.extents[0])])
  }

  /**
    `dims` accepts exactly the pairs of views with the same row-major shape,
    whatever their layouts, and returns that shape.
   */
  lemma DimsAgreeOnRowMajorShape(src: View, dst: View)
    requires |src.extents| == 2 && |dst.extents| == 2
    ensures Dims(src, dst).Ok? <==> RowMajor(src) == RowMajor(dst)
    ensures Dims(src, dst).Ok? ==> Dims(src, dst).value == IntsOf(RowMajor(src))
  {
    var s, d := src.extents, dst.extents;
    assert s == [s[0], s[1]] && d == [d[0], d[1]];
    Reverse2(s[0], s[1]);
    Reverse2(d[0], d[1]);
  }

  /** A pair of views that `dims` accepts holds the same number of elements. */
  lemma DimsPreservesSize(src: View, dst: View)
    requires |src.extents| == 2 && |dst.extents| == 2
    requires Dims(src, dst).Ok?
    ensures Size(src) == Size(dst)
  {
    DimsAgreeOnRowMajorShape(src, dst);
    RowMajorSize(src);
    RowMajorSize(dst);
  }

  /**
    `detail::extents<D>`: the first `d` extents of a view in index order,
    whatever its layout, each converted to `int`; extents that fit in an `int`
    come through unchanged.
   */
  function Extents(v: View, d: nat): (r: seq<int>)
    requires d <= |v.extents|
    ensures |r| == d
    ensures forall i :: 0 <= i < d ==> INT_MIN <= r[i] <= INT_MAX
    ensures forall i :: 0 <= i < d ==> r[i] == IntOfSize(v.extents[i])
    ensures FitsInt(v.extents[..d]) ==> r == v.extents[..d]
  {
    seq(d, i requires 0 <= i < d => IntOfSize(v.extents[i]))
  }

  /**
    `extents<2>` reads a view in index order: for a `layout_right` view that is
    its row-major shape, for any other layout the row-major shape with the two
    axes exchanged, which `dims_r2c` then swaps back.
   */
  lemma {:induction false} ExtentsRowMajor(v: View)
    requires |v.extents| == 2
    ensures v.layout == LayoutRight ==> Extents(v, 2) == IntsOf(RowMajor(v))
    ensures v.layout != LayoutRight ==> Extents(v, 2) == [IntsOf(RowMajor(v))[1], IntsOf(RowMajor(v))[0]]
  {
    var e := v.extents;
    assert e == [e[0], e[1]];
    Reverse2(e[0], e[1]);
  }

  /**
    What `dims_r2c` computes: both views' extents converted to `int` and put in
    row-major order; the first axes must agree and the complex last axis must
    be the real last axis halved (C++ `int` division) plus one. The result is
    the real view's row-major extents.
   */
  function R2CDims(rv: View, cv: View): (r: Result<seq<int>>)
    requires |rv.extents| == 2 && |cv.extents| == 2
    ensures r.Ok? ==> r.value == IntsOf(RowMajor(rv))
    ensures r.Err? ==> r.error == ExtentsDontMatch
  {
    var re := IntsOf(RowMajor(rv));
    var ce := IntsOf(RowMajor(cv));
    if re[0] == ce[0] && HalfTowardZero(re[1]) + 1 == ce[1] then Ok(re) else Err(ExtentsDontMatch)
  }

  /**
    `detail::dims_r2c`: reads both views' extents into two-element arrays,
    swaps the entries of each array whose view is not `layout_right`, then
    checks the halved-last-axis rule.
   */
  method DimsR2C(rv: View, cv: View) returns (r: Result<seq<int>>)
    requires |rv.extents| == 2 && |cv.extents| == 2
    ensures r == R2CDims(rv, cv)
  {
    var re := new int[2];
    var ce := new int[2];
    var rInit, cInit := Extents(rv, 2), Extents(cv, 2);
    re[0], re[1] := rInit[0], rInit[1];
    ce[0], ce[1] := cInit[0], cInit[1];
    if rv.layout != LayoutRight {
      re[0], re[1] := re[1], re[0];
    }
    if cv.layout != LayoutRight {
      ce[0], ce[1] := ce[1], ce[0];
    }
    ExtentsRowMajor(rv);
    ExtentsRowMajor(cv);
    assert re[..] == IntsOf(RowMajor(rv));
    assert ce[..] == IntsOf(RowMajor(cv));
    if re[0] != ce[0] {
      return Err(ExtentsDontMatch);
    }
    if HalfTowardZero(re[1]) + 1 != ce[1] {
      return Err(ExtentsDontMatch);
    }
    r := Ok(re[..]);
  }

  /**
    For extents that fit in an `int`, `dims_r2c` accepts exactly the pairs whose
    complex row-major shape is the half spectrum of the real one, and returns
    the real row-major shape.
   */
  lemma R2CDimsHalfSpectrum(rv: View, cv: View)
    requires |rv.extents| == 2 && |cv.extents| == 2
    requires FitsInt(rv.extents) && FitsInt(cv.extents)
    ensures R2CDims(rv, cv).Ok? <==> RowMajor(cv) == HalfSpectrum(RowMajor(rv))
    ensures R2CDims(rv, cv).Ok? ==> R2CDims(rv, cv).value == RowMajor(rv)
  {
    var rm, cm := RowMajor(rv), RowMajor(cv);
    RowMajorFits(rv);
    RowMajorFits(cv);
    assert HalfTowardZero(rm[1]) == rm[1] / 2;
    assert HalfSpectrum(rm) == [rm[0], rm[1] / 2 + 1];
    assert cm == [cm[0], cm[1]];
  }

  /** The row-major extents of a rank-2 view are its two extents, in some order. */
  lemma RowMajorFits(v: View)
    requires |v.extents| == 2 && FitsInt(v.extents)
    ensures |RowMajor(v)| == 2 && FitsInt(RowMajor(v))
  {
    var e := v.extents;
    assert e == [e[0], e[1]];
    Reverse2(e[0], e[1]);
  }

  /**
    `dims_r2c` compares extents after their conversion to `int`, so a real
    extent of 2^32 + 6 passes against a complex extent of 6.
   */
  lemma R2CDimsComparesTruncatedExtents()
    ensures var rv := View([0x1_0000_0006, 4], LayoutRight);
            var cv := View([6, 3], LayoutRight);
            RowMajor(cv) != HalfSpectrum(RowMajor(rv)) && R2CDims(rv, cv) == Ok([6, 4])
  {
    var rv := View([0x1_0000_0006, 4], LayoutRight);
    var cv := View([6, 3], LayoutRight);
    assert IntOfSize(0x1_0000_0006) == 6;
    assert HalfSpectrum(RowMajor(rv))[0] == 0x1_0000_0006;
    assert IntsOf(RowMajor(rv)) == [6, 4];
    assert IntsOf(RowMajor(cv)) == [6, 3];
  }

  /**
    The four layout combinations of the 2-D real-transform tests pass, each
    giving the row-major real shape 6 x 4: left 4 x 6 with left 3 x 6, right
    6 x 4 with right 6 x 3, left 4 x 6 with right 6 x 3, right 6 x 4 with
    left 3 x 6.
   */
  lemma R2CDimsTestShapes()
    ensures R2CDims(View([4, 6], LayoutLeft), View([3, 6], LayoutLeft)) == Ok([6, 4])
    ensures R2CDims(View([6, 4], LayoutRight), View([6, 3], LayoutRight)) == Ok([6, 4])
    ensures R2CDims(View([4, 6], LayoutLeft), View([6, 3], LayoutRight)) == Ok([6, 4])
    ensures R2CDims(View([6, 4], LayoutRight), View([3, 6], LayoutLeft)) == Ok([6, 4])
  {
    Reverse2<SizeT>(4, 6);
    Reverse2<SizeT>(3, 6);
    R2CDimsHalfSpectrum(View([4, 6], LayoutLeft), View([3, 6], LayoutLeft));
    R2CDimsHalfSpectrum(View([6, 4], LayoutRight), View([6, 3], LayoutRight));
    R2CDimsHalfSpectrum(View([4, 6], LayoutLeft), View([6, 3], LayoutRight));
    R2CDimsHalfSpectrum(View([6, 4], LayoutRight), View([3, 6], LayoutLeft));
  }
}
