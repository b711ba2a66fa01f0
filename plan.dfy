/**
  The plan classes of basic_plan.h. `basic_plan<D>` (complex to complex),
  `basic_plan_r2c<D>` and `basic_plan_c2r<D>` each own one engine plan handle
  and share one lifecycle, line for line: swap, a move constructor built on
  swap, move assignment through a temporary, and a destructor that releases a
  non-null handle. They are one class `Plan` here, whose constant `kind` stands
  for the template class and its rank; the C++ type system only lets plans of
  the same class meet in `swap` and the moves, which the methods require.

  The factories validate their operands before the engine is called: `dft` of
  the complex plan checks sizes and direction, the real plans check shapes
  through `dims_r2c`. A failed check throws `std::invalid_argument` (an `Err`
  here) and the engine is left untouched.
 */
module BasicPlan {
  import opened Util
  import opened PlanDetail
  import opened Fftw
  import opened BasicBuffer

  datatype Transform = C2C | R2C | C2R

  /** The template class of a plan and its rank `D`. */
  datatype Kind = Kind(transform: Transform, rank: nat)

  /** A one-dimensional buffer as the complex `dft` sees it. */
  function BufferView<T(0)>(b: Buffer<T>): (v: View)
    reads b
    ensures |v.extents| == 1 && Size(v) == b.Size()
  {
    var v := View([b.length], LayoutRight);
    assert Product(v.extents[1..]) == 1 by {
      assert v.extents[1..] == [];
    }
    v
  }

  /**
    The operands `basic_plan<D>::dft` accepts at compile time: both of rank
    `D`, and `D` is 1 or 2 (the only ranks `detail::plan_dft` exists for).
   */
  predicate DftShapes(d: nat, src: View, dst: View) {
    (d == 1 || d == 2) && |src.extents| == d && |dst.extents| == d
  }

  /**
    `detail::plan_dft`: a rank-1 plan is made by the 1-D planner with the
    input's size, a rank-2 plan by the 2-D planner with the input's two extents
    in index order (whatever its layout); direction and flags pass through.
   */
  function PlanDftCall(d: nat, src: View, dir: Direction, flags: Flags): (c: PlanCall)
    requires (d == 1 || d == 2) && |src.extents| == d
    ensures c.PlanDft1d? <==> d == 1
    ensures c.PlanDft1d? || c.PlanDft2d?
    ensures d == 1 ==> c.PlanDft1d? && c.n == IntOfSize(src.extents[0])
    ensures d == 2 ==> c.PlanDft2d? && c.n0 == IntOfSize(src.extents[0]) && c.n1 == IntOfSize(src.extents[1])
    ensures c.sign == DirectionCode(dir) && c.flags == FlagsCode(flags)
  {
    if d == 1 then
      assert Product(src.extents[1..]) == 1 by {
        assert src.extents[1..] == [];
      }
      PlanDft1d(IntOfSize(Size(src)), DirectionCode(dir), FlagsCode(flags))
    else PlanDft2d(IntOfSize(src.extents[0]), IntOfSize(src.extents[1]), DirectionCode(dir), FlagsCode(flags))
  }

  /** The number of elements a complex plan call transforms. */
  function PlannedCount(c: PlanCall): int
    requires c.PlanDft1d? || c.PlanDft2d?
  {
    if c.PlanDft1d? then c.n else c.n0 * c.n1
  }

  /**
    The validation of `basic_plan<D>::dft` (both overloads) and the planner
    call it leads to. Unequal sizes throw "mismatched buffer sizes" whatever
    the direction; with equal sizes, a direction that is neither FORWARD nor
    BACKWARD throws "invalid direction"; otherwise the plan is made.
   */
  function DftRequest(d: nat, src: View, dst: View, dir: Direction, flags: Flags): (r: Result<PlanCall>)
    requires DftShapes(d, src, dst)
    ensures r.Ok? <==> Size(src) == Size(dst) && IsValidDirection(dir)
    ensures Size(src) != Size(dst) ==> r == Err(MismatchedBufferSizes)
    ensures Size(src) == Size(dst) && !IsValidDirection(dir) ==> r == Err(InvalidDirection)
    ensures r.Ok? ==> r.value == PlanDftCall(d, src, dir, flags)
  {
    if Size(src) != Size(dst) then Err(MismatchedBufferSizes)
    else if !IsValidDirection(dir) then Err(InvalidDirection)
    else Ok(PlanDftCall(d, src, dir, flags))
  }

  /**
    A complex plan that is made covers every element of both operands, as
    long as each extent handed to the engine fits in an `int`.
   */
  lemma DftPlansWholeBuffers(d: nat, src: View, dst: View, dir: Direction, flags: Flags)
    requires DftShapes(d, src, dst)
    requires FitsInt(src.extents)
    requires DftRequest(d, src, dst, dir, flags).Ok?
    ensures PlannedCount(DftRequest(d, src, dst, dir, flags).value) == Size(src) == Size(dst)
  {
    var e := src.extents;
    var call := DftRequest(d, src, dst, dir, flags).value;
    if d == 1 {
      assert Product(e[1..]) == 1 by {
        assert e[1..] == [];
      }
      assert PlannedCount(call) == Size(src);
    } else {
      assert Product(e[1..]) == e[1] by {
        assert e[1..][1..] == [];
      }
      assert call.n0 == e[0] && call.n1 == e[1];
      assert PlannedCount(call) == Size(src);
    }
  }

  /**
    The direction check depends only on the integer behind the direction: it
    accepts exactly the values -1 (FORWARD) and +1 (BACKWARD), including a
    value cast into the enumeration.
   */
  lemma DftDirectionCodes(d: nat, src: View, dst: View, dir: Direction, flags: Flags)
    requires DftShapes(d, src, dst) && Size(src) == Size(dst)
    ensures DftRequest(d, src, dst, dir, flags).Ok? <==> DirectionCode(dir) in {-1, 1}
    ensures DftRequest(d, src, dst, OutOfRange(-1), flags) == DftRequest(d, src, dst, Forward, flags)
  {
  }

  /**
    `detail::plan_dft_r2c`: the real view is the input; its row-major shape,
    checked by `dims_r2c`, is what the engine gets.
   */
  function R2CRequest(d: nat, src: View, dst: View, flags: Flags): (r: Result<PlanCall>)
    requires d == 2 && |src.extents| == 2 && |dst.extents| == 2
    ensures r.Ok? <==> R2CDims(src, dst).Ok?
    ensures r.Ok? ==> r.value == PlanDftR2C(d, R2CDims(src, dst).value, FlagsCode(flags))
    ensures r.Err? ==> r.error == ExtentsDontMatch
  {
    var dims :- R2CDims(src, dst);
    Ok(PlanDftR2C(d, dims, FlagsCode(flags)))
  }

  /**
    `detail::plan_dft_c2r`: the same check with the roles swapped, the real
    view being the output, `dims_r2c(out, in)`.
   */
  function C2RRequest(d: nat, src: View, dst: View, flags: Flags): (r: Result<PlanCall>)
    requires d == 2 && |src.extents| == 2 && |dst.extents| == 2
    ensures r.Ok? <==> R2CDims(dst, src).Ok?
    ensures r.Ok? ==> r.value == PlanDftC2R(d, R2CDims(dst, src).value, FlagsCode(flags))
    ensures r.Err? ==> r.error == ExtentsDontMatch
  {
    var dims :- R2CDims(dst, src);
    Ok(PlanDftC2R(d, dims, FlagsCode(flags)))
  }

  /**
    A real-to-complex plan is made exactly when the complex output's row-major
    shape is the half spectrum of the real input's, and the engine is given the
    real row-major shape.
   */
  lemma R2CPlanShape(src: View, dst: View, flags: Flags)
    requires |src.extents| == 2 && |dst.extents| == 2
    requires FitsInt(src.extents) && FitsInt(dst.extents)
    ensures R2CRequest(2, src, dst, flags).Ok? <==> RowMajor(dst) == HalfSpectrum(RowMajor(src))
    ensures R2CRequest(2, src, dst, flags).Ok? ==> R2CRequest(2, src, dst, flags).value.dims == RowMajor(src)
  {
    R2CDimsHalfSpectrum(src, dst);
  }

  /**
    A complex-to-real plan is made exactly when the complex input's row-major
    shape is the half spectrum of the real output's, and the engine is given
    the real row-major shape.
   */
  lemma C2RPlanShape(src: View, dst: View, flags: Flags)
    requires |src.extents| == 2 && |dst.extents| == 2
    requires FitsInt(src.extents) && FitsInt(dst.extents)
    ensures C2RRequest(2, src, dst, flags).Ok? <==> RowMajor(src) == HalfSpectrum(RowMajor(dst))
    ensures C2RRequest(2, src, dst, flags).Ok? ==> C2RRequest(2, src, dst, flags).value.dims == RowMajor(dst)
  {
    R2CDimsHalfSpectrum(dst, src);
  }

  /**
    The inverse plan of the real-transform tests: when `plan_r2c(in, out)` is
    made, `plan_c2r(out, back)` is made too for any real view `back` of the
    same row-major shape as `in`, whatever the layouts, and plans the same
    dimensions.
   */
  lemma C2RInvertsR2C(src: View, spectrum: View, back: View, flags: Flags)
    requires |src.extents| == 2 && |spectrum.extents| == 2 && |back.extents| == 2
    requires RowMajor(back) == RowMajor(src)
    requires R2CRequest(2, src, spectrum, flags).Ok?
    ensures C2RRequest(2, spectrum, back, flags).Ok?
    ensures C2RRequest(2, spectrum, back, flags).value.dims == R2CRequest(2, src, spectrum, flags).value.dims
  {
  }

  class Plan {
    const kind: Kind
    var handle: Option<nat>

    /** A non-null handle is one the engine has made and not released. */
    ghost predicate Owns(e: Engine)
      reads this, e
    {
      handle.Some? ==> handle.value in e.live
    }

    /** Two distinct plans never hold the same handle. */
    ghost predicate Disjoint(other: Plan)
      reads this, other
    {
      other == this || handle.None? || other.handle.None? || handle.value != other.handle.value
    }

    /** The default constructor: a null handle. */
    constructor (kind: Kind)
      ensures this.kind == kind && handle == None
    {
      this.kind := kind;
      handle := None;
    }

    /** `swap`: exchanges the two handles; a plan swapped with itself is unchanged. */
    method Swap(other: Plan)
      requires other.kind == kind
      modifies this, other
      ensures handle == old(other.handle) && other.handle == old(handle)
    {
      var mine := handle;
      handle := other.handle;
      other.handle := mine;
    }

    /** The move constructor `other.swap(*this)`: takes the handle and leaves the source null. */
    constructor Move(other: Plan)
      modifies other
      ensures kind == other.kind
      ensures handle == old(other.handle) && other.handle == None
    {
      kind := other.kind;
      handle := None;
      new;
      other.Swap(this);
    }

    /**
      The destructor: releases a non-null handle exactly once and leaves the
      handle null; a null handle is not passed to the engine.
     */
    method Destroy(e: Engine)
      requires e.Valid() && Owns(e)
      modifies this, e
      ensures e.Valid() && handle == None
      ensures e.released == old(e.released) + (if old(handle).Some? then [old(handle).value] else [])
      ensures e.live == old(e.live) - (if old(handle).Some? then {old(handle).value} else {})
      ensures e.calls == old(e.calls) && e.nextHandle == old(e.nextHandle)
    {
      if handle.Some? {
        e.DestroyPlan(handle.value);
      }
      handle := None;
    }

    /**
      Move assignment `basic_plan(std::move(other)).swap(*this)`: the
      temporary takes the source's handle, swaps it with this plan's, and its
      destruction releases this plan's former handle, if any, exactly once.
      The source is left null. Assigning a plan to itself keeps its handle and
      releases nothing.
     */
    method MoveAssign(other: Plan, e: Engine)
      requires other.kind == kind
      requires e.Valid() && Owns(e) && other.Owns(e) && Disjoint(other)
      modifies this, other, e
      ensures e.Valid() && Owns(e) && other.Owns(e)
      ensures e.calls == old(e.calls) && e.nextHandle == old(e.nextHandle)
      ensures other == this ==> handle == old(handle) && e.released == old(e.released) && e.live == old(e.live)
      ensures other != this ==> handle == old(other.handle) && other.handle == None
      ensures other != this ==> e.released == old(e.released) + (if old(handle).Some? then [old(handle).value] else [])
      ensures other != this ==> e.live == old(e.live) - (if old(handle).Some? then {old(handle).value} else {})
    {
      var temporary := new Plan.Move(other);
      temporary.Swap(this);
      temporary.Destroy(e);
    }

    /**
      `basic_plan<D>::dft`: validates, then calls the planner once and wraps
      its handle. On a failed check nothing is planned.
     */
    static method Dft(d: nat, src: View, dst: View, dir: Direction, flags: Flags, e: Engine)
      returns (r: Result<Plan>)
      requires DftShapes(d, src, dst) && e.Valid()
      modifies e
      ensures e.Valid()
      ensures r.Err? <==> DftRequest(d, src, dst, dir, flags).Err?
      ensures r.Err? ==> r.error == DftRequest(d, src, dst, dir, flags).error && unchanged(e)
      ensures r.Ok? ==> fresh(r.value) && r.value.kind == Kind(C2C, d)
      ensures r.Ok? ==> r.value.handle == Some(old(e.nextHandle)) && r.value.Owns(e)
      ensures r.Ok? ==> e.calls == old(e.calls) + [DftRequest(d, src, dst, dir, flags).value]
      ensures r.Ok? ==> e.live == old(e.live) + {old(e.nextHandle)} && e.released == old(e.released)
    {
      if Size(src) != Size(dst) {
        return Err(MismatchedBufferSizes);
      }
      if !IsValidDirection(dir) {
        return Err(InvalidDirection);
      }
      var plan := new Plan(Kind(C2C, d));
      var h := e.Plan(PlanDftCall(d, src, dir, flags));
      plan.handle := Some(h);
      r := Ok(plan);
    }

    /**
      `basic_plan_r2c<D>::dft`: checks the shapes with `dims_r2c(in, out)`
      before the planner is called, then wraps the handle.
     */
    static method DftR2C(d: nat, src: View, dst: View, flags: Flags, e: Engine)
      returns (r: Result<Plan>)
      requires d == 2 && |src.extents| == 2 && |dst.extents| == 2 && e.Valid()
      modifies e
      ensures e.Valid()
      ensures r.Err? <==> R2CRequest(d, src, dst, flags).Err?
      ensures r.Err? ==> r.error == ExtentsDontMatch && unchanged(e)
      ensures r.Ok? ==> fresh(r.value) && r.value.kind == Kind(R2C, d)
      ensures r.Ok? ==> r.value.handle == Some(old(e.nextHandle)) && r.value.Owns(e)
      ensures r.Ok? ==> e.calls == old(e.calls) + [R2CRequest(d, src, dst, flags).value]
      ensures r.Ok? ==> e.live == old(e.live) + {old(e.nextHandle)} && e.released == old(e.released)
    {
      var plan := new Plan(Kind(R2C, d));
      var dims := DimsR2C(src, dst);
      if dims.Err? {
        return Err(dims.error);
      }
      var h := e.Plan(PlanDftR2C(d, dims.value, FlagsCode(flags)));
      plan.handle := Some(h);
      r := Ok(plan);
    }

    /**
      `basic_plan_c2r<D>::dft`: checks the shapes with `dims_r2c(out, in)`,
      the real view being the output, before the planner is called.
     */
    static method DftC2R(d: nat, src: View, dst: View, flags: Flags, e: Engine)
      returns (r: Result<Plan>)
      requires d == 2 && |src.extents| == 2 && |dst.extents| == 2 && e.Valid()
      modifies e
      ensures e.Valid()
      ensures r.Err? <==> C2RRequest(d, src, dst, flags).Err?
      ensures r.Err? ==> r.error == ExtentsDontMatch && unchanged(e)
      ensures r.Ok? ==> fresh(r.value) && r.value.kind == Kind(C2R, d)
      ensures r.Ok? ==> r.value.handle == Some(old(e.nextHandle)) && r.value.Owns(e)
      ensures r.Ok? ==> e.calls == old(e.calls) + [C2RRequest(d, src, dst, flags).value]
      ensures r.Ok? ==> e.live == old(e.live) + {old(e.nextHandle)} && e.released == old(e.released)
    {
      var plan := new Plan(Kind(C2R, d));
      var dims := DimsR2C(dst, src);
      if dims.Err? {
        return Err(dims.error);
      }
      var h := e.Plan(PlanDftC2R(d, dims.value, FlagsCode(flags)));
      plan.handle := Some(h);
      r := Ok(plan);
    }
  }

  /**
    The ownership round of the plan test: a plan over one 100-element buffer
    used as input and output is moved out and moved back, the buffer likewise,
    and the objects are destroyed in reverse order of declaration. The one
    handle made is released exactly once.
   */
  method MoveRoundTrip(e: Engine)
    requires e.Valid()
    modifies e
    ensures e.Valid()
    ensures e.calls == old(e.calls) + [PlanDft1d(100, FFTW_FORWARD, FlagsCode(Estimate))]
    ensures e.released == old(e.released) + [old(e.nextHandle)]
    ensures e.live == old(e.live)
  {
    ghost var h, before := e.nextHandle, e.live;
    assert h !in before;
    var buf1 := new Buffer<Complex>(100);
    var created := Plan.Dft(1, BufferView(buf1), BufferView(buf1), Forward, Estimate, e);
    var plan1 := created.value;
    var plan2 := new Plan.Move(plan1);
    plan1.MoveAssign(plan2, e);
    assert e.live == before + {h};
    var buf2 := new Buffer<Complex>.Move(buf1);
    buf1.MoveAssign(buf2);
    plan2.Destroy(e);
    plan1.Destroy(e);
    assert e.live == before + {h} - {h} == before;
  }
}
