# fftw-cpp core in Dafny

A model of the checkable layer that the fftw-cpp headers put around the FFTW
engine:

- **Plan validation and shape derivation** (`include/fftw-cpp/basic_plan.h`):
  the checks of `basic_plan<D>::dft`, the choice of planner in
  `detail::plan_dft`, the layout-aware extent helpers `detail::dims`,
  `detail::extents` and `detail::dims_r2c`, and the argument roles of
  `plan_dft_r2c` / `plan_dft_c2r`. These are functions returning a `Result`:
  a successful value or the `std::invalid_argument` the code throws
  (`MismatchedBufferSizes`, `InvalidDirection`, `ExtentsDontMatch`).
- **Plan handle ownership**: `basic_plan`, `basic_plan_r2c` and
  `basic_plan_c2r` have identical lifecycles. They are one class
  `BasicPlan.Plan` whose constant `kind` names the template class and its rank.
  The class has swap, a move constructor built on swap, move assignment
  through a temporary, the destructor, and the three factories. The handle is
  an `Option<nat>` (null or not).
- **The engine** (`Fftw.Engine`) stands in for FFTW. A planner call records
  its arguments and returns a new handle. `fftw_destroy_plan` needs a live
  handle, and it appends that handle to a ghost log of releases. The engine's
  invariant says no handle is released twice.
- **The owning buffer** (`include/fftw-cpp/basic_buffer.h`): the class
  `BasicBuffer.Buffer<T>` holds `length` and an `array?<T>` storage. The
  storage is null only after a move. The class has both constructors (the
  filling one loops over every element), `size`, `data`/`unwrap`,
  `begin`/`end` as pointers (array plus offset), `operator[]` as `Get`/`Set`,
  and the implicit moves.

Integer widths are explicit. Extents and sizes are `size_t` (`Util.SizeT`).
The planners take C `int`s, and the headers convert with `int(...)` or
implicitly. `Util.IntOfSize` is that conversion: modulo 2^32, into the
`int` range. `dims_r2c` divides an `int` by 2, which truncates toward zero
(`Util.HalfTowardZero`).

The model follows the headers as written, including where they do less than
one might expect:

- A moved-from buffer keeps its `length`. Only its storage becomes null.
- No per-axis stride descriptors are built. The real transforms call
  `fftw_plan_dft_r2c` / `fftw_plan_dft_c2r` with the row-major extents only.
- The 2-D complex plan passes the input's `extent(0), extent(1)` in index
  order, whatever the layout.
- `detail::dims` is not called by any planner in this revision. It is
  modelled on its own.
- `Flags` is an unscoped enumeration, so the planners receive its bit value
  (`Util.FlagsCode`: 64, 0, 32). `Direction` is a scoped enumeration whose
  values are the engine's -1 and +1.
- The tests call `fftw::plan_r2c<2u>(in, out, flags)` and use
  `fftw::FORWARD`. Neither exists in this revision of the headers: the plan
  classes have no three-argument constructor, and `Direction` is an
  `enum class`. The tests are read as calls of the static factories:
  `basic_plan_r2c<2>::dft`, `basic_plan_c2r<2>::dft` and
  `basic_plan<1>::dft` with `Direction::FORWARD`.
- The headers themselves write the unqualified `FORWARD` / `BACKWARD` in the
  direction check of `dft` and pass the scoped `direction` straight to the
  planners' `int sign`. With `Direction` an `enum class`, neither compiles
  as written. The model reads them as `Direction::FORWARD` /
  `Direction::BACKWARD` and `int(direction)`: `Util.DirectionCode` is that
  integer, compared by `Util.IsValidDirection` and passed on by
  `BasicPlan.PlanDftCall`. `PlanDetail.R2CDimsTestShapes`,
  `BasicPlan.C2RInvertsR2C` and `BasicPlan.MoveRoundTrip` rest on that reading.

Files: `util.dfy` (module `Util`), `fftw.dfy` (`Fftw`), `buffer.dfy`
(`BasicBuffer`), `detail.dfy` (`PlanDetail`), `plan.dfy` (`BasicPlan`).

## Model

| member | source | states |
|---|---|---|
| `Util.IntOfSize` | include/fftw-cpp/basic_plan.h:387 | The `size_t` to `int` conversion gives an `int`-range value of the same residue modulo 2^32, and leaves any value up to INT_MAX unchanged |
| `Util.HalfTowardZero` | include/fftw-cpp/basic_plan.h:417 | C++ `int` division by 2 truncates toward zero: the remainder has the sign of the dividend and magnitude at most 1 |
| `Fftw.Engine.Plan` | include/fftw-cpp/basic_plan.h:153-154 | A planner call is recorded and returns a handle never handed out before (not live, never released); the release log is untouched and the engine invariant is kept |
| `Fftw.Engine.DestroyPlan` | include/fftw-cpp/basic_plan.h:99 | Destroying a live handle removes it from the live set and appends it once to the release log; no handle appears twice in the log |
| `BasicBuffer.Buffer.constructor` | include/fftw-cpp/basic_buffer.h:70-74 | The length-only constructor allocates new storage of exactly `length` elements, `size()` is `length`, and nothing is promised about the contents |
| `BasicBuffer.Buffer.Filled` | include/fftw-cpp/basic_buffer.h:77-81 | After the fill constructor's loop every element at index 0..length-1 equals `value`. The source's loop binds a `Complex&`, so only complex buffers have this constructor |
| `BasicBuffer.Buffer.Size` | include/fftw-cpp/basic_buffer.h:56 | `size()` is the number of elements the storage holds. It is the `length` given to the constructor (`constructor`, `Filled`), `Set` and the move constructor keep it, and move assignment takes the source's |
| `BasicBuffer.Buffer.Data` | include/fftw-cpp/basic_buffer.h:85-87 | `data()` is the storage, which holds exactly `size()` elements unless the buffer was moved from |
| `BasicBuffer.Buffer.Unwrap` | include/fftw-cpp/basic_buffer.h:61-62 | `unwrap()` and `data()` denote the same storage |
| `BasicBuffer.Buffer.Begin` | include/fftw-cpp/basic_buffer.h:51-52 | `begin()` points at element 0 of the storage `data()` returns |
| `BasicBuffer.Buffer.End` | include/fftw-cpp/basic_buffer.h:53-54 | `end()` points into the same storage as `begin()`, and `end() - begin() == size()` |
| `BasicBuffer.Buffer.Get` | include/fftw-cpp/basic_buffer.h:57-58 | Reading `operator[](i)` gives element `i` of the storage |
| `BasicBuffer.Buffer.Set` | include/fftw-cpp/basic_buffer.h:57 | Writing through `operator[](i)` changes element `i` only; the length stays the same |
| `BasicBuffer.Buffer.Move` | include/fftw-cpp/basic_buffer.h:65-66 | The implicit move constructor copies `length` and takes the storage; the source's storage becomes null and its length is kept |
| `BasicBuffer.Buffer.MoveAssign` | include/fftw-cpp/basic_buffer.h:65-66 | Move assignment takes the source's length and storage and leaves the source's storage null; self-move keeps the storage |
| `PlanDetail.IntsOf` | include/fftw-cpp/basic_plan.h:378 | Converting a sequence of extents to `int` keeps its length and converts each element with `int(...)`. Every element lands in the `int` range, and extents that already fit come through unchanged |
| `PlanDetail.HalfSpectrum` | include/fftw-cpp/basic_plan.h:416-417 | The complex shape of a real shape keeps every axis but the last, and the last becomes `last / 2 + 1` |
| `PlanDetail.ProductReverse` | include/fftw-cpp/basic_plan.h:377-381 | Reading the axes in reverse order, as a non-`layout_right` view does, leaves the element count unchanged |
| `PlanDetail.Dims` | include/fftw-cpp/basic_plan.h:356-383 | `dims` either throws "Extents don't match" or returns two `int` extents |
| `PlanDetail.DimsAgreeOnRowMajorShape` | include/fftw-cpp/basic_plan.h:365-381 | `dims` succeeds exactly when both views have the same row-major extents. It compares index by index for equal layouts and crosswise for differing ones. It returns the input's extents in row-major order, each converted to `int` |
| `PlanDetail.DimsPreservesSize` | include/fftw-cpp/basic_plan.h:369-375 | Two views that `dims` accepts hold the same number of elements |
| `PlanDetail.Extents` | include/fftw-cpp/basic_plan.h:385-393 | `extents<D>` returns D values in the `int` range. Value i is extent i of the view, in index order whatever the layout, converted to `int`. When the first D extents fit in an `int`, the result is exactly those extents |
| `PlanDetail.ExtentsRowMajor` | include/fftw-cpp/basic_plan.h:385-393 | For a `layout_right` view, `extents<2>` is its row-major shape as `int`s. For any other layout it is that shape with the two axes exchanged |
| `PlanDetail.R2CDims` | include/fftw-cpp/basic_plan.h:396-420 | `dims_r2c` either throws "Extents don't match" or returns the real view's row-major extents as `int`s |
| `PlanDetail.DimsR2C` | include/fftw-cpp/basic_plan.h:409-419 | The imperative helper reads both extent arrays and swaps each one whose view is not `layout_right`. It then checks `r[0] == c[0]` and `r[1] / 2 + 1 == c[1]` and returns the real array. All of this equals `R2CDims` |
| `PlanDetail.R2CDimsHalfSpectrum` | include/fftw-cpp/basic_plan.h:409-419 | For extents that fit in an `int`, `dims_r2c` succeeds exactly when the complex row-major shape is the half spectrum of the real one, and it returns the real row-major shape |
| `PlanDetail.R2CDimsComparesTruncatedExtents` | include/fftw-cpp/basic_plan.h:387 | The comparison happens after conversion to `int`. A real 2^32+6 by 4 view therefore passes against a complex 6 by 3 view, though 6 is not 2^32+6 |
| `PlanDetail.R2CDimsTestShapes` | test/test-2d-r2c.cpp:14-20 | The four layout combinations of the 2-D real-transform tests pass, each giving the real row-major shape 6 by 4: left 4x6 with left 3x6, right 6x4 with right 6x3, left 4x6 with right 6x3, right 6x4 with left 3x6 |
| `BasicPlan.BufferView` | include/fftw-cpp/basic_buffer.h:56 | A 1-D buffer seen by `dft` has rank 1 and `size()` equal to its length |
| `BasicPlan.PlanDftCall` | include/fftw-cpp/basic_plan.h:150-164 | Rank 1 selects the 1-D planner with count `int(in.size())`. Rank 2 selects the 2-D planner with `int(in.extent(0))`, `int(in.extent(1))` in index order, taken from the input only, whatever its layout. The direction's integer and the flags' bit mask pass through unchanged |
| `BasicPlan.DftRequest` | include/fftw-cpp/basic_plan.h:184-207 | `dft` throws "mismatched buffer sizes" exactly when the sizes differ, whatever the direction. With equal sizes it throws "invalid direction" exactly when the direction is neither FORWARD nor BACKWARD. Otherwise it plans with the call `plan_dft` builds |
| `BasicPlan.DftPlansWholeBuffers` | include/fftw-cpp/basic_plan.h:150-164 | On success, the planned count is `int(in.size())` for rank 1 and `int(in.extent(0)) * int(in.extent(1))` for rank 2. When every extent of the input fits in an `int`, it equals the size of both operands, even if that product does not fit |
| `BasicPlan.DftDirectionCodes` | include/fftw-cpp/basic_plan.h:187-188 | With equal sizes, `dft` accepts exactly the direction values -1 and +1, including a value cast into the enumeration |
| `BasicPlan.R2CRequest` | include/fftw-cpp/basic_plan.h:426-430 | The r2c planner is called only when `dims_r2c(in, out)` succeeds, with rank D and the dims it returns. Otherwise "Extents don't match" is thrown |
| `BasicPlan.C2RRequest` | include/fftw-cpp/basic_plan.h:435-439 | The c2r planner validates with the roles swapped, `dims_r2c(out, in)`. It is called only on success, with the dims returned |
| `BasicPlan.R2CPlanShape` | include/fftw-cpp/basic_plan.h:426-430 | For extents that fit in an `int`, an r2c plan is made exactly when the complex output's row-major shape is the half spectrum of the real input's. The engine then gets the real row-major shape |
| `BasicPlan.C2RPlanShape` | include/fftw-cpp/basic_plan.h:435-439 | For extents that fit in an `int`, a c2r plan is made exactly when the complex input's row-major shape is the half spectrum of the real output's. The engine then gets the real row-major shape |
| `BasicPlan.C2RInvertsR2C` | test/test-2d-r2c.cpp:20-21 | Whenever `plan_r2c(in, out)` succeeds, `plan_c2r(out, back)` succeeds too, for any real view `back` with the row-major shape of `in`, whatever the layouts. Both plan the same dims |
| `BasicPlan.Plan.constructor` | include/fftw-cpp/basic_plan.h:59 | A default-constructed plan holds a null handle |
| `BasicPlan.Plan.Swap` | include/fftw-cpp/basic_plan.h:103-106 | `swap` exchanges the two handles and nothing else; swapping with itself changes nothing |
| `BasicPlan.Plan.Move` | include/fftw-cpp/basic_plan.h:108-111 | The move constructor, `other.swap(*this)`, gives the new plan the source's former handle and leaves the source null |
| `BasicPlan.Plan.Destroy` | include/fftw-cpp/basic_plan.h:97-101 | The destructor releases a non-null handle exactly once (one entry in the release log), releases nothing for a null handle, and leaves the handle null |
| `BasicPlan.Plan.MoveAssign` | include/fftw-cpp/basic_plan.h:113-117 | Move assignment through the temporary releases the destination's previous handle, if non-null, exactly once. The destination takes the source's handle and the source becomes null. Self-move keeps the handle and releases nothing. No planner is called |
| `BasicPlan.Plan.Dft` | include/fftw-cpp/basic_plan.h:184-193 | A failed check leaves the engine untouched, so it is thrown before any planner call. On success exactly one planner call, `DftRequest`'s, is made, and the new complex plan of rank D holds its handle |
| `BasicPlan.Plan.DftR2C` | include/fftw-cpp/basic_plan.h:443-450 | The r2c factory fails with "Extents don't match" before any planner call exactly when `R2CRequest` does. Otherwise it makes exactly that planner call, and the new plan holds the handle |
| `BasicPlan.Plan.DftC2R` | include/fftw-cpp/basic_plan.h:452-459 | The c2r factory fails with "Extents don't match" before any planner call exactly when `C2RRequest` does. Otherwise it makes exactly that planner call, and the new plan holds the handle |
| `BasicPlan.MoveRoundTrip` | test/test-plan.cpp:3-12 | The plan test builds a 100-element buffer and a forward plan on it. It moves the plan out and back and the buffer too, then destroys in reverse order. The result is one 1-D planner call of size 100, and its handle is released exactly once |

## Left out

- Execution, `operator()()` and `operator()(in, out)` of the three plan classes: each only forwards the handle and data pointers to `fftw_execute*`. The numerics are the engine's, and so are the floating-point round trips of the transform tests.
- `unwrap()` of the plans only returns the stored handle. Nothing in the model reads it, so it is not modelled; the handle is the field `BasicPlan.Plan.handle`.
- Engine planning failure: a planner here always returns a new non-null handle. The headers store whatever the planner returns without a null check, and so does the model, but the null result itself is not modelled.
- Allocation: `fftw_malloc` alignment, allocation failure, and freeing storage on destruction or on move assignment (Dafny memory is not freed explicitly). The `reinterpret_cast` between `std::complex` and `fftw_complex` is also left out: `data()` and `unwrap()` return the same array.
- Compile-time concepts (`appropriate_buffer`, `appropriate_view`, `appropriate_layout`, `static_assert(D == 2)`) become preconditions: the rank D of the complex `dft` is 1 or 2 and each operand has D extents, and the template parameter D of the real transforms is 2. The layout restrictions on the operands of the complex `dft` are not stated. There are two: the view overload's constraint, and the `appropriate_layout` constraint of `detail::unwrap` on multi-dimensional buffers, which applies to the buffer overload. They are left out because the 2-D complex planner ignores the layout anyway.
- Overflow of `size()` in the view library: a view's size is the exact product of its extents.
- `BasicPlan.Plan.MoveAssign`: requires that two distinct plans do not hold the same handle. The C++ type system guarantees this by making plans move-only. Dafny references can be copied, so the model does not state it as a global invariant over all plan objects.
- `PlanDetail.Dims`, `PlanDetail.R2CDims`, `PlanDetail.DimsR2C`, `BasicPlan.R2CRequest`, `BasicPlan.C2RRequest`, `BasicPlan.Plan.DftR2C`, `BasicPlan.Plan.DftC2R`: both views are required to have exactly two extents. The source does not enforce this. `basic_plan_r2c::dft`, `basic_plan_c2r::dft` and `detail::dims` put no constraint on the views' rank. A view of higher rank would compile, and only its first two extents would be read. The model covers rank-2 views only, which is what every call in the tests passes.
- Type aliases, the mdspan/mdarray plumbing, examples, demo programs and test helpers are not part of this model.
