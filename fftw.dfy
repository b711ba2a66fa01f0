/**
  The transform engine as far as the plans see it: the planners, which take a
  shape description and return a new opaque plan handle, and
  `fftw_destroy_plan`, which releases one. The numerics are not modelled. A
  handle is a natural number; the engine hands them out in increasing order and
  keeps ghost records of the handles that are alive, of every planner call and
  of every release, in order.
 */
module Fftw {
  import opened Util

  /**
    The arguments of one planner call, data pointers left out. `flags` is the
    unsigned bit mask the planners take (`Util.FlagsCode` of a `Flags` value).
   */
  datatype PlanCall =
    | PlanDft1d(n: int, sign: int, flags: nat)
    | PlanDft2d(n0: int, n1: int, sign: int, flags: nat)
    | PlanDftR2C(rank: nat, dims: seq<int>, flags: nat)
    | PlanDftC2R(rank: nat, dims: seq<int>, flags: nat)

  class Engine {
    var nextHandle: nat
    ghost var live: set<nat>
    ghost var released: seq<nat>
    ghost var calls: seq<PlanCall>

    /**
      Every live or released handle was handed out, no released handle is
      live, and no handle was released twice.
     */
    ghost predicate Valid()
      reads this
    {
      && (forall h :: h in live ==> h < nextHandle)
      && (forall i :: 0 <= i < |released| ==> released[i] < nextHandle && released[i] !in live)
      && (forall i, j :: 0 <= i < j < |released| ==> released[i] != released[j])
    }

    constructor ()
      ensures Valid()
      ensures live == {} && released == [] && calls == []
    {
      nextHandle := 0;
      live := {};
      released := [];
      calls := [];
    }

    /** Any of the `fftw_plan_*` calls: records the call and returns a new handle. */
    method Plan(call: PlanCall) returns (h: nat)
      requires Valid()
      modifies this
      ensures Valid()
      ensures h == old(nextHandle) && h !in old(live) && h !in old(released)
      ensures live == old(live) + {h} && released == old(released)
      ensures calls == old(calls) + [call]
    {
      h := nextHandle;
      nextHandle := nextHandle + 1;
      live := live + {h};
      calls := calls + [call];
    }

    /** `fftw_destroy_plan`: only a live handle may be released. */
    method DestroyPlan(h: nat)
      requires Valid() && h in live
      modifies this
      ensures Valid()
      ensures live == old(live) - {h} && released == old(released) + [h]
      ensures calls == old(calls) && nextHandle == old(nextHandle)
    {
      live := live - {h};
      released := released + [h];
    }
  }
}
