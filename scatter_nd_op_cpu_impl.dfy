/**
 The ScatterNd update functors: the CPU functor, which stops at the first
 out-of-bounds index row and reports its position, and one sequential pass of
 the SYCL kernel body, which passes over out-of-bounds index rows. Both update
 a flat output array in place, row by row.
 */
module ScatterNdCpuImpl {
  import opened ScatterNdSpec
  import opened Arithmetic

  /** The batch_strides loop: fills the strides from the last dimension back. */
  method BatchStrides(shape: seq<int>) returns (strides: seq<int>)
    ensures strides == Strides(shape)
    ensures |shape| > 0 ==> strides[|shape| - 1] == 1
    ensures forall d :: 0 <= d < |shape| - 1 ==> strides[d] == strides[d + 1] * shape[d + 1]
  {
    var a := new int[|shape|];
    var dim := |shape| - 1;
    while dim >= 0
      invariant -1 <= dim < |shape|
      invariant forall e :: dim < e < |shape| ==> a[e] == Product(shape[e + 1..])
    {
      if dim == |shape| - 1 {
        a[dim] := 1;
      } else {
        assert shape[dim + 1..][1..] == shape[dim + 2..];
        a[dim] := a[dim + 1] * shape[dim + 1];
      }
      dim := dim - 1;
    }
    strides := a[..];
    StridesRecurrence(shape);
  }

  /** The inner loop over the coordinates of one index row: accumulates the
      bounds verdict and the offset, scaled by `scale` (1 on the CPU, the slice
      size in the SYCL kernel, which folds it into the offset). */
  method LocateRow(ix: seq<int>, shape: seq<int>, strides: seq<int>, scale: int)
    returns (i: int, outOfBounds: bool)
    requires |ix| == |shape| && strides == Strides(shape)
    ensures outOfBounds == !InBounds(ix, shape)
    ensures i == Offset(ix, shape) * scale
  {
    i, outOfBounds := 0, false;
    for dim := 0 to |shape|
      invariant outOfBounds == !InBounds(ix[..dim], shape[..dim])
      invariant i == Dot(ix[..dim], strides[..dim]) * scale
    {
      outOfBounds := outOfBounds || !(0 <= ix[dim] < shape[dim]);
      ghost var acc := Dot(ix[..dim], strides[..dim]);
      DotSnoc(ix[..dim], strides[..dim], ix[dim], strides[dim]);
      assert ix[..dim + 1] == ix[..dim] + [ix[dim]];
      assert strides[..dim + 1] == strides[..dim] + [strides[dim]];
      assert Dot(ix[..dim + 1], strides[..dim + 1]) == acc + ix[dim] * strides[dim];
      ScaleStep(acc, ix[dim], strides[dim], scale);
      i := i + ix[dim] * strides[dim] * scale;
    }
    assert ix[..|shape|] == ix && shape[..|shape|] == shape && strides[..|shape|] == strides;
  }

  /** Combines one update row into the output cells starting at `base`
      (UpdateExecutor on a chip; the per-element LeftUpdateSYCL loop). */
  method UpdateSlice(op: UpdateOp, out: array<int>, base: nat, upd: seq<int>)
    requires base + |upd| <= out.Length
    modifies out
    ensures out[..] == CombineAt(op, old(out[..]), base, upd)
  {
    for si := 0 to |upd|
      invariant forall p :: 0 <= p < out.Length ==>
        out[p] == if base <= p < base + si then Combine(op, old(out[p]), upd[p - base]) else old(out[p])
    {
      out[base + si] := Combine(op, out[base + si], upd[si]);
    }
  }

  /** One iteration of the CPU functor's batch loop: locates index row `loc` and,
      when it is in bounds, combines its update row into the output. */
  method ApplyIndexRow(op: UpdateOp, sliceSize: nat, shape: seq<int>, strides: seq<int>,
                       indices: seq<seq<int>>, updates: seq<seq<int>>, loc: nat,
                       ghost initial: seq<int>, output: array<int>)
    returns (outOfBounds: bool)
    requires WellShaped(shape, sliceSize, indices, updates)
    requires |initial| == output.Length == Product(shape) * sliceSize
    requires strides == Strides(shape) && loc < |indices|
    requires output[..] == Scatter(op, initial, sliceSize, shape, indices, updates, loc)
    modifies output
    ensures outOfBounds == !InBounds(indices[loc], shape)
    ensures outOfBounds ==> output[..] == old(output[..])
    ensures !outOfBounds ==> output[..] == Scatter(op, initial, sliceSize, shape, indices, updates, loc + 1)
  {
    var i;
    i, outOfBounds := LocateRow(indices[loc], shape, strides, 1);
    if !outOfBounds {
      ScatterNext(op, initial, sliceSize, shape, indices, updates, loc);
      UpdateSlice(op, output, i * sliceSize, updates[loc]);
    }
  }

  /** The CPU functor. Returns -1 when every index row is in bounds, otherwise the
      position of the first out-of-bounds row; exactly the rows before that
      position have been applied, in order. */
  method ScatterNdCpu(op: UpdateOp, sliceSize: nat, shape: seq<int>,
                      indices: seq<seq<int>>, updates: seq<seq<int>>, output: array<int>)
    returns (errorLoc: int)
    requires WellShaped(shape, sliceSize, indices, updates)
    requires output.Length == Product(shape) * sliceSize
    modifies output
    ensures errorLoc == FirstOutOfBounds(indices, shape)
    ensures output[..] == Scatter(op, old(output[..]), sliceSize, shape, indices, updates,
                                  if errorLoc == -1 then |indices| else errorLoc)
  {
    errorLoc := -1;
    var strides := BatchStrides(shape);
    ghost var initial := output[..];
    var loc := 0;
    while loc < |indices|
      invariant 0 <= loc <= |indices|
      invariant FirstOutOfBoundsFrom(indices, shape, loc) == FirstOutOfBounds(indices, shape)
      invariant output[..] == Scatter(op, initial, sliceSize, shape, indices, updates, loc)
    {
      var outOfBounds := ApplyIndexRow(op, sliceSize, shape, strides, indices, updates, loc, initial, output);
      if outOfBounds {
        errorLoc := loc;
        break;
      }
      loc := loc + 1;
    }
  }

  /** One sequential pass of the SYCL kernel body: every in-bounds index row is
      applied, every out-of-bounds one passed over. */
  method ScatterNdKernel(op: UpdateOp, sliceSize: nat, shape: seq<int>, strides: seq<int>,
                         indices: seq<seq<int>>, updates: seq<seq<int>>, out: array<int>)
    requires WellShaped(shape, sliceSize, indices, updates)
    requires out.Length == Product(shape) * sliceSize
    requires strides == Strides(shape)
    modifies out
    ensures out[..] == Scatter(op, old(out[..]), sliceSize, shape, indices, updates, |indices|)
  {
    ghost var initial := out[..];
    for index := 0 to |indices|
      invariant out[..] == Scatter(op, initial, sliceSize, shape, indices, updates, index)
    {
      var i, outOfBounds := LocateRow(indices[index], shape, strides, sliceSize);
      ScatterNext(op, initial, sliceSize, shape, indices, updates, index);
      if !outOfBounds {
        UpdateSlice(op, out, i, updates[index]);
      }
    }
  }

  /** The SYCL functor: computes the strides, runs the kernel body, and always
      reports -1. */
  method ScatterNdSycl(op: UpdateOp, sliceSize: nat, shape: seq<int>,
                       indices: seq<seq<int>>, updates: seq<seq<int>>, output: array<int>)
    returns (errorLoc: int)
    requires WellShaped(shape, sliceSize, indices, updates)
    requires output.Length == Product(shape) * sliceSize
    modifies output
    ensures errorLoc == -1
    ensures output[..] == Scatter(op, old(output[..]), sliceSize, shape, indices, updates, |indices|)
  {
    var strides := BatchStrides(shape);
    ScatterNdKernel(op, sliceSize, shape, strides, indices, updates, output);
    errorLoc := -1;
  }

  /** The SYCL launch as written, run one work item after another: the launch
      range has one work item per output cell, and the kernel body ignores its
      work-item id, so each of them runs the whole batch. */
  method ScatterNdSyclSerialLaunch(op: UpdateOp, sliceSize: nat, shape: seq<int>,
                                   indices: seq<seq<int>>, updates: seq<seq<int>>, output: array<int>)
    returns (errorLoc: int)
    requires WellShaped(shape, sliceSize, indices, updates)
    requires output.Length == Product(shape) * sliceSize
    modifies output
    ensures errorLoc == -1
    ensures output[..] == ScatterPasses(op, old(output[..]), sliceSize, shape, indices, updates, output.Length)
  {
    var strides := BatchStrides(shape);
    var numThreads := output.Length;
    for id := 0 to numThreads
      invariant output[..] == ScatterPasses(op, old(output[..]), sliceSize, shape, indices, updates, id)
    {
      ScatterNdKernel(op, sliceSize, shape, strides, indices, updates, output);
    }
    errorLoc := -1;
  }
}
