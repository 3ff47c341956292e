# ScatterNd update functors and SYCL helpers, modelled in Dafny

This project models two parts of TensorFlow's device-kernel layer.

**The ScatterNd update functor** (`tensorflow/core/kernels/scatter_nd_op_cpu_impl.h`).
The output tensor is viewed as `Product(shape)` rows of `slice_size` elements, where
`shape` is the `IXDIM`-long output shape prefix. Each row of the index matrix
(`[batch_size, IXDIM]`) is one coordinate tuple. The functor does the following:

- It computes row-major strides over the shape prefix.
- It turns each index row into a flat row offset, bounds-checking every coordinate.
- It combines the matching update row into that output row with one of three
  operators: ASSIGN, ADD or SUB.

The model has these parts:

- `ScatterNdSpec` (`scatter_nd_spec.dfy`) holds the specification functions and the
  lemmas about them. `Scatter(n)` is the output after index rows `0 .. n-1` have been
  visited in order: in-bounds rows are applied and out-of-bounds rows are passed over.
- `ScatterNdCpuImpl` (`scatter_nd_op_cpu_impl.dfy`) holds the imperative code. Each
  functor is a method that updates a flat `array<int>` in place and is proved
  against `Scatter`.
  - The CPU functor stops at the first out-of-bounds row and returns its position,
    or -1. It leaves the output equal to `Scatter` over the rows before that position.
  - `ScatterNdSycl` runs one sequential pass of the kernel body and always returns
    -1. Its result is `Scatter` over the whole batch. This is the launch as evidently
    intended, with each index row applied once.
  - So when every index row is in bounds, `ScatterNdCpu` and the one-pass
    `ScatterNdSycl` produce the same output. This follows from the two methods'
    postconditions.
  - `ScatterNdSyclSerialLaunch` models the launch as written: one work item per
    output cell, and each of them runs the whole batch. By `AddPassesMultiply`, after
    `k` passes of ADD every cell has gained `k` times its `Contribution` (the sum of the
    matching update elements over the batch). So, with every index row in bounds, its
    ADD result differs from the CPU functor's exactly when the output has more than one
    cell and some cell's `Contribution` is non-zero (see "## Findings"). The repeated
    passes are characterised for ADD only; no lemma states the SUB case.
- Helper lemmas such as `DotSnoc` (one more term of the offset sum), `ScatterNext` (one
  more visited index row, unfolded), `PassesNext` and `CombineAtCell` carry the proofs
  and are not listed in the table.
- `SyclUtil` (`sycl_util.dfy`) models `tensorflow/core/common_runtime/sycl/sycl_util.h`.
  It holds two pure pieces:
  - the work-grid rounding of `get_sycl_nd_range`, where the device's maximum
    work-item width is a parameter;
  - the element-type switch of `SYCLmemcpy`, which picks a copy word and a byte
    count or ends in a fatal error.
- `Arithmetic` (`arithmetic.dfy`) holds small facts about multiplication that the other modules share.

Modelling choices:

- The element type `T` and the `Index` type are `int`.
- `FastBoundsCheck(ix, limit)` is `0 <= ix < limit`.
- The read-only index and update tensors are sequences of rows.
- The output is a flat array, and row `r` is its cells `[r*slice_size, r*slice_size + slice_size)`.

## Model

| member | source | states |
|---|---|---|
| `ScatterNdCpuImpl.BatchStrides` | tensorflow/core/kernels/scatter_nd_op_cpu_impl.h:105-113 | the reverse loop yields one stride per dimension: the last is 1, each other is the next stride times the next shape entry, so each stride is the product of the later shape entries (the same loop is at 270-278) |
| `ScatterNdSpec.StridesRecurrence` | tensorflow/core/kernels/scatter_nd_op_cpu_impl.h:270-278 | the strides defined as products of later shape entries satisfy the recurrence the loop uses |
| `ScatterNdSpec.InBounds` | tensorflow/core/kernels/scatter_nd_op_cpu_impl.h:118-120 | an index row passes `FastBoundsCheck` on every coordinate: `0 <= ix[d] < shape[d]` for each dimension (the same test is at 236); `LocateRow` proves the loop's flag is its negation |
| `ScatterNdSpec.Offset` | tensorflow/core/kernels/scatter_nd_op_cpu_impl.h:115-122 | if every coordinate is in bounds, the flat offset (sum of coordinate times stride) lies in `[0, product(shape))`, so the row it names exists |
| `ScatterNdSpec.OffsetInjective` | tensorflow/core/kernels/scatter_nd_op_cpu_impl.h:118-122 | two in-bounds index rows with the same offset are equal, so only identical coordinates hit the same output row |
| `ScatterNdSpec.Coords` | tensorflow/core/kernels/scatter_nd_op_cpu_impl.h:118-122 | every output row `r` is named by some in-bounds index row, whose offset is `r` (inverse of the offset computation) |
| `ScatterNdSpec.CoordsOfOffset` | tensorflow/core/kernels/scatter_nd_op_cpu_impl.h:118-122 | the inverse applied to an in-bounds index row's offset gives back that index row |
| `ScatterNdCpuImpl.LocateRow` | tensorflow/core/kernels/scatter_nd_op_cpu_impl.h:116-122 | the inner coordinate loop reports out-of-bounds exactly when some coordinate fails its bounds check, and its accumulated `i` is the offset times the scale (1 on the CPU, `slice_size` in the SYCL kernel at 231-238) |
| `ScatterNdSpec.FirstOutOfBounds` | tensorflow/core/kernels/scatter_nd_op_cpu_impl.h:115-125 | the result is -1 exactly when every index row is in bounds; otherwise the row at that position is out of bounds and all rows before it are in bounds |
| `ScatterNdSpec.FirstOutOfBoundsFrom` | tensorflow/core/kernels/scatter_nd_op_cpu_impl.h:114-125 | the scan from position `from` on: -1 exactly when every row from there on is in bounds; otherwise an out-of-bounds row at or after `from` with every row between them in bounds |
| `ScatterNdSpec.Scatter` | tensorflow/core/kernels/scatter_nd_op_cpu_impl.h:115-134 | the output after index rows `0 .. n-1` are visited in order, each in-bounds row combined into the row it names and each out-of-bounds row passed over (the skip is the kernel's at 230-244); it keeps the output's length, and its per-cell effect is stated by `ScatterStep`, `ScatterFrame`, `AssignLastWins` and `AddSubAccumulate` |
| `ScatterNdSpec.CombineAt` | tensorflow/core/kernels/scatter_nd_op_cpu_impl.h:58-83 | the cells of the named row become the update (ASSIGN), old plus update (ADD) or old minus update (SUB), element by element, as `UpdateExecutor` does on a chip and `LeftUpdateSYCL` (178-197) does per element; every other cell is unchanged |
| `ScatterNdCpuImpl.UpdateSlice` | tensorflow/core/kernels/scatter_nd_op_cpu_impl.h:127-132 | applying one update row in place leaves the array equal to `CombineAt` of its old contents (also the per-element loop at 240-242) |
| `ScatterNdCpuImpl.ApplyIndexRow` | tensorflow/core/kernels/scatter_nd_op_cpu_impl.h:115-133 | one iteration of the batch loop reports out-of-bounds exactly when the index row has a coordinate out of bounds, and then leaves the output alone; otherwise it advances the output from `Scatter` over the earlier rows to `Scatter` including this row |
| `ScatterNdCpuImpl.ScatterNdCpu` | tensorflow/core/kernels/scatter_nd_op_cpu_impl.h:92-137 | returns the position of the first out-of-bounds index row, or -1 if there is none; the output equals `Scatter` over exactly the rows before that position (all in bounds, applied in increasing order), and no row at or after it is applied |
| `ScatterNdSpec.ScatterStep` | tensorflow/core/kernels/scatter_nd_op_cpu_impl.h:123-133 | visiting one more index row changes a cell only if that row is in bounds and names the cell's row, and then combines the matching update element into it |
| `ScatterNdSpec.ScatterFrame` | tensorflow/core/kernels/scatter_nd_op_cpu_impl.h:115-134 | a cell of an output row that no applied index row names keeps its original value |
| `ScatterNdSpec.AssignLastWins` | tensorflow/core/kernels/scatter_nd_op_cpu_impl.h:59-65 | with ASSIGN and duplicate coordinates, a row holds the update row of the last applied index row naming it |
| `ScatterNdSpec.AddSubAccumulate` | tensorflow/core/kernels/scatter_nd_op_cpu_impl.h:68-83 | with ADD (SUB) every cell is its initial value plus (minus) the sum of the matching elements of all applied update rows that name its row, so duplicates accumulate |
| `ScatterNdCpuImpl.ScatterNdKernel` | tensorflow/core/kernels/scatter_nd_op_cpu_impl.h:223-245 | one sequential pass of the kernel body skips every out-of-bounds row and applies every in-bounds row at flat positions `offset*slice_size + si` for `si < slice_size`; the result is `Scatter` over the whole batch |
| `ScatterNdCpuImpl.ScatterNdSycl` | tensorflow/core/kernels/scatter_nd_op_cpu_impl.h:260-303 | computes the strides, runs one kernel pass and always returns -1 |
| `ScatterNdCpuImpl.ScatterNdSyclSerialLaunch` | tensorflow/core/kernels/scatter_nd_op_cpu_impl.h:280-299 | the launch as written, with its work items run one after another: each of the `Toutput.size()` work items runs the whole batch, so the output is that many complete passes |
| `ScatterNdSpec.AddPassesMultiply` | tensorflow/core/kernels/scatter_nd_op_cpu_impl.h:230-244 | `k` complete ADD passes add every matching update element `k` times |
| `ScatterNdSpec.RepeatedPassAddsTwice` | tensorflow/core/kernels/scatter_nd_op_cpu_impl.h:299 | on a two-cell output, one pass of an ADD of 1 gives `[1, 0]` and the two passes of the launch give `[2, 0]` |
| `SyclUtil.GroupSize` | tensorflow/core/common_runtime/sycl/sycl_util.h:105 | the group size is the minimum of the item count and the maximum width: at most each, and equal to one of them |
| `SyclUtil.GroupCount` | tensorflow/core/common_runtime/sycl/sycl_util.h:106 | the group count is the ceiling of items over group size: `count*size >= items` and `count*size < items + size` |
| `SyclUtil.WholeGroups` | tensorflow/core/common_runtime/sycl/sycl_util.h:108-109 | a whole number of groups is an exact multiple of the group size |
| `SyclUtil.NdRange1D` | tensorflow/core/common_runtime/sycl/sycl_util.h:102-110 | for positive item count and width: local size is positive, at most the width and at most the items, and equals one of them; the global size is a multiple of it, covers all items and overshoots by less than one group |
| `SyclUtil.NdRange2D` | tensorflow/core/common_runtime/sycl/sycl_util.h:112-120 | the first dimension is rounded as in the 1-D case; the second global dimension is `item_dim1` unchanged and the second local dimension is 1 |
| `SyclUtil.CopyWordFor` | tensorflow/core/common_runtime/sycl/sycl_util.h:46-80 | the chosen copy word is as wide as one element of the dtype (16, 8, 4, 2 or 1 bytes); the fatal default is reached exactly for the dtypes without a fixed element size and for UINT32 and UINT64 |
| `SyclUtil.SyclMemcpy` | tensorflow/core/common_runtime/sycl/sycl_util.h:38-82 | the copy length is the source's total byte count whatever word is chosen; an unknown dtype gives the fatal outcome carrying that dtype |

## Left out

- The `parallel_for` launch, the queue `submit`, and buffer and accessor acquisition are left out. So is `ConvertToActualTypeSycl`. These are device runtime. The model runs the kernel body sequentially. Concurrent work items and their unsynchronised updates of the same cell are not modelled.
- ScatterNdSyclSerialLaunch runs the work items one after another. It does not model interleavings where work items race on the same cell.
- ScatterNdSycl: runs the kernel body once, where the source launches `Toutput.size()` work items that each run it over the whole batch. The launch as written is `ScatterNdSyclSerialLaunch`, and only for work items run one after another. The source returns -1 right after `submit` enqueues the kernel, before the kernel has necessarily run (286-302); the `ensures` of both methods describe the output once the queue has finished the kernel.
- The SYCL kernel reads the index and update buffers through flat offsets (`IXDIM*index + dim`, `index*slice_size + si`). The model reads the same elements as rows of sequences.
- Integer widths are not modelled: `Index` is int32 or int64, the kernel's `offset` and the SYCL functor's local `num_threads` are `int`, and `get_sycl_nd_range` works in `size_t`. The model uses unbounded integers. So it does not capture overflow of the accumulated offset.
- NdRange1D, NdRange2D: these take the item count as a natural number. They do not model the cast of a negative count to `size_t`, nor the wrap-around of `nb_items + group_size - 1` near the top of `size_t`.
- NdRange1D, NdRange2D: these require a positive item count and a positive width. With either one zero, the source's group size is 0 and the ceiling division divides by zero.
- Template instantiation and registration macros, and the generic element types, are left out. This includes the string ADD instantiation. Elements are `int`.
- Eigen's `chip` / `.device(d)` evaluation is modelled as an element-wise update of one row of the flat output. `Tparams` is unused by the functors and not modelled.
- `device.memcpy`, `GetBase` and `DMAHelper` are foreign device I/O. The model describes the copy only by its word type and byte count.
- `get_max_work_item_tuple` is a device query. Its first component is the `maxWidth` parameter.
- `is_snn_enabled` reads an environment variable, and `get_sd_err_msg` only formats an error string. Both are left out.
- Element byte sizes (`ElementBytes`) are the sizes of the C++ element types. TensorFlow's own type-size table is not part of this model.
- `tensorflow/core/kernels/sycl_blas_utils.h` is a buffer adapter with no logic of its own, and `tensorflow/contrib/tensoropt/python/__init__.py` only re-exports names. Neither is modelled.

## Findings

| source | as written | input that shows it | evidently intended | confidence | as-written member | corrected member |
|---|---|---|---|---|---|---|
| tensorflow/core/kernels/scatter_nd_op_cpu_impl.h:280-299 | `parallel_for` launches `Toutput.size()` work items, but the kernel body never reads its work-item id: every work item runs the whole batch. So ADD and SUB updates are applied once per work item, not once. | ADD, shape prefix `[2]`, slice size 1, indices `[[0]]`, updates `[[1]]`, output `[0, 0]`: with the two work items run one after another the output is `[2, 0]` | each update row applied once, as on the CPU: `[1, 0]` | not executed; medium (the exact result under concurrent work items also depends on races) | `ScatterNdCpuImpl.ScatterNdSyclSerialLaunch`, `ScatterNdSpec.RepeatedPassAddsTwice` | `ScatterNdCpuImpl.ScatterNdSycl` (one pass; `ScatterNdSpec.AddSubAccumulate` shows each update counted once) |
