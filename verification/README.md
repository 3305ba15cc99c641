# spm_global — global mean of a memory-mapped volume

This project models `spm_global`, the MEX routine that returns the "global
mean" of a memory-mapped image volume. The global mean is the mean voxel
intensity after discounting voxels outside the object. A voxel counts as
outside when it is not strictly greater than one eighth of the plain mean of
the whole volume. The routine works in two passes over the planes of the
volume. Each pass fetches one plane at a time through the slice reader,
using the identity transform with its z translation set to the plane index.

- Pass 1 sums every voxel and turns the sum into the threshold,
  sum / (8 · nx · ny · nz).
- Pass 2 counts the voxels strictly above the threshold and sums them.
- The result is the masked sum divided by the masked count.

The project has three modules:

- `Voxels` holds the specification functions over a run of intensities:
  `Sum`, `Above` (the voxels strictly above a threshold, in reading order),
  `Mean`, `Max` and the `Scaled` relation, together with their lemmas.
- `Volumes` holds the volume as the map reader presents it. A `Volume` has
  dimensions nx, ny, nz and nz planes of nx·ny intensities; `MappedVolume`
  is a volume whose planes agree with its dimensions. The module also has
  the reading order `AllVoxels` and the slice reader `Slice`, which copies
  the plane named by the z translation of `M` into the buffer.
- `SpmGlobal` holds the specification (`Threshold`, `MaskedMean`, `Global`),
  the two passes as loops over the planes and the voxels of a plane, the
  entry point `GlobalMean`, and the properties of the estimate.

Intensities are exact `real`s. Each argument of the call is modelled by the
sequence of volumes the map reader resolves it to, so `|prhs[0]|` plays the
role of the map count `j` in the source. `GlobalMean` returns an `Outcome`
in place of raising a MATLAB error. It has a ghost out-parameter
`planesRead` that counts the planes fetched: none on either error exit, and
every plane twice otherwise.

The model departs from the code in two places:

- The code emits the same message for a wrong arity and for an argument
  that does not map to exactly one volume. The model keeps the two exits
  apart as `UsageError` and `InvalidInput`.
- When no voxel lies above the threshold, the code divides 0 by 0 and
  returns NaN without complaint. The model returns the explicit error
  `NoVoxelAboveThreshold` instead.

## Model

| member | source | states |
|---|---|---|
| SpmGlobal.GlobalMean | spm_global.c:30-67 | The outcome is `Global`. These inputs fail with `UsageError` before any plane is read: a number of inputs other than one, or more than one output. An input that does not map to exactly one volume fails with `InvalidInput`, also before any plane is read. Otherwise every plane is read exactly twice. |
| SpmGlobal.PassOne | spm_global.c:44-52 | Summing every voxel of every plane and dividing by 8·nx·ny·nz gives `Threshold(v)`, one eighth of the mean intensity (the helper `DivEightfold` relates that divisor to the mean). The plane selector stays the identity apart from its z translation, and exactly nz planes are read. |
| SpmGlobal.PassTwo | spm_global.c:54-66 | `m` is the number of voxels strictly above `s1` and `s2` is the sum of exactly those voxels. `m` is at most nx·ny·nz, and exactly nz planes are read. |
| Volumes.Slice | spm_global.c:47-48 | With the identity transform shifted to plane z, the buffer receives plane z, voxel for voxel. |
| Volumes.ReadingOrder | spm_global.c:45-51 | The loops read voxel k of plane z at position z·nx·ny + k of the run both passes consume. |
| Volumes.VoxelCount | spm_global.c:41-52 | The volume holds nz·nx·ny voxels, the count pass 1 divides by (together with the factor 8). |
| Voxels.Above | spm_global.c:60-65 | Pass 2 keeps at most as many voxels as it reads. |
| Voxels.AboveExactly | spm_global.c:60-65 | The kept voxels are voxels of the volume strictly above the threshold. Each voxel strictly above it is kept as often as it occurs, and a voxel equal to the threshold is never kept. |
| Voxels.AboveEmptyIff | spm_global.c:60-67 | Nothing is kept if and only if every voxel is at most the threshold. |
| Voxels.AboveAll | spm_global.c:60-65 | When every voxel is above the threshold, every voxel is kept, in reading order. |
| Voxels.AboveNone | spm_global.c:60-65 | When no voxel is above the threshold, nothing is kept. |
| Voxels.Max | spm_global.c:60-67 | The brightest voxel, which bounds the estimate: it is a voxel of the run and no voxel exceeds it. |
| SpmGlobal.MaskedMeanBounds | spm_global.c:61-67 | When the estimate exists, the volume is non-empty, and the estimate lies strictly above the threshold and at most at the brightest voxel. |
| SpmGlobal.MaskedMeanUndefinedIff | spm_global.c:67 | The final division has no defined result exactly when every voxel is at most the threshold. |
| SpmGlobal.ConstantVolume | spm_global.c:44-67 | For a non-empty volume of one intensity k, the threshold is k/8. For k > 0 the estimate is k; for k ≤ 0 there is no estimate. |
| SpmGlobal.ScaledThreshold | spm_global.c:44-52 | Multiplying every voxel by c > 0 multiplies the threshold by c. |
| SpmGlobal.ScaledVolume | spm_global.c:44-67 | Multiplying every voxel by c > 0 keeps the same voxels, in the same order, scaled by c. It multiplies the estimate by c and leaves it undefined when it was undefined. |
| Voxels.SumScaled | spm_global.c:49-50 | Scaling every voxel scales the accumulated sum. |
| Voxels.MeanScaled | spm_global.c:52 | Scaling every voxel scales the mean. |
| Voxels.AboveScaled | spm_global.c:60-65 | Scaling the voxels and the threshold by the same c > 0 keeps the same voxels, scaled. |
| Voxels.MeanExceeds | spm_global.c:61-67 | The mean of voxels all strictly above t is strictly above t. |
| Voxels.MeanAtMost | spm_global.c:61-67 | The mean of voxels all at most u is at most u. |
| Voxels.MeanConstant | spm_global.c:52 | The mean of voxels of one intensity k is k. |

## Left out

- MATLAB marshalling is not modelled: `mxCalloc`, `mxCreateDoubleMatrix`, `mxGetPr` and `mexErrMsgTxt`. Errors are values of `Outcome`, and the result is the `Ok` payload.
- `free_maps` is not modelled. The model does not capture that the maps are released on the error exit and at the end.
- The internals of `get_maps` and `slice` are not modelled: spm_vol_utils.h is not part of this model. An argument is modelled as the volumes it maps to. `Slice` models only the case the routine uses, where the identity transform is shifted to a whole plane index, which the volume holds. It does not model resampling, other transforms, scaling of stored data types, or reading a file.
- SpmGlobal.PassOne: works in exact reals. It does not model IEEE double rounding or the dependence of the rounded sum on accumulation order.
- SpmGlobal.PassTwo: works in exact reals. The comparison and the masked sum have no rounding, and there is no NaN.
- SpmGlobal.Threshold: for a volume without voxels the code computes 0/0 = NaN. The model uses 0.0. Either way no voxel exceeds the threshold, and the model's outcome is `NoVoxelAboveThreshold`.
- SpmGlobal.GlobalMean: returns `Err(NoVoxelAboveThreshold)` where the code returns NaN for a zero count. It does not model the 32-bit `int` overflow of `n = nx*ny` or of the count `m`, because dimensions and counts are unbounded naturals.
- SpmGlobal.GlobalMean: the transform `M` is static in the code and keeps its last z translation between calls. Every read sets the translation first, so this has no observable effect. The model allocates `M` per call.
- The `sccsid` version string and the `lint` guard are not modelled; they do not affect behaviour.
