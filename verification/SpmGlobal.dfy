/**
 * The global-mean estimator: the mean intensity of the voxels of one
 * volume that lie strictly above one eighth of the volume's overall mean,
 * computed in two passes that each read every plane once.
 */
module SpmGlobal {
  import opened Voxels
  import opened Volumes

  /** The ways a call can fail. */
  datatype Error =
    | UsageError             // not exactly one input, or more than one output
    | InvalidInput           // the input does not map to exactly one volume
    | NoVoxelAboveThreshold  // the final division would be by a zero count

  datatype Outcome = Ok(mean: real) | Err(error: Error)

  /** What the map reader makes of one input argument: the volumes it maps. */
  type Argument = seq<MappedVolume>

  /**
   * One eighth of the mean voxel intensity. A volume without voxels has no
   * mean; its threshold is taken to be 0, which no voxel can then exceed.
   */
  function Threshold(v: MappedVolume): real
  {
    var s := AllVoxels(v);
    if s == [] then 0.0 else Mean(s) / 8.0
  }

  /** The mean of the voxels above the threshold, when there is at least one. */
  function MaskedMean(v: MappedVolume): Outcome
  {
    var kept := Above(AllVoxels(v), Threshold(v));
    if kept == [] then Err(NoVoxelAboveThreshold) else Ok(Mean(kept))
  }

  /** The whole call: argument checks first, then the estimate. */
  function Global(nlhs: nat, prhs: seq<Argument>): Outcome
  {
    if |prhs| != 1 || nlhs > 1 then Err(UsageError)
    else if |prhs[0]| != 1 then Err(InvalidInput)
    else MaskedMean(prhs[0][0])
  }

  /**
   * Pass 1: sums every voxel, plane by plane, and turns the sum into the
   * threshold.
   */
  method PassOne(v: MappedVolume, M: array<real>, dat: array<real>) returns (s1: real, ghost planesRead: nat)
    requires M != dat
    requires IsPlaneSelector(M[..])
    requires dat.Length == v.PlaneSize()
    modifies M, dat
    ensures IsPlaneSelector(M[..])
    ensures s1 == Threshold(v)
    ensures planesRead == v.nz
  {
    var n := v.PlaneSize();
    s1 := 0.0;
    planesRead := 0;
    for i := 0 to v.nz
      invariant IsPlaneSelector(M[..])
      invariant s1 == Sum(Flatten(v.planes[..i]))
      invariant planesRead == i
    {
      M[ZShift] := i as real;
      Slice(M, dat, v);
      planesRead := planesRead + 1;
      ghost var before := Flatten(v.planes[..i]);
      assert before + dat[..0] == before;
      for j := 0 to n
        invariant s1 == Sum(before + dat[..j])
      {
        assert before + dat[..j + 1] == (before + dat[..j]) + [dat[j]];
        s1 := s1 + dat[j];
      }
      assert dat[..n] == v.planes[i];
      assert v.planes[..i + 1][..i] == v.planes[..i];
    }
    assert v.planes[..v.nz] == v.planes;
    var total := v.Count();
    VoxelCount(v);
    if total > 0 {
      DivEightfold(s1, total as real);
    }
    s1 := if total == 0 then 0.0 else s1 / (8.0 * total as real);
  }

  /**
   * Pass 2: reads every plane again and counts and sums the voxels strictly
   * above the threshold `s1`.
   */
  method PassTwo(v: MappedVolume, s1: real, M: array<real>, dat: array<real>)
    returns (m: nat, s2: real, ghost planesRead: nat)
    requires M != dat
    requires IsPlaneSelector(M[..])
    requires dat.Length == v.PlaneSize()
    modifies M, dat
    ensures IsPlaneSelector(M[..])
    ensures m == |Above(AllVoxels(v), s1)| && s2 == Sum(Above(AllVoxels(v), s1))
    ensures m <= v.Count()
    ensures planesRead == v.nz
  {
    var n := v.PlaneSize();
    s2 := 0.0;
    m := 0;
    planesRead := 0;
    for i := 0 to v.nz
      invariant IsPlaneSelector(M[..])
      invariant m == |Above(Flatten(v.planes[..i]), s1)|
      invariant s2 == Sum(Above(Flatten(v.planes[..i]), s1))
      invariant planesRead == i
    {
      M[ZShift] := i as real;
      Slice(M, dat, v);
      planesRead := planesRead + 1;
      ghost var before := Flatten(v.planes[..i]);
      assert before + dat[..0] == before;
      for j := 0 to n
        invariant m == |Above(before + dat[..j], s1)|
        invariant s2 == Sum(Above(before + dat[..j], s1))
      {
        assert before + dat[..j + 1] == (before + dat[..j]) + [dat[j]];
        if dat[j] > s1 {
          m := m + 1;
          s2 := s2 + dat[j];
        }
      }
      assert dat[..n] == v.planes[i];
      assert v.planes[..i + 1][..i] == v.planes[..i];
    }
    assert v.planes[..v.nz] == v.planes;
    VoxelCount(v);
  }

  /**
   * The entry point: rejects a wrong number of inputs or outputs and an
   * input that does not map to exactly one volume before reading any
   * plane; otherwise runs both passes, reading every plane twice, and
   * divides the masked sum by the masked count.
   */
  method GlobalMean(nlhs: nat, prhs: seq<Argument>) returns (r: Outcome, ghost planesRead: nat)
    ensures r == Global(nlhs, prhs)
    ensures (|prhs| != 1 || nlhs > 1) ==> r == Err(UsageError) && planesRead == 0
    ensures |prhs| == 1 && nlhs <= 1 && |prhs[0]| != 1 ==> r == Err(InvalidInput) && planesRead == 0
    ensures |prhs| == 1 && nlhs <= 1 && |prhs[0]| == 1 ==> planesRead == 2 * prhs[0][0].nz
  {
    if |prhs| != 1 || nlhs > 1 {
      return Err(UsageError), 0;
    }
    var maps := prhs[0];
    if |maps| != 1 {
      return Err(InvalidInput), 0;
    }
    var v := maps[0];
    var dat := new real[v.PlaneSize()];
    var M := new real[16](k requires 0 <= k < 16 => Identity[k]);
    assert M[..] == Identity;
    var s1, m, s2;
    ghost var read1, read2;
    s1, read1 := PassOne(v, M, dat);
    m, s2, read2 := PassTwo(v, s1, M, dat);
    if m == 0 {
      r := Err(NoVoxelAboveThreshold);
    } else {
      r := Ok(s2 / m as real);
    }
    planesRead := read1 + read2;
  }

  /**
   * When the estimate exists it is the mean of voxels all strictly above
   * the threshold, so it lies strictly above the threshold and no higher
   * than the brightest voxel.
   */
  lemma MaskedMeanBounds(v: MappedVolume)
    ensures MaskedMean(v).Ok? ==>
      AllVoxels(v) != [] && Threshold(v) < MaskedMean(v).mean <= Max(AllVoxels(v))
  {
    var t := Threshold(v);
    var kept := Above(AllVoxels(v), t);
    if kept != [] {
      AboveExactly(AllVoxels(v), t);
      MeanExceeds(kept, t);
      MeanAtMost(kept, Max(AllVoxels(v)));
    }
  }

  /** The estimate is undefined exactly when no voxel lies above the threshold. */
  lemma MaskedMeanUndefinedIff(v: MappedVolume)
    ensures MaskedMean(v).Err? <==> forall x :: x in AllVoxels(v) ==> x <= Threshold(v)
  {
    AboveEmptyIff(AllVoxels(v), Threshold(v));
  }

  /**
   * A volume of one intensity k: the threshold is k/8, so for k > 0 every
   * voxel is kept and the estimate is k; for k <= 0 no voxel is kept.
   */
  lemma ConstantVolume(v: MappedVolume, k: real)
    requires AllVoxels(v) != []
    requires forall x :: x in AllVoxels(v) ==> x == k
    ensures Threshold(v) == k / 8.0
    ensures MaskedMean(v) == if k > 0.0 then Ok(k) else Err(NoVoxelAboveThreshold)
  {
    var s := AllVoxels(v);
    MeanConstant(s, k);
    if k > 0.0 {
      AboveAll(s, k / 8.0);
    } else {
      AboveNone(s, k / 8.0);
    }
  }

  /**
   * When every voxel of `w` is `c` > 0 times the voxel of `v` read at the
   * same position, the threshold of `w` is `c` times that of `v`.
   */
  lemma ScaledThreshold(v: MappedVolume, w: MappedVolume, c: real)
    requires c > 0.0 && Scaled(AllVoxels(v), AllVoxels(w), c)
    ensures Threshold(w) == c * Threshold(v)
  {
    if AllVoxels(v) != [] {
      MeanScaled(AllVoxels(v), AllVoxels(w), c);
    }
  }

  /**
   * Multiplying every voxel by a positive factor keeps the same voxels
   * above the threshold, multiplies the estimate by that factor, and
   * leaves it undefined when it was undefined.
   */
  lemma ScaledVolume(v: MappedVolume, w: MappedVolume, c: real)
    requires c > 0.0 && Scaled(AllVoxels(v), AllVoxels(w), c)
    ensures Scaled(Above(AllVoxels(v), Threshold(v)), Above(AllVoxels(w), Threshold(w)), c)
    ensures MaskedMean(w) ==
      match MaskedMean(v)
      case Ok(g) => Ok(c * g)
      case Err(e) => Err(e)
  {
    var t := Threshold(v);
    var kept, keptW := Above(AllVoxels(v), t), Above(AllVoxels(w), Threshold(w));
    ScaledThreshold(v, w, c);
    assert Threshold(w) == c * t;
    AboveScaled(AllVoxels(v), AllVoxels(w), t, c);
    assert Scaled(kept, keptW, c);
    if kept != [] {
      MeanScaled(kept, keptW, c);
    }
  }
}
