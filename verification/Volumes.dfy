/**
 * The memory-mapped volume as the estimator sees it: nz planes of nx*ny
 * voxels, and the slice reader that copies one plane into a buffer when
 * handed the identity transform shifted to that plane.
 */
module Volumes {

  /**
   * A volume of dimensions nx, ny, nz; `planes[z]` holds the nx*ny
   * intensities of plane z.
   */
  datatype Volume = Volume(nx: nat, ny: nat, nz: nat, planes: seq<seq<real>>)
  {
    /** Number of voxels in one plane. */
    function PlaneSize(): nat { nx * ny }

    /** Number of voxels in the whole volume. */
    function Count(): nat { nx * ny * nz }

    /** There are nz planes and each holds exactly nx*ny voxels. */
    predicate Valid()
    {
      |planes| == nz && forall z :: 0 <= z < |planes| ==> |planes[z]| == nx * ny
    }
  }

  /** A volume the map reader hands out: its planes agree with its dimensions. */
  type MappedVolume = v: Volume | v.Valid() witness Volume(0, 0, 0, [])

  /** Planes laid end to end, the first plane first. */
  function Flatten(ps: seq<seq<real>>): seq<real>
  {
    if ps == [] then [] else Flatten(ps[..|ps| - 1]) + ps[|ps| - 1]
  }

  /** Every voxel of the volume in reading order, plane after plane. */
  function AllVoxels(v: MappedVolume): seq<real>
  {
    Flatten(v.planes)
  }

  /** The volume holds nx*ny*nz voxels. */
  lemma VoxelCount(v: MappedVolume)
    ensures |AllVoxels(v)| == v.Count()
  {
    FlattenLength(v.planes, v.PlaneSize());
  }

  /** Voxel k of plane z is read at position z*nx*ny + k. */
  lemma ReadingOrder(v: MappedVolume, z: nat, k: nat)
    requires z < v.nz && k < v.PlaneSize()
    ensures z * v.PlaneSize() + k < |AllVoxels(v)|
    ensures AllVoxels(v)[z * v.PlaneSize() + k] == v.planes[z][k]
  {
    FlattenAt(v.planes, v.PlaneSize(), z, k);
  }

  lemma MulLeq(a: nat, b: nat, n: nat)
    requires a <= b
    ensures a * n <= b * n
  {
  }

  /** Planes of n voxels each, laid end to end, hold n voxels per plane. */
  lemma {:induction false} FlattenLength(ps: seq<seq<real>>, n: nat)
    requires forall z :: 0 <= z < |ps| ==> |ps[z]| == n
    ensures |Flatten(ps)| == |ps| * n
  {
    if ps != [] {
      var m := |ps| - 1;
      FlattenLength(ps[..m], n);
      assert |ps| * n == m * n + n;
    }
  }

  /** Voxel k of plane z lands at position z*n + k once the planes are laid end to end. */
  lemma {:induction false} FlattenAt(ps: seq<seq<real>>, n: nat, z: nat, k: nat)
    requires forall z :: 0 <= z < |ps| ==> |ps[z]| == n
    requires z < |ps| && k < n
    ensures z * n + k < |Flatten(ps)| && Flatten(ps)[z * n + k] == ps[z][k]
  {
    var m := |ps| - 1;
    var init := ps[..m];
    FlattenLength(init, n);
    FlattenLength(ps, n);
    var pos := z * n + k;
    if z < m {
      FlattenAt(init, n, z, k);
      MulLeq(z + 1, m, n);
      assert (z + 1) * n == pos - k + n;
      assert pos < |Flatten(init)|;
    } else {
      assert pos == |Flatten(init)| + k;
    }
  }

  /** The 4x4 identity transform, stored column by column. */
  const Identity: seq<real> :=
    [1.0, 0.0, 0.0, 0.0,
     0.0, 1.0, 0.0, 0.0,
     0.0, 0.0, 1.0, 0.0,
     0.0, 0.0, 0.0, 1.0]

  /** Position of the z translation in a column-major 4x4 transform. */
  const ZShift := 14

  /** A transform equal to the identity except, possibly, in its z translation. */
  predicate IsPlaneSelector(m: seq<real>)
  {
    |m| == 16 && forall k :: 0 <= k < 16 && k != ZShift ==> m[k] == Identity[k]
  }

  /**
   * The slice reader under the identity transform: plane z, named by the
   * z translation of M, is copied into `dat`.
   */
  method Slice(M: array<real>, dat: array<real>, v: MappedVolume)
    requires M != dat
    requires IsPlaneSelector(M[..])
    requires 0 <= M[ZShift].Floor < v.nz && M[ZShift] == M[ZShift].Floor as real
    requires dat.Length == v.PlaneSize()
    modifies dat
    ensures dat[..] == v.planes[M[ZShift].Floor]
  {
    var plane := v.planes[M[ZShift].Floor];
    for k := 0 to dat.Length
      invariant dat[..k] == plane[..k]
    {
      dat[k] := plane[k];
    }
  }
}
