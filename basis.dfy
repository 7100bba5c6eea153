/** Building the canonical frame from the fitted plane and writing it into
    the chunk's transform (Temp.py `chunkCorrect` and `applyBasis`). */
module Basis {
  import opened Geometry
  import opened Wrappers
  import opened Scene
  import opened MarkerRegistry
  import opened PlaneFit

  /** A working basis: `t` across the view, `u` the oriented plane normal,
      `v` the in-plane direction orthogonal to both. */
  datatype Frame = Frame(t: Vec3, u: Vec3, v: Vec3)

  /** The fixed corrective rotation that `chunkCorrect` left-multiplies onto
      the rotation derived from the basis. */
  const Fudge: Mat3 := Mat3(
    Vec3(0.9993, -0.0373, -0.0025),
    Vec3(0.0371, 0.9981, -0.0482),
    Vec3(0.0043, 0.0481, 0.9988))

  /** The fitted normal, negated when it points against `upward`: the result
      is one of the two and never points against `upward`. */
  function OrientNormal(normal: Vec3, upward: Vec3): (up: Vec3)
    ensures up == normal || up == Neg(normal)
    ensures Dot(up, upward) >= 0.0
    ensures Dot(normal, upward) >= 0.0 ==> up == normal
    ensures Dot(normal, upward) < 0.0 ==> up == Neg(normal)
  {
    if Dot(normal, upward) < 0.0 then Neg(normal) else normal
  }

  /** The rest of the basis: `t` from `view` and `up`, then `v` from `up`
      and `t`, each normalised. `t` is orthogonal to the view and to `up`,
      `v` to `up` and to `t`; with a non-negative length function `t` points
      along `view x up` and `v` along `up x t`. */
  function BuildFrame(norm: Vec3 -> real, up: Vec3, view: Vec3): (f: Frame)
    ensures f.u == up
    ensures Dot(f.t, view) == 0.0 && Dot(f.t, up) == 0.0
    ensures Dot(f.v, up) == 0.0 && Dot(f.v, f.t) == 0.0
    ensures NonNegative(norm) ==> exists k :: k > 0.0 && f.t == Scale(Cross(view, up), k)
    ensures NonNegative(norm) ==> exists k :: k > 0.0 && f.v == Scale(Cross(up, f.t), k)
  {
    var tRaw := Cross(view, up);
    var t := Normalized(norm, tRaw);
    NormalizedOrthogonal(norm, tRaw, view);
    NormalizedOrthogonal(norm, tRaw, up);
    NormalizedPositiveScale(norm, tRaw);
    var vRaw := Cross(up, t);
    NormalizedOrthogonal(norm, vRaw, up);
    NormalizedOrthogonal(norm, vRaw, t);
    NormalizedPositiveScale(norm, vRaw);
    Frame(t, up, Normalized(norm, vRaw))
  }

  /** The rotation block `applyBasis` writes: rows `t`, `u` and `-v`. */
  function BasisRotation(f: Frame): Mat3 {
    Mat3(f.t, f.u, Neg(f.v))
  }

  /** The rows of the basis rotation are pairwise orthogonal, and the third
      row points along the cross product of the first two: the sign flip on
      `v` makes the rows a right-handed frame. */
  lemma BasisRotationRightHanded(norm: Vec3 -> real, up: Vec3, view: Vec3)
    requires NonNegative(norm)
    ensures var r := BasisRotation(BuildFrame(norm, up, view));
      Dot(r.r0, r.r1) == 0.0 && Dot(r.r1, r.r2) == 0.0 && Dot(r.r0, r.r2) == 0.0
    ensures var r := BasisRotation(BuildFrame(norm, up, view));
      exists k :: k > 0.0 && Cross(r.r0, r.r1) == Scale(r.r2, k)
  {
    var f := BuildFrame(norm, up, view);
    var r := BasisRotation(f);
    DotScale(f.v, -1.0, up);
    DotScale(f.v, -1.0, f.t);
    assert r.r2 == Scale(f.v, -1.0);
    var vRaw := Cross(up, f.t);
    CrossAntiCommutes(f.t, up);
    assert Cross(r.r0, r.r1) == Neg(vRaw);
    var n := norm(vRaw);
    if n == 0.0 {
      assert f.v == Scale(vRaw, 1.0);
      assert Cross(r.r0, r.r1) == Scale(r.r2, 1.0);
    } else {
      assert n > 0.0;
      assert f.v == Scale(vRaw, 1.0 / n);
      assert Neg(vRaw) == Scale(Neg(Scale(vRaw, 1.0 / n)), n);
      assert Cross(r.r0, r.r1) == Scale(r.r2, n);
    }
  }

  /** Writes the basis and the centroid into the chunk's transform: rotation
      rows `(t, u, -v)`, translation `-c` (Temp.py `applyBasis`). */
  method ApplyBasis(chunk: Chunk, t: Vec3, u: Vec3, v: Vec3, c: Vec3)
    modifies chunk
    ensures chunk.transform == Transform(BasisRotation(Frame(t, u, v)), Neg(c))
    ensures chunk.region == old(chunk.region)
  {
    chunk.transform := Transform(Mat3(t, u, Neg(v)), Neg(c));
  }

  /** The quantities `chunkCorrect` derives from the scene's markers. */
  datatype Alignment = Alignment(normal: Vec3, view: Vec3, upward: Vec3, centroid: Vec3, frame: Frame)

  /** What `chunkCorrect` derives, or None when a lookup leaves it fewer than
      two floor targets or fewer than two up targets (the script fails there,
      in the plane fit or at `targets[1]` / `upMarkers[1]`). The view runs
      from the second floor target to the first, `upward` from target 11 to
      target 18, and the frame is built from the view and the normal turned
      towards `upward`. */
  function Align(markers: seq<Marker>, eig: Eigen, norm: Vec3 -> real): (a: Option<Alignment>)
    ensures a.Some? <==> |Resolve(markers, BoxLabels)| >= 2 && |Resolve(markers, UpLabels)| == 2
    ensures a.Some? ==> Unique(markers, "target 11") && Unique(markers, "target 18")
    ensures a.Some? ==> a.value.upward == Normalized(norm, Sub(Matching(markers, "target 18")[0].position, Matching(markers, "target 11")[0].position))
    ensures a.Some? ==> var targets := Resolve(markers, BoxLabels);
      a.value.view == Normalized(norm, Sub(targets[0].position, targets[1].position))
    ensures a.Some? ==> a.value.frame == BuildFrame(norm, OrientNormal(a.value.normal, a.value.upward), a.value.view)
    ensures a.Some? ==> Dot(a.value.frame.u, a.value.upward) >= 0.0
    ensures a.Some? ==> a.value.frame.u == a.value.normal || a.value.frame.u == Neg(a.value.normal)
    ensures a.Some? ==> Dot(a.value.frame.t, a.value.view) == 0.0 && Dot(a.value.frame.t, a.value.frame.u) == 0.0
    ensures a.Some? ==> Dot(a.value.frame.v, a.value.frame.u) == 0.0 && Dot(a.value.frame.v, a.value.frame.t) == 0.0
  {
    var targets := Resolve(markers, BoxLabels);
    var upMarkers := Resolve(markers, UpLabels);
    UpTargets(markers);
    if |targets| < 2 || |upMarkers| < 2 then None
    else
      var plane := FitPlane(Positions(targets), eig);
      var view := Normalized(norm, Sub(targets[0].position, targets[1].position));
      var upward := Normalized(norm, Sub(upMarkers[1].position, upMarkers[0].position));
      var up := OrientNormal(plane.normal, upward);
      Some(Alignment(plane.normal, view, upward, plane.centroid, BuildFrame(norm, up, view)))
  }

  /** The up lookup finds target 11 and then target 18, each only when its
      label is carried by exactly one marker. */
  lemma UpTargets(markers: seq<Marker>)
    ensures Resolve(markers, UpLabels) ==
      (if Unique(markers, "target 11") then [Matching(markers, "target 11")[0]] else []) +
      (if Unique(markers, "target 18") then [Matching(markers, "target 18")[0]] else [])
  {
    assert UpLabels == ["target 11"] + ["target 18"];
    ResolveAppend(markers, ["target 11"], ["target 18"]);
    ResolveOne(markers, "target 11");
    ResolveOne(markers, "target 18");
  }

  /** The normal is the fitted plane's, and the centroid is the mean of the
      resolved floor targets. */
  lemma AlignUsesPlane(markers: seq<Marker>, eig: Eigen, norm: Vec3 -> real)
    requires Align(markers, eig, norm).Some?
    ensures var a := Align(markers, eig, norm).value;
      var targets := Resolve(markers, BoxLabels);
      |targets| >= 2 &&
      (exists k :: FirstLeast(eig.values, k) && a.normal == Column(eig.vectors, k)) &&
      Scale(a.centroid, |targets| as real) == Sum(Positions(targets))
  {
    FitPlaneNormal(Positions(Resolve(markers, BoxLabels)), eig);
  }

  /** Aligns the chunk to the floor targets (Temp.py `chunkCorrect`): the
      transform becomes rotation `Fudge * (t, u, -v)` and translation
      `-centroid`; when a lookup comes up short nothing is written. */
  method ChunkCorrect(chunk: Chunk, eig: Eigen, norm: Vec3 -> real) returns (ok: bool)
    modifies chunk
    ensures ok <==> Align(chunk.markers, eig, norm).Some?
    ensures ok ==> var a := Align(chunk.markers, eig, norm).value;
      chunk.transform == Transform(MatMul(Fudge, BasisRotation(a.frame)), Neg(a.centroid))
    ensures !ok ==> chunk.transform == old(chunk.transform)
    ensures chunk.region == old(chunk.region)
  {
    var targets := FindMarkers(chunk.markers, BoxLabels);
    if |targets| < 2 {
      return false;
    }
    var plane := FitPlane(Positions(targets), eig);
    var view := Normalized(norm, Sub(targets[0].position, targets[1].position));
    var upMarkers := FindMarkers(chunk.markers, UpLabels);
    if |upMarkers| < 2 {
      return false;
    }
    var upward := Normalized(norm, Sub(upMarkers[1].position, upMarkers[0].position));
    var up := OrientNormal(plane.normal, upward);
    var f := BuildFrame(norm, up, view);
    ApplyBasis(chunk, f.t, f.u, f.v, plane.centroid);
    chunk.transform := chunk.transform.(rotation := MatMul(Fudge, chunk.transform.rotation));
    ok := true;
  }

  /** Under the corrected transform a direction is first taken into the
      basis frame and then turned by the fudge rotation. */
  lemma CorrectedRotationApply(f: Frame, p: Vec3)
    ensures MulVec(MatMul(Fudge, BasisRotation(f)), p) ==
      MulVec(Fudge, Vec3(Dot(f.t, p), Dot(f.u, p), -Dot(f.v, p)))
  {
    MatMulApply(Fudge, BasisRotation(f), p);
    DotScale(f.v, -1.0, p);
    assert Neg(f.v) == Scale(f.v, -1.0);
  }
}
