/** Classifying tie points against an oriented box and flagging the ones
    outside it for removal (Temp.py `checkPoint`,
    `selectTiePointsOutsideBoundingBox` and `filterTiePoints`). */
module PointFilter {
  import opened Geometry
  import opened Scene
  import opened MarkerRegistry
  import opened RegionSizer

  /** The width of the filtering box, in cage widths. */
  const HorizontalFactor: real := 2.138
  /** The height of the filtering box, in cage widths. */
  const VerticalFactor: real := 1.145

  /** `p` in the box's own axes: the box rotation transposed, applied to
      `p` minus the box center. */
  function Local(p: Vec3, region: Region): Vec3 {
    MulVec(Transpose(region.rot), Sub(p, region.center))
  }

  /** The test `checkPoint` makes, axis by axis in the order x, y, z: the
      point is outside when a local coordinate exceeds half the box's size
      along that axis in magnitude, strictly. */
  predicate IsOutside(p: Vec3, region: Region) {
    var local := Local(p, region);
    if Abs(local.x) > Abs(region.size.x / 2.0) then true
    else if Abs(local.y) > Abs(region.size.y / 2.0) then true
    else if Abs(local.z) > Abs(region.size.z / 2.0) then true
    else false
  }

  /** A point is outside exactly when some axis, in any order, has its local
      coordinate beyond half the size; on a face (equal magnitude) is inside. */
  lemma OutsideOnSomeAxis(p: Vec3, region: Region)
    ensures IsOutside(p, region) <==>
      exists i :: 0 <= i < 3 && Abs(At(Local(p, region), i)) > Abs(At(region.size, i) / 2.0)
    ensures !IsOutside(p, region) <==>
      forall i :: 0 <= i < 3 ==> Abs(At(Local(p, region), i)) <= Abs(At(region.size, i) / 2.0)
  {
    var l := Local(p, region);
    if IsOutside(p, region) {
      if Abs(l.x) > Abs(region.size.x / 2.0) {
        assert At(l, 0) == l.x && At(region.size, 0) == region.size.x;
      } else if Abs(l.y) > Abs(region.size.y / 2.0) {
        assert At(l, 1) == l.y && At(region.size, 1) == region.size.y;
      } else {
        assert At(l, 2) == l.z && At(region.size, 2) == region.size.z;
      }
    }
  }

  /** The box center is never selected. */
  lemma CenterIsInside(region: Region)
    ensures !IsOutside(region.center, region)
  {
    assert Sub(region.center, region.center) == Zero;
    assert Local(region.center, region) == Zero;
  }

  /** A point whose local coordinates lie exactly on the faces of the box
      (every magnitude equal to half the size) is not selected, and moving
      it further out along the first axis by any positive amount selects it. */
  lemma FaceIsInside(p: Vec3, region: Region, eps: real)
    requires var l := Local(p, region);
      Abs(l.x) == Abs(region.size.x / 2.0) &&
      Abs(l.y) == Abs(region.size.y / 2.0) &&
      Abs(l.z) == Abs(region.size.z / 2.0)
    requires eps > 0.0
    ensures !IsOutside(p, region)
    ensures forall q :: Local(q, region) == Local(p, region).(x := Abs(region.size.x / 2.0) + eps) ==> IsOutside(q, region)
  {
  }

  /** For a region oriented as `setRegion` orients it (rotation the
      transpose of the transform's), the local coordinates are the
      transform's rotation applied to the offset from the center. */
  lemma LocalInTransformFrame(p: Vec3, center: Vec3, size: Vec3, rot: Mat3)
    ensures Local(p, Region(center, size, Transpose(rot))) == MulVec(rot, Sub(p, center))
  {
    TransposeInvolution(rot);
  }

  /** Sets one tie point's flag from the test (Temp.py `checkPoint`). */
  method CheckPoint(point: TiePoint, region: Region)
    modifies point
    ensures point.selected == IsOutside(point.coord, region)
  {
    var local := Local(point.coord, region);
    if Abs(local.x) > Abs(region.size.x / 2.0) {
      point.selected := true;
    } else if Abs(local.y) > Abs(region.size.y / 2.0) {
      point.selected := true;
    } else if Abs(local.z) > Abs(region.size.z / 2.0) {
      point.selected := true;
    } else {
      point.selected := false;
    }
  }

  /** Sets every tie point's flag from the test and writes nothing else
      (Temp.py `selectTiePointsOutsideBoundingBox`). */
  method SelectTiePointsOutsideBoundingBox(chunk: Chunk, region: Region)
    modifies chunk.Points()
    ensures forall i :: 0 <= i < chunk.tiePoints.Length ==>
      chunk.tiePoints[i].selected == IsOutside(chunk.tiePoints[i].coord, region)
  {
    var points := chunk.tiePoints;
    for i := 0 to points.Length
      invariant forall j :: 0 <= j < i ==> points[j].selected == IsOutside(points[j].coord, region)
    {
      CheckPoint(points[i], region);
    }
  }

  /** The box `filterTiePoints` tests against: the chunk's region with its
      center moved to the floor centroid and its size set to
      `(2.138 w, 1.145 w, 2.138 w)` for cage width `w`; its rotation is kept. */
  function FilterBox(current: Region, centroid: Vec3, w: real): (box: Region)
    ensures box.rot == current.rot && box.center == centroid
    ensures box.size.x == box.size.z == HorizontalFactor * w && box.size.y == VerticalFactor * w
  {
    current.(size := Vec3(HorizontalFactor * w, VerticalFactor * w, HorizontalFactor * w), center := centroid)
  }

  /** The filtering box for a chunk with these markers and this region, once
      both width targets resolve. */
  function FilterBoxFor(markers: seq<Marker>, current: Region, norm: Vec3 -> real): Region
    requires |Resolve(markers, WidthLabels)| == 2
  {
    WidthResolvedGivesBox(markers);
    FilterBox(current, Mean(Positions(Resolve(markers, BoxLabels))), CageWidth(Resolve(markers, WidthLabels), norm))
  }

  /** Flags the tie points outside the filtering box (Temp.py
      `filterTiePoints`). Fails, changing nothing, unless both width targets
      resolve; the chunk's own region is left as it was. */
  method FilterTiePoints(chunk: Chunk, norm: Vec3 -> real) returns (ok: bool)
    modifies chunk.Points()
    ensures ok <==> |Resolve(chunk.markers, WidthLabels)| == 2
    ensures ok ==> forall i :: 0 <= i < chunk.tiePoints.Length ==>
      chunk.tiePoints[i].selected == IsOutside(chunk.tiePoints[i].coord, FilterBoxFor(chunk.markers, chunk.region, norm))
    ensures !ok ==> forall i :: 0 <= i < chunk.tiePoints.Length ==>
      chunk.tiePoints[i].selected == old(chunk.tiePoints[i].selected)
  {
    var widthMarkers := FindMarkers(chunk.markers, WidthLabels);
    if |widthMarkers| < 2 {
      return false;
    }
    var cageWidth := CageWidth(widthMarkers, norm);

    var markers := FindMarkers(chunk.markers, BoxLabels);
    WidthResolvedGivesBox(chunk.markers);
    var centroid := Mean(Positions(markers));

    var horizSize := HorizontalFactor * cageWidth;
    var vertSize := VerticalFactor * cageWidth;

    var box := chunk.region.(size := Vec3(horizSize, vertSize, horizSize));
    box := box.(center := centroid);
    SelectTiePointsOutsideBoundingBox(chunk, box);
    ok := true;
  }
}
