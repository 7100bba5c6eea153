/** Sizing and orienting the chunk's reconstruction region from the floor
    targets and the cage width (Temp.py `setRegion`). */
module RegionSizer {
  import opened Geometry
  import opened Scene
  import opened MarkerRegistry

  /** Scale factors above this give a cube centred on the floor centroid. */
  const CubeThreshold: real := 0.75

  /** The region `setRegion` computes from the floor centroid, the cage
      width `w`, the scale factor `s` and the transform's rotation `rot`:
      rotation `rot` transposed, center and size as in `SizedRegionShape`. */
  function SizedRegion(centroid: Vec3, w: real, s: real, rot: Mat3): Region {
    var regionRot := Transpose(rot);
    var yAxis := MulVec(regionRot, UnitY);
    Region(if s > CubeThreshold then centroid else Sub(centroid, Scale(yAxis, w * 0.1)),
           if s > CubeThreshold then Vec3(w * s, w * s, w * s) else Vec3(w * s, w * 0.75, w * s),
           regionRot)
  }

  /** The region's rotation is the transpose of the transform's. Above the
      threshold the region is the cube of side `w * s` centred on the
      centroid; otherwise it is `w * s` wide and deep but always `0.75 * w`
      high, and its center is lowered by `0.1 * w` along the transform's
      second row (the region's y axis in scene coordinates). */
  lemma SizedRegionShape(centroid: Vec3, w: real, s: real, rot: Mat3)
    ensures SizedRegion(centroid, w, s, rot).rot == Transpose(rot)
    ensures s > CubeThreshold ==>
      SizedRegion(centroid, w, s, rot).center == centroid &&
      SizedRegion(centroid, w, s, rot).size == Vec3(w * s, w * s, w * s)
    ensures s <= CubeThreshold ==>
      SizedRegion(centroid, w, s, rot).center == Sub(centroid, Scale(rot.r1, w * 0.1)) &&
      SizedRegion(centroid, w, s, rot).size == Vec3(w * s, 0.75 * w, w * s)
  {
    MulUnitY(rot);
  }

  /** Below the threshold the height of the region does not depend on the
      scale factor. */
  lemma HeightIgnoresSmallScale(centroid: Vec3, w: real, s1: real, s2: real, rot: Mat3)
    requires s1 <= CubeThreshold && s2 <= CubeThreshold
    ensures SizedRegion(centroid, w, s1, rot).size.y == SizedRegion(centroid, w, s2, rot).size.y
    ensures SizedRegion(centroid, w, s1, rot).center == SizedRegion(centroid, w, s2, rot).center
  {
  }

  /** The cage width: the distance between the two width targets, measured
      by `norm`, first target minus second. */
  function CageWidth(width: seq<Marker>, norm: Vec3 -> real): real
    requires |width| >= 2
  {
    norm(Sub(width[0].position, width[1].position))
  }

  /** The region `setRegion` gives a chunk with these markers and this
      transform rotation, once both width targets resolve: `SizedRegion` of
      the centroid of the resolved floor targets and the cage width. */
  function RegionFor(markers: seq<Marker>, scaler: real, norm: Vec3 -> real, rot: Mat3): Region
    requires |Resolve(markers, WidthLabels)| == 2
  {
    WidthResolvedGivesBox(markers);
    SizedRegion(Mean(Positions(Resolve(markers, BoxLabels))), CageWidth(Resolve(markers, WidthLabels), norm), scaler, rot)
  }

  /** Orients the region with the chunk and sets its center and size from
      the floor centroid, the cage width `w` and the scale factor `s`, one
      field after the other (the second half of Temp.py `setRegion`). */
  method PlaceRegion(chunk: Chunk, centroid: Vec3, w: real, s: real)
    modifies chunk
    ensures chunk.region == SizedRegion(centroid, w, s, old(chunk.transform.rotation))
    ensures chunk.transform == old(chunk.transform)
  {
    var rot := Transpose(chunk.transform.rotation);
    chunk.region := chunk.region.(rot := rot);
    var yAxis := MulVec(rot, UnitY);
    var center;
    if s > CubeThreshold {
      center := centroid;
    } else {
      var adjust := w * 0.1;
      center := Sub(centroid, Scale(yAxis, adjust));
    }
    chunk.region := chunk.region.(center := center);

    var size;
    if s > CubeThreshold {
      size := Vec3(w * s, w * s, w * s);
    } else {
      size := Vec3(w * s, w * 0.75, w * s);
    }
    chunk.region := chunk.region.(size := size);
    assert chunk.region == Region(center, size, rot);
  }

  /** Orients and sizes the chunk's region (Temp.py `setRegion`). It fails,
      changing nothing, unless both width targets resolve; otherwise the
      region becomes `SizedRegion` of the floor centroid, the cage width,
      `scaler` and the transform's rotation. */
  method SetRegion(chunk: Chunk, scaler: real, norm: Vec3 -> real) returns (ok: bool)
    modifies chunk
    ensures ok <==> |Resolve(chunk.markers, WidthLabels)| == 2
    ensures ok ==> chunk.region == RegionFor(chunk.markers, scaler, norm, old(chunk.transform.rotation))
    ensures !ok ==> chunk.region == old(chunk.region)
    ensures chunk.transform == old(chunk.transform)
  {
    var markers := FindMarkers(chunk.markers, BoxLabels);
    var widthMarkers := FindMarkers(chunk.markers, WidthLabels);
    if |widthMarkers| < 2 {
      return false;
    }
    WidthResolvedGivesBox(chunk.markers);
    var centroid := Mean(Positions(markers));
    var cageWidth := CageWidth(widthMarkers, norm);
    PlaceRegion(chunk, centroid, cageWidth, scaler);
    ok := true;
  }
}
