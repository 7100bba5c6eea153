/** The earlier alignment script (Center.py `findCenter`): the centroid of
    the four floor markers at scene indices 4 to 7, the centered marker
    matrix handed to the singular value decomposition, a hand-written scan
    for the least singular value, and a rotation built from two cross
    products. The decomposition itself is an input. */
module Center {
  import opened Geometry
  import opened Scene
  import opened MarkerRegistry
  import opened PlaneFit

  /** The starting value of the minimum scan; a value must lie strictly
      below it to be chosen. */
  const Sentinel: real := 100000.0

  /** The part of numpy's decomposition `u, s, vh = svd(planeMatrix)` that
      the script reads: rows 0 to 2, columns 0 to 2 of `u`, and the singular
      values `s` in numpy's order. */
  datatype Svd = Svd(u: Mat3, s: Vec3)

  /** The centroid of four markers, each coordinate sum divided by four: it
      is the arithmetic mean of the four positions. */
  function CentroidOfFour(a: Vec3, b: Vec3, c: Vec3, d: Vec3): (cent: Vec3)
    ensures cent == Mean([a, b, c, d])
  {
    MeanOfFour(a, b, c, d);
    Vec3((a.x + b.x + c.x + d.x) / 4.0, (a.y + b.y + c.y + d.y) / 4.0, (a.z + b.z + c.z + d.z) / 4.0)
  }

  /** The rows of `planeMatrix`: each marker minus the centroid. */
  function PlaneMatrix(a: Vec3, b: Vec3, c: Vec3, d: Vec3, cent: Vec3): (rows: seq<Vec3>)
    ensures rows == Centered([a, b, c, d], cent)
  {
    [Sub(a, cent), Sub(b, cent), Sub(c, cent), Sub(d, cent)]
  }

  /** Centered on their own centroid, the rows of the plane matrix add up to
      the zero vector. */
  lemma PlaneMatrixSumsToZero(a: Vec3, b: Vec3, c: Vec3, d: Vec3)
    ensures Sum(PlaneMatrix(a, b, c, d, CentroidOfFour(a, b, c, d))) == Zero
  {
    CenteredOnMeanSumsToZero([a, b, c, d]);
  }

  /** What the scan chooses: the first least value's index when that value
      is below the sentinel, and 0 otherwise. */
  function SentinelArgMin(s: seq<real>): (k: nat)
    ensures |s| > 0 ==> k < |s|
    ensures (forall j :: 0 <= j < |s| ==> s[j] >= Sentinel) ==> k == 0
    ensures (exists j :: 0 <= j < |s| && s[j] < Sentinel) ==>
      s[k] < Sentinel &&
      (forall j :: 0 <= j < |s| ==> s[k] <= s[j]) &&
      (forall j :: 0 <= j < k ==> s[j] > s[k])
  {
    if |s| > 0 && s[ArgMin(s)] < Sentinel then ArgMin(s) else 0
  }

  /** The least value the scan ends with: the chosen value when one lies
      below the sentinel, the sentinel otherwise. */
  function SentinelMin(s: seq<real>): (m: real)
    ensures m <= Sentinel
    ensures forall j :: 0 <= j < |s| ==> m <= s[j]
    ensures m < Sentinel ==> |s| > 0 && m == s[SentinelArgMin(s)]
  {
    if |s| > 0 && s[ArgMin(s)] < Sentinel then s[ArgMin(s)] else Sentinel
  }

  /** The scan of Center.py: walks the values once, replacing the current
      choice whenever a value is strictly smaller, so ties keep the earlier
      index and nothing at or above the sentinel is ever chosen. */
  method MinIndexScan(s: seq<real>) returns (minIdx: nat, minVal: real)
    ensures minIdx == SentinelArgMin(s) && minVal == SentinelMin(s)
  {
    minVal := Sentinel;
    minIdx := 0;
    var i := 0;
    while i < |s|
      invariant 0 <= i <= |s|
      invariant minIdx == SentinelArgMin(s[..i]) && minVal == SentinelMin(s[..i])
    {
      assert s[..i + 1][..i] == s[..i];
      if s[i] < minVal {
        minIdx := i;
        minVal := s[i];
      }
      i := i + 1;
    }
    assert s[..|s|] == s;
  }

  /** The singular values as a sequence, in numpy's order. */
  function SingularValues(svd: Svd): seq<real> {
    [svd.s.x, svd.s.y, svd.s.z]
  }

  /** The plane normal: column `minIdx` of `u`, rows 0 to 2, normalised. */
  function CenterUp(svd: Svd, norm: Vec3 -> real): Vec3 {
    Normalized(norm, Column(svd.u, SentinelArgMin(SingularValues(svd))))
  }

  /** The view direction: marker 3 minus marker 2, normalised. */
  function CenterView(markers: seq<Marker>, norm: Vec3 -> real): Vec3
    requires |markers| >= 4
  {
    Normalized(norm, Sub(markers[3].position, markers[2].position))
  }

  /** The rotation `findCenter` writes, rows `(u, v, n)`: `v` the view,
      `u` along `v x up`, `n` along `u x v`. Each row is orthogonal to the
      other two and `u` is orthogonal to the plane normal. With a
      non-negative length function `u` points along `v x up` and `n` along
      `u x v`. */
  function CenterRotation(markers: seq<Marker>, svd: Svd, norm: Vec3 -> real): (r: Mat3)
    requires |markers| >= 8
    ensures r.r1 == CenterView(markers, norm)
    ensures Dot(r.r0, r.r1) == 0.0 && Dot(r.r0, CenterUp(svd, norm)) == 0.0
    ensures Dot(r.r2, r.r0) == 0.0 && Dot(r.r2, r.r1) == 0.0
    ensures NonNegative(norm) ==> exists k :: k > 0.0 && r.r0 == Scale(Cross(r.r1, CenterUp(svd, norm)), k)
    ensures NonNegative(norm) ==> exists k :: k > 0.0 && r.r2 == Scale(Cross(r.r0, r.r1), k)
  {
    var up := CenterUp(svd, norm);
    var v := CenterView(markers, norm);
    var uRaw := Cross(v, up);
    NormalizedOrthogonal(norm, uRaw, v);
    NormalizedOrthogonal(norm, uRaw, up);
    NormalizedPositiveScale(norm, uRaw);
    var u := Normalized(norm, uRaw);
    var nRaw := Cross(u, v);
    NormalizedOrthogonal(norm, nRaw, u);
    NormalizedOrthogonal(norm, nRaw, v);
    NormalizedPositiveScale(norm, nRaw);
    Mat3(u, v, Normalized(norm, nRaw))
  }

  /** When some singular value lies below the sentinel, the normal is taken
      from the column of the first least singular value. */
  lemma CenterUpUsesLeastValue(svd: Svd, norm: Vec3 -> real)
    requires exists j :: 0 <= j < 3 && At(svd.s, j) < Sentinel
    ensures exists k :: FirstLeast(svd.s, k) && CenterUp(svd, norm) == Normalized(norm, Column(svd.u, k))
  {
    var s := SingularValues(svd);
    assert forall j :: 0 <= j < 3 ==> s[j] == At(svd.s, j);
    var k := SentinelArgMin(s);
    assert FirstLeast(svd.s, k);
  }

  /** Aligns the active document's chunk from the markers of `chunk`
      (Center.py `findCenter`, through the rotation it writes). Fails,
      changing nothing, when the scene has fewer than eight markers (the
      script indexes markers 2 to 7); otherwise only the rotation of the
      active chunk's transform changes, to `CenterRotation`. */
  method FindCenter(chunk: Chunk, active: Chunk, svd: Svd, norm: Vec3 -> real) returns (ok: bool)
    modifies active
    ensures ok <==> |chunk.markers| >= 8
    ensures ok ==> active.transform == old(active.transform).(rotation := CenterRotation(chunk.markers, svd, norm))
    ensures !ok ==> active.transform == old(active.transform)
    ensures active.region == old(active.region)
  {
    if |chunk.markers| < 8 {
      return false;
    }
    var m4 := chunk.markers[4].position;
    var m5 := chunk.markers[5].position;
    var m6 := chunk.markers[6].position;
    var m7 := chunk.markers[7].position;

    var cent := CentroidOfFour(m4, m5, m6, m7);
    var planeMatrix := PlaneMatrix(m4, m5, m6, m7, cent);

    var minIdx, minVal := MinIndexScan(SingularValues(svd));
    var up := Normalized(norm, Column(svd.u, minIdx));

    var v := Normalized(norm, Sub(chunk.markers[3].position, chunk.markers[2].position));
    var u := Normalized(norm, Cross(v, up));
    var n := Normalized(norm, Cross(u, v));

    active.transform := active.transform.(rotation := Mat3(u, v, n));
    ok := true;
  }
}
