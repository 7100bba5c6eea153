/** The best-fit plane through the floor targets (Temp.py
    `fitPlaneToMarkers`). The covariance matrix and its eigen-decomposition
    are computed by numpy; the model takes the decomposition as an input and
    keeps the choice of the eigenvector and the centroid. */
module PlaneFit {
  import opened Geometry
  import opened MarkerRegistry

  /** An eigen-decomposition of the 3x3 covariance matrix: `values` holds the
      three eigenvalues in the order numpy returns them (not sorted), and
      column i of `vectors` is the eigenvector of eigenvalue i. */
  datatype Eigen = Eigen(values: Vec3, vectors: Mat3)

  datatype Plane = Plane(normal: Vec3, centroid: Vec3)

  /** The index of the first smallest value (numpy `argmin`): nothing is
      smaller, and everything before it is strictly larger. */
  function ArgMin(s: seq<real>): (k: nat)
    requires |s| > 0
    ensures k < |s|
    ensures forall j :: 0 <= j < |s| ==> s[k] <= s[j]
    ensures forall j :: 0 <= j < k ==> s[j] > s[k]
  {
    if |s| == 1 then 0
    else
      var k := ArgMin(s[..|s| - 1]);
      if s[|s| - 1] < s[k] then |s| - 1 else k
  }

  /** The three eigenvalues as a sequence, in numpy's order. */
  function Values(eig: Eigen): seq<real> {
    [eig.values.x, eig.values.y, eig.values.z]
  }

  /** The fitted plane: its normal is the eigenvector of the first smallest
      eigenvalue, its centroid the mean of the points. */
  function FitPlane(points: seq<Vec3>, eig: Eigen): Plane
    requires |points| > 0
  {
    Plane(Column(eig.vectors, ArgMin(Values(eig))), Mean(points))
  }

  /** Component `k` is the first smallest component of `vals`. */
  predicate FirstLeast(vals: Vec3, k: int) {
    && 0 <= k < 3
    && (forall j :: 0 <= j < 3 ==> At(vals, k) <= At(vals, j))
    && (forall j :: 0 <= j < k ==> At(vals, j) > At(vals, k))
  }

  /** The normal belongs to an eigenvalue that no other eigenvalue undercuts,
      and to the first such one. */
  lemma FitPlaneNormal(points: seq<Vec3>, eig: Eigen)
    requires |points| > 0
    ensures exists k :: FirstLeast(eig.values, k) && FitPlane(points, eig).normal == Column(eig.vectors, k)
    ensures Scale(FitPlane(points, eig).centroid, |points| as real) == Sum(points)
  {
    var k := ArgMin(Values(eig));
    assert forall j :: 0 <= j < 3 ==> Values(eig)[j] == At(eig.values, j);
    assert FitPlane(points, eig).normal == Column(eig.vectors, k);
  }
}
