/** Resolving requested marker labels against the markers of a scene, and
    the centroid of the resolved markers. */
module MarkerRegistry {
  import opened Geometry
  import opened Scene

  /** The four coplanar floor targets that define the reference plane. */
  const BoxLabels: seq<string> := ["target 15", "target 11", "target 13", "target 9"]
  /** The two targets whose distance is the cage width. */
  const WidthLabels: seq<string> := ["target 11", "target 15"]
  /** The two targets that give the independent "upward" direction. */
  const UpLabels: seq<string> := ["target 11", "target 18"]

  /** The scene markers labelled `name`, in scene order. */
  function Matching(scene: seq<Marker>, name: string): (r: seq<Marker>)
    ensures |r| <= |scene|
    ensures forall m :: m in r <==> m in scene && m.name == name
  {
    if scene == [] then []
    else (if scene[0].name == name then [scene[0]] else []) + Matching(scene[1..], name)
  }

  /** Exactly one scene marker is labelled `name`. */
  predicate Unique(scene: seq<Marker>, name: string) {
    |Matching(scene, name)| == 1
  }

  /** The markers that a lookup of `labels` keeps: for each label in request
      order, its marker when exactly one scene marker carries it. */
  function Resolve(scene: seq<Marker>, labels: seq<string>): (r: seq<Marker>)
    ensures |r| <= |labels|
  {
    if labels == [] then []
    else
      var last := labels[|labels| - 1];
      var found := Matching(scene, last);
      Resolve(scene, labels[..|labels| - 1]) + (if |found| == 1 then [found[0]] else [])
  }

  /** Looks up every label, keeping a marker only when exactly one scene
      marker carries that label (Temp.py `findMarkers`). */
  method FindMarkers(scene: seq<Marker>, labels: seq<string>) returns (markers: seq<Marker>)
    ensures markers == Resolve(scene, labels)
  {
    markers := [];
    for i := 0 to |labels|
      invariant markers == Resolve(scene, labels[..i])
    {
      var found := Matching(scene, labels[i]);
      if |found| == 1 {
        markers := markers + [found[0]];
      }
      assert labels[..i + 1][..i] == labels[..i];
    }
    assert labels[..|labels|] == labels;
  }

  /** Every marker kept is a scene marker, carries a requested label, and is
      the only scene marker carrying it. */
  lemma {:induction false} ResolveSound(scene: seq<Marker>, labels: seq<string>, m: Marker)
    requires m in Resolve(scene, labels)
    ensures m in scene && m.name in labels && Unique(scene, m.name)
    ensures m == Matching(scene, m.name)[0]
  {
    var init := labels[..|labels| - 1];
    var last := labels[|labels| - 1];
    var found := Matching(scene, last);
    if m in Resolve(scene, init) {
      ResolveSound(scene, init, m);
      assert m.name in labels by {
        var k :| 0 <= k < |init| && init[k] == m.name;
        assert labels[k] == m.name;
      }
    } else {
      assert |found| == 1 && m == found[0];
      assert found[0] in found;
    }
  }

  /** Every requested label that exactly one marker carries is resolved. */
  lemma {:induction false} ResolveFinds(scene: seq<Marker>, labels: seq<string>, name: string)
    requires name in labels && Unique(scene, name)
    ensures Matching(scene, name)[0] in Resolve(scene, labels)
  {
    var last := labels[|labels| - 1];
    if last != name {
      assert name in labels[..|labels| - 1] by {
        var k :| 0 <= k < |labels| && labels[k] == name;
        assert k < |labels| - 1;
        assert labels[..|labels| - 1][k] == name;
      }
      ResolveFinds(scene, labels[..|labels| - 1], name);
    }
  }

  /** Every requested label is carried by exactly one scene marker. */
  predicate AllUnique(scene: seq<Marker>, labels: seq<string>) {
    forall i :: 0 <= i < |labels| ==> Unique(scene, labels[i])
  }

  /** Every label of a list is uniquely carried exactly when every label of
      the list without its last one is, and the last one is too. */
  lemma AllUniqueSnoc(scene: seq<Marker>, labels: seq<string>)
    requires labels != []
    ensures AllUnique(scene, labels) <==>
      AllUnique(scene, labels[..|labels| - 1]) && Unique(scene, labels[|labels| - 1])
  {
    var init := labels[..|labels| - 1];
    assert forall i :: 0 <= i < |init| ==> init[i] == labels[i];
  }

  /** The lookup keeps every label exactly when each one is carried by
      exactly one marker. */
  lemma {:induction false} ResolveKeepsAll(scene: seq<Marker>, labels: seq<string>)
    ensures |Resolve(scene, labels)| == |labels| <==> AllUnique(scene, labels)
  {
    if labels != [] {
      var init := labels[..|labels| - 1];
      var last := labels[|labels| - 1];
      ResolveKeepsAll(scene, init);
      AllUniqueSnoc(scene, labels);
      assert |Resolve(scene, labels)| == |Resolve(scene, init)| + (if Unique(scene, last) then 1 else 0);
    }
  }

  /** When every label is resolved, the k-th marker found is the one
      carrying the k-th label: request order is kept. */
  lemma {:induction false} ResolveInOrder(scene: seq<Marker>, labels: seq<string>, k: int)
    requires AllUnique(scene, labels) && 0 <= k < |labels|
    ensures |Resolve(scene, labels)| == |labels|
    ensures Resolve(scene, labels)[k] == Matching(scene, labels[k])[0]
    ensures Resolve(scene, labels)[k].name == labels[k]
  {
    ResolveKeepsAll(scene, labels);
    var init := labels[..|labels| - 1];
    var last := labels[|labels| - 1];
    AllUniqueSnoc(scene, labels);
    ResolveKeepsAll(scene, init);
    var r := Resolve(scene, labels);
    var ri := Resolve(scene, init);
    var found := Matching(scene, last);
    assert r == ri + [found[0]];
    if k < |init| {
      ResolveInOrder(scene, init, k);
      assert init[k] == labels[k];
      assert r[k] == ri[k];
    } else {
      assert labels[k] == last;
      assert r[k] == found[0];
    }
    assert Matching(scene, labels[k])[0] in Matching(scene, labels[k]);
  }

  /** Scene position `i` carries `name`, and no other position does. */
  predicate OnlyCarrier(scene: seq<Marker>, name: string, i: int) {
    && 0 <= i < |scene| && scene[i].name == name
    && forall j :: 0 <= j < |scene| && scene[j].name == name ==> j == i
  }

  /** No scene marker carries `name` exactly when none is a candidate. */
  lemma NoCarrier(scene: seq<Marker>, name: string)
    ensures |Matching(scene, name)| == 0 <==> forall j :: 0 <= j < |scene| ==> scene[j].name != name
  {
    if |Matching(scene, name)| > 0 {
      assert Matching(scene, name)[0] in Matching(scene, name);
    } else {
      forall j | 0 <= j < |scene|
        ensures scene[j].name != name
      {
        assert scene[j] in scene;
      }
    }
  }

  /** When the first marker carries the label, it is uniquely carried
      exactly when the first position is its only carrier. */
  lemma UniqueAtHead(scene: seq<Marker>, name: string)
    requires scene != [] && scene[0].name == name
    ensures Unique(scene, name) <==> OnlyCarrier(scene, name, 0)
    ensures Unique(scene, name) <==> exists i :: OnlyCarrier(scene, name, i)
  {
    var rest := scene[1..];
    NoCarrier(rest, name);
    assert forall j :: 1 <= j < |scene| ==> scene[j] == rest[j - 1];
    assert |Matching(scene, name)| == 1 + |Matching(rest, name)|;
  }

  /** When the first marker does not carry the label, unique carriers of
      the scene are those of the rest, one position further on. */
  lemma OnlyCarrierPastHead(scene: seq<Marker>, name: string)
    requires scene != [] && scene[0].name != name
    ensures (exists i :: OnlyCarrier(scene, name, i)) <==> exists i :: OnlyCarrier(scene[1..], name, i)
  {
    var rest := scene[1..];
    assert forall j :: 1 <= j < |scene| ==> scene[j] == rest[j - 1];
    if exists i :: OnlyCarrier(scene, name, i) {
      var i :| OnlyCarrier(scene, name, i);
      assert OnlyCarrier(rest, name, i - 1);
    }
    if exists i :: OnlyCarrier(rest, name, i) {
      var i :| OnlyCarrier(rest, name, i);
      assert OnlyCarrier(scene, name, i + 1);
    }
  }

  /** A label is uniquely carried exactly when one scene position carries
      it and no other position does (the `len(foundMarker) == 1` test). */
  lemma {:induction false} UniqueIffOneCarrier(scene: seq<Marker>, name: string)
    ensures Unique(scene, name) <==> exists i :: OnlyCarrier(scene, name, i)
  {
    if scene != [] {
      if scene[0].name == name {
        UniqueAtHead(scene, name);
      } else {
        UniqueIffOneCarrier(scene[1..], name);
        OnlyCarrierPastHead(scene, name);
        assert Matching(scene, name) == Matching(scene[1..], name);
      }
    }
  }

  /** Looking up one label keeps its marker exactly when the label is
      uniquely carried. */
  lemma ResolveOne(scene: seq<Marker>, name: string)
    ensures Resolve(scene, [name]) == if Unique(scene, name) then [Matching(scene, name)[0]] else []
  {
    assert [name][..0] == [];
  }

  /** Looking up two label lists one after the other gives the two results
      one after the other: whatever is dropped, the markers kept stay in
      request order. */
  lemma {:induction false} ResolveAppend(scene: seq<Marker>, a: seq<string>, b: seq<string>)
    ensures Resolve(scene, a + b) == Resolve(scene, a) + Resolve(scene, b)
  {
    if b == [] {
      assert a + b == a;
    } else {
      var init := b[..|b| - 1];
      var last := b[|b| - 1];
      var found := Matching(scene, last);
      var tail := if |found| == 1 then [found[0]] else [];
      ResolveAppend(scene, a, init);
      assert (a + b)[..|a + b| - 1] == a + init;
      assert (a + b)[|a + b| - 1] == last;
      assert Resolve(scene, a + b) == Resolve(scene, a + init) + tail;
      assert Resolve(scene, b) == Resolve(scene, init) + tail;
    }
  }

  /** A sequence holding two different values has at least two elements. */
  lemma TwoMembers<T>(s: seq<T>, a: T, b: T)
    requires a in s && b in s && a != b
    ensures |s| >= 2
  {
  }

  /** Whenever both width targets resolve, at least two of the four floor
      targets resolve too (the width targets are among them), so the
      floor centroid is always defined where the cage width is. */
  lemma WidthResolvedGivesBox(scene: seq<Marker>)
    requires |Resolve(scene, WidthLabels)| == |WidthLabels|
    ensures |Resolve(scene, BoxLabels)| >= 2
  {
    ResolveKeepsAll(scene, WidthLabels);
    assert Unique(scene, WidthLabels[0]) && Unique(scene, WidthLabels[1]);
    ResolveFinds(scene, BoxLabels, "target 11");
    ResolveFinds(scene, BoxLabels, "target 15");
    var m11 := Matching(scene, "target 11")[0];
    var m15 := Matching(scene, "target 15")[0];
    assert m11 in Matching(scene, "target 11") && m15 in Matching(scene, "target 15");
    assert m11.name != m15.name;
    TwoMembers(Resolve(scene, BoxLabels), m11, m15);
  }

  /** The positions of `markers`, in order. */
  function Positions(markers: seq<Marker>): (ps: seq<Vec3>)
    ensures |ps| == |markers| && forall i :: 0 <= i < |markers| ==> ps[i] == markers[i].position
  {
    seq(|markers|, i requires 0 <= i < |markers| => markers[i].position)
  }

  /** The componentwise sum of `ps`. */
  function Sum(ps: seq<Vec3>): Vec3 {
    if ps == [] then Zero else Add(ps[0], Sum(ps[1..]))
  }

  /** The componentwise arithmetic mean (numpy `mean(points, axis=0)`):
      `|ps|` copies of it add up to the sum of the points. */
  function Mean(ps: seq<Vec3>): (c: Vec3)
    requires |ps| > 0
    ensures Scale(c, |ps| as real) == Sum(ps)
  {
    Scale(Sum(ps), 1.0 / (|ps| as real))
  }

  /** Each point minus `c`. */
  function Centered(ps: seq<Vec3>, c: Vec3): (qs: seq<Vec3>)
    ensures |qs| == |ps| && forall i :: 0 <= i < |ps| ==> qs[i] == Sub(ps[i], c)
  {
    seq(|ps|, i requires 0 <= i < |ps| => Sub(ps[i], c))
  }

  /** `m + 1` copies of `c` are `c` plus `m` copies. */
  lemma ScaleSucc(c: Vec3, m: real)
    ensures Scale(c, m + 1.0) == Add(c, Scale(c, m))
  {
    assert c.x * (m + 1.0) == c.x + c.x * m;
    assert c.y * (m + 1.0) == c.y + c.y * m;
    assert c.z * (m + 1.0) == c.z + c.z * m;
  }

  /** Subtracting `c` from every point subtracts `|ps|` copies of it from the sum. */
  lemma {:induction false} SumCentered(ps: seq<Vec3>, c: Vec3)
    ensures Sum(Centered(ps, c)) == Sub(Sum(ps), Scale(c, |ps| as real))
  {
    if ps != [] {
      SumCentered(ps[1..], c);
      assert Centered(ps, c)[1..] == Centered(ps[1..], c);
      var m := (|ps| - 1) as real;
      assert |ps| as real == m + 1.0;
      ScaleSucc(c, m);
    }
  }

  /** The points centered on their mean add up to the zero vector. */
  lemma CenteredOnMeanSumsToZero(ps: seq<Vec3>)
    requires |ps| > 0
    ensures Sum(Centered(ps, Mean(ps))) == Zero
  {
    SumCentered(ps, Mean(ps));
  }

  /** The mean of four points is the sum of their coordinates divided by four. */
  lemma MeanOfFour(a: Vec3, b: Vec3, c: Vec3, d: Vec3)
    ensures Mean([a, b, c, d]) ==
      Vec3((a.x + b.x + c.x + d.x) / 4.0, (a.y + b.y + c.y + d.y) / 4.0, (a.z + b.z + c.z + d.z) / 4.0)
  {
    var ps := [a, b, c, d];
    assert Sum([d]) == Add(d, Zero) by { assert [d][1..] == []; }
    assert Sum([c, d]) == Add(c, Sum([d])) by { assert [c, d][1..] == [d]; }
    assert Sum([b, c, d]) == Add(b, Sum([c, d])) by { assert [b, c, d][1..] == [c, d]; }
    assert Sum(ps) == Add(a, Sum([b, c, d])) by { assert ps[1..] == [b, c, d]; }
  }
}
