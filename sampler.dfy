/** The reference definition of one batch of spawn samples: what
    Placer.GenerateSpawnPoints leaves in prefabsInsideCircle and how many
    random draws it takes, as a function of the random stream. */
module Sampler {
  import opened Unity

  /** maxTriesToSpawn */
  const MaxTriesToSpawn: nat := 10

  /** Mathf.PI, the float value of pi rounded to nine digits. */
  const PI: real := 3.14159274

  /** One sample of the batch (Placer.PrefabData). */
  datatype PrefabData = PrefabData(prefab: GameObject?, height: real, pointInDisc: Vec2, randAngleDeg: real)
  {
    /** PrefabData.SetRandValues, given the Random.value it draws. */
    function SetRandValues(value: real): (d: PrefabData)
      ensures d.prefab == null && d.height == 0.0 && d.pointInDisc == pointInDisc
      ensures d.randAngleDeg == value * 360.0
      ensures 0.0 <= value <= 1.0 ==> 0.0 <= d.randAngleDeg <= 360.0
    {
      this.(height := 0.0, randAngleDeg := value * 360.0, prefab := null)
    }
  }

  /** The value every element of a new PrefabData array starts with. */
  const Blank := PrefabData(null, 0.0, Vec2(0.0, 0.0), 0.0)

  /** The square of distanceBetweenPrefabs = (sqrt(PI / n) / 2) * 2 * 0.30. */
  function MinSpacingSq(n: nat): (d: real)
    requires n > 0
    ensures 0.0 < d <= 0.09 * PI
  {
    0.09 * PI / (n as real)
  }

  /** Vector2.Distance(p, q) < distanceBetweenPrefabs, compared on squares. */
  predicate TooClose(p: Vec2, q: Vec2, n: nat)
    requires n > 0
  {
    SqDistance(p, q) < MinSpacingSq(n)
  }

  /** The height of one mesh filter: its world y plus the top of its bounds, scaled. */
  function FilterHeight(f: MeshFilter): real {
    f.worldY + f.boundsMaxY * f.lossyScaleY
  }

  /** The running maximum of CalculateObjectHeight, started at 0. */
  function MaxFilterHeight(filters: seq<MeshFilter>): (h: real)
    ensures h >= 0.0
    ensures filters != [] ==> h >= FilterHeight(filters[|filters| - 1])
  {
    if filters == [] then 0.0
    else
      var m := MaxFilterHeight(filters[..|filters| - 1]);
      var h := FilterHeight(filters[|filters| - 1]);
      if h > m then h else m
  }

  /** What CalculateObjectHeight returns. */
  function ObjectHeight(prefab: GameObject?): (h: real)
    ensures h >= 0.0
    ensures prefab == null ==> h == 0.0
  {
    if prefab == null then 0.0 else MaxFilterHeight(prefab.meshFilters)
  }

  /** The fold is at least 0 and every filter's height, and is 0 or one of them. */
  lemma {:induction false} MaxFilterHeightIsMax(filters: seq<MeshFilter>)
    ensures MaxFilterHeight(filters) >= 0.0
    ensures forall f :: f in filters ==> FilterHeight(f) <= MaxFilterHeight(filters)
    ensures MaxFilterHeight(filters) == 0.0 || exists f :: f in filters && FilterHeight(f) == MaxFilterHeight(filters)
  {
    if filters != [] {
      var init := filters[..|filters| - 1];
      MaxFilterHeightIsMax(init);
      assert filters == init + [filters[|filters| - 1]];
    }
  }

  /** The retry loop for one earlier sample. `tooClose` is evaluated once,
      before the loop, and never again: the loop redraws while it holds and
      fewer than MaxTriesToSpawn draws were made. Gives the final point and
      the next random state. */
  function Retry(s: RandomStream, tooClose: bool, p: Vec2, tries: nat, k: nat): (r: (Vec2, nat))
    requires tries <= MaxTriesToSpawn
    ensures !tooClose ==> r == (p, k)
    decreases MaxTriesToSpawn - tries
  {
    if tooClose && tries < MaxTriesToSpawn then Retry(s, tooClose, s.insideUnitCircle(k), tries + 1, k + 1)
    else (p, k)
  }

  /** The retry loop redraws no point at all or exactly the whole budget; after
      a full budget the point is the last draw, whatever its distance. */
  lemma {:induction false} RetryZeroOrAll(s: RandomStream, tooClose: bool, p: Vec2, tries: nat, k: nat)
    requires tries <= MaxTriesToSpawn
    ensures Retry(s, tooClose, p, tries, k).1 == k + (if tooClose then MaxTriesToSpawn - tries else 0)
    ensures Retry(s, tooClose, p, tries, k).0
         == if tooClose && tries < MaxTriesToSpawn then s.insideUnitCircle(k + MaxTriesToSpawn - tries - 1) else p
    decreases MaxTriesToSpawn - tries
  {
    if tooClose && tries < MaxTriesToSpawn {
      RetryZeroOrAll(s, tooClose, s.insideUnitCircle(k), tries + 1, k + 1);
    }
  }

  /** The inner `for j` loop: compare the point with earlier[m - 1], then
      earlier[m - 2], ..., earlier[0], retrying each time. */
  function Separate(s: RandomStream, earlier: seq<PrefabData>, m: nat, p: Vec2, n: nat, k: nat): (r: (Vec2, nat))
    requires m <= |earlier| < n
    ensures k <= r.1
  {
    if m == 0 then (p, k)
    else
      var (p', k') := Retry(s, TooClose(p, earlier[m - 1].pointInDisc, n), p, 0, k);
      Separate(s, earlier, m - 1, p', n, k')
  }

  /** Separation keeps the point inside the unit disc. */
  lemma {:induction false} SeparateInDisc(s: RandomStream, earlier: seq<PrefabData>, m: nat, p: Vec2, n: nat, k: nat)
    requires s.Valid() && m <= |earlier| < n
    requires SqMagnitude(p) <= 1.0
    ensures SqMagnitude(Separate(s, earlier, m, p, n, k).0) <= 1.0
  {
    if m > 0 {
      var tooClose := TooClose(p, earlier[m - 1].pointInDisc, n);
      RetryZeroOrAll(s, tooClose, p, 0, k);
      var (p', k') := Retry(s, tooClose, p, 0, k);
      SeparateInDisc(s, earlier, m - 1, p', n, k');
    }
  }

  /** A point that is far enough from every earlier one is never redrawn. */
  lemma {:induction false} SeparateKeepsSpacedPoint(s: RandomStream, earlier: seq<PrefabData>, m: nat, p: Vec2, n: nat, k: nat)
    requires m <= |earlier| < n
    requires forall j :: 0 <= j < m ==> !TooClose(p, earlier[j].pointInDisc, n)
    ensures Separate(s, earlier, m, p, n, k) == (p, k)
  {
    if m > 0 {
      SeparateKeepsSpacedPoint(s, earlier, m - 1, p, n, k);
    }
  }

  /** The random draw used to pick a prefab, when the selection is not empty. */
  function PickPrefab(s: RandomStream, selected: seq<GameObject>, k: nat): (g: GameObject)
    requires s.Valid() && |selected| > 0
    ensures g in selected
  {
    selected[s.range(k, 0, |selected|)]
  }

  /** The draws for one sample before any retry, from state k: Random.value
      for the angle, Random.insideUnitCircle for the point, then Random.Range
      for the prefab if any is selected. Gives the sample and the next state. */
  function Drawn(s: RandomStream, selected: seq<GameObject>, k: nat): (r: (PrefabData, nat))
    requires s.Valid()
    ensures r.1 == k + (if |selected| > 0 then 3 else 2)
    ensures r.0.randAngleDeg == s.value(k) * 360.0 && 0.0 <= r.0.randAngleDeg <= 360.0
    ensures SqMagnitude(r.0.pointInDisc) <= 1.0
    ensures |selected| == 0 ==> r.0.prefab == null && r.0.height == 0.0
    ensures |selected| > 0 ==> r.0.prefab != null && r.0.prefab in selected && r.0.height == ObjectHeight(r.0.prefab)
  {
    var d := Blank.SetRandValues(s.value(k)).(pointInDisc := s.insideUnitCircle(k + 1));
    if |selected| > 0 then
      var g := PickPrefab(s, selected, k + 2);
      (d.(prefab := g, height := ObjectHeight(g)), k + 3)
    else (d, k + 2)
  }

  /** Sample number |earlier| of a batch of n, drawn from state k: the draws,
      then the retries against every earlier sample. */
  function Entry(s: RandomStream, earlier: seq<PrefabData>, selected: seq<GameObject>, n: nat, k: nat): (r: (PrefabData, nat))
    requires s.Valid() && |earlier| < n
    ensures r.0 == Drawn(s, selected, k).0.(pointInDisc := r.0.pointInDisc)
    ensures k + 2 <= r.1
  {
    var (chosen, k') := Drawn(s, selected, k);
    var (point, k'') := Separate(s, earlier, |earlier|, chosen.pointInDisc, n, k');
    (chosen.(pointInDisc := point), k'')
  }

  /** The first `count` samples of a batch of n drawn from state k, and the next state. */
  function Batch(s: RandomStream, selected: seq<GameObject>, n: nat, count: nat, k: nat): (r: (seq<PrefabData>, nat))
    requires s.Valid() && count <= n
    ensures |r.0| == count
  {
    if count == 0 then ([], k)
    else
      var (prev, k1) := Batch(s, selected, n, count - 1, k);
      var (e, k2) := Entry(s, prev, selected, n, k1);
      (prev + [e], k2)
  }

  /** What every sample of a batch satisfies. */
  ghost predicate WellFormed(s: RandomStream, selected: seq<GameObject>, e: PrefabData) {
    && (exists j: nat :: e.randAngleDeg == s.value(j) * 360.0)
    && 0.0 <= e.randAngleDeg <= 360.0
    && SqMagnitude(e.pointInDisc) <= 1.0
    && (|selected| == 0 ==> e.prefab == null && e.height == 0.0)
    && (|selected| > 0 ==> e.prefab != null && e.prefab in selected && e.height == ObjectHeight(e.prefab))
  }

  lemma EntryWellFormed(s: RandomStream, earlier: seq<PrefabData>, selected: seq<GameObject>, n: nat, k: nat)
    requires s.Valid() && |earlier| < n
    ensures WellFormed(s, selected, Entry(s, earlier, selected, n, k).0)
  {
    var (chosen, k') := Drawn(s, selected, k);
    SeparateInDisc(s, earlier, |earlier|, chosen.pointInDisc, n, k');
    assert Entry(s, earlier, selected, n, k).0.randAngleDeg == s.value(k) * 360.0;
  }

  /** A batch has exactly `count` samples, each drawn as described. */
  lemma {:induction false} BatchWellFormed(s: RandomStream, selected: seq<GameObject>, n: nat, count: nat, k: nat)
    requires s.Valid() && count <= n
    ensures |Batch(s, selected, n, count, k).0| == count
    ensures forall i :: 0 <= i < count ==> WellFormed(s, selected, Batch(s, selected, n, count, k).0[i])
  {
    if count > 0 {
      BatchWellFormed(s, selected, n, count - 1, k);
      var (prev, k1) := Batch(s, selected, n, count - 1, k);
      EntryWellFormed(s, prev, selected, n, k1);
    }
  }

  /** Adding samples to a batch never changes the earlier ones: the retries
      of sample i redraw only sample i. */
  lemma {:induction false} BatchPrefixStable(s: RandomStream, selected: seq<GameObject>, n: nat, count: nat, m: nat, k: nat)
    requires s.Valid() && m <= count <= n
    ensures Batch(s, selected, n, count, k).0[..m] == Batch(s, selected, n, m, k).0
    decreases count
  {
    if m < count {
      BatchPrefixStable(s, selected, n, count - 1, m, k);
      var prev := Batch(s, selected, n, count - 1, k).0;
      assert Batch(s, selected, n, count, k).0[..count - 1] == prev;
    } else {
      assert Batch(s, selected, n, count, k).0[..m] == Batch(s, selected, n, count, k).0;
    }
  }
}
