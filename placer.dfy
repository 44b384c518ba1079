/** The placer window: its state and the routines that change it. */
module PlacerTool {
  import opened Unity
  import opened Sampler
  import opened Selection
  import opened Radius
  import opened Pipeline

  class Placer {
    var radius: real
    var spawnCount: nat
    /** The prefabs found under Assets/Prefabs, one button each. */
    const prefabs: seq<GameObject>
    var selectedPrefabs: seq<GameObject>
    var prefabsInsideCircle: array<PrefabData>
    var pointsToSpawnPrefabs: seq<SpawnData>
    /** Unity's global random generator. */
    const random: Random
    /** Every object instantiated so far, in order. */
    ghost var instantiated: seq<Instance>

    /** What holds between two calls from the editor. */
    ghost predicate Valid()
      reads this`selectedPrefabs, this`pointsToSpawnPrefabs, this`prefabsInsideCircle, this`spawnCount
    {
      && random.stream.Valid()
      && Distinct(selectedPrefabs)
      && pointsToSpawnPrefabs == []
      && prefabsInsideCircle.Length == spawnCount
    }

    /** The batch is the one GenerateSpawnPoints draws from random state k. */
    ghost predicate Regenerated(k: nat)
      reads this`prefabsInsideCircle, this`spawnCount, this`selectedPrefabs, prefabsInsideCircle, random
    {
      && random.stream.Valid()
      && prefabsInsideCircle.Length == spawnCount
      && (prefabsInsideCircle[..], random.state) == Batch(random.stream, selectedPrefabs, spawnCount, spawnCount, k)
    }

    /** The field initialisers and OnEnable, given the saved radius and count,
        the prefabs found in the project and the random generator. */
    constructor (savedRadius: real, savedSpawnCount: nat, prefabs: seq<GameObject>, random: Random)
      requires random.stream.Valid()
      modifies random
      ensures Valid() && fresh(prefabsInsideCircle) && Regenerated(old(random.state))
      ensures this.random == random && this.prefabs == prefabs
      ensures radius == savedRadius && spawnCount == savedSpawnCount
      ensures selectedPrefabs == [] && pointsToSpawnPrefabs == [] && instantiated == []
    {
      this.random := random;
      this.prefabs := prefabs;
      radius := savedRadius;
      spawnCount := savedSpawnCount;
      selectedPrefabs := [];
      pointsToSpawnPrefabs := [];
      instantiated := [];
      prefabsInsideCircle := new PrefabData[0];
      new;
      GenerateSpawnPoints();
    }

    /** A fresh batch of spawnCount samples. */
    method GenerateSpawnPoints()
      requires random.stream.Valid()
      modifies this`prefabsInsideCircle, random
      ensures fresh(prefabsInsideCircle) && Regenerated(old(random.state))
    {
      var n := spawnCount;
      prefabsInsideCircle := new PrefabData[n](_ => Blank);
      // with no samples there is no pair to compare, so this value is never read
      var distanceBetweenPrefabsSq := if n > 0 then MinSpacingSq(n) else 0.0;
      ghost var s := random.stream;
      ghost var k0 := random.state;
      for i := 0 to n
        invariant fresh(prefabsInsideCircle) && prefabsInsideCircle.Length == n
        invariant (prefabsInsideCircle[..i], random.state) == Batch(s, selectedPrefabs, n, i, k0)
      {
        ghost var prev := prefabsInsideCircle[..i];
        ghost var k := random.state;
        DrawSample(i);
        assert prefabsInsideCircle[..i] == prev;
        SeparateSample(i, distanceBetweenPrefabsSq);
        assert prefabsInsideCircle[..i] == prev;
        assert (prefabsInsideCircle[i], random.state) == Entry(s, prev, selectedPrefabs, n, k);
        assert prefabsInsideCircle[..i + 1] == prev + [prefabsInsideCircle[i]];
      }
      assert prefabsInsideCircle[..] == prefabsInsideCircle[..n];
    }

    /** The first part of the body of GenerateSpawnPoints' loop: SetRandValues,
        the point and, when a prefab is selected, the prefab and its height. */
    method DrawSample(i: nat)
      requires random.stream.Valid() && i < prefabsInsideCircle.Length
      modifies prefabsInsideCircle, random
      ensures forall t :: 0 <= t < prefabsInsideCircle.Length && t != i ==> prefabsInsideCircle[t] == old(prefabsInsideCircle[t])
      ensures (prefabsInsideCircle[i], random.state) == Drawn(random.stream, selectedPrefabs, old(random.state))
    {
      var selectedCount := |selectedPrefabs|;
      var value := random.Value();
      prefabsInsideCircle[i] := prefabsInsideCircle[i].SetRandValues(value);
      var point := random.InsideUnitCircle();
      prefabsInsideCircle[i] := prefabsInsideCircle[i].(pointInDisc := point);
      if selectedCount > 0 {
        var index := random.Range(0, selectedCount);
        prefabsInsideCircle[i] := prefabsInsideCircle[i].(prefab := selectedPrefabs[index]);
        var height := CalculateObjectHeight(prefabsInsideCircle[i].prefab);
        prefabsInsideCircle[i] := prefabsInsideCircle[i].(height := height);
      }
    }

    /** The `for j` loop of GenerateSpawnPoints: retry sample i against samples
        i - 1 down to 0. Only the point of sample i changes. */
    method SeparateSample(i: nat, distanceBetweenPrefabsSq: real)
      requires random.stream.Valid() && i < prefabsInsideCircle.Length
      requires distanceBetweenPrefabsSq == MinSpacingSq(prefabsInsideCircle.Length)
      modifies prefabsInsideCircle, random
      ensures forall t :: 0 <= t < prefabsInsideCircle.Length && t != i ==> prefabsInsideCircle[t] == old(prefabsInsideCircle[t])
      ensures prefabsInsideCircle[i] == old(prefabsInsideCircle[i]).(pointInDisc := prefabsInsideCircle[i].pointInDisc)
      ensures (prefabsInsideCircle[i].pointInDisc, random.state)
           == Separate(random.stream, old(prefabsInsideCircle[..i]), i, old(prefabsInsideCircle[i].pointInDisc), prefabsInsideCircle.Length, old(random.state))
    {
      ghost var prev := prefabsInsideCircle[..i];
      ghost var n := prefabsInsideCircle.Length;
      var j := i - 1;
      while j >= 0
        invariant -1 <= j < i
        invariant forall t :: 0 <= t < prefabsInsideCircle.Length && t != i ==> prefabsInsideCircle[t] == old(prefabsInsideCircle[t])
        invariant prefabsInsideCircle[i] == old(prefabsInsideCircle[i]).(pointInDisc := prefabsInsideCircle[i].pointInDisc)
        invariant Separate(random.stream, prev, j + 1, prefabsInsideCircle[i].pointInDisc, n, random.state)
               == Separate(random.stream, prev, i, old(prefabsInsideCircle[i].pointInDisc), n, old(random.state))
      {
        assert prefabsInsideCircle[j] == prev[j];
        RetryAgainst(i, j, distanceBetweenPrefabsSq);
        j := j - 1;
      }
    }

    /** The retry loop of sample i against the earlier sample j: the distance
        is measured once, then the point is redrawn while that first distance is
        below the threshold and fewer than maxTriesToSpawn draws were made. */
    method RetryAgainst(i: nat, j: nat, distanceBetweenPrefabsSq: real)
      requires random.stream.Valid() && j < i < prefabsInsideCircle.Length
      modifies prefabsInsideCircle, random
      ensures forall t :: 0 <= t < prefabsInsideCircle.Length && t != i ==> prefabsInsideCircle[t] == old(prefabsInsideCircle[t])
      ensures prefabsInsideCircle[i] == old(prefabsInsideCircle[i]).(pointInDisc := prefabsInsideCircle[i].pointInDisc)
      ensures (prefabsInsideCircle[i].pointInDisc, random.state)
           == Retry(random.stream, SqDistance(old(prefabsInsideCircle[i].pointInDisc), old(prefabsInsideCircle[j].pointInDisc)) < distanceBetweenPrefabsSq,
                    old(prefabsInsideCircle[i].pointInDisc), 0, old(random.state))
    {
      var maxTriesToSpawn := MaxTriesToSpawn;
      var triesCount := 0;
      var minimumDistanceSq := SqDistance(prefabsInsideCircle[i].pointInDisc, prefabsInsideCircle[j].pointInDisc);
      ghost var tooClose := minimumDistanceSq < distanceBetweenPrefabsSq;
      while minimumDistanceSq < distanceBetweenPrefabsSq && triesCount < maxTriesToSpawn
        invariant 0 <= triesCount <= MaxTriesToSpawn
        invariant forall t :: 0 <= t < prefabsInsideCircle.Length && t != i ==> prefabsInsideCircle[t] == old(prefabsInsideCircle[t])
        invariant prefabsInsideCircle[i] == old(prefabsInsideCircle[i]).(pointInDisc := prefabsInsideCircle[i].pointInDisc)
        invariant Retry(random.stream, tooClose, prefabsInsideCircle[i].pointInDisc, triesCount, random.state)
               == Retry(random.stream, tooClose, old(prefabsInsideCircle[i].pointInDisc), 0, old(random.state))
      {
        var redrawn := random.InsideUnitCircle();
        prefabsInsideCircle[i] := prefabsInsideCircle[i].(pointInDisc := redrawn);
        triesCount := triesCount + 1;
      }
    }

    /** The tallest mesh filter of a prefab, and 0 for none. */
    method CalculateObjectHeight(prefab: GameObject?) returns (h: real)
      ensures h == ObjectHeight(prefab)
      ensures prefab == null ==> h == 0.0
      ensures h >= 0.0
      ensures prefab != null ==> forall f :: f in prefab.meshFilters ==> FilterHeight(f) <= h
      ensures prefab != null ==> h == 0.0 || exists f :: f in prefab.meshFilters && FilterHeight(f) == h
    {
      if prefab != null {
        var filters := prefab.meshFilters;
        var maxHeight := 0.0;
        for i := 0 to |filters|
          invariant maxHeight == MaxFilterHeight(filters[..i])
        {
          var height := FilterHeight(filters[i]);
          if height > maxHeight {
            maxHeight := height;
          }
          assert filters[..i + 1][..i] == filters[..i];
        }
        assert filters[..|filters|] == filters;
        MaxFilterHeightIsMax(filters);
        return maxHeight;
      }
      return 0.0;
    }

    /** The press of a prefab's button: select it if it is not selected,
        deselect it otherwise, then draw a new batch. */
    method TogglePrefab(prefab: GameObject)
      requires Valid()
      modifies this`selectedPrefabs, this`prefabsInsideCircle, random
      ensures Valid() && fresh(prefabsInsideCircle) && Regenerated(old(random.state))
      ensures selectedPrefabs == Toggled(old(selectedPrefabs), prefab)
      ensures prefab in selectedPrefabs <==> prefab !in old(selectedPrefabs)
      ensures forall g :: g != prefab ==> (g in selectedPrefabs <==> g in old(selectedPrefabs))
      ensures Without(selectedPrefabs, prefab) == Without(old(selectedPrefabs), prefab)
    {
      ToggledFlips(selectedPrefabs, prefab);
      ToggledKeepsOrder(selectedPrefabs, prefab);
      forall g | g != prefab ensures g in Toggled(selectedPrefabs, prefab) <==> g in selectedPrefabs {
        ToggledKeepsOthers(selectedPrefabs, prefab, g);
      }
      if prefab !in selectedPrefabs {
        selectedPrefabs := selectedPrefabs + [prefab];
      } else {
        selectedPrefabs := Remove(selectedPrefabs, prefab);
      }
      GenerateSpawnPoints();
    }

    /** The scroll part of HandleInput; returns the event as later code sees it. */
    method HandleInput(ev: Event) returns (after: Event)
      modifies this`radius
      ensures IsRadiusScroll(ev) ==> radius == ScrolledRadius(old(radius), ev.deltaY) && after == ev.(kind := Used)
      ensures IsRadiusScroll(ev) ==> MinRadius <= radius
      ensures !IsRadiusScroll(ev) ==> radius == old(radius) && after == ev
    {
      after := ev;
      var isHoldingAlt := ev.altHeld;
      if ev.kind == ScrollWheel && !isHoldingAlt {
        var signScroll := Sign(ev.deltaY);
        radius := radius * (1.0 + signScroll * ScrollStep);
        radius := Clamp(radius, MinRadius, FloatMax);
        after := ev.(kind := Used);
      }
    }

    /** The loop over the batch under a mouse hit: append each sample whose
        probe ray hits and is not obstructed. */
    method CollectSpawnPoints(probe: Probe, cast: Raycast)
      modifies this`pointsToSpawnPrefabs
      ensures pointsToSpawnPrefabs == old(pointsToSpawnPrefabs) + Candidates(prefabsInsideCircle[..], probe, cast)
    {
      for i := 0 to prefabsInsideCircle.Length
        invariant pointsToSpawnPrefabs == old(pointsToSpawnPrefabs) + Candidates(prefabsInsideCircle[..i], probe, cast)
      {
        var p := prefabsInsideCircle[i];
        var worldPos := ProbeOrigin(p, probe);
        var hit2 := cast(worldPos, Neg(probe.hitNormal), ProbeReach);
        if hit2.Some? {
          if !cast(hit2.value.point, hit2.value.normal, p.height).Some? {
            var rot := Product(LookRotation(Cross(hit2.value.normal, probe.cameraUp), hit2.value.normal), Euler(0.0, p.randAngleDeg, 0.0));
            var spawnPoint := SpawnData(Pose(hit2.value.point, rot), p.prefab);
            pointsToSpawnPrefabs := pointsToSpawnPrefabs + [spawnPoint];
          }
        }
        assert prefabsInsideCircle[..i + 1][..i] == prefabsInsideCircle[..i];
      }
      assert prefabsInsideCircle[..] == prefabsInsideCircle[..prefabsInsideCircle.Length];
    }

    /** Instantiate one object per collected spawn point that has a prefab. */
    method TrySpawnPoints(up: Quaternion -> Vec3)
      modifies this`instantiated
      ensures instantiated == old(instantiated) + Instances(pointsToSpawnPrefabs, up)
    {
      for i := 0 to |pointsToSpawnPrefabs|
        invariant instantiated == old(instantiated) + Instances(pointsToSpawnPrefabs[..i], up)
      {
        var hitPoint := pointsToSpawnPrefabs[i];
        if hitPoint.prefab != null {
          var rotation := hitPoint.hitPose.rotation;
          var position := Add(hitPoint.hitPose.position, Scale(up(rotation), hitPoint.prefab.positionY));
          instantiated := instantiated + [Instance(hitPoint.prefab, position, rotation)];
        }
        assert pointsToSpawnPrefabs[..i + 1][..i] == pointsToSpawnPrefabs[..i];
      }
      assert pointsToSpawnPrefabs[..|pointsToSpawnPrefabs|] == pointsToSpawnPrefabs;
    }

    /** A Space key-down commits the collected spawn points. */
    static predicate IsCommit(ev: Event) {
      ev.kind == KeyDown && ev.keyCode == Space
    }

    /** The Space key-down branch: instantiate the collected spawn points, then draw a new batch. */
    method Commit(up: Quaternion -> Vec3)
      requires random.stream.Valid()
      modifies this`instantiated, this`prefabsInsideCircle, random
      ensures instantiated == old(instantiated) + Instances(pointsToSpawnPrefabs, up)
      ensures fresh(prefabsInsideCircle) && Regenerated(old(random.state))
    {
      TrySpawnPoints(up);
      GenerateSpawnPoints();
    }

    /** The part of DuringSceneGUI under the mouse ray: with a hit, collect the
        spawn points, commit them on a Space key-down (then draw a new batch)
        and clear them; without one, nothing happens. */
    method SceneFrame(ev: Event, mouseHit: Option<RaycastHit>, cameraUp: Vec3,
                      normalized: Vec3 -> Vec3, cast: Raycast, up: Quaternion -> Vec3)
      requires Valid()
      modifies this`pointsToSpawnPrefabs, this`instantiated, this`prefabsInsideCircle, random
      ensures Valid()
      ensures mouseHit.Some? && IsCommit(ev) ==>
                && instantiated == old(instantiated) + Instances(Candidates(old(prefabsInsideCircle[..]), TangentProbe(mouseHit.value, radius, cameraUp, normalized), cast), up)
                && fresh(prefabsInsideCircle) && Regenerated(old(random.state))
      ensures !(mouseHit.Some? && IsCommit(ev)) ==>
                && instantiated == old(instantiated)
                && prefabsInsideCircle == old(prefabsInsideCircle) && random.state == old(random.state)
    {
      if mouseHit.Some? {
        var hit := mouseHit.value;
        var hitTangent := normalized(Cross(hit.normal, cameraUp));
        var hitBiTangent := Cross(hit.normal, hitTangent);
        var probe := Probe(hit.point, hit.normal, hitTangent, hitBiTangent, radius, cameraUp);
        assert probe == TangentProbe(hit, radius, cameraUp, normalized);
        CollectSpawnPoints(probe, cast);
        assert pointsToSpawnPrefabs == Candidates(old(prefabsInsideCircle[..]), probe, cast);
        var spaceIsPressed := ev.kind == KeyDown && ev.keyCode == Space;
        if spaceIsPressed {
          Commit(up);
        }
        pointsToSpawnPrefabs := [];
      }
    }

    /** One scene-view event: the prefab button pressed, if any; the scroll;
        then the mouse-ray part. */
    method DuringSceneGui(ev: Event, clicked: GameObject?, mouseHit: Option<RaycastHit>, cameraUp: Vec3,
                          normalized: Vec3 -> Vec3, cast: Raycast, up: Quaternion -> Vec3)
      requires Valid()
      requires clicked != null ==> clicked in prefabs
      modifies this, random
      ensures Valid()
      ensures spawnCount == old(spawnCount)
      ensures selectedPrefabs == if clicked == null then old(selectedPrefabs) else Toggled(old(selectedPrefabs), clicked as GameObject)
      ensures radius == if IsRadiusScroll(ev) then ScrolledRadius(old(radius), ev.deltaY) else old(radius)
      ensures var drawn := Batch(random.stream, selectedPrefabs, spawnCount, spawnCount, old(random.state));
              var shown := if clicked == null then old(prefabsInsideCircle[..]) else drawn.0;
              var k := if clicked == null then old(random.state) else drawn.1;
              var commit := mouseHit.Some? && IsCommit(ev);
              && instantiated == old(instantiated)
                   + (if commit then Instances(Candidates(shown, TangentProbe(mouseHit.value, radius, cameraUp, normalized), cast), up) else [])
              && (if commit then Regenerated(k) else prefabsInsideCircle[..] == shown && random.state == k)
    {
      if clicked != null {
        TogglePrefab(clicked);
      }
      ghost var shown := prefabsInsideCircle[..];
      ghost var k := random.state;
      var current := HandleInput(ev);
      assert IsCommit(current) == IsCommit(ev);
      SceneFrame(current, mouseHit, cameraUp, normalized, cast, up);
    }

    /** After an undo or redo the batch is drawn again. The undo may already
        have put back an earlier spawnCount, so the array's length need not
        match it on entry. */
    method UndoRedoPerformed()
      requires random.stream.Valid() && Distinct(selectedPrefabs) && pointsToSpawnPrefabs == []
      modifies this`prefabsInsideCircle, random
      ensures Valid() && fresh(prefabsInsideCircle) && Regenerated(old(random.state))
    {
      GenerateSpawnPoints();
    }

    /** The inspector fields: the values entered, held to their [Min] bounds;
        a change redraws the batch at the new size. */
    method OnGui(enteredRadius: real, enteredSpawnCount: int)
      requires Valid()
      modifies this`radius, this`spawnCount, this`prefabsInsideCircle, random
      ensures Valid()
      ensures radius == (if enteredRadius < MinRadius then MinRadius else enteredRadius)
      ensures spawnCount == (if enteredSpawnCount < 0 then 0 else enteredSpawnCount)
      ensures radius != old(radius) || spawnCount != old(spawnCount) ==> fresh(prefabsInsideCircle) && Regenerated(old(random.state))
      ensures radius == old(radius) && spawnCount == old(spawnCount) ==> prefabsInsideCircle == old(prefabsInsideCircle) && random.state == old(random.state)
    {
      var newRadius := if enteredRadius < MinRadius then MinRadius else enteredRadius;
      var newSpawnCount: nat := if enteredSpawnCount < 0 then 0 else enteredSpawnCount;
      if newRadius != radius || newSpawnCount != spawnCount {
        radius, spawnCount := newRadius, newSpawnCount;
        GenerateSpawnPoints();
      }
    }
  }
}
