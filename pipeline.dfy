/** The reference definition of one frame of the placer: which samples become
    spawn points under the current mouse hit, and which objects a commit creates. */
module Pipeline {
  import opened Unity
  import opened Sampler

  /** How far above the surface each sample's probe ray starts. */
  const ProbeLift: real := 2.0

  /** The length of each sample's probe ray. */
  const ProbeReach: real := 6.0

  /** A point to spawn at (Placer.SpawnData). */
  datatype SpawnData = SpawnData(hitPose: Pose, prefab: GameObject?)

  /** The mouse hit and its tangent frame, with the brush radius and the camera's up axis. */
  datatype Probe = Probe(hitPos: Vec3, hitNormal: Vec3, tangent: Vec3, bitangent: Vec3, radius: real, cameraUp: Vec3)

  /** An object created by a commit, with the transform it was given. */
  datatype Instance = Instance(prefab: GameObject, position: Vec3, rotation: Quaternion)

  /** The probe of a mouse hit: tangent = normalized(normal x camera up),
      bitangent = normal x tangent. */
  function TangentProbe(hit: RaycastHit, radius: real, cameraUp: Vec3, normalized: Vec3 -> Vec3): Probe {
    var tangent := normalized(Cross(hit.normal, cameraUp));
    Probe(hit.point, hit.normal, tangent, Cross(hit.normal, tangent), radius, cameraUp)
  }

  /** The world position of a sample, lifted off the surface. */
  function ProbeOrigin(p: PrefabData, probe: Probe): Vec3 {
    var inPlane := Add(Scale(probe.tangent, p.pointInDisc.x), Scale(probe.bitangent, p.pointInDisc.y));
    Add(Add(probe.hitPos, Scale(inPlane, probe.radius)), Scale(probe.hitNormal, ProbeLift))
  }

  /** The spawn rotation at a surface hit: aligned to its normal, then turned by the sample's angle. */
  function SpawnRotation(hit2: RaycastHit, p: PrefabData, probe: Probe): Quaternion {
    Product(LookRotation(Cross(hit2.normal, probe.cameraUp), hit2.normal), Euler(0.0, p.randAngleDeg, 0.0))
  }

  /** The spawn point a sample yields, if its probe ray hits and nothing stands
      within the prefab's height above that hit. */
  function SpawnFor(p: PrefabData, probe: Probe, cast: Raycast): (r: Option<SpawnData>)
    ensures r.Some? <==>
      var down := cast(ProbeOrigin(p, probe), Neg(probe.hitNormal), ProbeReach);
      down.Some? && cast(down.value.point, down.value.normal, p.height).None?
    ensures r.Some? ==>
      var hit2 := cast(ProbeOrigin(p, probe), Neg(probe.hitNormal), ProbeReach).value;
      r.value == SpawnData(Pose(hit2.point, SpawnRotation(hit2, p, probe)), p.prefab)
  {
    match cast(ProbeOrigin(p, probe), Neg(probe.hitNormal), ProbeReach)
    case None => None
    case Some(hit2) =>
      if cast(hit2.point, hit2.normal, p.height).Some? then None
      else Some(SpawnData(Pose(hit2.point, SpawnRotation(hit2, p, probe)), p.prefab))
  }

  /** The spawn points a frame collects from a batch, in sample order. */
  function Candidates(samples: seq<PrefabData>, probe: Probe, cast: Raycast): (r: seq<SpawnData>)
    ensures |r| <= |samples|
  {
    if samples == [] then []
    else
      Candidates(samples[..|samples| - 1], probe, cast)
      + match SpawnFor(samples[|samples| - 1], probe, cast)
        case None => []
        case Some(c) => [c]
  }

  /** The object one spawn point creates: none without a prefab; otherwise at
      the hit raised by the prefab's own y along the new object's up axis. */
  function Instantiate(sp: SpawnData, up: Quaternion -> Vec3): (r: Option<Instance>)
    ensures r.Some? <==> sp.prefab != null
    ensures r.Some? ==> r.value.prefab == sp.prefab && r.value.rotation == sp.hitPose.rotation
  {
    if sp.prefab == null then None
    else
      var rotation := sp.hitPose.rotation;
      Some(Instance(sp.prefab, Add(sp.hitPose.position, Scale(up(rotation), sp.prefab.positionY)), rotation))
  }

  /** The objects a commit creates from a list of spawn points, in list order. */
  function Instances(points: seq<SpawnData>, up: Quaternion -> Vec3): (r: seq<Instance>)
    ensures |r| <= |points|
  {
    if points == [] then []
    else
      Instances(points[..|points| - 1], up)
      + match Instantiate(points[|points| - 1], up)
        case None => []
        case Some(o) => [o]
  }

  /** Collecting over two parts of a batch is collecting over each part in turn. */
  lemma {:induction false} CandidatesAppend(a: seq<PrefabData>, b: seq<PrefabData>, probe: Probe, cast: Raycast)
    ensures Candidates(a + b, probe, cast) == Candidates(a, probe, cast) + Candidates(b, probe, cast)
    decreases |b|
  {
    if b == [] {
      assert a + b == a;
    } else {
      var b' := b[..|b| - 1];
      CandidatesAppend(a, b', probe, cast);
      assert (a + b)[..|a + b| - 1] == a + b';
    }
  }

  /** A spawn point is collected exactly when some sample yields it. */
  lemma {:induction false} CandidatesExactly(samples: seq<PrefabData>, probe: Probe, cast: Raycast, c: SpawnData)
    ensures c in Candidates(samples, probe, cast) <==> exists i :: 0 <= i < |samples| && SpawnFor(samples[i], probe, cast) == Some(c)
  {
    if samples != [] {
      var init := samples[..|samples| - 1];
      CandidatesExactly(init, probe, cast, c);
      if exists i :: 0 <= i < |samples| && SpawnFor(samples[i], probe, cast) == Some(c) {
        var i :| 0 <= i < |samples| && SpawnFor(samples[i], probe, cast) == Some(c);
        if i < |init| {
          assert init[i] == samples[i];
        }
      }
      if exists i :: 0 <= i < |init| && SpawnFor(init[i], probe, cast) == Some(c) {
        var i :| 0 <= i < |init| && SpawnFor(init[i], probe, cast) == Some(c);
        assert samples[i] == init[i];
      }
    }
  }

  /** When every sample's probe hits unobstructed, each sample yields one spawn point, in order. */
  lemma {:induction false} CandidatesAllAccepted(samples: seq<PrefabData>, probe: Probe, cast: Raycast)
    requires forall i :: 0 <= i < |samples| ==> SpawnFor(samples[i], probe, cast).Some?
    ensures |Candidates(samples, probe, cast)| == |samples|
    ensures forall i :: 0 <= i < |samples| ==> Candidates(samples, probe, cast)[i] == SpawnFor(samples[i], probe, cast).value
  {
    if samples != [] {
      var init := samples[..|samples| - 1];
      CandidatesAllAccepted(init, probe, cast);
    }
  }

  /** A sample that yields nothing (its probe misses or it is obstructed) adds
      nothing, and the others keep their order. */
  lemma {:induction false} CandidatesSkipDropped(a: seq<PrefabData>, p: PrefabData, b: seq<PrefabData>, probe: Probe, cast: Raycast)
    requires SpawnFor(p, probe, cast).None?
    ensures Candidates(a + [p] + b, probe, cast) == Candidates(a, probe, cast) + Candidates(b, probe, cast)
  {
    CandidatesAppend(a + [p], b, probe, cast);
    CandidatesAppend(a, [p], probe, cast);
    assert [p][..0] == [];
    assert Candidates([p], probe, cast) == Candidates([], probe, cast) == [];
  }

  /** A commit over two parts of a list is a commit over each part in turn. */
  lemma {:induction false} InstancesAppend(a: seq<SpawnData>, b: seq<SpawnData>, up: Quaternion -> Vec3)
    ensures Instances(a + b, up) == Instances(a, up) + Instances(b, up)
    decreases |b|
  {
    if b == [] {
      assert a + b == a;
    } else {
      var b' := b[..|b| - 1];
      InstancesAppend(a, b', up);
      assert (a + b)[..|a + b| - 1] == a + b';
    }
  }

  /** An object is created exactly when some spawn point with a prefab yields it. */
  lemma {:induction false} InstancesExactly(points: seq<SpawnData>, up: Quaternion -> Vec3, o: Instance)
    ensures o in Instances(points, up) <==> exists i :: 0 <= i < |points| && Instantiate(points[i], up) == Some(o)
  {
    if points != [] {
      var init := points[..|points| - 1];
      InstancesExactly(init, up, o);
      if exists i :: 0 <= i < |points| && Instantiate(points[i], up) == Some(o) {
        var i :| 0 <= i < |points| && Instantiate(points[i], up) == Some(o);
        if i < |init| {
          assert init[i] == points[i];
        }
      }
      if exists i :: 0 <= i < |init| && Instantiate(init[i], up) == Some(o) {
        var i :| 0 <= i < |init| && Instantiate(init[i], up) == Some(o);
        assert points[i] == init[i];
      }
    }
  }

  /** The number of spawn points that carry a prefab. */
  function CountWithPrefab(points: seq<SpawnData>): nat {
    if points == [] then 0
    else CountWithPrefab(points[..|points| - 1]) + (if points[|points| - 1].prefab != null then 1 else 0)
  }

  /** A commit creates exactly one object per spawn point that carries a prefab. */
  lemma {:induction false} InstancesCount(points: seq<SpawnData>, up: Quaternion -> Vec3)
    ensures |Instances(points, up)| == CountWithPrefab(points)
  {
    if points != [] {
      InstancesCount(points[..|points| - 1], up);
    }
  }

  /** When every spawn point carries a prefab, object i is made from spawn point i:
      same prefab and rotation, position raised by the prefab's y along the up axis. */
  lemma {:induction false} InstancesAllPlaced(points: seq<SpawnData>, up: Quaternion -> Vec3)
    requires forall i :: 0 <= i < |points| ==> points[i].prefab != null
    ensures |Instances(points, up)| == |points|
    ensures forall i :: 0 <= i < |points| ==>
      var o := Instances(points, up)[i];
      && o.prefab == points[i].prefab
      && o.rotation == points[i].hitPose.rotation
      && o.position == Add(points[i].hitPose.position, Scale(up(o.rotation), points[i].prefab.positionY))
  {
    if points != [] {
      InstancesAllPlaced(points[..|points| - 1], up);
    }
  }
}
