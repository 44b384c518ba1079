/** The parts of the Unity engine the placer relies on, reduced to what can be
    stated exactly: vectors over the reals, rotations as uninterpreted terms,
    ray-cast results, prefab assets and the global random generator as an oracle. */
module Unity {

  datatype Option<T> = None | Some(value: T)

  datatype Vec2 = Vec2(x: real, y: real)

  datatype Vec3 = Vec3(x: real, y: real, z: real)

  function Add(a: Vec3, b: Vec3): Vec3 {
    Vec3(a.x + b.x, a.y + b.y, a.z + b.z)
  }

  function Scale(a: Vec3, s: real): Vec3 {
    Vec3(a.x * s, a.y * s, a.z * s)
  }

  function Neg(a: Vec3): Vec3 {
    Vec3(-a.x, -a.y, -a.z)
  }

  /** Vector3.Cross */
  function Cross(a: Vec3, b: Vec3): Vec3 {
    Vec3(a.y * b.z - a.z * b.y, a.z * b.x - a.x * b.z, a.x * b.y - a.y * b.x)
  }

  /** The square of Vector2.Distance. */
  function SqDistance(p: Vec2, q: Vec2): real {
    (p.x - q.x) * (p.x - q.x) + (p.y - q.y) * (p.y - q.y)
  }

  /** The square of Vector2.magnitude. */
  function SqMagnitude(p: Vec2): real {
    p.x * p.x + p.y * p.y
  }

  /** Rotations are not computed: a quaternion is the term that built it. */
  datatype Quaternion =
    | Identity
    | LookRotation(forward: Vec3, upwards: Vec3)
    | Euler(ex: real, ey: real, ez: real)
    | Product(lhs: Quaternion, rhs: Quaternion)

  datatype Pose = Pose(position: Vec3, rotation: Quaternion)

  datatype RaycastHit = RaycastHit(point: Vec3, normal: Vec3)

  /** Physics.Raycast(origin, direction, maxDistance) against the scene. */
  type Raycast = (Vec3, Vec3, real) -> Option<RaycastHit>

  /** float.MaxValue */
  const FloatMax: real := 340282346638528859811704183484516925440.0

  /** Mathf.Sign: 1 for zero and positive values, -1 for negative ones. */
  function Sign(f: real): (s: real)
    ensures s == 1.0 || s == -1.0
    ensures s == 1.0 <==> f >= 0.0
  {
    if f >= 0.0 then 1.0 else -1.0
  }

  /** Mathf.Clamp */
  function Clamp(v: real, lo: real, hi: real): (c: real)
    requires lo <= hi
    ensures lo <= c <= hi
    ensures lo <= v <= hi ==> c == v
    ensures c == v || c == lo || c == hi
  {
    if v < lo then lo else if v > hi then hi else v
  }

  /** One MeshFilter under a prefab: the world y of its transform, the top of
      its mesh bounds and the y component of its lossy scale. */
  datatype MeshFilter = MeshFilter(worldY: real, boundsMaxY: real, lossyScaleY: real)

  /** A prefab asset. Its identity is its reference, as for a GameObject. */
  class GameObject {
    /** transform.position.y of the prefab's root */
    const positionY: real
    /** GetComponentsInChildren<MeshFilter>() */
    const meshFilters: seq<MeshFilter>

    constructor (positionY: real, meshFilters: seq<MeshFilter>)
      ensures this.positionY == positionY && this.meshFilters == meshFilters
    {
      this.positionY := positionY;
      this.meshFilters := meshFilters;
    }
  }

  /** What UnityEngine.Random returns on its k-th call, by kind of call. */
  datatype RandomStream = RandomStream(
    value: nat -> real,
    insideUnitCircle: nat -> Vec2,
    range: (nat, int, int) -> int)
  {
    /** The ranges Unity documents for the three calls. */
    ghost predicate Valid() {
      && (forall k: nat :: 0.0 <= value(k) <= 1.0)
      && (forall k: nat :: SqMagnitude(insideUnitCircle(k)) <= 1.0)
      && (forall k: nat, lo: int, hi: int :: lo < hi ==> lo <= range(k, lo, hi) < hi)
    }
  }

  /** The global random generator: a fixed stream and the number of calls made. */
  class Random {
    const stream: RandomStream
    var state: nat

    constructor (stream: RandomStream)
      ensures this.stream == stream && state == 0
    {
      this.stream := stream;
      state := 0;
    }

    /** Random.value */
    method Value() returns (v: real)
      requires stream.Valid()
      modifies this
      ensures v == stream.value(old(state)) && state == old(state) + 1
      ensures 0.0 <= v <= 1.0
    {
      v := stream.value(state);
      state := state + 1;
    }

    /** Random.insideUnitCircle */
    method InsideUnitCircle() returns (p: Vec2)
      requires stream.Valid()
      modifies this
      ensures p == stream.insideUnitCircle(old(state)) && state == old(state) + 1
      ensures SqMagnitude(p) <= 1.0
    {
      p := stream.insideUnitCircle(state);
      state := state + 1;
    }

    /** Random.Range(int, int): a value in [minInclusive, maxExclusive). */
    method Range(minInclusive: int, maxExclusive: int) returns (r: int)
      requires stream.Valid() && minInclusive < maxExclusive
      modifies this
      ensures r == stream.range(old(state), minInclusive, maxExclusive) && state == old(state) + 1
      ensures minInclusive <= r < maxExclusive
    {
      r := stream.range(state, minInclusive, maxExclusive);
      state := state + 1;
    }
  }

  datatype EventType = MouseMove | ScrollWheel | KeyDown | Used | OtherEvent

  datatype KeyCode = Space | OtherKey

  /** Event.current as far as the placer reads it. */
  datatype Event = Event(kind: EventType, keyCode: KeyCode, altHeld: bool, deltaY: real)
}
