/**
 * Plain-value stand-ins for the Unity engine types the behaviours touch:
 * vectors and rotations as records of reals, the two Mathf/Vector3 helpers
 * the door uses, and game objects whose only mutable state is their
 * active flag.
 */
module Engine {
  import Wrappers

  datatype Vector3 = Vector3(x: real, y: real, z: real) {
    function Plus(o: Vector3): Vector3 {
      Vector3(x + o.x, y + o.y, z + o.z)
    }
  }

  datatype Quaternion = Quaternion(x: real, y: real, z: real, w: real)

  /** Mathf.Clamp01: the value forced into [0, 1]. */
  function Clamp01(v: real): (r: real)
    ensures 0.0 <= r <= 1.0
    ensures 0.0 <= v <= 1.0 ==> r == v
    ensures r == 1.0 <==> v >= 1.0
    ensures r == 0.0 <==> v <= 0.0
  {
    if v < 0.0 then 0.0 else if v > 1.0 then 1.0 else v
  }

  /** Vector3.Lerp: clamps `t` to [0, 1], then moves from `a` towards `b` componentwise. */
  function Lerp(a: Vector3, b: Vector3, t: real): (r: Vector3)
    ensures t <= 0.0 ==> r == a
    ensures t >= 1.0 ==> r == b
  {
    var c := Clamp01(t);
    Vector3(a.x + (b.x - a.x) * c, a.y + (b.y - a.y) * c, a.z + (b.z - a.z) * c)
  }

  /** Lerp clamps on its own, so passing an already clamped factor changes nothing. */
  lemma LerpOfClamped(a: Vector3, b: Vector3, t: real)
    ensures Lerp(a, b, Clamp01(t)) == Lerp(a, b, t)
  {
  }

  /** A node of the scene hierarchy: its name and, unless it is a root, its parent. */
  datatype Transform = Transform(name: string, parent: Wrappers.Option<Transform>)

  /** A scene object. Its place in the scene is fixed; only its active flag changes. */
  class GameObject {
    var activeSelf: bool
    const scenePath: string
    const transform: Transform

    constructor (scenePath: string, transform: Transform, activeSelf: bool)
      ensures this.scenePath == scenePath && this.transform == transform
      ensures this.activeSelf == activeSelf
    {
      this.scenePath := scenePath;
      this.transform := transform;
      this.activeSelf := activeSelf;
    }
  }
}
