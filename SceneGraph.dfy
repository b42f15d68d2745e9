/**
 * What the sketches hand to the 3D engine, reduced to records: the mesh that
 * drawCube builds (geometry, material, position, scale, rotation), the
 * group or scene it is added to, and the `Math.random` generator whose draws
 * decide the jitter.
 */
module SceneGraph {

  /** `Math.PI` as a double. */
  const Pi: real := 3.141592653589793

  datatype Vec3 = Vec3(x: real, y: real, z: real)

  /** The geometry constructors drawCube uses, with their arguments. */
  datatype Geometry =
    | TorusKnot(radius: real, tube: real, tubularSegments: nat, radialSegments: nat, p: nat, q: nat)
    | Torus(radius: real, tube: real, radialSegments: nat, tubularSegments: nat)
    | Sphere(radius: real, widthSegments: nat, heightSegments: nat)
    | Box(width: real, height: real, depth: real)

  /**
   * A standard material: plain, or glowing with its own colour as emissive
   * colour, an emissive intensity, and transparency at the given opacity.
   */
  datatype Material =
    | Plain(color: string)
    | Glowing(color: string, emissiveIntensity: real, opacity: real)

  datatype Mesh = Mesh(geometry: Geometry, material: Material, position: Vec3, scale: Vec3, rotation: Vec3)

  /** A scene-graph node whose children the sketches append to with `add`. */
  class Group {
    var children: seq<Mesh>

    constructor ()
      ensures children == []
    {
      children := [];
    }

    method Add(m: Mesh)
      modifies this
      ensures children == old(children) + [m]
    {
      children := children + [m];
    }
  }

  /**
   * `Math.random`: an unknown but fixed stream of draws in [0, 1), of which
   * the first `used` have been consumed.
   */
  /** Every draw of the stream lies in [0, 1), as `Math.random` promises. */
  ghost predicate InUnitInterval(rand: int -> real) {
    forall k :: 0.0 <= rand(k) < 1.0
  }

  class Rng {
    const stream: int -> real
    var used: int

    ghost predicate Valid() {
      InUnitInterval(stream)
    }

    constructor (stream: int -> real)
      requires InUnitInterval(stream)
      ensures Valid() && this.stream == stream && used == 0
    {
      this.stream := stream;
      used := 0;
    }

    method Next() returns (r: real)
      requires Valid()
      modifies this
      ensures r == stream(old(used)) && used == old(used) + 1
      ensures 0.0 <= r < 1.0
    {
      r := stream(used);
      used := used + 1;
    }
  }

  /**
   * `(Math.random() - 0.5) * spread`: a draw in [0, 1) gives an offset in
   * [-spread/2, spread/2).
   */
  function Jitter(r: real, spread: real): (x: real)
    ensures 0.0 <= r < 1.0 && spread > 0.0 ==> -spread / 2.0 <= x < spread / 2.0
  {
    if 0.0 <= r < 1.0 && spread > 0.0 then
      ScaledDrawBounds(r, spread);
      (r - 0.5) * spread
    else
      (r - 0.5) * spread
  }

  lemma ScaledDrawBounds(r: real, s: real)
    requires 0.0 <= r < 1.0 && s > 0.0
    ensures 0.0 <= r * s < s
    ensures (r - 0.5) * s == r * s - s / 2.0
  {
    assert (1.0 - r) * s > 0.0;
  }

  /** `Math.random() * 2 * Math.PI`: an angle in [0, 2*Pi). */
  function Angle(r: real): (a: real)
    ensures 0.0 <= r < 1.0 ==> 0.0 <= a < 2.0 * Pi
  {
    r * 2.0 * Pi
  }
}
