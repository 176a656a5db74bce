/**
 * The few parts of the three.js scene graph that the aircraft code touches:
 * vectors, the transform of an object, colours, materials, lines and the scene.
 * Objects are Dafny objects, so aliasing between the aircraft table, its array
 * and the scene is the aliasing of the source.
 */
module Three {

  datatype Vector3 = Vector3(x: real, y: real, z: real)

  /** The same factor on all three axes, as `scale.set(1, 1, 1).multiplyScalar(s)` leaves it. */
  function Uniform(s: real): (v: Vector3)
    ensures v.x == v.y == v.z == s
  {
    Vector3(s, s, s)
  }

  /** An object's position, rotation (Euler angles, radians) and scale. */
  datatype Transform = Transform(position: Vector3, rotation: Vector3, scale: Vector3)

  /** A colour given by the three arguments of `Color.setHSL(h, s, l)`. */
  datatype Hsl = Hsl(hue: real, saturation: real, lightness: real)

  class Material {
    var color: Hsl

    /** `material.clone()`: a new material with the same colour. */
    constructor Clone(source: Material)
      ensures color == source.color
    {
      color := source.color;
    }
  }

  /**
   * A scene-graph object. `material` stands for the material of the mesh the
   * aircraft asset keeps at `children[0].children[2]`.
   */
  class Object3D {
    var position: Vector3
    var rotation: Vector3
    var scale: Vector3
    var material: Material
    /** The key this object was cloned for: proof bookkeeping that three.js does not have. */
    ghost const tag: string

    function Pose(): Transform
      reads this
    {
      Transform(position, rotation, scale)
    }

    /** `object.clone()`: copies the transform and shares the material, as three.js does. */
    constructor Clone(source: Object3D, ghost tag: string)
      ensures this.tag == tag
      ensures position == source.position && rotation == source.rotation && scale == source.scale
      ensures material == source.material
    {
      position, rotation, scale := source.position, source.rotation, source.scale;
      material := source.material;
      this.tag := tag;
    }
  }

  /** A polyline; `geometry` is the point list its buffer geometry was built from. */
  class Line {
    var geometry: seq<Vector3>

    constructor FromPoints(points: seq<Vector3>)
      ensures geometry == points
    {
      geometry := points;
    }
  }

  /** The scene, seen as the set of objects added to it. */
  class Scene {
    var children: set<object>

    method Add(o: object)
      modifies this
      ensures children == old(children) + {o}
    {
      children := children + {o};
    }

    method Remove(o: object)
      modifies this
      ensures children == old(children) - {o}
    {
      children := children - {o};
    }
  }
}
