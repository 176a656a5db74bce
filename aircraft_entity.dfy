/**
 * The `Aircraft` entity: one tracked aircraft with its model in the scene,
 * its trail of past positions and a trail line drawn through them; plus the
 * pure helpers that turn a record into a position, a heading and a colour.
 */
module AircraftEntity {
  import opened Three
  import opened Geo

  /** Rotation (degrees) that aligns the asset's forward axis with north. */
  const MODEL_ROTATION_OFFSET: real := -90.0

  /** Altitude (feet) at which the colour ratio reaches 1. */
  const MAXIMUM_ALTITUDE: real := 40000.0

  /** The model's rotation about the vertical axis: the offset, turned by minus the track. */
  function ToHeading(track: real): (radians: real)
    ensures radians == DegToRad(MODEL_ROTATION_OFFSET) - DegToRad(track)
  {
    DegToRad(MODEL_ROTATION_OFFSET - track)
  }

  /**
   * The arguments given to `setHSL`: the altitude ratio, capped at 1 but with
   * no lower clamp, as hue; full saturation and half lightness.
   */
  function AltitudeColor(altitude: real): (c: Hsl)
    ensures c.saturation == 1.0 && c.lightness == 0.5
    ensures c.hue <= 1.0
    ensures altitude >= MAXIMUM_ALTITUDE ==> c.hue == 1.0
    ensures altitude <= MAXIMUM_ALTITUDE ==> c.hue * MAXIMUM_ALTITUDE == altitude
    ensures c.hue < 0.0 <==> altitude < 0.0
  {
    var relativeAltitude := Min(altitude / MAXIMUM_ALTITUDE, 1.0);
    Hsl(relativeAltitude, 1.0, 0.5)
  }

  /** A higher aircraft never gets a smaller hue. */
  lemma AltitudeHueMonotone(low: real, high: real)
    requires low <= high
    ensures AltitudeColor(low).hue <= AltitudeColor(high).hue
  {
  }

  /** A new trail line through the given points. */
  method CreateLine(points: seq<Vector3>) returns (line: Line)
    ensures fresh(line)
    ensures line.geometry == points
  {
    line := new Line.FromPoints(points);
  }

  class Aircraft {
    /** The record the entity was created from; never reassigned. */
    const aircraft: AircraftRecord
    const model: Object3D
    const scene: Scene
    const project: Projector
    const line: Line
    const material: Material
    var path: seq<Vector3>

    /**
     * The trail is never empty, the line is built from the whole trail, and
     * the model's mesh draws with this entity's own material.
     */
    ghost predicate Valid()
      reads this, line, model
    {
      && |path| >= 1
      && line.geometry == path
      && model.material == material
    }

    /**
     * Seeds the trail with the record's position, gives the model a private
     * copy of its material and adds the model and the line to the scene. The
     * model itself is not moved.
     */
    constructor (aircraft: AircraftRecord, model: Object3D, scene: Scene, project: Projector)
      modifies model, scene
      ensures Valid()
      ensures this.aircraft == aircraft && this.model == model && this.scene == scene && this.project == project
      ensures Hex() == aircraft.hex
      ensures path == [ToPosition(project, aircraft)]
      ensures fresh(line) && fresh(material)
      ensures material.color == old(model.material.color)
      ensures model.Pose() == old(model.Pose())
      ensures scene.children == old(scene.children) + {model, line}
    {
      this.aircraft := aircraft;
      this.model := model;
      this.scene := scene;
      this.project := project;
      var trail := [ToPosition(project, aircraft)];
      this.path := trail;
      var trailLine := CreateLine(trail);
      this.line := trailLine;
      this.material := new Material.Clone(model.material);
      new;
      model.material := material;
      scene.Add(model);
      scene.Add(line);
    }

    /**
     * The transponder code of the record the entity was created from. It
     * reads only the `const` field `aircraft`, so no method can change it.
     */
    function Hex(): string
    {
      aircraft.hex
    }

    /**
     * Moves and turns the model to the record, recolours it by altitude,
     * appends the new position to the trail and rebuilds the line from it.
     */
    method Update(record: AircraftRecord)
      requires Valid()
      modifies this, model, material, line
      ensures Valid()
      ensures path == old(path) + [ToPosition(project, record)]
      ensures model.position == path[|path| - 1]
      ensures model.rotation == old(model.rotation).(y := ToHeading(record.track))
      ensures model.scale == old(model.scale) && model.material == old(model.material)
      ensures material.color == AltitudeColor(record.altitude)
    {
      var position := ToPosition(project, record);
      model.position := position;
      model.rotation := model.rotation.(y := ToHeading(record.track));
      material.color := AltitudeColor(record.altitude);
      path := path + [position];
      line.geometry := path;
    }

    /** Detaches the model and the line from the scene; nothing else leaves it. */
    method Remove()
      modifies scene
      ensures scene.children == old(scene.children) - {model, line}
    {
      scene.Remove(model);
      scene.Remove(line);
    }
  }
}
