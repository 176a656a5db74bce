/**
 * The live map: a table from transponder hex to the scene object that draws
 * the aircraft, updated from each batch of records, and the per-frame scale
 * applied to every object in it.
 */
module LiveMap {
  import opened Three
  import opened Geo
  import opened Batch
  import AircraftEntity

  /** Largest scale an aircraft model is drawn at. */
  const MAX_SCALE_PLANE: real := 50.0

  /** The scaling configuration: base size and the two factor bounds. */
  const SIZE: real := 0.00002
  const MIN_FACTOR: real := 20.0
  const MAX_FACTOR: real := 20.0

  /** The model offset of the live map, in degrees. */
  const MODEL_OFFSET_ROTATION: real := -90.0

  /** The rotation about the vertical axis set for a track: the offset, turned by plus the track. */
  function MainHeading(track: real): (radians: real)
    ensures radians == DegToRad(MODEL_OFFSET_ROTATION + track)
  {
    DegToRad(MODEL_OFFSET_ROTATION) + DegToRad(track)
  }

  /**
   * The two headings are mirror images about the shared offset, so the two
   * `rotation.y` values agree only for a track of 0.
   */
  lemma HeadingsMirror(track: real)
    ensures MainHeading(track) - DegToRad(MODEL_OFFSET_ROTATION)
         == -(AircraftEntity.ToHeading(track) - DegToRad(AircraftEntity.MODEL_ROTATION_OFFSET))
    ensures MainHeading(track) == AircraftEntity.ToHeading(track) <==> track == 0.0
  {
  }

  /** A fetch response: its `ok` flag, its status and the records `json()` would give. */
  datatype Response = Response(ok: bool, status: int, records: seq<AircraftRecord>)

  /** How a call ends: normally, or by the error thrown for a response that is not OK. */
  datatype PlotOutcome = Done | ResponseNotOk(status: int)

  /** What one record does to its entity's transform: a new position and a new rotation about y. */
  function Placed(pose: Transform, project: Projector, aircraft: AircraftRecord): (after: Transform)
    ensures after.position == ToPosition(project, aircraft)
    ensures after.rotation.y == MainHeading(aircraft.track)
    ensures after.rotation.x == pose.rotation.x && after.rotation.z == pose.rotation.z
    ensures after.scale == pose.scale
  {
    pose.(position := ToPosition(project, aircraft), rotation := pose.rotation.(y := MainHeading(aircraft.track)))
  }

  /** Placing twice is placing once with the later record. */
  lemma PlacedOverwrites(pose: Transform, project: Projector, first: AircraftRecord, second: AircraftRecord)
    ensures Placed(Placed(pose, project, first), project, second) == Placed(pose, project, second)
  {
  }

  /** An unseen hex gets an entry holding the template's transform; a known one keeps its entry. */
  function Admitted(poses: map<string, Transform>, hex: string, template: Transform): (after: map<string, Transform>)
    ensures after.Keys == poses.Keys + {hex}
    ensures hex in poses ==> after == poses
    ensures hex !in poses ==> after[hex] == template && forall h :: h in poses ==> after[h] == poses[h]
  {
    if hex in poses then poses else poses[hex := template]
  }

  /** What one record does to the transforms, keyed by hex: admit its hex, then place its entry. */
  function PlottedOne(poses: map<string, Transform>, template: Transform, project: Projector,
                      aircraft: AircraftRecord): (after: map<string, Transform>)
    ensures after.Keys == poses.Keys + {aircraft.hex}
  {
    var admitted := Admitted(poses, aircraft.hex, template);
    admitted[aircraft.hex := Placed(admitted[aircraft.hex], project, aircraft)]
  }

  /**
   * Reference definition of a batch update on the transforms: the records
   * applied one after the other. Nothing is removed.
   */
  function Plotted(poses: map<string, Transform>, template: Transform, project: Projector,
                   batch: seq<AircraftRecord>): (after: map<string, Transform>)
    ensures after.Keys == poses.Keys + HexesOf(batch)
    decreases |batch|
  {
    if batch == [] then poses
    else PlottedOne(Plotted(poses, template, project, batch[..|batch| - 1]), template, project, batch[|batch| - 1])
  }

  /** Extending a batch by one record applies that record to the shorter batch's result. */
  lemma PlottedExtend(poses: map<string, Transform>, template: Transform, project: Projector,
                      batch: seq<AircraftRecord>, i: nat)
    requires i < |batch|
    ensures Plotted(poses, template, project, batch[..i + 1])
         == PlottedOne(Plotted(poses, template, project, batch[..i]), template, project, batch[i])
  {
    assert batch[..i + 1][..i] == batch[..i];
  }

  /** An entry whose hex the batch does not mention keeps its transform. */
  lemma {:induction false} PlottedUntouched(poses: map<string, Transform>, template: Transform, project: Projector,
                                            batch: seq<AircraftRecord>, hex: string)
    requires hex in poses && hex !in HexesOf(batch)
    ensures Plotted(poses, template, project, batch)[hex] == poses[hex]
    decreases |batch|
  {
    if batch != [] {
      var prefix := batch[..|batch| - 1];
      assert hex !in HexesOf(prefix);
      PlottedUntouched(poses, template, project, prefix, hex);
    }
  }

  /**
   * An entry the batch mentions is placed by its last record, starting from
   * its old transform, or from the template's if the hex was new.
   */
  lemma {:induction false} PlottedLastRecordWins(poses: map<string, Transform>, template: Transform, project: Projector,
                                                 batch: seq<AircraftRecord>, hex: string)
    requires hex in HexesOf(batch)
    ensures Plotted(poses, template, project, batch)[hex]
         == Placed(if hex in poses then poses[hex] else template, project, batch[LastIndexOf(batch, hex)])
    decreases |batch|
  {
    var prefix := batch[..|batch| - 1];
    var last := batch[|batch| - 1];
    var base := if hex in poses then poses[hex] else template;
    if last.hex == hex {
      if hex in HexesOf(prefix) {
        PlottedLastRecordWins(poses, template, project, prefix, hex);
        PlacedOverwrites(base, project, prefix[LastIndexOf(prefix, hex)], last);
      } else if hex in poses {
        PlottedUntouched(poses, template, project, prefix, hex);
      }
    } else {
      PlottedLastRecordWins(poses, template, project, prefix, hex);
    }
  }

  /** The table grows by exactly the number of distinct hexes it did not know. */
  lemma PlottedSize(poses: map<string, Transform>, template: Transform, project: Projector,
                    batch: seq<AircraftRecord>)
    ensures |Plotted(poses, template, project, batch)| == |poses| + |NewHexes(batch, poses.Keys)|
  {
    var after := Plotted(poses, template, project, batch);
    var added := HexesOf(batch) - poses.Keys;
    assert after.Keys == poses.Keys + added;
    assert poses.Keys !! added;
    NewHexesCount(batch, poses.Keys);
  }

  /** Plotting the same batch again changes nothing. */
  lemma PlottedIdempotent(poses: map<string, Transform>, template: Transform, project: Projector,
                          batch: seq<AircraftRecord>)
    ensures Plotted(Plotted(poses, template, project, batch), template, project, batch)
         == Plotted(poses, template, project, batch)
  {
    var once := Plotted(poses, template, project, batch);
    var twice := Plotted(once, template, project, batch);
    forall hex | hex in once
      ensures twice[hex] == once[hex]
    {
      if hex in HexesOf(batch) {
        var base := if hex in poses then poses[hex] else template;
        var last := batch[LastIndexOf(batch, hex)];
        PlottedLastRecordWins(once, template, project, batch, hex);
        PlottedLastRecordWins(poses, template, project, batch, hex);
        PlacedOverwrites(base, project, last, last);
      } else {
        PlottedUntouched(once, template, project, batch, hex);
      }
    }
  }

  /**
   * The per-frame scale: the camera distance times the clamped field-of-view
   * factor, times the base size, capped at MAX_SCALE_PLANE. `fovTerm` stands
   * for tan(PI * fov / 360) / zoom, computed by the camera.
   */
  function PlaneScale(distance: real, fovTerm: real): (scale: real)
    ensures scale <= MAX_SCALE_PLANE
    ensures distance >= 0.0 && fovTerm >= 0.0 ==> scale >= 0.0
  {
    var factor := distance * Min(MIN_FACTOR * fovTerm, MAX_FACTOR);
    Min(factor * SIZE, MAX_SCALE_PLANE)
  }

  /** Moving the camera away never makes the aircraft smaller. */
  lemma PlaneScaleMonotone(near: real, far: real, fovTerm: real)
    requires 0.0 <= near <= far && fovTerm >= 0.0
    ensures PlaneScale(near, fovTerm) <= PlaneScale(far, fovTerm)
  {
    var m := Min(MIN_FACTOR * fovTerm, MAX_FACTOR);
    ScaleUp(near, far, m);
    ScaleUp(near * m, far * m, SIZE);
    assert PlaneScale(near, fovTerm) == Min(near * m * SIZE, MAX_SCALE_PLANE);
    assert PlaneScale(far, fovTerm) == Min(far * m * SIZE, MAX_SCALE_PLANE);
  }

  /** Multiplying by a non-negative factor keeps the order. */
  lemma ScaleUp(a: real, b: real, k: real)
    requires a <= b && k >= 0.0
    ensures a * k <= b * k
  {
    assert b * k - a * k == (b - a) * k;
  }

  /** The objects of a sequence. */
  ghost function Elements(entities: seq<Object3D>): set<Object3D>
  {
    set o | o in entities
  }

  /** Appending an object adds it to the elements. */
  lemma ElementsAppend(entities: seq<Object3D>, o: Object3D)
    ensures Elements(entities + [o]) == Elements(entities) + {o}
  {
  }

  /**
   * One entity per hex, tagged with that hex; the array holds exactly the
   * cached entities, each once, in step with the cache; no entity is the
   * template; all of them are in the scene.
   */
  ghost predicate TableInvariant(cache: map<string, Object3D>, entities: seq<Object3D>, template: Object3D,
                                 children: set<object>)
  {
    && |entities| == |cache|
    && Elements(entities) == cache.Values
    && (forall j, k :: 0 <= j < k < |entities| ==> entities[j] != entities[k])
    && (forall hex :: hex in cache ==> cache[hex].tag == hex)
    && template !in cache.Values
    && Elements(entities) <= children
  }

  /** The values of a map after inserting under an unseen key. */
  lemma ValuesAfterInsert(cache: map<string, Object3D>, hex: string, clone: Object3D)
    requires hex !in cache
    ensures cache[hex := clone].Values == cache.Values + {clone}
  {
    var cache' := cache[hex := clone];
    forall o | o in cache'.Values ensures o in cache.Values + {clone} {
      var h :| h in cache' && cache'[h] == o;
    }
    forall o | o in cache.Values ensures o in cache'.Values {
      var h :| h in cache && cache[h] == o;
      assert cache'[h] == o;
    }
    assert cache'[hex] == clone;
  }

  /** Inserting a new object under an unseen hex into the cache, the array and the scene keeps the invariant. */
  lemma InsertKeepsInvariant(cache: map<string, Object3D>, entities: seq<Object3D>, template: Object3D,
                            children: set<object>, hex: string, clone: Object3D)
    requires TableInvariant(cache, entities, template, children)
    requires hex !in cache && clone !in cache.Values && clone != template && clone.tag == hex
    ensures TableInvariant(cache[hex := clone], entities + [clone], template, children + {clone})
  {
    var cache', entities' := cache[hex := clone], entities + [clone];
    ValuesAfterInsert(cache, hex, clone);
    assert Elements(entities') == Elements(entities) + {clone};
    assert clone !in entities;
    assert forall j, k :: 0 <= j < k < |entities'| ==> entities'[j] != entities'[k] by {
      forall j, k | 0 <= j < k < |entities'| ensures entities'[j] != entities'[k] {
        if k < |entities| {
          assert entities'[j] == entities[j] && entities'[k] == entities[k];
        } else {
          assert entities'[j] == entities[j] && entities[j] in Elements(entities);
        }
      }
    }
    assert forall h :: h in cache' ==> cache'[h].tag == h;
    assert |entities'| == |cache'|;
    assert template !in cache'.Values;
    assert Elements(entities') <= children + {clone};
  }

  /**
   * Where a batch update stands once the records `done` are applied: the
   * cache has gained their hexes and kept its earlier entries, and the array
   * and the scene have gained the new entities, in order of first appearance.
   */
  ghost predicate Progress(cache0: map<string, Object3D>, array0: seq<Object3D>, children0: set<object>,
                           done: seq<AircraftRecord>,
                           cache: map<string, Object3D>, entities: seq<Object3D>, children: set<object>)
  {
    var added := NewHexes(done, cache0.Keys);
    && cache.Keys == cache0.Keys + HexesOf(done)
    && (forall hex :: hex in cache0 ==> hex in cache && cache[hex] == cache0[hex])
    && array0 <= entities
    && |entities| == |array0| + |added|
    && (forall j :: 0 <= j < |added| ==> added[j] in cache && entities[|array0| + j] == cache[added[j]])
    && children == children0 + Elements(entities[|array0|..])
  }

  /**
   * One more record keeps the progress: a known hex leaves the tables alone,
   * an unseen one appends its clone to the cache, the array and the scene.
   */
  lemma ProgressStep(cache0: map<string, Object3D>, array0: seq<Object3D>, children0: set<object>,
                     batch: seq<AircraftRecord>, i: nat,
                     cache: map<string, Object3D>, entities: seq<Object3D>, children: set<object>,
                     cache': map<string, Object3D>, entities': seq<Object3D>, children': set<object>,
                     clone: Object3D)
    requires i < |batch|
    requires Progress(cache0, array0, children0, batch[..i], cache, entities, children)
    requires batch[i].hex in cache ==> cache' == cache && entities' == entities && children' == children
    requires batch[i].hex !in cache ==>
               && cache' == cache[batch[i].hex := clone]
               && entities' == entities + [clone]
               && children' == children + {clone}
    ensures Progress(cache0, array0, children0, batch[..i + 1], cache', entities', children')
  {
    var done, done' := batch[..i], batch[..i + 1];
    assert done'[..i] == done;
    var hex := batch[i].hex;
    var added := NewHexes(done, cache0.Keys);
    assert HexesOf(done') == HexesOf(done) + {hex};
    if hex !in cache {
      assert NewHexes(done', cache0.Keys) == added + [hex];
      assert entities'[|array0|..] == entities[|array0|..] + [clone];
      ElementsAppend(entities[|array0|..], clone);
      NewHexesMembers(done, cache0.Keys);
      forall j | 0 <= j < |added| ensures entities'[|array0| + j] == cache'[added[j]] {
        assert added[j] in added;
      }
    } else {
      assert NewHexes(done', cache0.Keys) == added;
    }
  }

  /**
   * The cache and the array each grow by the number of distinct hexes the
   * records brought that were not cached; no hex is cloned twice.
   */
  lemma ProgressGrowth(cache0: map<string, Object3D>, array0: seq<Object3D>, children0: set<object>,
                       done: seq<AircraftRecord>,
                       cache: map<string, Object3D>, entities: seq<Object3D>, children: set<object>)
    requires Progress(cache0, array0, children0, done, cache, entities, children)
    ensures |cache| == |cache0| + |HexesOf(done) - cache0.Keys|
    ensures |entities| == |array0| + |HexesOf(done) - cache0.Keys|
  {
    NewHexesCount(done, cache0.Keys);
    var added := HexesOf(done) - cache0.Keys;
    assert cache.Keys == cache0.Keys + added;
    assert cache0.Keys !! added;
  }

  /** Before any record, the tables are where they started. */
  lemma ProgressStart(cache: map<string, Object3D>, entities: seq<Object3D>, children: set<object>,
                      batch: seq<AircraftRecord>)
    ensures Progress(cache, entities, children, batch[..0], cache, entities, children)
  {
    assert batch[..0] == [] && entities[|entities|..] == [];
  }

  /**
   * The module-level `aircraftCache` and `aircraftArray` of the live map,
   * with the template model they clone and the scene they add to.
   */
  class AircraftTable {
    var aircraftCache: map<string, Object3D>
    var aircraftArray: seq<Object3D>
    /** `modelAircraft`, the loaded asset every entity is cloned from. */
    const template: Object3D
    const scene: Scene
    const project: Projector
    /** The transform of every cached entity, by hex. */
    ghost var poses: map<string, Transform>

    /**
     * The table invariant holds, `poses` is the transform of each cached
     * entity, and each cached entity draws with the template's material (a
     * clone shares its source's material).
     */
    ghost predicate Valid()
      reads this, scene, Elements(aircraftArray), template
    {
      && TableInvariant(aircraftCache, aircraftArray, template, scene.children)
      && poses.Keys == aircraftCache.Keys
      && forall hex :: hex in aircraftCache ==>
           && poses[hex] == Transform(aircraftCache[hex].position, aircraftCache[hex].rotation, aircraftCache[hex].scale)
           && aircraftCache[hex].material == template.material
    }

    constructor (template: Object3D, scene: Scene, project: Projector)
      ensures Valid()
      ensures aircraftCache == map[] && aircraftArray == [] && poses == map[]
      ensures this.template == template && this.scene == scene && this.project == project
    {
      aircraftCache := map[];
      aircraftArray := [];
      poses := map[];
      this.template := template;
      this.scene := scene;
      this.project := project;
    }

    /**
     * Applies a batch: a response that is not OK fails before anything
     * changes; otherwise each unseen hex gets a fresh clone of the template,
     * added to the cache, the array and the scene, and every record places
     * its hex's entity.
     */
    method PlotAircrafts(response: Response) returns (outcome: PlotOutcome)
      requires Valid()
      modifies this, scene, Elements(aircraftArray)
      ensures Valid()
      ensures outcome == if response.ok then Done else ResponseNotOk(response.status)
      ensures !response.ok ==>
                && aircraftCache == old(aircraftCache) && aircraftArray == old(aircraftArray)
                && scene.children == old(scene.children) && poses == old(poses)
      ensures response.ok ==> poses == Plotted(old(poses), old(template.Pose()), project, response.records)
      ensures response.ok ==> Progress(old(aircraftCache), old(aircraftArray), old(scene.children), response.records,
                                       aircraftCache, aircraftArray, scene.children)
      ensures fresh(Elements(aircraftArray) - Elements(old(aircraftArray)))
      ensures forall e | e in Elements(old(aircraftArray)) :: e.material == old(e.material)
    {
      if !response.ok {
        outcome := ResponseNotOk(response.status);
        return;
      }
      PlotBatch(response.records);
      assert response.records[..|response.records|] == response.records;
      outcome := Done;
    }

    /** The records `batch[..i]` are applied to the table that was `cache0`, `array0`, `children0`, `poses0`. */
    ghost predicate Plotting(cache0: map<string, Object3D>, array0: seq<Object3D>, children0: set<object>,
                             poses0: map<string, Transform>, base: Transform, batch: seq<AircraftRecord>, i: nat)
      reads this, scene, Elements(aircraftArray), template
    {
      && i <= |batch|
      && Valid()
      && template.Pose() == base
      && Progress(cache0, array0, children0, batch[..i], aircraftCache, aircraftArray, scene.children)
      && poses == Plotted(poses0, base, project, batch[..i])
    }

    /** main.js:117-133, the `forEach` over the records: each record applied in order by `PlotStep`. */
    method PlotBatch(batch: seq<AircraftRecord>)
      requires Valid()
      modifies this, scene, Elements(aircraftArray)
      ensures Plotting(old(aircraftCache), old(aircraftArray), old(scene.children), old(poses), old(template.Pose()), batch, |batch|)
      ensures fresh(Elements(aircraftArray) - Elements(old(aircraftArray)))
    {
      ghost var cache0, array0, poses0, scene0 := aircraftCache, aircraftArray, poses, scene.children;
      ghost var base := template.Pose();
      ProgressStart(cache0, array0, scene0, batch);
      for i := 0 to |batch|
        invariant Plotting(cache0, array0, scene0, poses0, base, batch, i)
        invariant fresh(Elements(aircraftArray) - Elements(array0))
      {
        PlotStep(batch, i, cache0, array0, scene0, poses0, base);
      }
    }

    /** One turn of the batch loop: the record `batch[i]` applied by `PlotOne`. */
    method PlotStep(batch: seq<AircraftRecord>, i: nat, ghost cache0: map<string, Object3D>, ghost array0: seq<Object3D>,
                    ghost children0: set<object>, ghost poses0: map<string, Transform>, ghost base: Transform)
      requires i < |batch|
      requires Plotting(cache0, array0, children0, poses0, base, batch, i)
      modifies this, scene, Elements(aircraftArray)
      ensures Plotting(cache0, array0, children0, poses0, base, batch, i + 1)
      ensures fresh(Elements(aircraftArray) - Elements(old(aircraftArray)))
    {
      ghost var cache, entities, children := aircraftCache, aircraftArray, scene.children;
      PlotOne(batch[i]);
      ProgressStep(cache0, array0, children0, batch, i, cache, entities, children,
                   aircraftCache, aircraftArray, scene.children, aircraftCache[batch[i].hex]);
      PlottedExtend(poses0, base, project, batch, i);
    }

    /** main.js:117-133, the callback for one record: admit its hex if unseen, then place its entity. */
    method PlotOne(aircraft: AircraftRecord)
      requires Valid()
      modifies this, scene, Elements(aircraftArray)
      ensures Valid()
      ensures aircraft.hex in old(aircraftCache) ==>
                && aircraftCache == old(aircraftCache) && aircraftArray == old(aircraftArray)
                && scene.children == old(scene.children)
      ensures template.Pose() == old(template.Pose())
      ensures aircraft.hex !in old(aircraftCache) ==>
                && aircraft.hex in aircraftCache && fresh(aircraftCache[aircraft.hex])
                && aircraftCache == old(aircraftCache)[aircraft.hex := aircraftCache[aircraft.hex]]
                && aircraftArray == old(aircraftArray) + [aircraftCache[aircraft.hex]]
                && scene.children == old(scene.children) + {aircraftCache[aircraft.hex]}
      ensures poses == PlottedOne(old(poses), old(template.Pose()), project, aircraft)
      ensures fresh(Elements(aircraftArray) - Elements(old(aircraftArray)))
    {
      if aircraft.hex !in aircraftCache {
        AddAircraft(aircraft.hex);
        ElementsAppend(old(aircraftArray), aircraftCache[aircraft.hex]);
      }
      Place(aircraft);
    }

    /** main.js:118-123: an unseen hex gets a clone of the template in the cache, the array and the scene. */
    method AddAircraft(hex: string)
      requires Valid() && hex !in aircraftCache
      modifies this, scene
      ensures Valid()
      ensures hex in aircraftCache && fresh(aircraftCache[hex])
      ensures aircraftCache == old(aircraftCache)[hex := aircraftCache[hex]]
      ensures aircraftArray == old(aircraftArray) + [aircraftCache[hex]]
      ensures scene.children == old(scene.children) + {aircraftCache[hex]}
      ensures poses == old(poses)[hex := old(template.Pose())]
      ensures aircraftCache[hex].material == template.material
      ensures template.Pose() == old(template.Pose())
    {
      poses := poses[hex := template.Pose()];
      var clone := new Object3D.Clone(template, hex);
      InsertKeepsInvariant(aircraftCache, aircraftArray, template, scene.children, hex, clone);
      scene.Add(clone);
      aircraftCache, aircraftArray := aircraftCache[hex := clone], aircraftArray + [clone];
    }

    /** main.js:125-132: the record's entity gets the record's position and heading; no other entity changes. */
    method Place(aircraft: AircraftRecord)
      requires Valid() && aircraft.hex in aircraftCache
      modifies this`poses, aircraftCache[aircraft.hex]
      ensures Valid()
      ensures poses == old(poses)[aircraft.hex := Placed(old(poses)[aircraft.hex], project, aircraft)]
      ensures aircraftCache[aircraft.hex].material == old(aircraftCache[aircraft.hex].material)
      ensures template.Pose() == old(template.Pose())
    {
      var entity := aircraftCache[aircraft.hex];
      poses := poses[aircraft.hex := Placed(poses[aircraft.hex], project, aircraft)];
      entity.position := ToPosition(project, aircraft);
      entity.rotation := entity.rotation.(y := MainHeading(aircraft.track));
      forall hex | hex in aircraftCache
        ensures poses[hex] == Transform(aircraftCache[hex].position, aircraftCache[hex].rotation, aircraftCache[hex].scale)
      {
        if hex != aircraft.hex {
          assert aircraftCache[hex].tag != entity.tag;
        }
      }
    }

    /**
     * Gives every entity in the array the per-frame scale on all three axes;
     * positions, rotations, materials and the table itself do not change.
     */
    method ScaleAircrafts(distance: real, fovTerm: real)
      requires Valid()
      modifies this`poses, Elements(aircraftArray)
      ensures Valid()
      ensures forall j :: 0 <= j < |aircraftArray| ==>
                && aircraftArray[j].Pose() == old(aircraftArray[j].Pose()).(scale := Uniform(PlaneScale(distance, fovTerm)))
                && aircraftArray[j].material == old(aircraftArray[j].material)
      ensures poses == map hex | hex in old(poses) :: old(poses)[hex].(scale := Uniform(PlaneScale(distance, fovTerm)))
    {
      var scale := PlaneScale(distance, fovTerm);
      ghost var poses0 := poses;
      SetScales(scale);
      poses := map hex | hex in poses0 :: poses0[hex].(scale := Uniform(scale));
      forall hex | hex in aircraftCache
        ensures poses[hex] == Transform(aircraftCache[hex].position, aircraftCache[hex].rotation, aircraftCache[hex].scale)
      {
        assert aircraftCache[hex] in Elements(aircraftArray);
        var j :| 0 <= j < |aircraftArray| && aircraftArray[j] == aircraftCache[hex];
        assert poses0[hex] == old(aircraftArray[j].Pose());
      }
    }

    /** main.js:160: the loop over `aircraftArray`, setting each entity's scale to `scale` on all three axes. */
    method SetScales(scale: real)
      requires forall j, k :: 0 <= j < k < |aircraftArray| ==> aircraftArray[j] != aircraftArray[k]
      modifies Elements(aircraftArray)
      ensures forall j :: 0 <= j < |aircraftArray| ==>
                && aircraftArray[j].Pose() == old(aircraftArray[j].Pose()).(scale := Uniform(scale))
                && aircraftArray[j].material == old(aircraftArray[j].material)
    {
      for i := 0 to |aircraftArray|
        invariant forall j :: 0 <= j < i ==>
                    aircraftArray[j].Pose() == old(aircraftArray[j].Pose()).(scale := Uniform(scale))
        invariant forall j :: i <= j < |aircraftArray| ==> aircraftArray[j].Pose() == old(aircraftArray[j].Pose())
        invariant forall j :: 0 <= j < |aircraftArray| ==> aircraftArray[j].material == old(aircraftArray[j].material)
      {
        aircraftArray[i].scale := Uniform(scale);
      }
    }
  }
}
