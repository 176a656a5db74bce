# Live aircraft map: the aircraft table and the aircraft entity

This project models, in Dafny, the two pieces of sequential logic in a
three.js prototype that draws live aircraft over a map.

**The aircraft table of `main.js`.**
- `plotAircrafts` takes one fetched batch of aircraft records.
- A response that is not OK throws before anything changes.
- Otherwise, each record whose transponder `hex` is not yet in the `aircraftCache` map gets a clone of the loaded aircraft model. The clone is entered in the map, pushed on `aircraftArray` and added to the scene.
- Every record then moves its hex's clone: the position comes from the projected latitude and longitude and the altitude in metres, and the rotation about the vertical axis from the track.
- Nothing is ever removed.
- `scaleAircrafts` computes one per-frame scale from the camera, capped at `MAX_SCALE_PLANE` (50), and gives it to every clone on all three axes.

The table is the class `LiveMap.AircraftTable`:
- its fields `aircraftCache: map<string, Object3D>` and `aircraftArray: seq<Object3D>` are updated in place;
- the template, the scene and the projection are its constants;
- one method per source function.

Its invariant `Valid` holds before and after every method:
- one entity per hex;
- the array holds exactly the cached entities, each once;
- every entity is in the scene;
- none is the template;
- the ghost map `poses` holds the transform of each cached entity;
- every cached entity draws with the template's material, since a three.js clone shares its source's material and nothing in `main.js` reassigns it.

Each method states its new state against pure reference definitions: `Plotted`/`PlottedOne`/`Placed` for transforms, and `Progress`/`NewHexes`/`HexesOf` for the cache, the array and the scene. The lemmas about those definitions carry the properties used below:
- the last record for a hex wins;
- a hex the batch does not mention keeps its transform;
- the table grows by the number of distinct new hexes;
- plotting the same batch twice changes nothing.

**The `Aircraft` entity of `aircraft.class.js`.** One tracked aircraft with its model, the trail of its past positions and a line drawn through the trail. It is the class `AircraftEntity.Aircraft`.
- The constructor seeds the trail with one position, gives the model's mesh a private copy of its material, and adds the model and the line to the scene.
- `update` moves and turns the model, recolours it by altitude, appends the new position to the trail and rebuilds the line.
- `remove` detaches the model and the line.

The pure helpers are functions:
- `toPosition` gives the projected x, the altitude in metres as height, and the projected y negated;
- `toHeading` gives the offset minus the track;
- `getAltitudeColor` gives the `setHSL` arguments.

`hex` is the function `Aircraft.Hex`. It reads only the `const` field `aircraft`, so no method can change it.

`main.js` does not use the `Aircraft` class: it clones the model directly.

**The two headings disagree, and the model follows each as written.**
- `main.js:127-132` sets the offset *plus* the track (`MainHeading`).
- `aircraft.class.js:49-52` sets the offset *minus* the track (`ToHeading`).
- `HeadingsMirror` proves that the two are mirror images about the offset, so the two `rotation.y` values agree only for track 0.

**What the code does not do, and the model does not either:**
- `main.js` never removes an entity, even when its hex is absent from a later batch.
- Records are not validated: every record of a batch is applied.
- The track is converted to radians without being reduced modulo 360°.
- Only the `Aircraft` class keeps a trail; the main view draws none.

Modules and files:
- `three.dfy` (module `Three`): the small part of three.js that is touched: vectors, transforms, HSL colours, materials, objects, lines, and the scene as the set of objects added to it.
- `geo.dfy` (module `Geo`): the record type, the projection, the unit conversions and `ToPosition`.
- `batch.dfy` (module `Batch`): what a batch says about hexes.
- `aircraft_entity.dfy` (module `AircraftEntity`): the `Aircraft` class and its helpers.
- `live_map.dfy` (module `LiveMap`): the aircraft table and the per-frame scale.

Other modelling choices:
- The map projection `UnitsUtils.datumsToSpherical` is a foreign call. Each class takes it as a function-valued constant `project`.
- `degToRad` multiplies by the constant `DEG_TO_RAD`, which is `Math.PI / 180` as a double.
- Coordinates are `real`.
- `Math.min` is the function `Geo.Min`, shared by both modules.
- Clock, fetch, rendering and the camera are inputs or absent (see Left out).

## Model

| member | source | states |
|---|---|---|
| Geo.ToPosition | aircraft.class.js:43-47 | the position is (projected x, altitude × 0.3048, −projected y); no clamping: the height is negative exactly when the altitude is |
| Geo.PositionDependsOnlyOnFix | aircraft.class.js:43-47 | two records with the same latitude, longitude and altitude get the same position, whatever their hex or track |
| Three.Uniform | main.js:160 | `scale.set(1, 1, 1).multiplyScalar(s)` leaves the same factor `s` on all three axes |
| AircraftEntity.ToHeading | aircraft.class.js:49-52 | the heading is degToRad(−90) − degToRad(track): the negative-track form |
| AircraftEntity.AltitudeColor | aircraft.class.js:59-67 | `setHSL` gets saturation 1 and lightness 0.5; the hue is altitude/40000 up to 40000 feet and 1 from there on; it never exceeds 1, and it is negative exactly for negative altitudes (no lower clamp) |
| AircraftEntity.AltitudeHueMonotone | aircraft.class.js:60-61 | a higher aircraft never gets a smaller hue |
| AircraftEntity.CreateLine | aircraft.class.js:54-57 | a new line whose geometry is exactly the given points |
| AircraftEntity.Aircraft.constructor | aircraft.class.js:8-21 | the trail is the single point ToPosition(record); the line is new and drawn through the trail; the model draws with a new material of the same colour; the scene gains exactly the model and the line; the model is not moved |
| AircraftEntity.Aircraft.Hex | aircraft.class.js:23-25 | the hex of the record the entity was constructed from (the constructor ensures `Hex() == aircraft.hex`); it reads only the `const` field `aircraft`, so `Update` cannot change it |
| AircraftEntity.Aircraft.Update | aircraft.class.js:27-35 | the trail gains exactly one point, ToPosition(record), after the unchanged earlier points; the model's position is the trail's last point; rotation.y is ToHeading(track), other axes and scale kept; the colour is AltitudeColor(altitude); the line is rebuilt from the whole trail |
| AircraftEntity.Aircraft.Remove | aircraft.class.js:37-40 | the scene loses exactly the model and the line; every other object stays |
| Batch.HexesOfMembers | main.js:117-123 | a hex is among a batch's hexes exactly when some record carries it |
| Batch.LastIndexOf | main.js:117-132 | the index of the last record for a hex, −1 exactly when no record has it; no later record carries it |
| Batch.HexesOfExtend | main.js:117-123 | one more record adds its hex to the hexes seen |
| Batch.NewHexes | main.js:118-123 | the hexes that get a clone are mentioned in the batch and were not cached |
| Batch.NewHexesExtend | main.js:118-123 | one more record adds its hex to the new ones exactly when it was neither cached nor seen earlier in the batch |
| Batch.NewHexesMembers | main.js:118-123 | the new hexes are distinct (no hex is cloned twice) and are exactly the mentioned hexes that were not cached |
| Batch.NewHexesCount | main.js:118-122 | as many clones are made as there are distinct mentioned hexes outside the cache |
| Batch.KnownHexesAddNothing | main.js:118 | a batch whose hexes are all cached makes no clone |
| LiveMap.MainHeading | main.js:127-132 | rotation.y is degToRad(−90 + track): the positive-track form |
| LiveMap.HeadingsMirror | main.js:127-132 | the live map's heading and the entity's heading are mirror images about the −90° offset; the two `rotation.y` values agree only for track 0 |
| LiveMap.Placed | main.js:125-132 | a record sets its entity's position to ToPosition(record) and rotation.y to MainHeading(track), and keeps rotation.x, rotation.z and the scale |
| LiveMap.PlacedOverwrites | main.js:125-132 | placing twice is placing once with the later record |
| LiveMap.Admitted | main.js:118-123 | an unseen hex gains an entry holding the template's transform and every other entry is kept; a cached hex leaves the map as it was; the keys grow by exactly that hex |
| LiveMap.PlottedOne | main.js:117-133 | one record leaves the hexes cached plus its own |
| LiveMap.Plotted | main.js:117-133 | after a batch, the cached hexes are the earlier ones plus every hex in the batch; none is removed |
| LiveMap.PlottedExtend | main.js:117-133 | the batch is applied record by record in order |
| LiveMap.PlottedUntouched | main.js:117-133 | an entity whose hex the batch does not mention keeps its position, rotation and scale |
| LiveMap.PlottedLastRecordWins | main.js:117-132 | an entity whose hex the batch mentions is placed by the last record for that hex, from its old transform or the template's |
| LiveMap.PlottedSize | main.js:118-122 | the table grows by exactly the number of distinct new hexes |
| LiveMap.PlottedIdempotent | main.js:117-133 | plotting the same batch a second time changes no transform |
| LiveMap.PlaneScale | main.js:156-159 | the per-frame scale never exceeds MAX_SCALE_PLANE (50), whatever the camera input, and is non-negative for a non-negative distance and camera term |
| LiveMap.PlaneScaleMonotone | main.js:158-159 | moving the camera away never makes the aircraft smaller |
| LiveMap.InsertKeepsInvariant | main.js:118-122 | entering a new clone under an unseen hex in the cache, the array and the scene keeps the table invariant |
| LiveMap.ProgressStep | main.js:117-123 | one record keeps the batch bookkeeping: a cached hex leaves cache, array and scene alone, an unseen one appends its clone to all three |
| LiveMap.ProgressGrowth | main.js:118-122 | the cache and the array each grow by exactly the number of distinct new hexes, so they stay the same size |
| LiveMap.AircraftTable.constructor | main.js:16-17 | the table starts empty and valid |
| LiveMap.AircraftTable.PlotAircrafts | main.js:111-134 | a response that is not OK ends with its status and changes no table, transform or material; every entity that existed before keeps its material, whatever the response; otherwise the transforms are Plotted(batch); every batch hex is cached; earlier entries keep their entity; the array and the scene gain exactly the new hexes' entities, in order of first appearance, all freshly cloned |
| LiveMap.AircraftTable.PlotBatch | main.js:117-133 | the loop over the records: afterwards the table is valid (so every entity still draws with the template's material), the transforms are Plotted(batch), and cache, array and scene have made the progress of the whole batch |
| LiveMap.AircraftTable.PlotStep | main.js:117-133 | one turn of the loop takes the table from the progress of the first i records to that of the first i + 1 |
| LiveMap.AircraftTable.PlotOne | main.js:117-133 | a cached hex leaves the cache, the array and the scene alone; an unseen one gains a fresh clone in all three; then the transforms are PlottedOne(record) |
| LiveMap.AircraftTable.AddAircraft | main.js:118-123 | the unseen hex gains a fresh clone of the template, in the cache, at the end of the array and in the scene, with the template's transform and the template's material, as a three.js clone shares its source's material; nothing else changes |
| LiveMap.AircraftTable.Place | main.js:125-132 | only the record's entity changes, to Placed(its transform, record); its material stays, and every cached entity still draws with the template's material |
| LiveMap.AircraftTable.ScaleAircrafts | main.js:156-161 | every entity of the array gets the scale PlaneScale(distance, camera term) on all three axes; position, rotation, material and the table are unchanged |
| LiveMap.AircraftTable.SetScales | main.js:160 | the loop sets each array entity's scale to the given factor, and changes nothing else |

## Left out

- Rendering plumbing: the renderer, environment map, GLTF and RGBE loading, the map view and its controls, the GUI, Stats, the resize handler and the animation loop. They carry no stated behaviour.
- `fetch`, `response.json()` and `logError`: a response is modelled as its `ok` flag, its status and the records `json()` would yield. A failure to parse is not modelled.
- The asynchronous `await`: `plotAircrafts` is modelled as running to completion without interleaving.
- The internals of `UnitsUtils.datumsToSpherical` and of `THREE.MathUtils.degToRad`. They are foreign: the first is an arbitrary total function, the second a positive constant factor.
- IEEE floating point, `Math.tan`, the camera's field of view and zoom: `PlaneScale` takes the camera distance and the term tan(π·fov/360)/zoom as inputs.
- `THREE.Color`'s own handling of a hue outside [0, 1]: `AltitudeColor` models the arguments passed to `setHSL`, not the colour three.js stores.
- The dead `hue` variable of `getAltitudeColor` (aircraft.class.js:63), which is computed and never used.
- `Number(altitude)` coercion: altitudes are already numbers in the model.
- AircraftEntity.Aircraft.constructor: the material path `children[0].children[2].material` of the loaded asset is modelled as one `material` field of the model object.
- `LINE_MATERIAL` and the `BufferGeometry` internals: a line is modelled as the list of points it is built from.
- Geometry and children shared by a three.js clone: an `Object3D` has only a transform and a material.
- The query-string defaults of the map view, the commented-out raycaster and polling interval, and `prevScale`, which is never read.
- Removal of aircraft absent from a batch: the code has none, so the model has none.
- Object3D.tag: this ghost field records the hex a clone was made for. It is proof bookkeeping and has no counterpart in three.js.
