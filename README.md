# Bluetooth tracker: position fusion, trilateration and storage

Beacons installed at known integer coordinates on a floor plan report the
Bluetooth devices they hear, each with a signal strength (RSSI). The server
admits each report over HTTP and upserts the reporting beacon. For every
sighted device, it merges the reading into that device's table of
per-beacon readings and estimates a position:

- least-squares trilateration with three or more readings;
- the strongest reading's beacon when the solve fails or with fewer readings;
- (0, 0) with none.

It stores the result and publishes two payloads: every device with the zone
of its nearest beacon, and every beacon. A timer deletes devices not seen for
30 minutes.

The model has five modules:

- `Types` (`types.dfy`): the records and an insertion-ordered string-keyed map
  (`OrderedMap`). That map stands for a JavaScript `Map`, a plain object used
  as a dictionary, and an SQLite table listed in rowid order.
- `Storage` (`storage.dfy`): the `Database` class with its two tables. It
  covers the upserts, the AUTOINCREMENT id counter, `COALESCE` on the device
  name, and the time-based delete.
- `Triangulation` (`triangulation.dfy`): the linearised system and the
  matrix routines as loops over exact `real`s.
  - Proved: the pseudo-inverse solves the normal equations.
  - Proved: noiseless ranges give back the true position rounded to integers
    whenever the 1e-10 guard passes, which it always does for three
    non-collinear beacons at integer coordinates
    (`ThreeNonCollinearBeaconsAreSolvable`).
  - Proved: collinear beacons always make the solve fail.
  - Proved: three non-collinear beacons never do.
- `Location` (`location.dfy`): the `LocationController` class.
  - Its invariant: `activeBeacons` mirrors the beacons table.
  - It specifies the fusion of one sighting (`Fuse`) and of a whole report
    (`FuseAll`), and proves that delivering the same report twice leaves the
    state as one delivery left it.
  - It covers the fallback chain (`Estimate`), the nearest-beacon zone and
    both payloads.
- `Api` (`api.dfy`): request admission, meaning 400 for an incomplete body,
  and the timestamp default.

`rssiToDistance` is a parameter `distance: real -> real` of the controller and
of trilateration. The clock is a parameter `nowMillis`. Broadcasts return
their payloads instead of emitting them.

## Model

| member | source | states |
|---|---|---|
| Types.Put | src/controllers/locationController.ts:106-111 | Setting a key: the key now maps to the value and every other key keeps its value. An existing key keeps its position; a new key goes last. |
| Types.PutSame | src/controllers/locationController.ts:106-111 | Setting a key to the value it already holds changes nothing, order included. |
| Types.PutIdempotent | src/controllers/locationController.ts:70-77 | Setting the same key to the same value twice is the same as setting it once. |
| Types.Values | src/controllers/locationController.ts:114 | `Object.values` and listing a table: one value per key, in key order. |
| Storage.EmptyDevices | src/models/database.ts:29-40 | A freshly created device table is empty and well formed. |
| Storage.Coalesce | src/models/database.ts:78 | `COALESCE(@name, name)`: a given name wins; a NULL one keeps the stored name. |
| Storage.SaveDevice | src/models/database.ts:73-86 | Upsert by MAC. x, y, last_seen and the readings are taken from the record. An existing row keeps its id and its position, and its name is coalesced. A new row gets the next AUTOINCREMENT id and goes last. Other MACs are untouched. |
| Storage.SaveDevicePreservesValid | src/models/database.ts:29-40 | An upsert keeps one row per MAC. Ids stay below the counter and increase in listing order. |
| Storage.SaveDeviceIdempotent | src/models/database.ts:73-86 | Saving the same record twice gives the same table as saving it once. |
| Storage.StaleKeys | src/models/database.ts:109 | A key is selected for deletion exactly when its row has `last_seen < cutoff`. |
| Storage.FreshKeys | src/models/database.ts:109 | A key survives the delete exactly when its row has `last_seen >= cutoff`. |
| Storage.FreshKeysDistinct | src/models/database.ts:107-112 | The surviving keys are still distinct. |
| Storage.FreshKeysIncreasing | src/models/database.ts:107-112 | The surviving rows keep increasing id order. |
| Storage.PartitionCount | src/models/database.ts:107-112 | Deleted plus surviving rows are all the rows, so `changes` counts exactly the deleted ones. |
| Storage.Purge | src/models/database.ts:109-110 | After the delete, a MAC has a row iff it had one with `last_seen >= cutoff`, and that row is unchanged. The id counter is unchanged. |
| Storage.PurgePreservesValid | src/models/database.ts:107-112 | The delete leaves a well-formed table. |
| Storage.Cutoff | src/models/database.ts:108 | The cutoff plus the maximum age is the current second: `floor(now / 1000)`. |
| Storage.PurgeIdempotent | src/models/database.ts:107-112 | A second delete with the same cutoff finds nothing stale and changes nothing. |
| Storage.StaleKeysNone | src/models/database.ts:109 | With every row fresh, nothing is selected for deletion. |
| Storage.FreshKeysAll | src/models/database.ts:109 | With every row fresh, every key survives, in order. |
| Storage.Database.constructor | src/models/database.ts:16-40 | Both tables start empty and the id counter starts at 1. |
| Storage.Database.SaveBeacon | src/models/database.ts:48-60 | Upsert by id: the beacon table becomes `Put(old, id, beacon)` and stays well formed. |
| Storage.Database.GetAllBeacons | src/models/database.ts:65-68 | Every beacon row in table order, with no id repeated. |
| Storage.Database.SaveDeviceLocation | src/models/database.ts:73-86 | The device table becomes `SaveDevice(old, record)` and stays well formed. |
| Storage.Database.GetAllDeviceLocations | src/models/database.ts:91-94 | Every device row in table order: distinct MACs, increasing ids. |
| Storage.Database.GetDeviceLocationByMacAddress | src/models/database.ts:99-102 | The row of that MAC when there is one, else nothing. |
| Storage.Database.CleanupOldDevices | src/models/database.ts:107-112 | The table becomes `Purge(old, floor(now/1000) - maxAge)`. The result is the number of stale rows, which is exactly the number of rows removed. |
| Triangulation.Transposed | src/utils/triangulation.ts:108-120 | The transpose has the swapped dimensions, and entry (j, i) is A[i][j]. |
| Triangulation.Transpose | src/utils/triangulation.ts:108-120 | Fails iff the matrix is empty, when `A[0].length` throws. Otherwise the result is the transpose. |
| Triangulation.Multiply | src/utils/triangulation.ts:125-146 | Fails on an empty operand or when the inner dimensions differ, with the matching error. Otherwise the result is the product, built by the triple loop. |
| Triangulation.Product | src/utils/triangulation.ts:125-146 | The product of an m-by-n and an n-by-p matrix is m-by-p. Entry (i, j) is the inner product of row i of A and column j of B. |
| Triangulation.MultiplyVec | src/utils/triangulation.ts:151-168 | Fails on an empty matrix or a width mismatch. Otherwise the result is A b. |
| Triangulation.Apply | src/utils/triangulation.ts:151-168 | The matrix-vector product has one entry per row. Entry i is the inner product of row i with the vector. |
| Triangulation.Inverse2x2 | src/utils/triangulation.ts:173-193 | Fails iff A is not 2x2 or abs(det) < 1e-10, naming which. Otherwise the result is a 2x2 matrix. |
| Triangulation.AdjugateInverts | src/utils/triangulation.ts:183-192 | The adjugate divided by a non-zero determinant inverts on both sides, entry by entry. |
| Triangulation.InverseIsTwoSided | src/utils/triangulation.ts:173-193 | A successful inverse2x2 is a left and a right inverse. |
| Triangulation.Gram | src/utils/triangulation.ts:93 | Aᵀ A is 2x2, and entry (i, j) is the inner product of columns i and j. |
| Triangulation.GramApply | src/utils/triangulation.ts:90-93 | (Aᵀ A) q = Aᵀ (A q). |
| Triangulation.Solvable | src/utils/triangulation.ts:183-187 | The guard of the normal matrix's inverse passes: abs(det(Aᵀ A)) is at least 1e-10. |
| Triangulation.NormalSolution | src/utils/triangulation.ts:88-103 | The closed form (Aᵀ A)⁻¹ (Aᵀ b) of a passing system, a vector of two entries. |
| Triangulation.NormalSolutionSolves | src/utils/triangulation.ts:88-103 | The pseudo-inverse solution satisfies the normal equations (Aᵀ A) s = Aᵀ b. |
| Triangulation.NormalSolutionOfConsistentSystem | src/utils/triangulation.ts:88-103 | When A q = b and the guard passes, the pseudo-inverse returns exactly q. |
| Triangulation.PseudoInverse | src/utils/triangulation.ts:88-103 | Succeeds iff A has two columns, b fits and the guard passes; the result is then (Aᵀ A)⁻¹ Aᵀ b. A singular normal matrix fails with `Singular`. |
| Triangulation.Round | src/utils/triangulation.ts:79 | `Math.round`: the integer within half of v, with halves rounded up. |
| Triangulation.EquationRow | src/utils/triangulation.ts:63-66 | The row of the linearised equation of point i: 2(xᵢ - x₀), 2(yᵢ - y₀). |
| Triangulation.EquationRhs | src/utils/triangulation.ts:68-72 | Its right-hand side: xᵢ² - x₀² + yᵢ² - y₀² + d₀² - dᵢ². |
| Triangulation.LinearSystemMatrix | src/utils/triangulation.ts:58-66 | One two-column row per point after the first. |
| Triangulation.LinearSystemRhs | src/utils/triangulation.ts:68-72 | One right-hand side per point after the first. |
| Triangulation.ExactRangesSolveLinearSystem | src/utils/triangulation.ts:58-73 | A point whose distance to every beacon is the observed one solves every linearised equation. |
| Triangulation.WeightedLeastSquares | src/utils/triangulation.ts:49-80 | Succeeds iff there are two or more points and the guard passes on the built system. The result is the rounded normal solution; otherwise it fails with `Singular`. |
| Triangulation.Observations | src/utils/triangulation.ts:29-33 | One observation per reading. |
| Triangulation.Trilateration | src/utils/triangulation.ts:21-26 | Fewer than three readings give no estimate. |
| Triangulation.Trilaterate | src/utils/triangulation.ts:21-42 | Fewer than three readings give nothing. Otherwise a failure of the solve is caught and becomes nothing. The result equals the closed form `Trilateration`. |
| Triangulation.DependentColumnsAreSingular | src/utils/triangulation.ts:183-187 | Linearly dependent columns make det(Aᵀ A) exactly 0. |
| Triangulation.CollinearBeaconsGiveNoEstimate | src/utils/triangulation.ts:183-187 | Three or more beacons on one line always make trilateration give no estimate. |
| Triangulation.TrilaterationOfExactRanges | src/utils/triangulation.ts:21-42 | If every modelled distance is the true distance to q and the guard passes, trilateration returns q rounded. |
| Triangulation.GramOfSquare | src/utils/triangulation.ts:93 | For a 2x2 system, det(Aᵀ A) = det(A)². |
| Triangulation.ThreeNonCollinearBeaconsAreSolvable | src/utils/triangulation.ts:185-187 | Three non-collinear beacons at integer coordinates always pass the 1e-10 guard. |
| Location.BeaconRecordOf | src/controllers/locationController.ts:63-69 | The beacon row upserted for a report: its id, zone, x, y, and its timestamp as last_seen. |
| Location.ActiveOf | src/controllers/locationController.ts:32-37 | The `activeBeacons` entry of a row: x, y, zone, and last_seen as timestamp. |
| Location.LoadAll | src/controllers/locationController.ts:29-40 | `beacons.forEach(... activeBeacons.set ...)`: each row set into the map in table order, keyed by its id, with last_seen as timestamp. |
| Location.LoadAllDistinct | src/controllers/locationController.ts:29-40 | Rows with distinct ids, set in order into an empty map, give a map with those ids in that order, each with its own row's data. |
| Location.LoadingMirrors | src/controllers/locationController.ts:13-15 | Loading the beacons table into an empty map makes `activeBeacons` mirror the table. |
| Location.MirrorsPut | src/controllers/locationController.ts:61-78 | Upserting the same beacon into the table and into `activeBeacons` keeps them mirrored. |
| Location.Strongest | src/controllers/locationController.ts:127-129 | The reduce picks a reading with the largest rssi, and no earlier reading has that rssi. |
| Location.StrongestIsFirstMaximum | src/controllers/locationController.ts:127-129 | That pick is unique: the first maximum is the one reduce returns. |
| Location.StrongestPosition | src/controllers/locationController.ts:127-131 | The position used is that of a reading whose rssi is the largest. |
| Location.Estimate | src/controllers/locationController.ts:117-140 | The position rule. Three or more readings are trilaterated. When that fails, or with one or two readings, the strongest reading's beacon is used. With none the result is (0, 0). `EstimateSources` states each case. |
| Location.EstimateSources | src/controllers/locationController.ts:117-140 | The fallback chain. No readings give (0, 0). One or two give the strongest beacon. Three or more give the trilateration result, or the strongest beacon when it fails. |
| Location.EstimateOfExactRanges | src/controllers/locationController.ts:120-124 | With exact ranges to q and a solvable geometry, the device is placed at q rounded. |
| Location.EstimateOfCollinearBeacons | src/controllers/locationController.ts:120-132 | With collinear beacons, the device is placed at the strongest beacon. |
| Location.StoredTable | src/controllers/locationController.ts:95-103 | The readings a sighting starts from: those of the stored row, or an empty table when there is no row or its text does not parse. |
| Location.ReadingOf | src/controllers/locationController.ts:106-111 | The reading stored for the reporting beacon: its id and coordinates, with the device's rssi. |
| Location.UpdatedTable | src/controllers/locationController.ts:93-111 | The reporting beacon's entry becomes the new reading, and every other entry is as stored. A missing or unparsable row counts as empty. |
| Location.ReportedRecord | src/controllers/locationController.ts:143-151 | The saved record: the stored id or 0, the MAC and name, the timestamp, the updated table, and a position equal to that table's estimate. |
| Location.Fuse | src/controllers/locationController.ts:83-152 | processDeviceInfo on the device table: the device's row is upserted with `ReportedRecord` built from its stored row. `ProcessDeviceInfo` is proved to reach it, and `FuseEffect`, `FuseOther` and `FuseIdempotent` state what it does. |
| Location.FuseEffect | src/controllers/locationController.ts:83-152 | After a sighting the device has a row. The row holds the updated table and the report's timestamp, and sits at that table's estimate. |
| Location.FuseOther | src/controllers/locationController.ts:83-152 | A sighting leaves every other device's row unchanged. |
| Location.SingleReadingEstimate | src/controllers/locationController.ts:133-139 | A table with one reading places the device at that reading's beacon. |
| Location.FirstSightingAtBeacon | src/controllers/locationController.ts:95-103 | A device with no row, or with an unparsable one, is placed at the reporting beacon. |
| Location.FuseFixpoint | src/controllers/locationController.ts:83-152 | A table whose row for the device is the row a sighting wrote is left exactly as it is by that sighting. |
| Location.FuseIdempotent | src/controllers/locationController.ts:83-152 | Fusing the same sighting twice gives the table one fusion gave: same rows, ids, positions, last_seen, readings and order. |
| Location.FuseAll | src/controllers/locationController.ts:50-52 | The `devices.forEach` loop: the report's sightings fused one by one, in report order, starting from the given table. |
| Location.FuseAllStep | src/controllers/locationController.ts:50-52 | The sightings of a report are fused one after another, in report order. |
| Location.FuseAllUnnamed | src/controllers/locationController.ts:50-52 | A device the report does not name keeps its row. |
| Location.FuseAllSighted | src/controllers/locationController.ts:50-52 | After a report, a named device has a row. The row carries the report's timestamp and the reading from its last sighting, and sits at its table's estimate. |
| Location.FuseAllSplit | src/controllers/locationController.ts:50-52 | Fusing a report's sightings equals fusing those before any index and then the rest. |
| Location.FuseAllKeepsSighting | src/controllers/locationController.ts:50-52 | In a report naming each device once, a device's row after the report is the row its own sighting wrote. |
| Location.FuseAllOfFixpoint | src/controllers/locationController.ts:50-52 | Sightings that each leave a table unchanged leave it unchanged together. |
| Location.FuseAllIdempotent | src/controllers/locationController.ts:50-52 | Fusing a report that names each device once a second time leaves the device table as the first pass left it. |
| Location.ReportIdempotent | src/controllers/locationController.ts:45-56 | A report delivered twice leaves the beacons table, `activeBeacons` and the device table as one delivery left them. |
| Location.FuseAllPreservesValid | src/controllers/locationController.ts:50-52 | Processing a report keeps the device table well formed. |
| Location.SquaredDistance | src/controllers/locationController.ts:208 | The squared distance is non-negative, and zero iff the point is on the beacon. |
| Location.Nearest | src/controllers/locationController.ts:204-213 | Nothing iff there are no beacons. Otherwise a beacon at minimal distance, with every earlier beacon strictly farther. |
| Location.NearestOnBeacon | src/controllers/locationController.ts:198-216 | A point on a beacon, with no earlier beacon on the same spot, gets that beacon. |
| Location.NearestZone | src/controllers/locationController.ts:198-216 | No zone iff no beacon is known. |
| Location.ZoneLabel | src/controllers/locationController.ts:167 | `zone \|\| 'unknown'`: never empty. It is 'unknown' iff the zone is missing, empty or itself 'unknown'; otherwise it is the zone. |
| Location.Project | src/controllers/locationController.ts:161-168 | A payload entry copies the row's MAC, name, x, y and last_seen, and adds the zone label. |
| Location.DeviceLocations | src/controllers/locationController.ts:158-169 | One payload entry per device row, in table order, each labelled with the zone of its nearest beacon. |
| Location.ZoneOfDevice | src/controllers/locationController.ts:157-169 | A device standing on a beacon that is the first at that spot is labelled with that beacon's zone. |
| Location.LocationController.constructor | src/controllers/locationController.ts:13-24 | Loads every beacon row into `activeBeacons`, which then mirrors the beacons table. |
| Location.LocationController.LoadActiveBeacons | src/controllers/locationController.ts:29-40 | `activeBeacons` becomes the old map with every beacon row set, in table order. |
| Location.LocationController.UpdateBeaconInfo | src/controllers/locationController.ts:61-78 | The beacon is upserted in the table and set in `activeBeacons`, and the two stay mirrored. |
| Location.LocationController.ProcessDeviceInfo | src/controllers/locationController.ts:83-152 | The device table becomes `Fuse(old, sighting)`, with the database kept well formed. |
| Location.LocationController.ProcessBeaconData | src/controllers/locationController.ts:45-56 | The beacon is upserted first. Every sighting is then fused in order (`FuseAll`). Both payloads are built from the final state. |
| Location.LocationController.BroadcastDeviceLocations | src/controllers/locationController.ts:157-176 | The device payload is `DeviceLocations` of the table, and the beacon payload is every beacon row. |
| Location.LocationController.BroadcastBeaconLocations | src/controllers/locationController.ts:181-193 | Every beacon row, field for field, in table order. |
| Location.LocationController.FindLatestBeaconInZone | src/controllers/locationController.ts:198-216 | The scan returns the zone of the nearest beacon, with ties broken to the first, or nothing without beacons. |
| Location.LocationController.EvictStale | src/controllers/locationController.ts:17-23 | One timer tick: the device table is purged with cutoff `floor(now/1000) - 1800`. The count deleted is the number of rows that disappear. |
| Api.Incomplete | src/controllers/apiController.ts:23 | The 400 test: the id is absent or empty, or the location or the device list is absent. An empty list or object still passes. |
| Api.Timestamp | src/controllers/apiController.ts:29-31 | A non-zero timestamp, fractional or not, is kept. An absent or zero one becomes the current whole second, `floor(now / 1000)`. |
| Api.Admitted | src/controllers/apiController.ts:23-31 | A request is rejected iff its id is absent or empty, or its location or device list is absent. An admitted report carries the request's fields and the defaulted timestamp. |
| Api.ReadmissionRoundTrip | src/controllers/apiController.ts:23-31 | Admitting an admitted report again, at any later time, gives the same report. |
| Api.ApiController.constructor | src/controllers/apiController.ts:11-13 | Keeps the location controller it is given. |
| Api.ApiController.ReceiveBeaconData | src/controllers/apiController.ts:18-41 | 400 iff the body is incomplete; then nothing changes and nothing is broadcast. Otherwise 200 after the beacon is upserted and every sighting is fused with the defaulted timestamp. Both broadcast payloads are then built from the new state. |
| Api.ApiController.GetDeviceLocations | src/controllers/apiController.ts:46-55 | 200, with both broadcast payloads built from the current state. |

## Left out

- `rssiToDistance` (src/utils/triangulation.ts:10-14) is not modelled. The model takes it as the parameter `distance`, so every property holds for any distance model.
- Floating point is left out. The matrix arithmetic is exact `real` arithmetic: IEEE rounding, NaN and Infinity are not modelled. `Math.pow(v, 2)` is written `v * v`.
- `Number.MAX_VALUE`, the initial minimum of findLatestBeaconInZone, is modelled as "no beacon scanned yet" (`None`).
- `Math.sqrt` is left out. Beacons are compared by squared distance, which orders them the same way.
- Location.LocationController.FindLatestBeaconInZone: returns the zone as a string option rather than the `{ zone }` object.
- `setInterval` and `io.emit` are left out. One timer tick is `EvictStale(nowMillis)`, and broadcasts return their payloads.
- Console logging is left out, including the message for deleted rows.
- `JSON.stringify` and `JSON.parse` of `rssi_values` are left out. The column holds what parsing yields, with `None` for text that does not parse.
- Types.Values: `Object.values` lists integer-like keys first, in numeric order, before the rest. The model keeps plain insertion order, so it matches only for beacon ids that are not canonical array indices.
- Types.Values, Location.UpdatedTable and Location.FirstSightingAtBeacon: a beacon id of `"__proto__"` is not modelled. Assigning `rssiValues["__proto__"]` on a plain object sets its prototype instead of adding an own property, so `Object.values` would list no reading for that beacon, and the model would store one.
- Storage.Database.GetAllBeacons and Storage.Database.GetAllDeviceLocations: `SELECT *` without `ORDER BY` is modelled as rowid (insertion) order. SQLite does not promise that order, and the order of the device payload depends on it.
- Storage.Database.SaveDeviceLocation: a device without a name is bound as NULL. The binding library's handling of an `undefined` parameter is not modelled.
- Api.ApiController.ReceiveBeaconData: the 500 branch (apiController.ts:37-40) is not modelled, because nothing in the model throws. The model does not capture a database or JSON error from the engine.
- Api.ApiController.GetDeviceLocations: the 500 branch (apiController.ts:51-54) is left out for the same reason.
- Triangulation.Transpose, Triangulation.Multiply, Triangulation.MultiplyVec and Triangulation.Inverse2x2 require rectangular matrices. Every matrix the source builds is rectangular; JavaScript's behaviour on ragged arrays (reading `undefined`) is not modelled.
- Coordinates are unbounded integers. The `INTEGER` columns' 64-bit range, JavaScript's 53-bit safe integers and non-integer coordinates sent in a report are not modelled. Rssi values and timestamps are exact `real`s, as the scanner sends averaged rssi values and fractional seconds. Comparisons on them (`cur.rssi > prev.rssi`, `last_seen < cutoff`) are exact.
- Location.FuseAllKeepsSighting, Location.FuseAllIdempotent and Location.ReportIdempotent: proved only for reports that name each device once (`DistinctDevices`). The scanner builds its list from a dictionary keyed by address (beacon.py:78-87), but the server does not check this. A report naming a device twice is not covered.
- Storage.Database.constructor: models opening a new database file, with empty tables and the counter at 1. Reopening an existing file keeps its rows and counter (`CREATE TABLE IF NOT EXISTS`). `Location.LocationController.constructor` accepts any well-formed `Database`, so a restart over an existing file is covered there.
- The device's `sample_count` field is carried but never used, as in the source.
- The SQLite engine, the database file and `close` are left out. Each statement's effect is modelled as an atomic change of the tables.
- Storage.SaveDevice: `nextId` stands for the AUTOINCREMENT counter but advances only when a row is inserted. SQLite may also consume a rowid on an upsert that ends as an update. That would only change which ids later rows get, and no payload shows ids.
- src/server.ts (HTTP routing, socket.io wiring) and beacon.py (the scanner on the beacon side) are not part of this model.
