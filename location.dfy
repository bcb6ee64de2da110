/**
 * Position estimation and live state of the tracker
 * (src/controllers/locationController.ts).
 */
module Location {
  import opened Types
  import opened Triangulation
  import opened Storage

  /** The value `activeBeacons` keeps per beacon id. */
  datatype ActiveBeacon = ActiveBeacon(x: int, y: int, zone: string, timestamp: real)

  /** The eviction timer deletes devices not seen for 30 minutes. */
  const EvictionMaxAgeSeconds := 1800

  // ---------------------------------------------------------------------------
  // Beacons

  /** The beacon row a report upserts. */
  function BeaconRecordOf(data: BeaconData): (b: BeaconRecord)
    ensures b.id == data.beaconId && b.lastSeen == data.timestamp
    ensures b.zone == data.location.zone && b.x == data.location.x && b.y == data.location.y
  {
    BeaconRecord(data.beaconId, data.location.zone, data.location.x, data.location.y, data.timestamp)
  }

  /** The `activeBeacons` value loaded from a beacon row: `timestamp` is its `last_seen`. */
  function ActiveOf(b: BeaconRecord): (a: ActiveBeacon)
    ensures a.x == b.x && a.y == b.y && a.zone == b.zone && a.timestamp == b.lastSeen
  {
    ActiveBeacon(b.x, b.y, b.zone, b.lastSeen)
  }

  /** `activeBeacons` holds exactly the beacons table: same ids, same order, same data. */
  ghost predicate Mirrors(active: OrderedMap<ActiveBeacon>, table: BeaconTable) {
    active.order == table.order && forall id | id in table.entries :: active.entries[id] == ActiveOf(table.entries[id])
  }

  /** `rows.forEach(b => active.set(b.id, ...))`: the rows set into the map one after another. */
  function LoadAll(active: OrderedMap<ActiveBeacon>, rows: seq<BeaconRecord>): OrderedMap<ActiveBeacon> {
    if |rows| == 0 then active
    else
      var b := rows[|rows| - 1];
      Put(LoadAll(active, rows[..|rows| - 1]), b.id, ActiveOf(b))
  }

  /** The ids of a sequence of beacon rows. */
  function Ids(rows: seq<BeaconRecord>): (ids: seq<string>)
    ensures |ids| == |rows| && forall i | 0 <= i < |rows| :: ids[i] == rows[i].id
  {
    seq(|rows|, i requires 0 <= i < |rows| => rows[i].id)
  }

  /** Rows with distinct ids, set one by one into an empty map, each land in their own slot, in order. */
  lemma {:induction false} LoadAllDistinct(rows: seq<BeaconRecord>)
    requires DistinctKeys(Ids(rows))
    ensures LoadAll(Empty(), rows).order == Ids(rows)
    ensures forall i | 0 <= i < |rows| :: Get(LoadAll(Empty(), rows), rows[i].id) == Some(ActiveOf(rows[i]))
  {
    if |rows| > 0 {
      var n := |rows| - 1;
      var prefix := rows[..n];
      assert Ids(prefix) == Ids(rows)[..n];
      LoadAllDistinct(prefix);
      var before := LoadAll(Empty(), prefix);
      var id := rows[n].id;
      var after := Put(before, id, ActiveOf(rows[n]));
      assert LoadAll(Empty(), rows) == after;
      assert id !in before.order by {
        forall i | 0 <= i < n ensures before.order[i] != id {
          assert Ids(rows)[i] != Ids(rows)[n];
        }
      }
      assert after.order == Ids(rows);
      forall i | 0 <= i < n ensures Get(after, rows[i].id) == Some(ActiveOf(rows[i])) {
        assert Ids(rows)[i] != Ids(rows)[n];
        assert Get(after, rows[i].id) == Get(before, rows[i].id);
      }
    }
  }

  /** loadActiveBeacons into the empty map of a new controller mirrors the beacons table. */
  lemma LoadingMirrors(t: BeaconTable)
    requires ValidBeacons(t)
    ensures Mirrors(LoadAll(Empty(), Values(t)), t)
  {
    var rows := Values(t);
    assert Ids(rows) == t.order;
    LoadAllDistinct(rows);
    var active := LoadAll(Empty(), rows);
    forall id | id in t.entries ensures active.entries[id] == ActiveOf(t.entries[id]) {
      var i :| 0 <= i < |t.order| && t.order[i] == id;
      assert rows[i] == t.entries[id];
    }
  }

  /** Setting the same beacon into the table and into `activeBeacons` keeps them mirrored. */
  lemma MirrorsPut(active: OrderedMap<ActiveBeacon>, table: BeaconTable, b: BeaconRecord)
    requires Mirrors(active, table)
    ensures Mirrors(Put(active, b.id, ActiveOf(b)), Put(table, b.id, b))
  {
    var a2, t2 := Put(active, b.id, ActiveOf(b)), Put(table, b.id, b);
    assert b.id in active.entries <==> b.id in table.entries by {
      assert b.id in active.entries <==> b.id in active.order;
    }
    forall id | id in t2.entries ensures a2.entries[id] == ActiveOf(t2.entries[id]) {
      if id != b.id {
        assert Get(t2, id) == Get(table, id) && Get(a2, id) == Get(active, id);
      }
    }
  }

  // ---------------------------------------------------------------------------
  // The strongest-signal pick

  /**
   * The index `readings.reduce((prev, cur) => cur.rssi > prev.rssi ? cur : prev)`
   * ends on: a reading with the largest rssi, and the earliest of those.
   */
  function Strongest(readings: seq<RssiData>): (i: nat)
    requires |readings| > 0
    ensures i < |readings|
    ensures forall k | 0 <= k < |readings| :: readings[k].rssi <= readings[i].rssi
    ensures forall k | 0 <= k < i :: readings[k].rssi < readings[i].rssi
  {
    if |readings| == 1 then 0
    else
      var p := Strongest(readings[..|readings| - 1]);
      if readings[|readings| - 1].rssi > readings[p].rssi then |readings| - 1 else p
  }

  /** The first maximum is unique: any index with both properties is the one reduce picks. */
  lemma StrongestIsFirstMaximum(readings: seq<RssiData>, j: nat)
    requires j < |readings|
    requires forall k | 0 <= k < |readings| :: readings[k].rssi <= readings[j].rssi
    requires forall k | 0 <= k < j :: readings[k].rssi < readings[j].rssi
    ensures Strongest(readings) == j
  {
  }

  /** The coordinates of the strongest reading. */
  function StrongestPosition(readings: seq<RssiData>): (p: Point)
    requires |readings| > 0
    ensures exists k | 0 <= k < |readings| :: p == Point(readings[k].x, readings[k].y) && forall j | 0 <= j < |readings| :: readings[j].rssi <= readings[k].rssi
  {
    var s := readings[Strongest(readings)];
    Point(s.x, s.y)
  }

  // ---------------------------------------------------------------------------
  // The fallback chain

  /**
   * The position the chain settles on for a table: trilateration with three or
   * more readings; the strongest reading's beacon when that fails or there are
   * one or two readings; (0, 0) with none.
   */
  function Estimate(table: RssiTable, distance: real -> real): Point {
    var readings := Values(table);
    if |readings| >= 3 then
      match Trilateration(readings, distance)
      case Some(p) => p
      case None => StrongestPosition(readings)
    else if |readings| > 0 then StrongestPosition(readings)
    else Point(0, 0)
  }

  /** Where an estimate comes from: a solve, a beacon in the table, or nowhere. */
  lemma EstimateSources(table: RssiTable, distance: real -> real)
    ensures |Values(table)| == 0 ==> Estimate(table, distance) == Point(0, 0)
    ensures 0 < |Values(table)| < 3 ==> Estimate(table, distance) == StrongestPosition(Values(table))
    ensures |Values(table)| >= 3 && Trilateration(Values(table), distance).Some? ==>
      Estimate(table, distance) == Trilateration(Values(table), distance).value
    ensures |Values(table)| >= 3 && Trilateration(Values(table), distance).None? ==>
      Estimate(table, distance) == StrongestPosition(Values(table))
  {
  }

  /** With beacons in exact range of q and a solvable geometry, the estimate is q rounded. */
  lemma EstimateOfExactRanges(table: RssiTable, distance: real -> real, q: Vector)
    requires |Values(table)| >= 3 && |q| == 2
    requires Solvable(LinearSystemMatrix(Observations(Values(table), distance)))
    requires forall i | 0 <= i < |Values(table)| ::
      AtDistance(Values(table)[i].x as real, Values(table)[i].y as real, distance(Values(table)[i].rssi), q)
    ensures Estimate(table, distance) == RoundPoint(q)
  {
    TrilaterationOfExactRanges(Values(table), distance, q);
  }

  /** With all beacons on one line the solve fails and the strongest beacon's position is used. */
  lemma EstimateOfCollinearBeacons(table: RssiTable, distance: real -> real, a: real, b: real, c: real)
    requires |Values(table)| >= 3 && Collinear(Values(table), a, b, c)
    ensures Estimate(table, distance) == StrongestPosition(Values(table))
  {
    CollinearBeaconsGiveNoEstimate(Values(table), distance, a, b, c);
  }

  // ---------------------------------------------------------------------------
  // Fusing one sighting into the device table

  /** The table a device's stored row yields: empty without a row or when its text does not parse. */
  function StoredTable(current: Option<DeviceLocationRecord>): RssiTable {
    match current
    case None => Empty()
    case Some(row) =>
      match row.rssiValues
      case None => Empty()
      case Some(table) => table
  }

  /** The reading a beacon contributes for a sighted device. */
  function ReadingOf(device: DeviceInfo, beaconId: string, location: BeaconLocation): (r: RssiData)
    ensures r.beaconId == beaconId && r.x == location.x && r.y == location.y && r.rssi == device.rssi
  {
    RssiData(beaconId, location.x, location.y, device.rssi)
  }

  /** The table after `rssiValues[beaconId] = ...`. */
  function UpdatedTable(current: Option<DeviceLocationRecord>, device: DeviceInfo, beaconId: string, location: BeaconLocation): (t: RssiTable)
    ensures Get(t, beaconId) == Some(ReadingOf(device, beaconId, location))
    ensures forall b | b != beaconId :: Get(t, b) == Get(StoredTable(current), b)
    ensures |t.order| > 0
  {
    Put(StoredTable(current), beaconId, ReadingOf(device, beaconId, location))
  }

  /** The record processDeviceInfo hands to saveDeviceLocation. */
  function ReportedRecord(current: Option<DeviceLocationRecord>, device: DeviceInfo, beaconId: string,
                          location: BeaconLocation, timestamp: real, distance: real -> real): (r: DeviceLocationRecord)
    ensures r.id == (if current.Some? then current.value.id else 0)
    ensures r.macAddress == device.macAddress && r.name == device.name && r.lastSeen == timestamp
    ensures r.rssiValues == Some(UpdatedTable(current, device, beaconId, location))
    ensures Point(r.x, r.y) == Estimate(UpdatedTable(current, device, beaconId, location), distance)
  {
    var table := UpdatedTable(current, device, beaconId, location);
    var p := Estimate(table, distance);
    DeviceLocationRecord(if current.Some? then current.value.id else 0, device.macAddress, device.name,
                         p.x, p.y, timestamp, Some(table))
  }

  /** The device table after processDeviceInfo. */
  function Fuse(t: DeviceTable, device: DeviceInfo, beaconId: string, location: BeaconLocation,
                timestamp: real, distance: real -> real): DeviceTable {
    SaveDevice(t, ReportedRecord(Get(t.rows, device.macAddress), device, beaconId, location, timestamp, distance))
  }

  /**
   * The row of a device after a sighting: last seen at the report's timestamp,
   * holding `reading` as the reporting beacon's entry, and placed at the
   * estimate of its table.
   */
  ghost predicate Sighted(row: DeviceLocationRecord, reading: RssiData, timestamp: real, distance: real -> real) {
    && row.lastSeen == timestamp
    && row.rssiValues.Some?
    && Get(row.rssiValues.value, reading.beaconId) == Some(reading)
    && Point(row.x, row.y) == Estimate(row.rssiValues.value, distance)
  }

  /**
   * A sighting stores the updated table (only the reporting beacon's entry
   * overwritten) and the report's timestamp in the device's row, and places
   * the device at that table's estimate.
   */
  lemma FuseEffect(t: DeviceTable, device: DeviceInfo, beaconId: string, location: BeaconLocation,
                   timestamp: real, distance: real -> real)
    ensures var r := Fuse(t, device, beaconId, location, timestamp, distance);
      && device.macAddress in r.rows.entries
      && r.rows.entries[device.macAddress].rssiValues == Some(UpdatedTable(Get(t.rows, device.macAddress), device, beaconId, location))
      && Sighted(r.rows.entries[device.macAddress], ReadingOf(device, beaconId, location), timestamp, distance)
  {
  }

  /** A sighted device has a row afterwards. */
  lemma FuseSights(t: DeviceTable, device: DeviceInfo, beaconId: string, location: BeaconLocation,
                   timestamp: real, distance: real -> real)
    ensures device.macAddress in Fuse(t, device, beaconId, location, timestamp, distance).rows.entries
  {
  }

  /** A sighting of one device leaves the row of another alone. */
  lemma FuseOther(t: DeviceTable, device: DeviceInfo, beaconId: string, location: BeaconLocation,
                  timestamp: real, distance: real -> real, mac: string)
    requires mac != device.macAddress
    ensures Get(Fuse(t, device, beaconId, location, timestamp, distance).rows, mac) == Get(t.rows, mac)
  {
  }

  /** The row of a device a sighting does not name, as a map entry. */
  lemma FuseKeepsRow(t: DeviceTable, device: DeviceInfo, beaconId: string, location: BeaconLocation,
                     timestamp: real, distance: real -> real, mac: string)
    requires mac != device.macAddress && mac in t.rows.entries
    ensures var r := Fuse(t, device, beaconId, location, timestamp, distance);
      mac in r.rows.entries && r.rows.entries[mac] == t.rows.entries[mac]
  {
    FuseOther(t, device, beaconId, location, timestamp, distance, mac);
  }

  /**
   * A row written by fusing a sighting is a fixed point of that sighting: the
   * row already holds the updated table, so fusing the sighting again writes
   * the same position, last_seen, readings and name.
   */
  lemma FuseFixpoint(s: DeviceTable, u: DeviceTable, device: DeviceInfo, beaconId: string, location: BeaconLocation,
                     timestamp: real, distance: real -> real)
    requires Get(u.rows, device.macAddress) == Get(Fuse(s, device, beaconId, location, timestamp, distance).rows, device.macAddress)
    ensures Fuse(u, device, beaconId, location, timestamp, distance) == u
  {
    var mac := device.macAddress;
    FuseSights(s, device, beaconId, location, timestamp, distance);
    var row := u.rows.entries[mac];
    var table := UpdatedTable(Get(s.rows, mac), device, beaconId, location);
    FuseEffect(s, device, beaconId, location, timestamp, distance);
    assert Get(u.rows, mac) == Some(row);
    PutSame(table, beaconId, ReadingOf(device, beaconId, location));
    assert UpdatedTable(Some(row), device, beaconId, location) == table;
    var again := ReportedRecord(Some(row), device, beaconId, location, timestamp, distance);
    assert row.name == Coalesce(device.name, row.name) by {
      if mac in s.rows.entries {
        assert row.name == Coalesce(device.name, s.rows.entries[mac].name);
      }
    }
    assert row.(name := Coalesce(again.name, row.name), x := again.x, y := again.y,
                lastSeen := again.lastSeen, rssiValues := again.rssiValues) == row;
    PutSame(u.rows, mac, row);
  }

  /** Replaying a sighting changes nothing. */
  lemma FuseIdempotent(t: DeviceTable, device: DeviceInfo, beaconId: string, location: BeaconLocation,
                       timestamp: real, distance: real -> real)
    ensures var once := Fuse(t, device, beaconId, location, timestamp, distance);
      Fuse(once, device, beaconId, location, timestamp, distance) == once
  {
    var once := Fuse(t, device, beaconId, location, timestamp, distance);
    FuseEffect(t, device, beaconId, location, timestamp, distance);
    FuseFixpoint(t, once, device, beaconId, location, timestamp, distance);
  }

  /** A table holding a single reading places the device at that reading's beacon. */
  lemma SingleReadingEstimate(table: RssiTable, distance: real -> real)
    requires |table.order| == 1
    ensures var b := table.entries[table.order[0]]; Estimate(table, distance) == Point(b.x, b.y)
  {
    assert Strongest(Values(table)) == 0;
  }

  /**
   * A device with no usable history (no row, or a row whose readings do not
   * parse) is placed at the reporting beacon.
   */
  lemma FirstSightingAtBeacon(t: DeviceTable, device: DeviceInfo, beaconId: string, location: BeaconLocation,
                              timestamp: real, distance: real -> real)
    requires StoredTable(Get(t.rows, device.macAddress)) == Empty()
    ensures var row := Fuse(t, device, beaconId, location, timestamp, distance).rows.entries[device.macAddress];
      row.x == location.x && row.y == location.y
  {
    var table := UpdatedTable(Get(t.rows, device.macAddress), device, beaconId, location);
    assert table.order == [beaconId];
    SingleReadingEstimate(table, distance);
    FuseEffect(t, device, beaconId, location, timestamp, distance);
  }

  /** processBeaconData's `devices.forEach`: the sightings fused in report order. */
  function FuseAll(t: DeviceTable, devices: seq<DeviceInfo>, beaconId: string, location: BeaconLocation,
                   timestamp: real, distance: real -> real): DeviceTable {
    if |devices| == 0 then t
    else
      var n := |devices| - 1;
      Fuse(FuseAll(t, devices[..n], beaconId, location, timestamp, distance), devices[n], beaconId, location, timestamp, distance)
  }

  /** One more sighting of a report fused onto the ones before it. */
  lemma FuseAllStep(t: DeviceTable, devices: seq<DeviceInfo>, beaconId: string, location: BeaconLocation,
                    timestamp: real, distance: real -> real, i: nat)
    requires i < |devices|
    ensures FuseAll(t, devices[..i + 1], beaconId, location, timestamp, distance)
      == Fuse(FuseAll(t, devices[..i], beaconId, location, timestamp, distance), devices[i], beaconId, location, timestamp, distance)
  {
    assert devices[..i + 1][..i] == devices[..i];
  }

  /** The last sighting of `mac` in a report is at index k. */
  predicate LastSighting(devices: seq<DeviceInfo>, mac: string, k: int) {
    0 <= k < |devices| && devices[k].macAddress == mac && forall j | k < j < |devices| :: devices[j].macAddress != mac
  }

  /** A device a report does not name keeps its row unchanged. */
  lemma {:induction false} FuseAllUnnamed(t: DeviceTable, devices: seq<DeviceInfo>, beaconId: string, location: BeaconLocation,
                                          timestamp: real, distance: real -> real, mac: string)
    requires forall k | 0 <= k < |devices| :: devices[k].macAddress != mac
    ensures Get(FuseAll(t, devices, beaconId, location, timestamp, distance).rows, mac) == Get(t.rows, mac)
  {
    if |devices| > 0 {
      var n := |devices| - 1;
      FuseAllUnnamed(t, devices[..n], beaconId, location, timestamp, distance, mac);
      var before := FuseAll(t, devices[..n], beaconId, location, timestamp, distance);
      FuseOther(before, devices[n], beaconId, location, timestamp, distance, mac);
    }
  }

  /**
   * After a report, a device it names was last seen at the report's timestamp,
   * holds the reporting beacon's reading from its last sighting in the
   * report, and sits at the estimate of its table.
   */
  lemma {:induction false} FuseAllSighted(t: DeviceTable, devices: seq<DeviceInfo>, beaconId: string, location: BeaconLocation,
                                          timestamp: real, distance: real -> real, mac: string, k: nat)
    requires LastSighting(devices, mac, k)
    ensures var r := FuseAll(t, devices, beaconId, location, timestamp, distance);
      mac in r.rows.entries && Sighted(r.rows.entries[mac], ReadingOf(devices[k], beaconId, location), timestamp, distance)
  {
    var n := |devices| - 1;
    var before := FuseAll(t, devices[..n], beaconId, location, timestamp, distance);
    var r := FuseAll(t, devices, beaconId, location, timestamp, distance);
    assert r == Fuse(before, devices[n], beaconId, location, timestamp, distance);
    if k < n {
      assert LastSighting(devices[..n], mac, k);
      FuseAllSighted(t, devices[..n], beaconId, location, timestamp, distance, mac, k);
      FuseKeepsRow(before, devices[n], beaconId, location, timestamp, distance, mac);
    } else {
      assert k == n && devices[k] == devices[n] && devices[n].macAddress == mac;
      FuseEffect(before, devices[n], beaconId, location, timestamp, distance);
    }
  }

  /** No device is sighted twice in one report (the scanner groups its samples by address). */
  predicate DistinctDevices(devices: seq<DeviceInfo>) {
    forall i, j | 0 <= i < j < |devices| :: devices[i].macAddress != devices[j].macAddress
  }

  /** A report's sightings fused in two runs: those before index i, then the rest. */
  lemma {:induction false} FuseAllSplit(t: DeviceTable, devices: seq<DeviceInfo>, beaconId: string, location: BeaconLocation,
                                        timestamp: real, distance: real -> real, i: nat)
    requires i <= |devices|
    ensures FuseAll(t, devices, beaconId, location, timestamp, distance)
         == FuseAll(FuseAll(t, devices[..i], beaconId, location, timestamp, distance), devices[i..], beaconId, location, timestamp, distance)
    decreases |devices|
  {
    if i == |devices| {
      assert devices[..i] == devices && devices[i..] == [];
    } else {
      var n := |devices| - 1;
      SplitSlices(devices, i);
      FuseAllSplit(t, devices[..n], beaconId, location, timestamp, distance, i);
    }
  }

  /** How the slices of a report before and after index i line up with the last sighting removed. */
  lemma SplitSlices(devices: seq<DeviceInfo>, i: nat)
    requires i < |devices|
    ensures var n := |devices| - 1;
      devices[..n][..i] == devices[..i] && devices[..n][i..] == devices[i..][..n - i] && devices[i..][n - i] == devices[n]
  {
  }

  /** In a report of distinct devices, no sighting after index k names the device sighted at k. */
  lemma LaterDevicesDiffer(devices: seq<DeviceInfo>, k: nat, rest: seq<DeviceInfo>)
    requires DistinctDevices(devices) && k < |devices| && rest == devices[k + 1..]
    ensures forall j | 0 <= j < |rest| :: rest[j].macAddress != devices[k].macAddress
  {
    forall j | 0 <= j < |rest| ensures rest[j].macAddress != devices[k].macAddress {
      assert rest[j] == devices[k + 1 + j];
    }
  }

  /** After a report, the row of a device it sights once is the row that sighting wrote. */
  lemma FuseAllKeepsSighting(t: DeviceTable, devices: seq<DeviceInfo>, beaconId: string, location: BeaconLocation,
                             timestamp: real, distance: real -> real, k: nat)
    requires DistinctDevices(devices) && k < |devices|
    ensures Get(FuseAll(t, devices, beaconId, location, timestamp, distance).rows, devices[k].macAddress)
         == Get(FuseAll(t, devices[..k + 1], beaconId, location, timestamp, distance).rows, devices[k].macAddress)
  {
    FuseAllSplit(t, devices, beaconId, location, timestamp, distance, k + 1);
    LaterDevicesDiffer(devices, k, devices[k + 1..]);
    FuseAllUnnamed(FuseAll(t, devices[..k + 1], beaconId, location, timestamp, distance), devices[k + 1..],
                   beaconId, location, timestamp, distance, devices[k].macAddress);
  }

  /** Sightings that each leave a table alone leave it alone together. */
  lemma {:induction false} FuseAllOfFixpoint(u: DeviceTable, devices: seq<DeviceInfo>, beaconId: string, location: BeaconLocation,
                                             timestamp: real, distance: real -> real)
    requires forall k | 0 <= k < |devices| :: Fuse(u, devices[k], beaconId, location, timestamp, distance) == u
    ensures FuseAll(u, devices, beaconId, location, timestamp, distance) == u
  {
    if |devices| > 0 {
      var n := |devices| - 1;
      FuseAllOfFixpoint(u, devices[..n], beaconId, location, timestamp, distance);
    }
  }

  /**
   * Replaying a report whose devices are distinct leaves the device table as
   * the first delivery left it: same rows, positions, last_seen, ids and order.
   */
  lemma FuseAllIdempotent(t: DeviceTable, devices: seq<DeviceInfo>, beaconId: string, location: BeaconLocation,
                          timestamp: real, distance: real -> real)
    requires DistinctDevices(devices)
    ensures var once := FuseAll(t, devices, beaconId, location, timestamp, distance);
      FuseAll(once, devices, beaconId, location, timestamp, distance) == once
  {
    var once := FuseAll(t, devices, beaconId, location, timestamp, distance);
    forall k | 0 <= k < |devices|
      ensures Fuse(once, devices[k], beaconId, location, timestamp, distance) == once
    {
      FuseAllKeepsSighting(t, devices, beaconId, location, timestamp, distance, k);
      FuseAllStep(t, devices, beaconId, location, timestamp, distance, k);
      FuseFixpoint(FuseAll(t, devices[..k], beaconId, location, timestamp, distance), once, devices[k],
                   beaconId, location, timestamp, distance);
    }
    FuseAllOfFixpoint(once, devices, beaconId, location, timestamp, distance);
  }

  /**
   * Delivering the same report twice (distinct devices, as the scanner sends)
   * leaves the beacons table, `activeBeacons` and the device table as one
   * delivery left them: the state processBeaconData reaches is a fixed point.
   */
  lemma ReportIdempotent(beacons: BeaconTable, active: OrderedMap<ActiveBeacon>, t: DeviceTable,
                         data: BeaconData, distance: real -> real)
    requires DistinctDevices(data.devices)
    ensures var once := Put(beacons, data.beaconId, BeaconRecordOf(data));
      Put(once, data.beaconId, BeaconRecordOf(data)) == once
    ensures var entry := ActiveBeacon(data.location.x, data.location.y, data.location.zone, data.timestamp);
      var once := Put(active, data.beaconId, entry);
      Put(once, data.beaconId, entry) == once
    ensures var once := FuseAll(t, data.devices, data.beaconId, data.location, data.timestamp, distance);
      FuseAll(once, data.devices, data.beaconId, data.location, data.timestamp, distance) == once
  {
    PutIdempotent(beacons, data.beaconId, BeaconRecordOf(data));
    PutIdempotent(active, data.beaconId, ActiveBeacon(data.location.x, data.location.y, data.location.zone, data.timestamp));
    FuseAllIdempotent(t, data.devices, data.beaconId, data.location, data.timestamp, distance);
  }

  /** Fusing sightings keeps the device table well formed. */
  lemma {:induction false} FuseAllPreservesValid(t: DeviceTable, devices: seq<DeviceInfo>, beaconId: string, location: BeaconLocation,
                                                 timestamp: real, distance: real -> real)
    requires ValidDevices(t)
    ensures ValidDevices(FuseAll(t, devices, beaconId, location, timestamp, distance))
  {
    if |devices| > 0 {
      var n := |devices| - 1;
      FuseAllPreservesValid(t, devices[..n], beaconId, location, timestamp, distance);
      var before := FuseAll(t, devices[..n], beaconId, location, timestamp, distance);
      SaveDevicePreservesValid(before, ReportedRecord(Get(before.rows, devices[n].macAddress), devices[n], beaconId, location, timestamp, distance));
    }
  }

  // ---------------------------------------------------------------------------
  // Zones and the outbound payloads

  /**
   * The squared distance from a beacon to (x, y). The square root is monotone,
   * so comparing squares orders beacons exactly as comparing distances does.
   */
  function SquaredDistance(b: ActiveBeacon, x: int, y: int): (d: int)
    ensures d >= 0
    ensures d == 0 <==> b.x == x && b.y == y
  {
    (b.x - x) * (b.x - x) + (b.y - y) * (b.y - y)
  }

  /**
   * The index the scan in findLatestBeaconInZone ends on: nothing when there
   * are no beacons, else a beacon at minimal distance, the earliest of those.
   */
  function Nearest(beacons: seq<ActiveBeacon>, x: int, y: int): (r: Option<nat>)
    ensures r.None? <==> |beacons| == 0
    ensures r.Some? ==> r.value < |beacons|
    ensures r.Some? ==> forall k | 0 <= k < |beacons| ::
      SquaredDistance(beacons[r.value], x, y) <= SquaredDistance(beacons[k], x, y)
    ensures r.Some? ==> forall k | 0 <= k < r.value ::
      SquaredDistance(beacons[r.value], x, y) < SquaredDistance(beacons[k], x, y)
  {
    if |beacons| == 0 then None
    else
      var n := |beacons| - 1;
      match Nearest(beacons[..n], x, y)
      case None => Some(n)
      case Some(p) =>
        if SquaredDistance(beacons[n], x, y) < SquaredDistance(beacons[p], x, y) then Some(n) else Some(p)
  }

  /** A device standing on a beacon, with no earlier beacon on the same spot, is given that beacon. */
  lemma NearestOnBeacon(beacons: seq<ActiveBeacon>, x: int, y: int, j: nat)
    requires j < |beacons| && beacons[j].x == x && beacons[j].y == y
    requires forall k | 0 <= k < j :: beacons[k].x != x || beacons[k].y != y
    ensures Nearest(beacons, x, y) == Some(j)
  {
  }

  /** The zone findLatestBeaconInZone reports for (x, y). */
  function NearestZone(active: OrderedMap<ActiveBeacon>, x: int, y: int): (zone: Option<string>)
    ensures zone.None? <==> |active.order| == 0
  {
    var beacons := Values(active);
    match Nearest(beacons, x, y)
    case None => None
    case Some(i) => Some(beacons[i].zone)
  }

  /** `latestBeacon?.zone || 'unknown'`. */
  function ZoneLabel(zone: Option<string>): (shown: string)
    ensures shown != ""
    ensures shown == "unknown" <==> zone.None? || zone.value == "" || zone.value == "unknown"
    ensures shown != "unknown" ==> zone == Some(shown)
  {
    if zone.Some? && zone.value != "" then zone.value else "unknown"
  }

  /** The payload entry for one device row: its fields copied, plus its zone label. */
  function Project(row: DeviceLocationRecord, zone: Option<string>): (d: DeviceLocationData)
    ensures d.macAddress == row.macAddress && d.name == row.name && d.x == row.x && d.y == row.y
    ensures d.lastSeen == row.lastSeen && d.zone == ZoneLabel(zone)
  {
    DeviceLocationData(row.macAddress, row.name, row.x, row.y, row.lastSeen, ZoneLabel(zone))
  }

  /** The `deviceLocations` payload: one entry per device row, in table order. */
  function DeviceLocations(rows: seq<DeviceLocationRecord>, active: OrderedMap<ActiveBeacon>): (ds: seq<DeviceLocationData>)
    ensures |ds| == |rows|
    ensures forall i | 0 <= i < |rows| :: ds[i] == Project(rows[i], NearestZone(active, rows[i].x, rows[i].y))
  {
    seq(|rows|, i requires 0 <= i < |rows| => Project(rows[i], NearestZone(active, rows[i].x, rows[i].y)))
  }

  /** A device standing on a beacon, with no earlier beacon on the same spot, is given that beacon's zone. */
  lemma ZoneOfDevice(active: OrderedMap<ActiveBeacon>, row: DeviceLocationRecord, j: nat)
    requires j < |active.order|
    requires var b := active.entries[active.order[j]]; b.x == row.x && b.y == row.y && b.zone != ""
    requires forall k | 0 <= k < j :: var b := active.entries[active.order[k]]; b.x != row.x || b.y != row.y
    ensures Project(row, NearestZone(active, row.x, row.y)).zone == active.entries[active.order[j]].zone
  {
    NearestOnBeacon(Values(active), row.x, row.y, j);
  }

  // ---------------------------------------------------------------------------
  // The controller

  /** The location controller: the database, the distance model and the active beacons. */
  class LocationController {
    const db: Database
    /** rssiToDistance, left uninterpreted. */
    const distance: real -> real
    var activeBeacons: OrderedMap<ActiveBeacon>

    /** The database is well formed and `activeBeacons` mirrors its beacons table. */
    ghost predicate Valid()
      reads this, db
    {
      db.Valid() && Mirrors(activeBeacons, db.beacons)
    }

    /** The constructor loads the known beacons; the eviction timer is EvictStale. */
    constructor (db: Database, distance: real -> real)
      requires db.Valid()
      ensures this.db == db && this.distance == distance
      ensures activeBeacons == LoadAll(Empty(), Values(db.beacons))
      ensures Valid()
    {
      this.db := db;
      this.distance := distance;
      activeBeacons := Empty();
      new;
      LoadActiveBeacons();
      LoadingMirrors(db.beacons);
    }

    /** loadActiveBeacons: every beacon row is set into `activeBeacons`, in table order. */
    method LoadActiveBeacons()
      requires db.Valid()
      modifies this`activeBeacons
      ensures activeBeacons == LoadAll(old(activeBeacons), Values(db.beacons))
    {
      var beacons := db.GetAllBeacons();
      for i := 0 to |beacons|
        invariant activeBeacons == LoadAll(old(activeBeacons), beacons[..i])
      {
        var beacon := beacons[i];
        assert beacons[..i + 1][..i] == beacons[..i];
        activeBeacons := Put(activeBeacons, beacon.id, ActiveOf(beacon));
      }
      assert beacons[..|beacons|] == beacons;
    }

    /** updateBeaconInfo: the report's beacon is upserted in the table and set in `activeBeacons`. */
    method UpdateBeaconInfo(data: BeaconData)
      requires Valid()
      modifies this`activeBeacons, db`beacons
      ensures Valid()
      ensures db.beacons == Put(old(db.beacons), data.beaconId, BeaconRecordOf(data))
      ensures activeBeacons == Put(old(activeBeacons), data.beaconId,
                                   ActiveBeacon(data.location.x, data.location.y, data.location.zone, data.timestamp))
    {
      MirrorsPut(activeBeacons, db.beacons, BeaconRecordOf(data));
      db.SaveBeacon(BeaconRecord(data.beaconId, data.location.zone, data.location.x, data.location.y, data.timestamp));
      activeBeacons := Put(activeBeacons, data.beaconId,
                           ActiveBeacon(data.location.x, data.location.y, data.location.zone, data.timestamp));
    }

    /** processDeviceInfo: fuse one sighting into the device's row. */
    method ProcessDeviceInfo(device: DeviceInfo, beaconId: string, location: BeaconLocation, timestamp: real)
      requires Valid()
      modifies db`devices
      ensures Valid()
      ensures db.devices == Fuse(old(db.devices), device, beaconId, location, timestamp, distance)
    {
      var current := db.GetDeviceLocationByMacAddress(device.macAddress);
      var rssiValues: RssiTable := Empty();
      if current.Some? {
        match current.value.rssiValues
        case Some(parsed) =>
          rssiValues := parsed;
        case None =>
          // the stored text does not parse: start over with an empty table
          rssiValues := Empty();
      }
      assert rssiValues == StoredTable(current);
      rssiValues := Put(rssiValues, beaconId, RssiData(beaconId, location.x, location.y, device.rssi));
      assert rssiValues == UpdatedTable(current, device, beaconId, location);
      var rssiDataArray := Values(rssiValues);
      EstimateSources(rssiValues, distance);
      var x, y := 0, 0;
      if |rssiDataArray| >= 3 {
        var position := Trilaterate(rssiDataArray, distance);
        if position.Some? {
          x, y := position.value.x, position.value.y;
        } else {
          var strongest := rssiDataArray[Strongest(rssiDataArray)];
          x, y := strongest.x, strongest.y;
        }
      } else if |rssiDataArray| > 0 {
        var strongest := rssiDataArray[Strongest(rssiDataArray)];
        x, y := strongest.x, strongest.y;
      }
      assert Point(x, y) == Estimate(rssiValues, distance);
      var record := DeviceLocationRecord(if current.Some? then current.value.id else 0,
                                         device.macAddress, device.name, x, y, timestamp, Some(rssiValues));
      assert record == ReportedRecord(current, device, beaconId, location, timestamp, distance);
      db.SaveDeviceLocation(record);
    }

    /**
     * processBeaconData: the beacon first, then each sighting in report order,
     * then both payloads of the broadcast.
     */
    method ProcessBeaconData(data: BeaconData) returns (deviceLocations: seq<DeviceLocationData>, beaconLocations: seq<BeaconRecord>)
      requires Valid()
      modifies this`activeBeacons, db`beacons, db`devices
      ensures Valid()
      ensures db.beacons == Put(old(db.beacons), data.beaconId, BeaconRecordOf(data))
      ensures activeBeacons == Put(old(activeBeacons), data.beaconId,
                                   ActiveBeacon(data.location.x, data.location.y, data.location.zone, data.timestamp))
      ensures db.devices == FuseAll(old(db.devices), data.devices, data.beaconId, data.location, data.timestamp, distance)
      ensures deviceLocations == DeviceLocations(Values(db.devices.rows), activeBeacons)
      ensures beaconLocations == Values(db.beacons)
    {
      UpdateBeaconInfo(data);
      for i := 0 to |data.devices|
        invariant Valid()
        invariant db.beacons == Put(old(db.beacons), data.beaconId, BeaconRecordOf(data))
        invariant activeBeacons == Put(old(activeBeacons), data.beaconId,
                                       ActiveBeacon(data.location.x, data.location.y, data.location.zone, data.timestamp))
        invariant db.devices == FuseAll(old(db.devices), data.devices[..i], data.beaconId, data.location, data.timestamp, distance)
      {
        FuseAllStep(old(db.devices), data.devices, data.beaconId, data.location, data.timestamp, distance, i);
        ProcessDeviceInfo(data.devices[i], data.beaconId, data.location, data.timestamp);
      }
      assert data.devices[..|data.devices|] == data.devices;
      deviceLocations, beaconLocations := BroadcastDeviceLocations();
    }

    /**
     * broadcastDeviceLocations: the device payload (each row with its zone) and
     * the beacon payload; the order in which the two are emitted is not modelled.
     */
    method BroadcastDeviceLocations() returns (deviceLocations: seq<DeviceLocationData>, beaconLocations: seq<BeaconRecord>)
      requires Valid()
      ensures deviceLocations == DeviceLocations(Values(db.devices.rows), activeBeacons)
      ensures beaconLocations == Values(db.beacons)
    {
      var devices := db.GetAllDeviceLocations();
      deviceLocations := [];
      for i := 0 to |devices|
        invariant deviceLocations == DeviceLocations(devices[..i], activeBeacons)
      {
        var zone := FindLatestBeaconInZone(devices[i].x, devices[i].y);
        deviceLocations := deviceLocations + [Project(devices[i], zone)];
      }
      assert devices[..|devices|] == devices;
      beaconLocations := BroadcastBeaconLocations();
    }

    /** broadcastBeaconLocations: every beacon row, field for field. */
    method BroadcastBeaconLocations() returns (beaconLocations: seq<BeaconRecord>)
      requires Valid()
      ensures beaconLocations == Values(db.beacons)
      ensures forall i | 0 <= i < |beaconLocations| :: beaconLocations[i].id == db.beacons.order[i]
    {
      var beacons := db.GetAllBeacons();
      beaconLocations := seq(|beacons|, i requires 0 <= i < |beacons| =>
        BeaconRecord(beacons[i].id, beacons[i].zone, beacons[i].x, beacons[i].y, beacons[i].lastSeen));
      assert beaconLocations == beacons;
    }

    /**
     * findLatestBeaconInZone: nothing without beacons; otherwise the zone of
     * the first beacon at the smallest distance from (x, y).
     */
    method FindLatestBeaconInZone(x: int, y: int) returns (zone: Option<string>)
      ensures zone == NearestZone(activeBeacons, x, y)
    {
      if |activeBeacons.order| == 0 {
        return None;
      }
      var beacons := Values(activeBeacons);
      var closest: Option<string> := None;
      // None plays the part of the initial Number.MAX_VALUE: no beacon scanned yet
      var minDistance: Option<int> := None;
      for i := 0 to |beacons|
        invariant Nearest(beacons[..i], x, y).None? ==> closest.None? && minDistance.None?
        invariant Nearest(beacons[..i], x, y).Some? ==>
          var j := Nearest(beacons[..i], x, y).value;
          closest == Some(beacons[j].zone) && minDistance == Some(SquaredDistance(beacons[j], x, y))
      {
        assert beacons[..i + 1][..i] == beacons[..i];
        var d := SquaredDistance(beacons[i], x, y);
        if minDistance.None? || d < minDistance.value {
          minDistance := Some(d);
          closest := Some(beacons[i].zone);
        }
      }
      assert beacons[..|beacons|] == beacons;
      zone := closest;
    }

    /**
     * One run of the eviction timer, which fires every five minutes, at time
     * `nowMillis`: cleanupOldDevices(1800). The scheduling itself is not modelled.
     */
    method EvictStale(nowMillis: int) returns (deleted: nat)
      requires Valid()
      modifies db`devices
      ensures Valid()
      ensures db.devices == Purge(old(db.devices), Cutoff(nowMillis, EvictionMaxAgeSeconds) as real)
      ensures |db.devices.rows.order| + deleted == |old(db.devices).rows.order|
    {
      deleted := db.CleanupOldDevices(EvictionMaxAgeSeconds, nowMillis);
    }
  }
}
