/**
 * The SQLite store (src/models/database.ts): the `beacons` and
 * `device_locations` tables, with the behaviour their SQL text fixes.
 */
module Storage {
  import opened Types

  /** The `beacons` table, keyed by its TEXT primary key `id`, in rowid order. */
  type BeaconTable = OrderedMap<BeaconRecord>

  /** Every beacon row is stored under its own id. */
  ghost predicate ValidBeacons(t: BeaconTable) {
    forall id | id in t.entries :: t.entries[id].id == id
  }

  /**
   * The `device_locations` table: rows keyed by the UNIQUE `mac_address`, in
   * rowid order, and the AUTOINCREMENT counter `nextId` (one more than the
   * largest id ever handed out).
   */
  datatype DeviceTable = DeviceTable(rows: OrderedMap<DeviceLocationRecord>, nextId: int)

  /** The first id AUTOINCREMENT hands out in an empty table. */
  const FirstRowId := 1

  /** Ids strictly increase along `keys`. */
  ghost predicate IncreasingIds(keys: seq<string>, rows: map<string, DeviceLocationRecord>) {
    forall i, j | 0 <= i < j < |keys| && keys[i] in rows && keys[j] in rows :: rows[keys[i]].id < rows[keys[j]].id
  }

  /**
   * Every row is stored under its own MAC, carries an id the counter has
   * already handed out, and rows appear in increasing id order.
   */
  ghost predicate ValidDevices(t: DeviceTable) {
    && FirstRowId <= t.nextId
    && (forall m | m in t.rows.entries ::
          t.rows.entries[m].macAddress == m && FirstRowId <= t.rows.entries[m].id < t.nextId)
    && IncreasingIds(t.rows.order, t.rows.entries)
  }

  function EmptyDevices(): (t: DeviceTable)
    ensures ValidDevices(t) && |t.rows.order| == 0
  {
    DeviceTable(Empty(), FirstRowId)
  }

  /** `COALESCE(@name, name)`: the new name unless it is NULL. */
  function Coalesce(given: Option<string>, stored: Option<string>): (r: Option<string>)
    ensures given.Some? ==> r == given
    ensures given.None? ==> r == stored
  {
    if given.Some? then given else stored
  }

  /**
   * saveDeviceLocation: INSERT of mac_address, name, x, y, last_seen and
   * rssi_values, or, ON CONFLICT(mac_address), an update of the existing row.
   * The caller's `id` is never written: a new row gets the next AUTOINCREMENT
   * id, an updated row keeps its id.
   */
  function SaveDevice(t: DeviceTable, d: DeviceLocationRecord): (r: DeviceTable)
    ensures d.macAddress in r.rows.entries
    ensures var row := r.rows.entries[d.macAddress];
      && row.x == d.x && row.y == d.y && row.lastSeen == d.lastSeen && row.rssiValues == d.rssiValues
      && (d.macAddress in t.rows.entries ==>
            row.id == t.rows.entries[d.macAddress].id && row.name == Coalesce(d.name, t.rows.entries[d.macAddress].name))
      && (d.macAddress !in t.rows.entries ==> row.id == t.nextId && row.name == d.name)
    ensures forall m | m != d.macAddress :: Get(r.rows, m) == Get(t.rows, m)
    ensures d.macAddress in t.rows.entries ==> r.nextId == t.nextId && r.rows.order == t.rows.order
    ensures d.macAddress !in t.rows.entries ==> r.nextId == t.nextId + 1 && r.rows.order == t.rows.order + [d.macAddress]
  {
    var mac := d.macAddress;
    if mac in t.rows.entries then
      var stored := t.rows.entries[mac];
      var row := stored.(name := Coalesce(d.name, stored.name), x := d.x, y := d.y,
                         lastSeen := d.lastSeen, rssiValues := d.rssiValues);
      DeviceTable(Put(t.rows, mac, row), t.nextId)
    else
      DeviceTable(Put(t.rows, mac, d.(id := t.nextId)), t.nextId + 1)
  }

  /** An upsert keeps one row per MAC, in increasing id order, and never reuses an id. */
  lemma SaveDevicePreservesValid(t: DeviceTable, d: DeviceLocationRecord)
    requires ValidDevices(t)
    ensures ValidDevices(SaveDevice(t, d))
  {
    var r := SaveDevice(t, d);
    var mac := d.macAddress;
    forall m | m in r.rows.entries
      ensures r.rows.entries[m].macAddress == m && FirstRowId <= r.rows.entries[m].id < r.nextId
    {
      if m != mac {
        assert Get(r.rows, m) == Get(t.rows, m);
      }
    }
    forall i, j | 0 <= i < j < |r.rows.order|
      ensures r.rows.entries[r.rows.order[i]].id < r.rows.entries[r.rows.order[j]].id
    {
      var a, b := r.rows.order[i], r.rows.order[j];
      assert a in r.rows.entries && b in r.rows.entries;
      if mac in t.rows.entries {
        assert a in t.rows.entries && b in t.rows.entries;
        assert r.rows.entries[a].id == t.rows.entries[a].id by {
          if a != mac { assert Get(r.rows, a) == Get(t.rows, a); }
        }
        assert r.rows.entries[b].id == t.rows.entries[b].id by {
          if b != mac { assert Get(r.rows, b) == Get(t.rows, b); }
        }
      } else {
        assert a != mac by { assert a == t.rows.order[i] && a in t.rows.order; }
        assert Get(r.rows, a) == Get(t.rows, a);
        if j < |t.rows.order| {
          assert b != mac by { assert b == t.rows.order[j] && b in t.rows.order; }
          assert Get(r.rows, b) == Get(t.rows, b);
        }
      }
    }
  }

  /** Saving the same record twice leaves the table as saving it once. */
  lemma SaveDeviceIdempotent(t: DeviceTable, d: DeviceLocationRecord)
    ensures SaveDevice(SaveDevice(t, d), d) == SaveDevice(t, d)
  {
    var once := SaveDevice(t, d);
    var twice := SaveDevice(once, d);
    assert twice.rows.entries == once.rows.entries by {
      forall m ensures Get(twice.rows, m) == Get(once.rows, m) {
      }
      assert forall m :: m in twice.rows.entries <==> m in once.rows.entries by {
        forall m ensures m in twice.rows.entries <==> m in once.rows.entries {
          assert Get(twice.rows, m) == Get(once.rows, m);
        }
      }
      forall m | m in twice.rows.entries ensures twice.rows.entries[m] == once.rows.entries[m] {
        assert Get(twice.rows, m) == Get(once.rows, m);
      }
    }
  }

  /**
   * The keys of `keys` whose rows were last seen before `cutoff`, in order:
   * the rows `DELETE FROM device_locations WHERE last_seen < ?` removes.
   */
  function StaleKeys(keys: seq<string>, rows: map<string, DeviceLocationRecord>, cutoff: real): (r: seq<string>)
    ensures forall k :: k in r <==> k in keys && k in rows && rows[k].lastSeen < cutoff
  {
    if |keys| == 0 then []
    else
      var rest := StaleKeys(keys[..|keys| - 1], rows, cutoff);
      var k := keys[|keys| - 1];
      assert forall j :: j in keys <==> j in keys[..|keys| - 1] || j == k;
      if k in rows && rows[k].lastSeen < cutoff then rest + [k] else rest
  }

  /** The keys of `keys` whose rows survive the delete, in order. */
  function FreshKeys(keys: seq<string>, rows: map<string, DeviceLocationRecord>, cutoff: real): (r: seq<string>)
    ensures forall k :: k in r <==> k in keys && k in rows && rows[k].lastSeen >= cutoff
  {
    if |keys| == 0 then []
    else
      var rest := FreshKeys(keys[..|keys| - 1], rows, cutoff);
      var k := keys[|keys| - 1];
      assert forall j :: j in keys <==> j in keys[..|keys| - 1] || j == k;
      if k in rows && rows[k].lastSeen >= cutoff then rest + [k] else rest
  }

  /** The delete keeps one row per MAC ... */
  lemma {:induction false} FreshKeysDistinct(keys: seq<string>, rows: map<string, DeviceLocationRecord>, cutoff: real)
    requires DistinctKeys(keys)
    ensures DistinctKeys(FreshKeys(keys, rows, cutoff))
  {
    if |keys| > 0 {
      var prefix := keys[..|keys| - 1];
      FreshKeysDistinct(prefix, rows, cutoff);
      var k := keys[|keys| - 1];
      assert k !in prefix;
    }
  }

  /** ... and the rowid order of the rows it keeps. */
  lemma {:induction false} FreshKeysIncreasing(keys: seq<string>, rows: map<string, DeviceLocationRecord>, cutoff: real)
    requires IncreasingIds(keys, rows)
    ensures IncreasingIds(FreshKeys(keys, rows, cutoff), rows)
  {
    if |keys| > 0 {
      var prefix := keys[..|keys| - 1];
      var k := keys[|keys| - 1];
      assert IncreasingIds(prefix, rows);
      FreshKeysIncreasing(prefix, rows, cutoff);
      var rest := FreshKeys(prefix, rows, cutoff);
      if k in rows && rows[k].lastSeen >= cutoff {
        forall i | 0 <= i < |rest| && rest[i] in rows
          ensures rows[rest[i]].id < rows[k].id
        {
          assert rest[i] in prefix;
          var p :| 0 <= p < |prefix| && prefix[p] == rest[i];
          assert keys[p] == rest[i];
        }
      }
    }
  }

  /** Every key lands in exactly one of the two partitions. */
  lemma {:induction false} PartitionCount(keys: seq<string>, rows: map<string, DeviceLocationRecord>, cutoff: real)
    requires forall k | k in keys :: k in rows
    ensures |StaleKeys(keys, rows, cutoff)| + |FreshKeys(keys, rows, cutoff)| == |keys|
  {
    if |keys| > 0 {
      var prefix := keys[..|keys| - 1];
      assert forall k | k in prefix :: k in keys;
      PartitionCount(prefix, rows, cutoff);
    }
  }

  /** The table after `DELETE FROM device_locations WHERE last_seen < cutoff`. */
  function Purge(t: DeviceTable, cutoff: real): (r: DeviceTable)
    ensures forall m :: Get(r.rows, m) == if m in t.rows.entries && t.rows.entries[m].lastSeen >= cutoff then Get(t.rows, m) else None
    ensures r.nextId == t.nextId
  {
    var kept := map m | m in t.rows.entries && t.rows.entries[m].lastSeen >= cutoff :: t.rows.entries[m];
    var order := FreshKeys(t.rows.order, t.rows.entries, cutoff);
    FreshKeysDistinct(t.rows.order, t.rows.entries, cutoff);
    DeviceTable(Keyed(kept, order), t.nextId)
  }

  /** The delete leaves a well-formed table. */
  lemma PurgePreservesValid(t: DeviceTable, cutoff: real)
    requires ValidDevices(t)
    ensures ValidDevices(Purge(t, cutoff))
  {
    FreshKeysIncreasing(t.rows.order, t.rows.entries, cutoff);
  }

  /** The cutoff `Math.floor(now / 1000) - maxAgeSeconds`, with `now` in milliseconds. */
  function Cutoff(nowMillis: int, maxAgeSeconds: int): (c: int)
    ensures (c + maxAgeSeconds) * 1000 <= nowMillis < (c + maxAgeSeconds + 1) * 1000
  {
    nowMillis / 1000 - maxAgeSeconds
  }

  /** A second cleanup with the same cutoff finds nothing to delete and changes nothing. */
  lemma PurgeIdempotent(t: DeviceTable, cutoff: real)
    ensures StaleKeys(Purge(t, cutoff).rows.order, Purge(t, cutoff).rows.entries, cutoff) == []
    ensures Purge(Purge(t, cutoff), cutoff) == Purge(t, cutoff)
  {
    var once := Purge(t, cutoff);
    var twice := Purge(once, cutoff);
    forall m ensures Get(twice.rows, m) == Get(once.rows, m) {
    }
    assert twice.rows.entries == once.rows.entries by {
      forall m ensures m in twice.rows.entries <==> m in once.rows.entries {
        assert Get(twice.rows, m) == Get(once.rows, m);
      }
      forall m | m in twice.rows.entries ensures twice.rows.entries[m] == once.rows.entries[m] {
        assert Get(twice.rows, m) == Get(once.rows, m);
      }
    }
    FreshKeysAll(once.rows.order, once.rows.entries, cutoff);
    StaleKeysNone(once.rows.order, once.rows.entries, cutoff);
  }

  /** Keys whose rows are all fresh have nothing stale among them. */
  lemma {:induction false} StaleKeysNone(keys: seq<string>, rows: map<string, DeviceLocationRecord>, cutoff: real)
    requires forall k | k in keys && k in rows :: rows[k].lastSeen >= cutoff
    ensures StaleKeys(keys, rows, cutoff) == []
  {
    if |keys| > 0 {
      var prefix := keys[..|keys| - 1];
      assert forall k | k in prefix :: k in keys;
      StaleKeysNone(prefix, rows, cutoff);
    }
  }

  /** Filtering keys that are all fresh keeps them all. */
  lemma {:induction false} FreshKeysAll(keys: seq<string>, rows: map<string, DeviceLocationRecord>, cutoff: real)
    requires forall k | k in keys :: k in rows && rows[k].lastSeen >= cutoff
    ensures FreshKeys(keys, rows, cutoff) == keys
  {
    if |keys| > 0 {
      var prefix := keys[..|keys| - 1];
      assert forall k | k in prefix :: k in keys;
      FreshKeysAll(prefix, rows, cutoff);
      assert keys == prefix + [keys[|keys| - 1]];
    }
  }

  /** The SQLite database: both tables, changed in place by the statements. */
  class Database {
    var beacons: BeaconTable
    var devices: DeviceTable

    ghost predicate Valid()
      reads this
    {
      ValidBeacons(beacons) && ValidDevices(devices)
    }

    /** A fresh database file: both CREATE TABLE statements give empty tables. */
    constructor ()
      ensures Valid()
      ensures |beacons.order| == 0 && |devices.rows.order| == 0 && devices.nextId == FirstRowId
    {
      beacons := Empty();
      devices := EmptyDevices();
    }

    /** saveBeacon: `INSERT ... ON CONFLICT(id) DO UPDATE` overwriting zone, x, y and last_seen. */
    method SaveBeacon(beacon: BeaconRecord)
      requires Valid()
      modifies this`beacons
      ensures Valid()
      ensures beacons == Put(old(beacons), beacon.id, beacon)
    {
      beacons := Put(beacons, beacon.id, beacon);
    }

    /** getAllBeacons: `SELECT * FROM beacons`, one row per id. */
    method GetAllBeacons() returns (rows: seq<BeaconRecord>)
      requires Valid()
      ensures rows == Values(beacons)
      ensures forall i, j | 0 <= i < j < |rows| :: rows[i].id != rows[j].id
    {
      rows := Values(beacons);
      assert forall i | 0 <= i < |rows| :: rows[i].id == beacons.order[i];
    }

    /** saveDeviceLocation: the upsert by mac_address. */
    method SaveDeviceLocation(device: DeviceLocationRecord)
      requires Valid()
      modifies this`devices
      ensures Valid()
      ensures devices == SaveDevice(old(devices), device)
    {
      SaveDevicePreservesValid(devices, device);
      devices := SaveDevice(devices, device);
    }

    /** getAllDeviceLocations: `SELECT * FROM device_locations`, one row per MAC, in increasing id order. */
    method GetAllDeviceLocations() returns (rows: seq<DeviceLocationRecord>)
      requires Valid()
      ensures rows == Values(devices.rows)
      ensures forall i, j | 0 <= i < j < |rows| :: rows[i].macAddress != rows[j].macAddress && rows[i].id < rows[j].id
    {
      rows := Values(devices.rows);
    }

    /** getDeviceLocationByMacAddress: the row with that MAC, or nothing. */
    method GetDeviceLocationByMacAddress(macAddress: string) returns (row: Option<DeviceLocationRecord>)
      requires Valid()
      ensures row.Some? <==> macAddress in devices.rows.entries
      ensures row.Some? ==> row.value == devices.rows.entries[macAddress] && row.value.macAddress == macAddress
    {
      row := Get(devices.rows, macAddress);
    }

    /**
     * cleanupOldDevices: deletes the rows last seen before
     * `floor(now / 1000) - maxAgeSeconds` and returns how many it deleted.
     */
    method CleanupOldDevices(maxAgeSeconds: int, nowMillis: int) returns (deleted: nat)
      requires Valid()
      modifies this`devices
      ensures Valid()
      ensures devices == Purge(old(devices), Cutoff(nowMillis, maxAgeSeconds) as real)
      ensures deleted == |StaleKeys(old(devices).rows.order, old(devices).rows.entries, Cutoff(nowMillis, maxAgeSeconds) as real)|
      ensures |devices.rows.order| + deleted == |old(devices).rows.order|
    {
      var cutoff := Cutoff(nowMillis, maxAgeSeconds) as real;
      var table := devices;
      deleted := |StaleKeys(table.rows.order, table.rows.entries, cutoff)|;
      PartitionCount(table.rows.order, table.rows.entries, cutoff);
      PurgePreservesValid(table, cutoff);
      devices := Purge(table, cutoff);
    }
  }
}
