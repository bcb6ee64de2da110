/** Record shapes exchanged between the tracker's components (src/types.ts). */
module Types {

  /** An optional value; `None` stands for JavaScript's `undefined`/`null`. */
  datatype Option<+T> = None | Some(value: T)

  /** No string occurs twice. */
  predicate DistinctKeys(keys: seq<string>) {
    forall i, j | 0 <= i < j < |keys| :: keys[i] != keys[j]
  }

  /**
   * A string-keyed collection that remembers the order in which its keys were
   * first set: a JavaScript `Map`, a plain object used as a dictionary, or an
   * SQLite table listed in rowid order. `order` lists every key exactly once.
   */
  datatype Keyed<V> = Keyed(entries: map<string, V>, order: seq<string>)

  ghost predicate WellOrdered<V>(m: Keyed<V>) {
    DistinctKeys(m.order) && forall k :: k in m.entries <==> k in m.order
  }

  type OrderedMap<V> = m: Keyed<V> | WellOrdered(m) witness Keyed(map[], [])

  function Empty<V>(): OrderedMap<V> {
    Keyed(map[], [])
  }

  /** Looking a key up: `undefined` when absent. */
  function Get<V>(m: OrderedMap<V>, k: string): Option<V> {
    if k in m.entries then Some(m.entries[k]) else None
  }

  /**
   * `Map.set`, `obj[k] = v`, or an upsert by primary key: the key now maps to
   * `v`, every other key keeps its value, an existing key keeps its position and
   * a new key is placed last.
   */
  function Put<V>(m: OrderedMap<V>, k: string, v: V): (r: OrderedMap<V>)
    ensures Get(r, k) == Some(v)
    ensures forall j | j != k :: Get(r, j) == Get(m, j)
    ensures k in m.entries ==> r.order == m.order
    ensures k !in m.entries ==> r.order == m.order + [k]
  {
    var order := if k in m.entries then m.order else m.order + [k];
    assert forall j :: j in m.entries[k := v] <==> j in order;
    Keyed(m.entries[k := v], order)
  }

  /** Setting a key to the value it already holds changes nothing, order included. */
  lemma PutSame<V>(m: OrderedMap<V>, k: string, v: V)
    requires Get(m, k) == Some(v)
    ensures Put(m, k, v) == m
  {
    assert m.entries[k := v] == m.entries;
  }

  /** Setting the same key to the same value twice is setting it once. */
  lemma PutIdempotent<V>(m: OrderedMap<V>, k: string, v: V)
    ensures Put(Put(m, k, v), k, v) == Put(m, k, v)
  {
    PutSame(Put(m, k, v), k, v);
  }

  /** `Object.values`, `forEach` over a `Map`, or `SELECT *`: the values in key order. */
  function Values<V>(m: OrderedMap<V>): (vs: seq<V>)
    ensures |vs| == |m.order|
    ensures forall i | 0 <= i < |vs| :: vs[i] == m.entries[m.order[i]]
  {
    seq(|m.order|, i requires 0 <= i < |m.order| => m.entries[m.order[i]])
  }

  /** A device sighting inside a beacon report. */
  datatype DeviceInfo = DeviceInfo(macAddress: string, rssi: real, sampleCount: int, name: Option<string>)

  /** Where a beacon is installed. */
  datatype BeaconLocation = BeaconLocation(zone: string, x: int, y: int)

  /** A telemetry report sent by one beacon (timestamp in epoch seconds). */
  datatype BeaconData = BeaconData(beaconId: string, location: BeaconLocation, timestamp: real, devices: seq<DeviceInfo>)

  /** A row of the `beacons` table. */
  datatype BeaconRecord = BeaconRecord(id: string, zone: string, x: int, y: int, lastSeen: real)

  /** One beacon's latest observation of a device: the beacon's coordinates and the signal strength. */
  datatype RssiData = RssiData(beaconId: string, x: int, y: int, rssi: real)

  /** A device's RSSI readings, keyed by beacon id. */
  type RssiTable = OrderedMap<RssiData>

  /**
   * A row of the `device_locations` table. The serialised `rssi_values` text is
   * represented by what parsing it yields: `None` when the text does not parse.
   */
  datatype DeviceLocationRecord = DeviceLocationRecord(
    id: int, macAddress: string, name: Option<string>, x: int, y: int, lastSeen: real,
    rssiValues: Option<RssiTable>)

  /** A device position as sent to observers. */
  datatype DeviceLocationData = DeviceLocationData(
    macAddress: string, name: Option<string>, x: int, y: int, lastSeen: real, zone: string)

  /** An integer position on the floor plan. */
  datatype Point = Point(x: int, y: int)
}
