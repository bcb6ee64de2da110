/** The HTTP entry points (src/controllers/apiController.ts). */
module Api {
  import opened Types
  import opened Location

  /**
   * The JSON body of `POST /api/beacons/data`, field by field; a field is
   * `None` when it is absent or null.
   */
  datatype BeaconRequest = BeaconRequest(
    beaconId: Option<string>, location: Option<BeaconLocation>, timestamp: Option<real>, devices: Option<seq<DeviceInfo>>)

  const StatusOk := 200
  const StatusBadRequest := 400

  /**
   * `!data.beacon_id || !data.location || !data.devices`: the id is absent or
   * empty, or the location or the device list is absent. An object or an
   * array, even an empty one, is truthy.
   */
  predicate Incomplete(req: BeaconRequest) {
    req.beaconId.None? || req.beaconId.value == "" || req.location.None? || req.devices.None?
  }

  /** The timestamp handed on: a falsy one (absent or 0) becomes `Math.floor(Date.now() / 1000)`. */
  function Timestamp(given: Option<real>, nowMillis: int): (ts: real)
    ensures given.Some? && given.value != 0.0 ==> ts == given.value
    ensures given.None? || given.value == 0.0 ==>
      ts == ts.Floor as real && ts * 1000.0 <= nowMillis as real < ts * 1000.0 + 1000.0
  {
    if given.None? || given.value == 0.0 then (nowMillis / 1000) as real else given.value
  }

  /** The report a request becomes, or nothing when it is turned away with 400. */
  function Admitted(req: BeaconRequest, nowMillis: int): (r: Option<BeaconData>)
    ensures r.None? <==> Incomplete(req)
    ensures r.Some? ==> && r.value.beaconId == req.beaconId.value && r.value.beaconId != ""
                        && r.value.location == req.location.value && r.value.devices == req.devices.value
                        && r.value.timestamp == Timestamp(req.timestamp, nowMillis)
  {
    if Incomplete(req) then None
    else Some(BeaconData(req.beaconId.value, req.location.value, Timestamp(req.timestamp, nowMillis), req.devices.value))
  }

  /** The request body that carries a report verbatim. */
  function RequestOf(data: BeaconData): BeaconRequest {
    BeaconRequest(Some(data.beaconId), Some(data.location), Some(data.timestamp), Some(data.devices))
  }

  /**
   * Admission is idempotent: an admitted report, sent again at any time, is
   * admitted unchanged, as long as the clock had passed one second when it
   * was first admitted.
   */
  lemma ReadmissionRoundTrip(req: BeaconRequest, nowMillis: int, laterMillis: int)
    requires nowMillis >= 1000 && Admitted(req, nowMillis).Some?
    ensures Admitted(RequestOf(Admitted(req, nowMillis).value), laterMillis) == Admitted(req, nowMillis)
  {
  }

  /** The API controller: hands valid reports to the location controller. */
  class ApiController {
    const locationController: LocationController

    constructor (locationController: LocationController)
      ensures this.locationController == locationController
    {
      this.locationController := locationController;
    }

    /**
     * receiveBeaconData: 400 and no change for an incomplete body; otherwise
     * the timestamp is defaulted, the report is processed, both payloads are
     * broadcast and the answer is 200. Nothing is broadcast for a 400.
     */
    method ReceiveBeaconData(req: BeaconRequest, nowMillis: int)
      returns (status: int, deviceLocations: seq<DeviceLocationData>, beaconLocations: seq<BeaconRecord>)
      requires locationController.Valid()
      modifies locationController`activeBeacons, locationController.db`beacons, locationController.db`devices
      ensures locationController.Valid()
      ensures status == StatusBadRequest <==> Incomplete(req)
      ensures status == StatusOk <==> !Incomplete(req)
      ensures Incomplete(req) ==> unchanged(locationController, locationController.db)
      ensures Incomplete(req) ==> deviceLocations == [] && beaconLocations == []
      ensures !Incomplete(req) ==>
        var data := Admitted(req, nowMillis).value;
        var lc := locationController;
        && lc.db.beacons == Put(old(lc.db.beacons), data.beaconId, BeaconRecordOf(data))
        && lc.activeBeacons == Put(old(lc.activeBeacons), data.beaconId,
                                   ActiveBeacon(data.location.x, data.location.y, data.location.zone, data.timestamp))
        && lc.db.devices == FuseAll(old(lc.db.devices), data.devices, data.beaconId, data.location, data.timestamp, lc.distance)
        && deviceLocations == DeviceLocations(Values(lc.db.devices.rows), lc.activeBeacons)
        && beaconLocations == Values(lc.db.beacons)
    {
      if req.beaconId.None? || req.beaconId.value == "" || req.location.None? || req.devices.None? {
        return StatusBadRequest, [], [];
      }
      var data := BeaconData(req.beaconId.value, req.location.value, 0.0, req.devices.value);
      if req.timestamp.None? || req.timestamp.value == 0.0 {
        data := data.(timestamp := (nowMillis / 1000) as real);
      } else {
        data := data.(timestamp := req.timestamp.value);
      }
      deviceLocations, beaconLocations := locationController.ProcessBeaconData(data);
      status := StatusOk;
    }

    /** getDeviceLocations: broadcasts both payloads and answers 200. */
    method GetDeviceLocations() returns (status: int, deviceLocations: seq<DeviceLocationData>, beaconLocations: seq<BeaconRecord>)
      requires locationController.Valid()
      ensures status == StatusOk
      ensures deviceLocations == DeviceLocations(Values(locationController.db.devices.rows), locationController.activeBeacons)
      ensures beaconLocations == Values(locationController.db.beacons)
    {
      deviceLocations, beaconLocations := locationController.BroadcastDeviceLocations();
      status := StatusOk;
    }
  }
}
