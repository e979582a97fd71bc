/** Clients of the module that exercise its contracts on concrete call sequences. */
module Scenarios {
  import opened Wrappers
  import opened Bridge
  import opened Ranging
  import opened Advertising
  import opened BeaconsAndroid

  /**
   * One beacon of region "museum-1" at 1.5 m with RSSI -65, after the sensor
   * delivered (0.1, 0.2, 9.8): the report says "near", 1.5 and those three axes.
   */
  method MuseumReport(uuid: Identifier, major: Identifier, minor: Identifier)
    returns (response: map<string, Value>)
    ensures response.Keys == {"identifier", "uuid", "beacons", "accelerometer"}
    ensures response["identifier"] == Str("museum-1")
    ensures response["uuid"] == Str(uuid.text)
    ensures response["accelerometer"] == Arr([Dbl(0.1), Dbl(0.2), Dbl(9.8)])
    ensures response["beacons"].Arr? && |response["beacons"].items| == 1
    ensures response["beacons"].items[0].Obj?
    ensures var entry := response["beacons"].items[0].fields;
      && entry.Keys == {"uuid", "major", "minor", "rssi", "distance", "proximity"}
      && entry["uuid"] == Str(uuid.text)
      && entry["proximity"] == Str("near")
      && entry["distance"] == Dbl(1.5)
      && entry["rssi"] == Int(-65)
      && entry["major"] == Int(major.asInt)
      && entry["minor"] == Int(minor.asInt)
  {
    var bridgeModule := new BeaconsAndroidModule();
    var sample := new real[3] [0.1, 0.2, 9.8];
    bridgeModule.OnSensorChanged(sample);
    var beacon := Beacon([uuid, major, minor], -65, Finite(1.5));
    response := bridgeModule.CreateRangingResponse([beacon], Region("museum-1", Some(uuid)));
    ResponseContents(Region("museum-1", Some(uuid)), [beacon], sample[..]);
    EntryMajorMinorPaired(beacon);
    EntryFinite(beacon);
    EntryIdentity(beacon);
  }

  /**
   * Ranging twice configures background mode once: the foreground service is
   * enabled a single time and both ranging requests reach the manager.
   */
  method RangingTwice(regionId: string, id: Identifier) returns (calls: seq<ManagerCall>)
    ensures calls == BackgroundSetup + [StartRangingBeacons(Region(regionId, Some(id)))]
                                     + [StartRangingBeacons(Region(regionId, Some(id)))]
    ensures Occurrences(calls, EnableForegroundServiceScanning(456)) == 1
  {
    var bridgeModule := new BeaconsAndroidModule();
    var outcome := bridgeModule.StartRanging(regionId, SetupReturned, Parsed(id), Returned);
    outcome := bridgeModule.StartRanging(regionId, SetupReturned, Parsed(id), Returned);
    calls := bridgeModule.managerCalls;
    var start := StartRangingBeacons(Region(regionId, Some(id)));
    SetupCallsFacts(false, SetupReturned);
    OccurrencesSingleton(start, EnableForegroundServiceScanning(456));
    OccurrencesAppend(BackgroundSetup, [start], EnableForegroundServiceScanning(456));
    OccurrencesAppend(BackgroundSetup + [start], [start], EnableForegroundServiceScanning(456));
  }

  /**
   * A configuration whose second step throws leaves background mode
   * unconfigured and starts no ranging; the next `startRanging` configures
   * again, so the foreground service is enabled twice.
   */
  method ConfigurationRetried(regionId: string, id: Identifier, exception: string)
    returns (first: CallOutcome, second: CallOutcome, calls: seq<ManagerCall>)
    ensures first == Threw(exception) && second == Returned
    ensures calls == [EnableForegroundServiceScanning(456)] + BackgroundSetup
                     + [StartRangingBeacons(Region(regionId, Some(id)))]
    ensures Occurrences(calls, EnableForegroundServiceScanning(456)) == 2
  {
    var bridgeModule := new BeaconsAndroidModule();
    first := bridgeModule.StartRanging(regionId, SetupThrew(1, exception), Parsed(id), Returned);
    assert !bridgeModule.backgroundModeConfigured;
    second := bridgeModule.StartRanging(regionId, SetupReturned, Parsed(id), Returned);
    calls := bridgeModule.managerCalls;
    var enable := EnableForegroundServiceScanning(456);
    var start := StartRangingBeacons(Region(regionId, Some(id)));
    assert BackgroundSetup[..1] == [enable];
    SetupCallsFacts(false, SetupReturned);
    OccurrencesSingleton(enable, enable);
    OccurrencesSingleton(start, enable);
    OccurrencesAppend([enable], BackgroundSetup, enable);
    OccurrencesAppend([enable] + BackgroundSetup, [start], enable);
  }

  /**
   * A second start replaces the transmitter without stopping the first one,
   * so a later stop only reaches the second: the first keeps advertising.
   */
  method SecondStartOrphansFirst(uuid: string, major: Int32, minor: Int32, name: string)
    returns (firstAdvertising: bool, secondAdvertising: bool)
    ensures firstAdvertising && !secondAdvertising
  {
    var bridgeModule := new BeaconsAndroidModule();
    var p1 := new Promise();
    var p2 := new Promise();
    bridgeModule.StartSharedAdvertisingBeaconWithString(uuid, major, minor, name, p1, Returned);
    var first := bridgeModule.beaconTransmitter;
    bridgeModule.StartSharedAdvertisingBeaconWithString(uuid, major, minor, name, p2, Returned);
    var second := bridgeModule.beaconTransmitter;
    bridgeModule.StopSharedAdvertisingBeacon(Returned);
    firstAdvertising, secondAdvertising := first.advertising, second.advertising;
  }

  /** Stopping with a fresh promise leaves it settled exactly once. */
  method StopRangingSettlesOnce(regionId: string, parsed: IdentifierParse, stopCall: CallOutcome)
    returns (settlements: seq<Settlement>)
    ensures |settlements| == 1
    ensures settlements[0].Resolved? <==> parsed.Parsed? && stopCall.Returned?
    ensures settlements[0].Resolved? ==> settlements[0].value == Str("Ok")
  {
    var bridgeModule := new BeaconsAndroidModule();
    var promise := new Promise();
    bridgeModule.StopRanging(regionId, parsed, stopCall, promise);
    settlements := promise.settlements;
  }
}
