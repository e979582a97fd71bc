/**
 * `BeaconsAndroidModule`: the React Native module object.  Its mutable fields
 * are the background-mode flag, the current transmitter and the last
 * accelerometer sample; the calls it makes on AltBeacon's `BeaconManager` that
 * return are recorded in `managerCalls`, in order.
 */
module BeaconsAndroid {
  import opened Wrappers
  import opened Bridge
  import opened Ranging
  import opened Advertising

  /** A call the module makes on the `BeaconManager`. */
  datatype ManagerCall =
    | EnableForegroundServiceScanning(notificationId: int)
    | SetEnableScheduledScanJobs(enabled: bool)
    | SetBackgroundBetweenScanPeriod(millis: int)
    | SetBackgroundScanPeriod(millis: int)
    | StartRangingBeacons(region: Region)
    | StopRangingBeacons(region: Region)

  /** What `Identifier.parse(uuid)` did. */
  datatype IdentifierParse = Parsed(id: Identifier) | Unparseable(exception: string)

  /** The manager calls of the background configuration, in source order. */
  const BackgroundSetup: seq<ManagerCall> := [
    EnableForegroundServiceScanning(456),
    SetEnableScheduledScanJobs(false),
    SetBackgroundBetweenScanPeriod(0),
    SetBackgroundScanPeriod(1100)]

  /** The last call of the background configuration; once it has returned, the flag is set. */
  const SetupEnd: ManagerCall := SetBackgroundScanPeriod(1100)

  /** How many setup calls returned before one of them threw. */
  type SetupStep = n: nat | n < 4

  /**
   * How `configureBackgroundMode` went: every step returned, or an exception
   * escaped after `returned` manager calls had returned (a throw while the
   * notification is built is `SetupThrew(0, …)`).
   */
  datatype SetupOutcome = SetupReturned | SetupThrew(returned: SetupStep, exception: string)

  /** The manager calls that return during a configuration attempt. */
  function SetupCalls(configured: bool, setup: SetupOutcome): seq<ManagerCall>
  {
    if configured then []
    else match setup
      case SetupReturned => BackgroundSetup
      case SetupThrew(k, _) => BackgroundSetup[..k]
  }

  /** How many times `c` occurs in `calls`. */
  function Occurrences(calls: seq<ManagerCall>, c: ManagerCall): nat
  {
    if calls == [] then 0
    else Occurrences(calls[..|calls| - 1], c) + (if calls[|calls| - 1] == c then 1 else 0)
  }

  lemma {:induction false} OccurrencesAppend(a: seq<ManagerCall>, b: seq<ManagerCall>, c: ManagerCall)
    ensures Occurrences(a + b, c) == Occurrences(a, c) + Occurrences(b, c)
    decreases |b|
  {
    if b == [] {
      assert a + b == a;
    } else {
      var b' := b[..|b| - 1];
      assert (a + b)[..|a + b| - 1] == a + b';
      assert (a + b)[|a + b| - 1] == b[|b| - 1];
      OccurrencesAppend(a, b', c);
    }
  }

  lemma {:induction false} OccurrencesAbsent(calls: seq<ManagerCall>, c: ManagerCall)
    requires forall j | 0 <= j < |calls| :: calls[j] != c
    ensures Occurrences(calls, c) == 0
    decreases |calls|
  {
    if calls != [] {
      OccurrencesAbsent(calls[..|calls| - 1], c);
    }
  }

  lemma OccurrencesSingleton(x: ManagerCall, c: ManagerCall)
    ensures Occurrences([x], c) == if x == c then 1 else 0
  {
    assert [x][..0] == [];
  }

  /**
   * A configuration attempt reaches its end exactly when every step returns; it
   * enables the foreground service when that first call returns; it never starts ranging.
   */
  lemma SetupCallsFacts(configured: bool, setup: SetupOutcome)
    ensures Occurrences(SetupCalls(configured, setup), SetupEnd) ==
      if !configured && setup.SetupReturned? then 1 else 0
    ensures Occurrences(SetupCalls(configured, setup), EnableForegroundServiceScanning(456)) ==
      if !configured && (setup.SetupReturned? || setup.returned > 0) then 1 else 0
    ensures forall j | 0 <= j < |SetupCalls(configured, setup)| :: !SetupCalls(configured, setup)[j].StartRangingBeacons?
  {
    var enable := EnableForegroundServiceScanning(456);
    var s := SetupCalls(configured, setup);
    if !configured {
      var k := if setup.SetupReturned? then 4 else setup.returned;
      assert s == BackgroundSetup[..k];
      if k == 4 {
        assert s == BackgroundSetup[..3] + [SetupEnd];
        OccurrencesAbsent(BackgroundSetup[..3], SetupEnd);
        OccurrencesSingleton(SetupEnd, SetupEnd);
        OccurrencesAppend(BackgroundSetup[..3], [SetupEnd], SetupEnd);
      } else {
        OccurrencesAbsent(s, SetupEnd);
      }
      if k > 0 {
        assert s == [enable] + s[1..];
        OccurrencesSingleton(enable, enable);
        OccurrencesAbsent(s[1..], enable);
        OccurrencesAppend([enable], s[1..], enable);
      } else {
        OccurrencesAbsent(s, enable);
      }
    }
  }

  /** Ranging is only ever requested after a configuration ran to its end. */
  ghost predicate RangingAfterConfiguration(calls: seq<ManagerCall>)
  {
    forall i | 0 <= i < |calls| && calls[i].StartRangingBeacons? :: Occurrences(calls[..i], SetupEnd) > 0
  }

  lemma AppendKeepsRangingAfterConfiguration(calls: seq<ManagerCall>, more: seq<ManagerCall>)
    requires RangingAfterConfiguration(calls)
    requires forall j | 0 <= j < |more| :: more[j].StartRangingBeacons? ==> Occurrences(calls, SetupEnd) > 0
    ensures RangingAfterConfiguration(calls + more)
  {
    var all := calls + more;
    forall i | 0 <= i < |all| && all[i].StartRangingBeacons?
      ensures Occurrences(all[..i], SetupEnd) > 0
    {
      if i < |calls| {
        assert all[..i] == calls[..i];
      } else {
        assert all[i] == more[i - |calls|];
        assert all[..i] == calls + more[..i - |calls|];
        OccurrencesAppend(calls, more[..i - |calls|], SetupEnd);
      }
    }
  }

  class BeaconsAndroidModule {
    var backgroundModeConfigured: bool
    var beaconTransmitter: Transmitter?
    var lastAccelerometerData: array<real>
    /** The `BeaconManager` calls that returned, in order. */
    var managerCalls: seq<ManagerCall>

    /**
     * The flag is set exactly when a configuration has run to its end, which
     * happens at most once, and ranging is requested only after that.
     */
    ghost predicate Valid()
      reads this
    {
      && (backgroundModeConfigured <==> Occurrences(managerCalls, SetupEnd) > 0)
      && Occurrences(managerCalls, SetupEnd) <= 1
      && RangingAfterConfiguration(managerCalls)
    }

    constructor ()
      ensures Valid()
      ensures !backgroundModeConfigured && beaconTransmitter == null && managerCalls == []
      ensures fresh(lastAccelerometerData) && lastAccelerometerData[..] == [0.0, 0.0, 0.0]
    {
      backgroundModeConfigured := false;
      beaconTransmitter := null;
      lastAccelerometerData := new real[3] [0.0, 0.0, 0.0];
      managerCalls := [];
    }

    /** Appends a returned call that is not a ranging request. */
    method Record(call: ManagerCall)
      requires Valid() && call != SetupEnd && !call.StartRangingBeacons?
      modifies this`managerCalls
      ensures Valid() && managerCalls == old(managerCalls) + [call]
    {
      OccurrencesSingleton(call, SetupEnd);
      OccurrencesAppend(managerCalls, [call], SetupEnd);
      AppendKeepsRangingAfterConfiguration(managerCalls, [call]);
      managerCalls := managerCalls + [call];
    }

    /**
     * One-shot: once configured, later calls change nothing.  The flag is set
     * only after every step returned; an exception escapes with the flag still clear.
     */
    method ConfigureBackgroundMode(setup: SetupOutcome) returns (outcome: CallOutcome)
      requires Valid()
      modifies this`backgroundModeConfigured, this`managerCalls
      ensures Valid()
      ensures backgroundModeConfigured == (old(backgroundModeConfigured) || setup.SetupReturned?)
      ensures managerCalls == old(managerCalls) + SetupCalls(old(backgroundModeConfigured), setup)
      ensures outcome == if backgroundModeConfigured then Returned else Threw(setup.exception)
    {
      if backgroundModeConfigured {
        return Returned;
      }
      SetupCallsFacts(false, setup);
      OccurrencesAppend(managerCalls, SetupCalls(false, setup), SetupEnd);
      AppendKeepsRangingAfterConfiguration(managerCalls, SetupCalls(false, setup));
      if setup.SetupThrew? {
        managerCalls := managerCalls + BackgroundSetup[..setup.returned];
        return Threw(setup.exception);
      }
      managerCalls := managerCalls + BackgroundSetup;
      backgroundModeConfigured := true;
      outcome := Returned;
    }

    /**
     * `startRanging`: configures background mode, parses the uuid and requests
     * ranging; the first exception among the three escapes.
     */
    method StartRanging(regionId: string, setup: SetupOutcome, parsed: IdentifierParse, rangeCall: CallOutcome)
      returns (outcome: CallOutcome)
      requires Valid()
      modifies this`backgroundModeConfigured, this`managerCalls
      ensures Valid()
      ensures backgroundModeConfigured == (old(backgroundModeConfigured) || setup.SetupReturned?)
      ensures outcome ==
        if !backgroundModeConfigured then Threw(setup.exception)
        else if parsed.Unparseable? then Threw(parsed.exception)
        else rangeCall
      ensures managerCalls ==
        old(managerCalls)
        + SetupCalls(old(backgroundModeConfigured), setup)
        + (if backgroundModeConfigured && parsed.Parsed? && rangeCall.Returned?
           then [StartRangingBeacons(Region(regionId, Some(parsed.id)))] else [])
    {
      outcome := ConfigureBackgroundMode(setup);
      if outcome.Threw? {
        return;
      }
      match parsed
      case Unparseable(e) =>
        outcome := Threw(e);
      case Parsed(id) =>
        if rangeCall.Returned? {
          var call := StartRangingBeacons(Region(regionId, Some(id)));
          OccurrencesSingleton(call, SetupEnd);
          OccurrencesAppend(managerCalls, [call], SetupEnd);
          AppendKeepsRangingAfterConfiguration(managerCalls, [call]);
          managerCalls := managerCalls + [call];
        }
        outcome := rangeCall;
    }

    /** `stopRanging`: the promise is settled exactly once, resolved with "Ok" or rejected with the exception. */
    method StopRanging(regionId: string, parsed: IdentifierParse, stopCall: CallOutcome, promise: Promise)
      requires Valid()
      modifies this`managerCalls, promise
      ensures Valid()
      ensures |promise.settlements| == |old(promise.settlements)| + 1
      ensures promise.settlements == old(promise.settlements) + [
        if parsed.Unparseable? then Rejected(None, parsed.exception)
        else if stopCall.Threw? then Rejected(None, stopCall.exception)
        else Resolved(Str("Ok"))]
      ensures managerCalls == old(managerCalls) +
        (if parsed.Parsed? && stopCall.Returned? then [StopRangingBeacons(Region(regionId, Some(parsed.id)))] else [])
    {
      match parsed
      case Unparseable(e) =>
        promise.Reject(None, e);
      case Parsed(id) =>
        if stopCall.Threw? {
          promise.Reject(None, stopCall.exception);
        } else {
          Record(StopRangingBeacons(Region(regionId, Some(id))));
          promise.Resolve(Str("Ok"));
        }
    }

    /** The sensor callback: the sample array replaces the previous one as a whole. */
    method OnSensorChanged(values: array<real>)
      requires Valid()
      modifies this`lastAccelerometerData
      ensures Valid() && lastAccelerometerData == values
    {
      lastAccelerometerData := values;
    }

    /** The body of the report loop: the entry of one beacon, key by key. */
    static method BeaconMap(beacon: Beacon) returns (b: map<string, Value>)
      requires HasId1(beacon)
      ensures b == BeaconEntry(beacon)
    {
      b := map[];
      b := b["uuid" := Str(beacon.identifiers[0].text)];
      if |beacon.identifiers| > 2 {
        b := b["major" := Int(beacon.identifiers[1].asInt)];
        b := b["minor" := Int(beacon.identifiers[2].asInt)];
      }
      b := b["rssi" := Int(beacon.rssi)];
      if beacon.distance == PosInf || beacon.distance == NaN || beacon.distance == NegInf {
        b := b["distance" := Dbl(999.0)];
        b := b["proximity" := Str("far")];
      } else {
        b := b["distance" := Dbl(beacon.distance.value)];
        b := b["proximity" := Str(ProximityName(GetProximity(beacon.distance.value)))];
      }
    }

    /** `createRangingResponse`: builds the payload by pushing one entry per beacon, then the axes. */
    method CreateRangingResponse(beacons: seq<Beacon>, region: Region) returns (response: map<string, Value>)
      requires forall k | 0 <= k < |beacons| :: HasId1(beacons[k])
      ensures response == RangingResponse(region, beacons, lastAccelerometerData[..])
    {
      response := map[];
      response := response["identifier" := Str(region.uniqueId)];
      response := response["uuid" := Str(if region.id1 != None then region.id1.value.text else "")];
      var a: seq<Value> := [];
      for i := 0 to |beacons|
        invariant a == Entries(beacons[..i])
      {
        var b := BeaconMap(beacons[i]);
        assert beacons[..i + 1][..i] == beacons[..i];
        a := a + [Obj(b)];
      }
      assert beacons[..|beacons|] == beacons;
      response := response["beacons" := Arr(a)];
      var data := lastAccelerometerData;
      var accel: seq<Value> := [];
      for j := 0 to data.Length
        invariant accel == Doubles(data[..j])
      {
        assert data[..j + 1][..j] == data[..j];
        accel := accel + [Dbl(data[j])];
      }
      assert data[..data.Length] == data[..];
      response := response["accelerometer" := Arr(accel)];
    }

    /**
     * `startSharedAdvertisingBeaconWithString`.  `build` is whether building the
     * beacon (which parses `uuid`, major and minor as identifiers) threw.  On
     * success the transmitter is replaced by a new one unconditionally; the
     * previous one is not stopped.  The promise is settled later, by the callback.
     */
    method StartSharedAdvertisingBeaconWithString(
      uuid: string, major: Int32, minor: Int32, identifier: string, promise: Promise, build: CallOutcome)
      requires Valid()
      modifies this`beaconTransmitter, promise
      ensures Valid()
      ensures build.Threw? ==>
        && beaconTransmitter == old(beaconTransmitter)
        && promise.settlements == old(promise.settlements) + [Rejected(None, build.exception)]
      ensures build.Returned? ==>
        && beaconTransmitter != null && fresh(beaconTransmitter)
        && beaconTransmitter.parserLayout == IBeaconLayout
        && beaconTransmitter.advertiseMode == AdvertiseModeLowLatency
        && beaconTransmitter.txPowerLevel == AdvertiseTxPowerHigh
        && beaconTransmitter.advertised == Some(OutboundBeacon(uuid, major, minor, identifier))
        && beaconTransmitter.advertising
        && beaconTransmitter.callback != null && fresh(beaconTransmitter.callback)
        && beaconTransmitter.callback.promise == promise
        && promise.settlements == old(promise.settlements)
      ensures old(beaconTransmitter) != null ==> old(beaconTransmitter).advertising == old(beaconTransmitter.advertising)
    {
      if build.Threw? {
        promise.Reject(None, build.exception);
        return;
      }
      var beacon := OutboundBeacon(uuid, major, minor, identifier);
      var transmitter := new Transmitter(IBeaconLayout);
      beaconTransmitter := transmitter;
      transmitter.SetAdvertiseMode(AdvertiseModeLowLatency);
      transmitter.SetAdvertiseTxPowerLevel(AdvertiseTxPowerHigh);
      var callback := new AdvertiseCallback(promise);
      transmitter.StartAdvertising(beacon, callback);
    }

    /** `stopSharedAdvertisingBeacon`: a no-op without a transmitter; a throwing stop is swallowed. */
    method StopSharedAdvertisingBeacon(stopCall: CallOutcome)
      requires Valid()
      modifies if beaconTransmitter == null then {} else {beaconTransmitter}`advertising
      ensures Valid()
      ensures beaconTransmitter != null && stopCall.Returned? ==> !beaconTransmitter.advertising
      ensures beaconTransmitter != null && stopCall.Threw? ==> beaconTransmitter.advertising == old(beaconTransmitter.advertising)
    {
      if beaconTransmitter != null {
        var ignored := beaconTransmitter.StopAdvertising(stopCall);
      }
    }
  }
}
