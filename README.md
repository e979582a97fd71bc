# BeaconsAndroidModule in Dafny

This project models the Android side of a React Native beacon bridge
(`BeaconsAndroidModule`). The module ranges beacons and advertises one of its own
through AltBeacon. Two parts of it have logic of their own, and those are modelled:

* **Ranging report.** `createRangingResponse` turns the ranged beacons, the region and
  the last accelerometer sample into the `beaconsDidRange` payload. `getProximity`
  sorts a distance into a proximity band. A React Native `WritableMap` is modelled as
  `map<string, Value>`, so which keys are present is a property that can be stated
  (for example, `major` and `minor` appear together or not at all). A Java `double`
  distance is `Distance = Finite(real) | PosInf | NegInf | NaN`.
* **Module lifecycle.** The class `BeaconsAndroidModule` has the source's mutable
  fields: `backgroundModeConfigured`, `beaconTransmitter` and `lastAccelerometerData`.
  `lastAccelerometerData` is an `array<real>` whose reference is replaced whole.
  AltBeacon's `BeaconManager` is not modelled. Instead, each call the module makes
  on it that returns is appended to `managerCalls`. A call that throws is not
  recorded. The object invariant `Valid()` says three things:
  * the flag is set exactly when a background configuration has run to its end,
    that is, when its last call (`setBackgroundScanPeriod(1100)`) returned;
  * that happens at most once;
  * every `startRangingBeacons` call comes after it.

  A configuration attempt can throw part-way (`SetupThrew`). The flag then stays
  clear, the exception escapes `startRanging`, and the next `startRanging`
  configures again. So the foreground service can be enabled more than once
  (`Scenarios.ConfigurationRetried`), but only when an earlier attempt threw.

A call into the library or the platform that can throw is turned into an input to the
model: `CallOutcome = Returned | Threw(exception)`, and
`IdentifierParse = Parsed(id) | Unparseable(exception)` for `Identifier.parse`.
A bridge `Promise` records every `resolve` and `reject` made on it. This makes
"settled exactly once" a statement about the length of that record.

Layout:

| file | module | contents |
|---|---|---|
| wrappers.dfy | Wrappers | `Option` |
| decimal.dfy | Decimal | `String.valueOf(int)` formatting and its inverse |
| bridge.dfy | Bridge | bridge values, `Promise`, `Int32`, call outcomes |
| ranging.dfy | Ranging | distances, proximity bands, the report as functions |
| advertising.dfy | Advertising | `BeaconTransmitter` and the `AdvertiseCallback` |
| beacons_module.dfy | BeaconsAndroid | the module class |
| scenarios.dfy | Scenarios | client call sequences with their proved outcomes |

## Behaviour a caller might not expect

Each item says what the code does, and the model does the same.

* **Second advertising start.** A caller might expect a second start to stop or
  replace the first transmission. The code only reassigns
  `beaconTransmitter`. The previous transmitter is never stopped, and after the
  reassignment `stopSharedAdvertisingBeacon` can no longer reach it.
  `Scenarios.SecondStartOrphansFirst` proves that the first transmitter is still
  advertising after start, start, stop.
* **Stopping a region that is not ranged.** This is not reported as an error of its
  own. The code resolves `"Ok"` unless AltBeacon throws.
* **Negative distances.** Every distance below 1 is "immediate", except exactly -1,
  which is "unknown". So -0.5 is "immediate", not only `0 <= d < 1`.
* **Advertising state.** The module keeps no idle / starting / advertising / failed
  state of its own. The start callback only settles the promise.
* **Accelerometer length.** The report does not always have three axes. It copies
  whatever array the sensor delivered last.

## Model

| member | source | states |
|---|---|---|
| Decimal.NatToString | android/src/main/java/com/mackentoch/beaconsandroid/BeaconsAndroidModule.java:241-242 | the decimal text of a number is non-empty, all digits, with no leading zero |
| Decimal.NatToStringRoundTrip | android/src/main/java/com/mackentoch/beaconsandroid/BeaconsAndroidModule.java:241-242 | reading the digits back gives the number |
| Decimal.IntToStringRoundTrip | android/src/main/java/com/mackentoch/beaconsandroid/BeaconsAndroidModule.java:241-242 | `String.valueOf` of an int parses back to the same int, negatives included |
| Decimal.IntToStringInjective | android/src/main/java/com/mackentoch/beaconsandroid/BeaconsAndroidModule.java:241-242 | distinct major/minor values give distinct identifier texts |
| Ranging.GetProximity | android/src/main/java/com/mackentoch/beaconsandroid/BeaconsAndroidModule.java:197-207 | "unknown" iff the distance is exactly -1; "immediate" iff below 1 and not -1 (negatives included); "near" iff 1 <= d < 3; "far" iff d >= 3 |
| Ranging.ProximityMonotone | android/src/main/java/com/mackentoch/beaconsandroid/BeaconsAndroidModule.java:200-206 | away from -1, a larger distance never gives a nearer band |
| Ranging.ProximityNameInjective | android/src/main/java/com/mackentoch/beaconsandroid/BeaconsAndroidModule.java:197-207 | the four band strings are pairwise distinct |
| Ranging.ReportedDistance | android/src/main/java/com/mackentoch/beaconsandroid/BeaconsAndroidModule.java:177-185 | a finite distance is reported unchanged; +inf, -inf and NaN become 999.0 |
| Ranging.ReportedProximity | android/src/main/java/com/mackentoch/beaconsandroid/BeaconsAndroidModule.java:177-185 | a non-finite distance is "far"; the band always equals the band of the reported distance |
| Ranging.Entries | android/src/main/java/com/mackentoch/beaconsandroid/BeaconsAndroidModule.java:168-188 | exactly one entry per beacon, in iteration order, entry k is beacon k's |
| Ranging.Doubles | android/src/main/java/com/mackentoch/beaconsandroid/BeaconsAndroidModule.java:189-193 | the accelerometer array is copied element for element |
| Ranging.EntryMajorMinorPaired | android/src/main/java/com/mackentoch/beaconsandroid/BeaconsAndroidModule.java:170-185 | `major` present iff `minor` present iff more than two identifiers; the exact key set of an entry |
| Ranging.EntryIdentity | android/src/main/java/com/mackentoch/beaconsandroid/BeaconsAndroidModule.java:171-176 | an entry carries id1's text and the RSSI; major/minor are ids 2 and 3 as ints |
| Ranging.EntryNonFinite | android/src/main/java/com/mackentoch/beaconsandroid/BeaconsAndroidModule.java:177-181 | a non-finite distance is reported as 999.0 and "far" |
| Ranging.EntryFinite | android/src/main/java/com/mackentoch/beaconsandroid/BeaconsAndroidModule.java:182-184 | a finite distance is reported unchanged with `getProximity` of it |
| Ranging.ResponseContents | android/src/main/java/com/mackentoch/beaconsandroid/BeaconsAndroidModule.java:164-195 | the payload has exactly identifier, uuid, beacons, accelerometer; uuid is "" when the region has no id1 and id1's text otherwise; entries and axes in order |
| Advertising.OutboundBeacon | android/src/main/java/com/mackentoch/beaconsandroid/BeaconsAndroidModule.java:237-246 | the advertised beacon carries the uuid and name, major and minor as text that parses back to them, manufacturer 0x4C and tx power -56 |
| Advertising.AdvertiseCallback.OnStartFailure | android/src/main/java/com/mackentoch/beaconsandroid/BeaconsAndroidModule.java:256-259 | rejects with code "Error activating beacon" and message "Error <code>" |
| Advertising.AdvertiseCallback.OnStartSuccess | android/src/main/java/com/mackentoch/beaconsandroid/BeaconsAndroidModule.java:262-265 | resolves with "started" |
| BeaconsAndroid.SetupCallsFacts | android/src/main/java/com/mackentoch/beaconsandroid/BeaconsAndroidModule.java:106-110 | an attempt reaches its last call exactly when every step returns; it enables the foreground service iff that first call returned; it never requests ranging |
| BeaconsAndroid.AppendKeepsRangingAfterConfiguration | android/src/main/java/com/mackentoch/beaconsandroid/BeaconsAndroidModule.java:121-124 | appending calls keeps "ranging only after a completed configuration" when any ranging call in them comes after one |
| BeaconsAndroid.BeaconsAndroidModule.constructor | android/src/main/java/com/mackentoch/beaconsandroid/BeaconsAndroidModule.java:47-57 | not configured, no transmitter, accelerometer [0, 0, 0], no manager calls |
| BeaconsAndroid.BeaconsAndroidModule.ConfigureBackgroundMode | android/src/main/java/com/mackentoch/beaconsandroid/BeaconsAndroidModule.java:69-112 | one-shot: if configured, nothing happens; otherwise the scan settings are applied in order and the flag is set only if all returned; a throw escapes with the flag clear and the calls before it recorded |
| BeaconsAndroid.BeaconsAndroidModule.StartRanging | android/src/main/java/com/mackentoch/beaconsandroid/BeaconsAndroidModule.java:120-125 | background mode is configured first; then the uuid is parsed and ranging is requested; the first exception of the three escapes, and ranging is recorded only if all returned |
| BeaconsAndroid.BeaconsAndroidModule.StopRanging | android/src/main/java/com/mackentoch/beaconsandroid/BeaconsAndroidModule.java:127-137 | the promise is settled exactly once: "Ok" if parsing and stopping returned, otherwise rejected with the exception |
| BeaconsAndroid.BeaconsAndroidModule.OnSensorChanged | android/src/main/java/com/mackentoch/beaconsandroid/BeaconsAndroidModule.java:146-149 | the sample replaces the previous array as a whole |
| BeaconsAndroid.BeaconsAndroidModule.BeaconMap | android/src/main/java/com/mackentoch/beaconsandroid/BeaconsAndroidModule.java:170-185 | the key-by-key entry equals the beacon's entry in the report |
| BeaconsAndroid.BeaconsAndroidModule.CreateRangingResponse | android/src/main/java/com/mackentoch/beaconsandroid/BeaconsAndroidModule.java:164-195 | the pushed payload is the report of the region, the beacons and the current accelerometer contents |
| BeaconsAndroid.BeaconsAndroidModule.StartSharedAdvertisingBeaconWithString | android/src/main/java/com/mackentoch/beaconsandroid/BeaconsAndroidModule.java:235-270 | a build failure rejects and keeps the transmitter; otherwise a new transmitter with the iBeacon layout, low latency, high power and this beacon replaces the old one unconditionally; the old one is left as it was |
| BeaconsAndroid.BeaconsAndroidModule.StopSharedAdvertisingBeacon | android/src/main/java/com/mackentoch/beaconsandroid/BeaconsAndroidModule.java:272-280 | no-op without a transmitter; a returning stop ends advertising; a throwing stop is swallowed; only the transmitter's `advertising` flag may change |
| Scenarios.MuseumReport | android/src/main/java/com/mackentoch/beaconsandroid/BeaconsAndroidModule.java:164-207 | a beacon at 1.5 with RSSI -65 after the sample (0.1, 0.2, 9.8) is reported "near", 1.5 and those axes |
| Scenarios.RangingTwice | android/src/main/java/com/mackentoch/beaconsandroid/BeaconsAndroidModule.java:69-125 | ranging twice enables the foreground service once |
| Scenarios.ConfigurationRetried | android/src/main/java/com/mackentoch/beaconsandroid/BeaconsAndroidModule.java:69-125 | a configuration that throws after enabling the service leaves the flag clear and starts no ranging; the retry enables the service a second time |
| Scenarios.SecondStartOrphansFirst | android/src/main/java/com/mackentoch/beaconsandroid/BeaconsAndroidModule.java:250-280 | after start, start, stop, the first transmitter is still advertising and the second is not |
| Scenarios.StopRangingSettlesOnce | android/src/main/java/com/mackentoch/beaconsandroid/BeaconsAndroidModule.java:127-137 | a fresh promise ends with one settlement, resolved "Ok" iff parse and stop returned |

## Left out

- Notification, notification channel and PendingIntent construction (lines 75-105): Android platform I/O. Only the `BeaconManager` calls are recorded, with notification id 456 and the scan periods.
- `addBeaconLayout`, `addListener`, `removeListeners`, `sendEvent`, the range notifier lambda, `checkTransmissionSupported` and `getName`: bridge, sensor and library plumbing.
- AltBeacon internals are not modelled. This covers layout parsing, `Identifier.parse`, `toString`/`toInt`, distance estimation, and what starting or stopping ranging does to the manager's region set. Each of these is an input or a recorded call.
- Which advertise callback the platform calls, when, and how often: the callback's two methods are modelled, their caller is not.
- BeaconsAndroid.BeaconsAndroidModule.StartSharedAdvertisingBeaconWithString: an exception thrown after `beaconTransmitter` is assigned (by its setters or `startAdvertising`) is not modelled; `build` covers exceptions before it. The transmitter's default mode and power are not modelled either.
- BeaconsAndroid.BeaconsAndroidModule.CreateRangingResponse, BeaconsAndroid.BeaconsAndroidModule.BeaconMap, Ranging.BeaconEntry, Ranging.Entries, Ranging.RangingResponse, Ranging.ResponseContents: a beacon with no identifiers is excluded by the precondition (`HasId1`). For such a beacon, AltBeacon's `getId1()` would throw.
- Advertising.AdvertiseCallback.OnStartFailure: the message uses ASCII digits. `String.format("Error %d", …)` uses the default locale, whose digits may differ (for example Arabic-Indic digits).
- Exceptions thrown by the foreground-service notification build are all one case: `SetupThrew(0, …)`, thrown before any manager call returned.
- IEEE floating point: distances and axes are reals, and the float-to-double widening of the axes is not modelled.
- Concurrency: the sensor thread writing `lastAccelerometerData` while a report is built.
- Logging.
