/**
 * Outbound advertising: AltBeacon's `BeaconTransmitter` and the
 * `AdvertiseCallback` the module hands it, as far as the module relies on them.
 * Radio behaviour is not modelled; a transmitter only records what it was
 * configured with and whether an advertise request is outstanding.
 */
module Advertising {
  import opened Wrappers
  import opened Bridge
  import Decimal

  /** The iBeacon layout the module advertises with. */
  const IBeaconLayout: string := "m:2-3=0215,i:4-19,i:20-21,i:22-23,p:24-24"
  /** Apple's Bluetooth manufacturer id. */
  const AppleManufacturer: int := 0x4C
  /** Calibrated power at one metre written into the advertisement. */
  const CalibratedTxPower: int := -56
  /** `AdvertiseSettings.ADVERTISE_MODE_LOW_LATENCY`. */
  const AdvertiseModeLowLatency: int := 2
  /** `AdvertiseSettings.ADVERTISE_TX_POWER_HIGH`. */
  const AdvertiseTxPowerHigh: int := 3

  /** What `Beacon.Builder` was given: identifiers as text, as the builder receives them. */
  datatype AdvertisedBeacon = AdvertisedBeacon(
    id1: string, id2: string, id3: string,
    manufacturer: int, bluetoothName: string, txPower: int)

  /** The beacon the module builds from the arguments of a start request. */
  function OutboundBeacon(uuid: string, major: Int32, minor: Int32, name: string): (b: AdvertisedBeacon)
    ensures b.id1 == uuid && b.bluetoothName == name
    ensures Decimal.ParseInt(b.id2) == Some(major as int)
    ensures Decimal.ParseInt(b.id3) == Some(minor as int)
    ensures b.manufacturer == AppleManufacturer && b.txPower == CalibratedTxPower
  {
    Decimal.IntToStringRoundTrip(major);
    Decimal.IntToStringRoundTrip(minor);
    AdvertisedBeacon(uuid, Decimal.IntToString(major), Decimal.IntToString(minor),
                     AppleManufacturer, name, CalibratedTxPower)
  }

  /** The callback whose two methods settle the start request's promise. */
  class AdvertiseCallback {
    const promise: Promise

    constructor (promise: Promise)
      ensures this.promise == promise
    {
      this.promise := promise;
    }

    method OnStartFailure(errorCode: Int32)
      modifies promise
      ensures promise.settlements ==
        old(promise.settlements) + [Rejected(Some("Error activating beacon"), "Error " + Decimal.IntToString(errorCode))]
    {
      promise.Reject(Some("Error activating beacon"), "Error " + Decimal.IntToString(errorCode));
    }

    method OnStartSuccess()
      modifies promise
      ensures promise.settlements == old(promise.settlements) + [Resolved(Str("started"))]
    {
      promise.Resolve(Str("started"));
    }
  }

  class Transmitter {
    /** The layout of the parser the transmitter was created with. */
    const parserLayout: string
    var advertiseMode: int
    var txPowerLevel: int
    /** The beacon of the last start request, and that request's callback. */
    var advertised: Option<AdvertisedBeacon>
    var callback: AdvertiseCallback?
    /** An advertise request has been made and not stopped. */
    var advertising: bool

    constructor (parserLayout: string)
      ensures this.parserLayout == parserLayout
      ensures advertised == None && callback == null && !advertising
    {
      this.parserLayout := parserLayout;
      advertised, callback, advertising := None, null, false;
    }

    method SetAdvertiseMode(mode: int)
      modifies this`advertiseMode
      ensures advertiseMode == mode
    {
      advertiseMode := mode;
    }

    method SetAdvertiseTxPowerLevel(level: int)
      modifies this`txPowerLevel
      ensures txPowerLevel == level
    {
      txPowerLevel := level;
    }

    method StartAdvertising(beacon: AdvertisedBeacon, callback: AdvertiseCallback)
      modifies this`advertised, this`callback, this`advertising
      ensures advertised == Some(beacon) && this.callback == callback && advertising
    {
      advertised, this.callback, advertising := Some(beacon), callback, true;
    }

    /** `stopAdvertising`, which may throw; a stop that returns ends the request. */
    method StopAdvertising(outcome: CallOutcome) returns (result: CallOutcome)
      modifies this`advertising
      ensures result == outcome
      ensures outcome.Returned? ==> !advertising
      ensures outcome.Threw? ==> advertising == old(advertising)
    {
      if outcome.Returned? {
        advertising := false;
      }
      result := outcome;
    }
  }
}
