/**
 * Shaping of the `beaconsDidRange` report: proximity classification of a
 * beacon's distance and the bridge map built from the ranged beacons, the
 * region and the last accelerometer sample.
 */
module Ranging {
  import opened Wrappers
  import opened Bridge

  /** A Java `double` distance: a finite value or one of the non-finite values. */
  datatype Distance = Finite(value: real) | PosInf | NegInf | NaN

  datatype ProximityBand = Unknown | Immediate | Near | Far

  /** An AltBeacon identifier, by the two views the module uses: `toString()` and `toInt()`. */
  datatype Identifier = Identifier(text: string, asInt: Int32)

  /** A ranged beacon: its identifiers in layout order, its RSSI and AltBeacon's distance estimate. */
  datatype Beacon = Beacon(identifiers: seq<Identifier>, rssi: Int32, distance: Distance)

  /** A ranging region: its unique id and its (possibly null) first identifier. */
  datatype Region = Region(uniqueId: string, id1: Option<Identifier>)

  /** The distance reported for a beacon whose distance cannot be represented. */
  const FarSentinel: real := 999.0

  /** `getProximity`: -1 is AltBeacon's "unknown"; otherwise strict thresholds at 1 and 3. */
  function GetProximity(distance: real): (p: ProximityBand)
    ensures p == Unknown <==> distance == -1.0
    ensures p == Immediate <==> distance < 1.0 && distance != -1.0
    ensures p == Near <==> 1.0 <= distance < 3.0
    ensures p == Far <==> 3.0 <= distance
  {
    if distance == -1.0 then Unknown
    else if distance < 1.0 then Immediate
    else if distance < 3.0 then Near
    else Far
  }

  /** Position of a band on the distance axis, nearest first. */
  function Rank(p: ProximityBand): nat
  {
    match p
    case Immediate => 0
    case Near => 1
    case Far => 2
    case Unknown => 3
  }

  /** Away from the -1 sentinel, a larger distance never gives a nearer band. */
  lemma ProximityMonotone(d1: real, d2: real)
    requires d1 <= d2 && d1 != -1.0 && d2 != -1.0
    ensures Rank(GetProximity(d1)) <= Rank(GetProximity(d2))
  {
  }

  /** The string the report carries for a band. */
  function ProximityName(p: ProximityBand): string
  {
    match p
    case Unknown => "unknown"
    case Immediate => "immediate"
    case Near => "near"
    case Far => "far"
  }

  lemma ProximityNameInjective(p: ProximityBand, q: ProximityBand)
    requires ProximityName(p) == ProximityName(q)
    ensures p == q
  {
  }

  /** The distance put into a beacon's entry: non-finite values are clamped to 999. */
  function ReportedDistance(d: Distance): (r: real)
    ensures d.Finite? ==> r == d.value
    ensures !d.Finite? ==> r == FarSentinel
  {
    if d.Finite? then d.value else FarSentinel
  }

  /**
   * The band put into a beacon's entry.  A non-finite distance is "far" without
   * consulting `GetProximity`; either way the band agrees with the reported distance.
   */
  function ReportedProximity(d: Distance): (p: ProximityBand)
    ensures !d.Finite? ==> p == Far
    ensures p == GetProximity(ReportedDistance(d))
  {
    match d
    case Finite(v) => GetProximity(v)
    case _ => Far
  }

  /** AltBeacon's `getId1()` needs at least one identifier. */
  predicate HasId1(b: Beacon) {
    |b.identifiers| > 0
  }

  /** The entry of one beacon in the report's `beacons` array. */
  function BeaconEntry(b: Beacon): map<string, Value>
    requires HasId1(b)
  {
    var common := map[
      "uuid" := Str(b.identifiers[0].text),
      "rssi" := Int(b.rssi),
      "distance" := Dbl(ReportedDistance(b.distance)),
      "proximity" := Str(ProximityName(ReportedProximity(b.distance)))];
    if |b.identifiers| > 2 then
      common["major" := Int(b.identifiers[1].asInt)]["minor" := Int(b.identifiers[2].asInt)]
    else
      common
  }

  /** Beacon entries, as the report's loop pushes them. */
  function Entries(beacons: seq<Beacon>): (r: seq<Value>)
    requires forall k | 0 <= k < |beacons| :: HasId1(beacons[k])
    ensures |r| == |beacons|
    ensures forall k | 0 <= k < |beacons| :: r[k] == Obj(BeaconEntry(beacons[k]))
  {
    if beacons == [] then []
    else Entries(beacons[..|beacons| - 1]) + [Obj(BeaconEntry(beacons[|beacons| - 1]))]
  }

  /** Accelerometer axes, as the report's loop pushes them. */
  function Doubles(axes: seq<real>): (r: seq<Value>)
    ensures |r| == |axes|
    ensures forall k | 0 <= k < |axes| :: r[k] == Dbl(axes[k])
  {
    if axes == [] then [] else Doubles(axes[..|axes| - 1]) + [Dbl(axes[|axes| - 1])]
  }

  /** The `beaconsDidRange` payload. */
  function RangingResponse(region: Region, beacons: seq<Beacon>, accelerometer: seq<real>): map<string, Value>
    requires forall k | 0 <= k < |beacons| :: HasId1(beacons[k])
  {
    map[
      "identifier" := Str(region.uniqueId),
      "uuid" := Str(if region.id1.Some? then region.id1.value.text else ""),
      "beacons" := Arr(Entries(beacons)),
      "accelerometer" := Arr(Doubles(accelerometer))]
  }

  /** `major` and `minor` appear together, exactly when the beacon has more than two identifiers. */
  lemma EntryMajorMinorPaired(b: Beacon)
    requires HasId1(b)
    ensures "major" in BeaconEntry(b) <==> |b.identifiers| > 2
    ensures "minor" in BeaconEntry(b) <==> |b.identifiers| > 2
    ensures BeaconEntry(b).Keys == {"uuid", "rssi", "distance", "proximity"}
                                   + (if |b.identifiers| > 2 then {"major", "minor"} else {})
  {
  }

  /** Every entry carries the beacon's first identifier and its RSSI; major and minor are ids 2 and 3. */
  lemma EntryIdentity(b: Beacon)
    requires HasId1(b)
    ensures BeaconEntry(b)["uuid"] == Str(b.identifiers[0].text)
    ensures BeaconEntry(b)["rssi"] == Int(b.rssi)
    ensures |b.identifiers| > 2 ==>
      BeaconEntry(b)["major"] == Int(b.identifiers[1].asInt) &&
      BeaconEntry(b)["minor"] == Int(b.identifiers[2].asInt)
  {
  }

  /** +inf, -inf and NaN are reported as 999.0 and "far". */
  lemma EntryNonFinite(b: Beacon)
    requires HasId1(b) && !b.distance.Finite?
    ensures BeaconEntry(b)["distance"] == Dbl(999.0)
    ensures BeaconEntry(b)["proximity"] == Str("far")
  {
  }

  /** A finite distance is reported unchanged, with the band `GetProximity` gives it. */
  lemma EntryFinite(b: Beacon)
    requires HasId1(b) && b.distance.Finite?
    ensures BeaconEntry(b)["distance"] == Dbl(b.distance.value)
    ensures BeaconEntry(b)["proximity"] == Str(ProximityName(GetProximity(b.distance.value)))
  {
  }

  /** What the whole payload holds. */
  lemma ResponseContents(region: Region, beacons: seq<Beacon>, accelerometer: seq<real>)
    requires forall k | 0 <= k < |beacons| :: HasId1(beacons[k])
    ensures RangingResponse(region, beacons, accelerometer).Keys == {"identifier", "uuid", "beacons", "accelerometer"}
    ensures RangingResponse(region, beacons, accelerometer)["identifier"] == Str(region.uniqueId)
    ensures region.id1.None? ==> RangingResponse(region, beacons, accelerometer)["uuid"] == Str("")
    ensures region.id1.Some? ==> RangingResponse(region, beacons, accelerometer)["uuid"] == Str(region.id1.value.text)
    ensures var items := RangingResponse(region, beacons, accelerometer)["beacons"].items;
      |items| == |beacons| && forall k | 0 <= k < |beacons| :: items[k] == Obj(BeaconEntry(beacons[k]))
    ensures var axes := RangingResponse(region, beacons, accelerometer)["accelerometer"].items;
      |axes| == |accelerometer| && forall k | 0 <= k < |accelerometer| :: axes[k] == Dbl(accelerometer[k])
  {
  }
}
