/** The beacon record the tracker works on, reduced to the fields the
    tracker reads or writes plus the rest of its state, and the text key
    that groups GATT frames. */
module Beacons {
  import opened Options
  import opened DecimalText

  /** A Java `int`. */
  type Int32 = x: int | -0x8000_0000 <= x < 0x8000_0000

  /** The service UUID of a beacon that is not GATT-based. */
  const UNGROUPED: Int32 := -1

  /** One beacon object. `rssi` and `extraDataFields` are the fields the
      tracker overwrites; it reads the address, the service UUID, the data
      fields and the data-only flag. `identifiers` stands for the rest of a
      beacon's state (its identifiers and whatever else `hashCode` may
      read), which the tracker never touches. */
  datatype Beacon = Beacon(
    bluetoothAddress: string,
    identifiers: seq<int>,
    serviceUuid: Int32,
    rssi: Int32,
    dataFields: seq<int>,
    extraDataFields: seq<int>,
    isExtraBeaconData: bool)

  /** `Beacon.hashCode()`: the Beacon class is not part of this model, so its
      hash is an arbitrary function of the beacon's current state. */
  type HashFn = Beacon -> Int32

  /** The group key: the Bluetooth address followed by the service UUID
      printed in decimal. */
  function ServiceUuidAndMac(b: Beacon): (key: string)
    ensures |key| > |b.bluetoothAddress|
    ensures key[..|b.bluetoothAddress|] == b.bluetoothAddress
    ensures ParseInt(key[|b.bluetoothAddress|..]) == Some(b.serviceUuid as int)
  {
    IntDecimalRoundTrip(b.serviceUuid as int);
    assert (b.bluetoothAddress + IntToDecimal(b.serviceUuid as int))[|b.bluetoothAddress|..]
        == IntToDecimal(b.serviceUuid as int);
    b.bluetoothAddress + IntToDecimal(b.serviceUuid as int)
  }

  /** For addresses of one length (Bluetooth addresses are always written
      as six two-digit hex groups), two beacons share a group key exactly
      when they share address and service UUID. */
  lemma GroupKeyInjective(a: Beacon, b: Beacon)
    requires |a.bluetoothAddress| == |b.bluetoothAddress|
    ensures ServiceUuidAndMac(a) == ServiceUuidAndMac(b)
            <==> a.bluetoothAddress == b.bluetoothAddress && a.serviceUuid == b.serviceUuid
  {
  }

  /** The key has no separator, so addresses of different lengths can
      collide: "A1" with UUID 2 and "A" with UUID 12 both give "A12". */
  lemma GroupKeyAmbiguousAcrossAddressLengths()
    ensures ServiceUuidAndMac(Beacon("A1", [], 2, 0, [], [], false))
         == ServiceUuidAndMac(Beacon("A", [], 12, 0, [], [], false))
  {
  }
}
