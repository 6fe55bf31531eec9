/**
 * `BeaconHistory`: the app's store of device metadata (one record per
 * Bluetooth address, with the user's "safe" flag and the analyzer's
 * "suspicious" flag) and of the detection log.
 *
 * The Room tables behind it are a map from address to record and a
 * sequence of detections; the DAO's queries and updates are written out as
 * the reads and writes they make on those two values.
 */
module History {
  import opened Trajectories

  /** One row of the device-metadata table. */
  datatype DeviceMetadata = DeviceMetadata(bluetoothAddress: Address, isSafe: bool, isSuspicious: bool)

  type MetadataTable = map<Address, DeviceMetadata>

  /** Every record is stored under its own address (the table's primary key). */
  predicate WellKeyed(table: MetadataTable)
  {
    forall a :: a in table ==> table[a].bluetoothAddress == a
  }

  /** The table after the user's "safe" flag of `address` is set to `isSafe`. */
  function WithSafe(table: MetadataTable, address: Address, isSafe: bool): (r: MetadataTable)
    ensures r.Keys == table.Keys
    ensures address !in table ==> r == table
    ensures address in table ==>
              && r[address].isSafe == isSafe
              && r[address].isSuspicious == table[address].isSuspicious
              && r[address].bluetoothAddress == table[address].bluetoothAddress
    ensures forall a :: a in table && a != address ==> r[a] == table[a]
  {
    if address in table then table[address := table[address].(isSafe := isSafe)] else table
  }

  /** The table after the "suspicious" flag of `address` is set to `isSuspicious`. */
  function WithSuspicious(table: MetadataTable, address: Address, isSuspicious: bool): (r: MetadataTable)
    ensures r.Keys == table.Keys
    ensures address !in table ==> r == table
    ensures address in table ==>
              && r[address].isSuspicious == isSuspicious
              && r[address].isSafe == table[address].isSafe
              && r[address].bluetoothAddress == table[address].bluetoothAddress
    ensures forall a :: a in table && a != address ==> r[a] == table[a]
  {
    if address in table then table[address := table[address].(isSuspicious := isSuspicious)] else table
  }

  /** The addresses whose record is flagged suspicious. */
  function SuspiciousDevices(table: MetadataTable): (s: set<Address>)
    ensures s <= table.Keys
    ensures forall a :: a in s <==> a in table && table[a].isSuspicious
  {
    set a | a in table && table[a].isSuspicious
  }

  /** `getDetectionsForDevice`: the detections of one device, in log order. */
  function DetectionsFor(log: seq<BeaconDetection>, address: Address): (r: seq<BeaconDetection>)
    ensures |r| <= |log|
    ensures forall d :: d in r <==> d in log && d.bluetoothAddress == address
  {
    if log == [] then []
    else (if log[0].bluetoothAddress == address then [log[0]] else []) + DetectionsFor(log[1..], address)
  }

  /**
   * `getDetectionsForDevice` returns all detections of the device: each one
   * as many times as the log holds it, and no detection of another device.
   */
  lemma {:induction false} DetectionsForCounts(log: seq<BeaconDetection>, address: Address, d: BeaconDetection)
    ensures multiset(DetectionsFor(log, address))[d] ==
              if d.bluetoothAddress == address then multiset(log)[d] else 0
  {
    if log != [] {
      DetectionsForCounts(log[1..], address, d);
      assert log == [log[0]] + log[1..];
    }
  }

  /** After a successful `markSafe(a, b)`, `isSafe(a)` answers `b`. */
  lemma MarkSafeRoundTrip(table: MetadataTable, address: Address, isSafe: bool)
    requires address in table
    ensures address in WithSafe(table, address, isSafe)
    ensures WithSafe(table, address, isSafe)[address].isSafe == isSafe
  {
  }

  /** `markSafe` twice with the same arguments is `markSafe` once. */
  lemma WithSafeIdempotent(table: MetadataTable, address: Address, isSafe: bool)
    ensures WithSafe(WithSafe(table, address, isSafe), address, isSafe) == WithSafe(table, address, isSafe)
  {
  }

  /** `markSuspicious` twice with the same arguments is `markSuspicious` once. */
  lemma WithSuspiciousIdempotent(table: MetadataTable, address: Address, isSuspicious: bool)
    ensures WithSuspicious(WithSuspicious(table, address, isSuspicious), address, isSuspicious)
            == WithSuspicious(table, address, isSuspicious)
  {
  }

  /** The two flags are independent: setting one then the other, in either order, gives the same table. */
  lemma FlagsCommute(table: MetadataTable, address: Address, isSafe: bool, isSuspicious: bool)
    ensures WithSafe(WithSuspicious(table, address, isSuspicious), address, isSafe)
            == WithSuspicious(WithSafe(table, address, isSafe), address, isSuspicious)
  {
  }

  /** Marking a device safe or unsafe does not change which devices are suspicious. */
  lemma WithSafeKeepsSuspicious(table: MetadataTable, address: Address, isSafe: bool)
    ensures SuspiciousDevices(WithSafe(table, address, isSafe)) == SuspiciousDevices(table)
  {
  }

  /** Flagging a known device suspicious adds exactly that device to the suspicious set. */
  lemma WithSuspiciousAdds(table: MetadataTable, address: Address)
    requires address in table
    ensures SuspiciousDevices(WithSuspicious(table, address, true)) == SuspiciousDevices(table) + {address}
  {
  }

  /**
   * The store. `metadata` is the device-metadata table and `detections` the
   * detection log; the methods are the store's operations on them.
   */
  class BeaconHistory {
    var metadata: MetadataTable
    var detections: seq<BeaconDetection>

    ghost predicate Valid()
      reads this
    {
      WellKeyed(metadata)
    }

    /** Opens a store holding the given tables. */
    constructor (metadata: MetadataTable, detections: seq<BeaconDetection>)
      requires WellKeyed(metadata)
      ensures Valid()
      ensures this.metadata == metadata && this.detections == detections
    {
      this.metadata := metadata;
      this.detections := detections;
    }

    /**
     * Every record of the table, each once, in an order the table does not fix;
     * with `onlySuspicious`, only the records flagged suspicious.
     */
    method LoadMetadata(onlySuspicious: bool) returns (records: seq<DeviceMetadata>)
      requires Valid()
      ensures forall m :: m in records <==>
                m.bluetoothAddress in metadata && metadata[m.bluetoothAddress] == m && (onlySuspicious ==> m.isSuspicious)
      ensures forall i, j :: 0 <= i < j < |records| ==> records[i].bluetoothAddress != records[j].bluetoothAddress
    {
      records := [];
      var pending := metadata.Keys;
      while pending != {}
        invariant pending <= metadata.Keys
        invariant forall m :: m in records <==>
                    && m.bluetoothAddress in metadata && m.bluetoothAddress !in pending
                    && metadata[m.bluetoothAddress] == m && (onlySuspicious ==> m.isSuspicious)
        invariant forall i, j :: 0 <= i < j < |records| ==> records[i].bluetoothAddress != records[j].bluetoothAddress
        decreases pending
      {
        var address :| address in pending;
        var record := metadata[address];
        if !onlySuspicious || record.isSuspicious {
          records := records + [record];
        }
        pending := pending - {address};
      }
    }

    /** `getDeviceList`: every record of the table, each once. */
    method GetDeviceList() returns (devices: seq<DeviceMetadata>)
      requires Valid()
      ensures forall m :: m in devices <==> m.bluetoothAddress in metadata && metadata[m.bluetoothAddress] == m
      ensures forall i, j :: 0 <= i < j < |devices| ==> devices[i].bluetoothAddress != devices[j].bluetoothAddress
    {
      devices := LoadMetadata(false);
    }

    /** `getSuspiciousDevices`: every record flagged suspicious, each once. */
    method GetSuspiciousDevices() returns (devices: seq<DeviceMetadata>)
      requires Valid()
      ensures forall m :: m in devices <==>
                m.bluetoothAddress in metadata && metadata[m.bluetoothAddress] == m && m.isSuspicious
      ensures forall i, j :: 0 <= i < j < |devices| ==> devices[i].bluetoothAddress != devices[j].bluetoothAddress
    {
      devices := LoadMetadata(true);
    }

    /** `countSuspiciousDevices`: how many records are flagged suspicious. */
    method CountSuspiciousDevices() returns (count: nat)
      ensures count == |SuspiciousDevices(metadata)|
    {
      count := |SuspiciousDevices(metadata)|;
    }

    /** `isSafe`: the stored flag of a known device; false for an unknown one. */
    method IsSafe(address: Address) returns (safe: bool)
      ensures address !in metadata ==> !safe
      ensures address in metadata ==> safe == metadata[address].isSafe
    {
      if address in metadata {
        return metadata[address].isSafe;
      }
      return false;
    }

    /**
     * `markSafe`: fails on an unknown device and changes nothing; otherwise
     * sets that device's "safe" flag and nothing else.
     */
    method MarkSafe(address: Address, isSafe: bool) returns (success: bool)
      requires Valid()
      modifies this
      ensures Valid()
      ensures success <==> address in old(metadata)
      ensures metadata == WithSafe(old(metadata), address, isSafe)
      ensures detections == old(detections)
    {
      if address !in metadata {
        return false;
      }
      var record := metadata[address];
      record := record.(isSafe := isSafe);
      metadata := metadata[address := record];
      return true;
    }

    /**
     * `markSuspicious`: fails on an unknown device and changes nothing;
     * otherwise sets that device's "suspicious" flag and nothing else.
     */
    method MarkSuspicious(address: Address, isSuspicious: bool) returns (success: bool)
      requires Valid()
      modifies this
      ensures Valid()
      ensures success <==> address in old(metadata)
      ensures metadata == WithSuspicious(old(metadata), address, isSuspicious)
      ensures detections == old(detections)
    {
      if address !in metadata {
        return false;
      }
      var record := metadata[address];
      record := record.(isSuspicious := isSuspicious);
      metadata := metadata[address := record];
      return true;
    }

    /** `getTrajectory`: the detections of one device, as a trajectory. */
    method GetTrajectory(address: Address) returns (trajectory: Trajectory)
      ensures trajectory.detections == DetectionsFor(detections, address)
      ensures forall d :: d in trajectory.detections ==> d.bluetoothAddress == address
    {
      trajectory := Trajectory(DetectionsFor(detections, address));
    }

    /** `clearAll`: both tables become empty. */
    method ClearAll()
      modifies this
      ensures Valid()
      ensures metadata == map[] && detections == []
    {
      detections := [];
      metadata := map[];
    }
  }
}
