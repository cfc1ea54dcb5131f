/** The GATT path as its doc comment describes it ("returns a merged copy
    of fields from multiple frames"), with the two defects of the code
    removed: a group with no sub-map is treated as having no tracked
    matches, and a primary frame is always stored in both indices, the
    group's sub-map being created when it is missing. */
module IntendedTracking {
  import opened Options
  import opened Beacons
  import opened TrackedBeacons
  import opened TrackedBeaconsProofs

  /** The tracked beacons of group `gk`, empty when it has no sub-map. */
  function GroupOrEmpty(t: Tracker, gk: string): map<Int32, Ref> {
    if gk in t.groups then t.groups[gk] else map[]
  }

  ghost predicate IntendedOrderFits(t: Tracker, r: Ref, order: seq<Int32>)
    requires r in t.heap
  {
    t.heap[r].serviceUuid != UNGROUPED
    ==> IsEnumeration(order, GroupOrEmpty(t, ServiceUuidAndMac(t.heap[r])).Keys)
  }

  /** The group index with a sub-map for `gk`, an empty one created when
      there was none. */
  function OpenGroup(t: Tracker, gk: string): (t': Tracker)
    requires Valid(t)
    ensures Valid(t') && t'.heap == t.heap && t'.beacons == t.beacons
    ensures gk in t'.groups && t'.groups[gk] == GroupOrEmpty(t, gk)
    ensures gk in t.groups ==> t' == t
  {
    if gk in t.groups then t else t.(groups := t.groups[gk := map[]])
  }

  /** The corrected trackGattBeacon for a primary frame: merge over the
      group's tracked beacons (none when it has no sub-map), then store the
      frame under its final hash in both indices. */
  function TrackPrimaryIntended(t: Tracker, r: Ref, hash: HashFn, order: seq<Int32>): (s: Step)
    requires Valid(t) && r in t.heap && t.heap[r].serviceUuid != UNGROUPED
    requires !t.heap[r].isExtraBeaconData
    requires IsEnumeration(order, GroupOrEmpty(t, ServiceUuidAndMac(t.heap[r])).Keys)
    ensures Valid(s.tracker) && s.tracker.heap.Keys == t.heap.Keys
    ensures var gk := ServiceUuidAndMac(t.heap[r]);
      && s.outcome == Merged(r)
      && gk in s.tracker.groups
      && Lookup(s.tracker.beacons, hash(s.tracker.heap[r])) == Some(r)
      && Lookup(s.tracker.groups[gk], hash(s.tracker.heap[r])) == Some(r)
  {
    var gk := ServiceUuidAndMac(t.heap[r]);
    var t0 := OpenGroup(t, gk);
    var merged := Merge(t0, r, gk, order, hash, None).0;
    Step(UpdateTrackingHashes(merged, r, gk, hash), Merged(r))
  }

  /** The corrected trackGattBeacon for a data-only frame: refresh the
      group's tracked beacons, if it has a sub-map; report nothing. */
  function TrackDataOnlyIntended(t: Tracker, r: Ref, hash: HashFn, order: seq<Int32>): (s: Step)
    requires Valid(t) && r in t.heap && t.heap[r].serviceUuid != UNGROUPED
    requires t.heap[r].isExtraBeaconData
    requires IsEnumeration(order, GroupOrEmpty(t, ServiceUuidAndMac(t.heap[r])).Keys)
    ensures Valid(s.tracker) && s.tracker.heap.Keys == t.heap.Keys
    ensures s.outcome == Nothing && s.tracker.beacons == t.beacons && s.tracker.groups == t.groups
  {
    var gk := ServiceUuidAndMac(t.heap[r]);
    if gk !in t.groups then Step(t, Nothing)
    else
      MergeDataOnlyIndices(t, r, gk, order, hash, None);
      Step(Merge(t, r, gk, order, hash, None).0, Nothing)
  }

  /** track with the corrected GATT path (trackGattBeacon dispatching on
      the data-only flag). It never faults; a primary frame
      is reported and left stored under its own hash in mBeacons and in its
      group's sub-map; a data-only frame is never reported and creates no
      index entry. */
  function TrackIntended(t: Tracker, r: Ref, hash: HashFn, order: seq<Int32>): (s: Step)
    requires Valid(t) && r in t.heap && IntendedOrderFits(t, r, order)
    ensures Valid(s.tracker) && s.tracker.heap.Keys == t.heap.Keys
    ensures s.outcome != Fault
    ensures t.heap[r].serviceUuid == UNGROUPED ==> s == Track(t, r, hash, order)
    ensures t.heap[r].serviceUuid != UNGROUPED && !t.heap[r].isExtraBeaconData ==>
      var gk := ServiceUuidAndMac(t.heap[r]);
      && s.outcome == Merged(r)
      && gk in s.tracker.groups
      && Lookup(s.tracker.beacons, hash(s.tracker.heap[r])) == Some(r)
      && Lookup(s.tracker.groups[gk], hash(s.tracker.heap[r])) == Some(r)
    ensures t.heap[r].serviceUuid != UNGROUPED && t.heap[r].isExtraBeaconData ==>
      && s.outcome == Nothing
      && s.tracker.beacons == t.beacons
      && s.tracker.groups == t.groups
  {
    if t.heap[r].serviceUuid == UNGROUPED then Track(t, r, hash, order)
    else if t.heap[r].isExtraBeaconData then TrackDataOnlyIntended(t, r, hash, order)
    else TrackPrimaryIntended(t, r, hash, order)
  }

  /** A primary frame followed by a data-only frame for the same Bluetooth
      address and service UUID: the second call reports nothing, and the
      primary beacon now carries the data-only frame's RSSI and, as its
      extra data fields, the data-only frame's data fields. */
  lemma IntendedPrimaryThenDataOnly(
    t: Tracker, r1: Ref, r2: Ref, hash: HashFn, order1: seq<Int32>, order2: seq<Int32>)
    requires Valid(t) && r1 in t.heap && r2 in t.heap
    requires t.heap[r1].serviceUuid != UNGROUPED && !t.heap[r1].isExtraBeaconData
    requires t.heap[r2].isExtraBeaconData
    requires t.heap[r2].bluetoothAddress == t.heap[r1].bluetoothAddress
    requires t.heap[r2].serviceUuid == t.heap[r1].serviceUuid
    requires IntendedOrderFits(t, r1, order1)
    requires IntendedOrderFits(TrackIntended(t, r1, hash, order1).tracker, r2, order2)
    ensures var s1 := TrackIntended(t, r1, hash, order1);
      var s2 := TrackIntended(s1.tracker, r2, hash, order2);
      && s1.outcome == Merged(r1)
      && s2.outcome == Nothing
      && s2.tracker.heap[r1].rssi == t.heap[r2].rssi
      && s2.tracker.heap[r1].extraDataFields == t.heap[r2].dataFields
  {
    var gk := ServiceUuidAndMac(t.heap[r1]);
    var s1 := TrackIntended(t, r1, hash, order1);
    var t1 := s1.tracker;
    // the first call leaves every object but r1 as it was
    var t0 := OpenGroup(t, gk);
    MergePrimaryHeap(t0, r1, gk, order1, hash, None);
    assert t1.heap == Merge(t0, r1, gk, order1, hash, None).0.heap;
    assert t1.heap[r2] == t.heap[r2];
    assert ServiceUuidAndMac(t1.heap[r2]) == gk;
    // r1 is one of the tracked matches the second call refreshes
    var g := t1.groups[gk];
    var h := hash(t1.heap[r1]);
    assert h in g && g[h] == r1;
    MergeDataOnlyHeap(t1, r2, gk, order2, hash, None);
    MatchesAtEnumeration(g, order2);
    assert r1 in MatchesAt(g, order2);
  }
}
