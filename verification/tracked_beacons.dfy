/** The beacon tracker: every beacon ever seen, indexed by hash, plus a
    lookup of GATT beacons by address and service UUID. Both indices hold
    references into one heap of beacon objects, so a write through one index
    is visible through the other. */
module TrackedBeacons {
  import opened Options
  import opened Beacons

  /** A reference to a beacon object. */
  type Ref = nat

  /** `heap` holds the objects; `beacons` is mBeacons (hash to beacon) and
      `groups` is mBeaconsByServiceUuidAndMac (group key to hash to beacon). */
  datatype Tracker = Tracker(
    heap: map<Ref, Beacon>,
    beacons: map<Int32, Ref>,
    groups: map<string, map<Int32, Ref>>)

  /** What one `track` call yields. `Prev` is the value the ungrouped path
      returns (the previous occupant of the slot, or none); `Merged` and
      `Nothing` are the GATT path's non-null and null returns; `Fault` is the
      NullPointerException the GATT path raises for a group it has no
      sub-map for. */
  datatype Outcome = Prev(previous: Option<Ref>) | Merged(merged: Ref) | Nothing | Fault

  datatype Step = Step(tracker: Tracker, outcome: Outcome)

  /** A freshly constructed tracker: both indices empty. */
  function Empty(heap: map<Ref, Beacon>): Tracker {
    Tracker(heap, map[], map[])
  }

  /** Every reference held by an index names an object in the heap. */
  ghost predicate Valid(t: Tracker) {
    && t.beacons.Values <= t.heap.Keys
    && (forall g :: g in t.groups ==> t.groups[g].Values <= t.heap.Keys)
  }

  /** Every hash in a group sub-map is also a key of mBeacons. */
  ghost predicate GroupsIndexed(t: Tracker) {
    forall g :: g in t.groups ==> t.groups[g].Keys <= t.beacons.Keys
  }

  /** `order` lists each key of a map exactly once: the order in which a
      Java HashMap happens to iterate it. */
  ghost predicate IsEnumeration(order: seq<Int32>, keys: set<Int32>) {
    && (forall i, j :: 0 <= i < j < |order| ==> order[i] != order[j])
    && (forall i :: 0 <= i < |order| ==> order[i] in keys)
    && (forall k :: k in keys ==> k in order)
  }

  /** The iteration order supplied to `Track` enumerates the sub-map the
      GATT path will iterate, when there is one. */
  ghost predicate OrderFits(t: Tracker, r: Ref, order: seq<Int32>)
    requires r in t.heap
  {
    var b := t.heap[r];
    (b.serviceUuid != UNGROUPED && ServiceUuidAndMac(b) in t.groups)
    ==> IsEnumeration(order, t.groups[ServiceUuidAndMac(b)].Keys)
  }

  /** A data-only frame `src` refreshes a tracked beacon: its RSSI and its
      data fields become the tracked beacon's RSSI and extra data fields. */
  function Refresh(tracked: Beacon, src: Beacon): Beacon {
    tracked.(rssi := src.rssi, extraDataFields := src.dataFields)
  }

  /** What one loop pass of the GATT path may do to the tracker: the heap
      keeps its objects and the incoming beacon `r` stays data-only or not;
      no group key is added; sub-map `gk` and mBeacons only gain keys; and
      the two index invariants are kept. */
  ghost predicate Evolves(t: Tracker, t': Tracker, r: Ref, gk: string)
    requires r in t.heap && gk in t.groups
  {
    && t'.heap.Keys == t.heap.Keys
    && t'.groups.Keys == t.groups.Keys
    && t.groups[gk].Keys <= t'.groups[gk].Keys
    && t.beacons.Keys <= t'.beacons.Keys
    && t'.heap[r].isExtraBeaconData == t.heap[r].isExtraBeaconData
    && (Valid(t) ==> Valid(t'))
    && (GroupsIndexed(t) ==> GroupsIndexed(t'))
  }

  lemma EvolvesTransitive(t0: Tracker, t1: Tracker, t2: Tracker, r: Ref, gk: string)
    requires r in t0.heap && gk in t0.groups
    requires Evolves(t0, t1, r, gk)
    requires Evolves(t1, t2, r, gk)
    ensures Evolves(t0, t2, r, gk)
  {
  }

  /** updateTrackingHashes: store `r` under its current hash in mBeacons and
      in the existing sub-map `gk`. Nothing is removed. */
  function UpdateTrackingHashes(t: Tracker, r: Ref, gk: string, hash: HashFn): (t': Tracker)
    requires r in t.heap && gk in t.groups
    ensures t'.heap == t.heap && t'.groups.Keys == t.groups.Keys
    ensures Valid(t) ==> Valid(t')
    ensures Lookup(t'.beacons, hash(t.heap[r])) == Some(r)
    ensures Lookup(t'.groups[gk], hash(t.heap[r])) == Some(r)
  {
    var h := hash(t.heap[r]);
    var group: map<Int32, Ref> := t.groups[gk][h := r];
    t.(beacons := t.beacons[h := r], groups := t.groups[gk := group])
  }

  /** updateTrackingHashes writes nothing else: every other hash of
      mBeacons and of sub-map `gk` keeps its entry (or its absence), and
      every other sub-map is untouched. */
  lemma UpdateTrackingHashesFrame(t: Tracker, r: Ref, gk: string, hash: HashFn)
    requires r in t.heap && gk in t.groups
    ensures var t' := UpdateTrackingHashes(t, r, gk, hash);
      && (forall h :: h != hash(t.heap[r]) ==> Lookup(t'.beacons, h) == Lookup(t.beacons, h))
      && (forall h :: h != hash(t.heap[r]) ==> Lookup(t'.groups[gk], h) == Lookup(t.groups[gk], h))
      && (forall g :: g in t.groups && g != gk ==> t'.groups[g] == t.groups[g])
  {
  }

  /** One pass of the loop body of trackGattBeacon, for incoming beacon `r`
      and tracked match `m` of group `gk`. */
  function Visit(t: Tracker, r: Ref, gk: string, m: Ref, hash: HashFn): (t': Tracker)
    requires Valid(t) && r in t.heap && m in t.heap && gk in t.groups
    ensures Evolves(t, t', r, gk)
  {
    var b := t.heap[r];
    if b.isExtraBeaconData then
      t.(heap := t.heap[m := Refresh(t.heap[m], b)])
    else
      var promoted := b.(extraDataFields := t.heap[m].extraDataFields);
      UpdateTrackingHashes(t.(heap := t.heap[r := promoted]), r, gk, hash)
  }

  /** The loop of trackGattBeacon over the keys of sub-map `gk`, visited in
      `keys` order. Each pass reads the value currently stored under its key,
      so a beacon put under a key not yet visited is the one visited there.
      `found` is the beacon to report so far. */
  function Merge(t: Tracker, r: Ref, gk: string, keys: seq<Int32>, hash: HashFn, found: Option<Ref>)
    : (res: (Tracker, Option<Ref>))
    requires Valid(t) && r in t.heap && gk in t.groups
    requires forall i :: 0 <= i < |keys| ==> keys[i] in t.groups[gk]
    ensures Evolves(t, res.0, r, gk)
    ensures t.heap[r].isExtraBeaconData ==> res.1 == found
    ensures !t.heap[r].isExtraBeaconData ==> res.1 == if keys == [] then found else Some(r)
    decreases |keys|
  {
    if keys == [] then (t, found)
    else
      var t1 := Visit(t, r, gk, t.groups[gk][keys[0]], hash);
      var res := Merge(t1, r, gk, keys[1..], hash, if t.heap[r].isExtraBeaconData then found else Some(r));
      EvolvesTransitive(t, t1, res.0, r, gk);
      res
  }

  /** trackGattBeacon: fault when the group has no sub-map; otherwise merge
      over the sub-map, and report the incoming beacon itself when it carries
      a primary payload. */
  function TrackGattBeacon(t: Tracker, r: Ref, hash: HashFn, order: seq<Int32>): (s: Step)
    requires Valid(t) && r in t.heap && OrderFits(t, r, order)
    requires t.heap[r].serviceUuid != UNGROUPED
    ensures Valid(s.tracker) && s.tracker.heap.Keys == t.heap.Keys
    ensures s.tracker.groups.Keys == t.groups.Keys
    ensures GroupsIndexed(t) ==> GroupsIndexed(s.tracker)
    ensures s.outcome == Fault <==> ServiceUuidAndMac(t.heap[r]) !in t.groups
    ensures s.outcome == Fault ==> s.tracker == t
    ensures s.outcome in {Fault, Nothing, Merged(r)}
  {
    var gk := ServiceUuidAndMac(t.heap[r]);
    if gk !in t.groups then Step(t, Fault)
    else
      var res := Merge(t, r, gk, order, hash, None);
      var reported := if res.1.None? && !t.heap[r].isExtraBeaconData then Some(r) else res.1;
      Step(res.0, if reported.Some? then Merged(reported.value) else Nothing)
  }

  /** track: an ungrouped beacon replaces the mBeacons entry under its hash
      and the previous entry is returned; a GATT beacon goes through
      TrackGattBeacon. */
  function Track(t: Tracker, r: Ref, hash: HashFn, order: seq<Int32>): (s: Step)
    requires Valid(t) && r in t.heap && OrderFits(t, r, order)
    ensures Valid(s.tracker) && s.tracker.heap.Keys == t.heap.Keys
    ensures s.tracker.groups.Keys == t.groups.Keys
    ensures GroupsIndexed(t) ==> GroupsIndexed(s.tracker)
    ensures t.heap[r].serviceUuid == UNGROUPED ==>
      && s.outcome == Prev(Lookup(t.beacons, hash(t.heap[r])))
      && Lookup(s.tracker.beacons, hash(t.heap[r])) == Some(r)
      && (forall h :: h != hash(t.heap[r]) ==> Lookup(s.tracker.beacons, h) == Lookup(t.beacons, h))
      && s.tracker.heap == t.heap && s.tracker.groups == t.groups
    ensures t.heap[r].serviceUuid != UNGROUPED ==>
      (s.outcome == Fault <==> ServiceUuidAndMac(t.heap[r]) !in t.groups)
    ensures s.outcome == Fault ==> s.tracker == t
  {
    var b := t.heap[r];
    if b.serviceUuid == UNGROUPED then
      Step(t.(beacons := t.beacons[hash(b) := r]), Prev(Lookup(t.beacons, hash(b))))
    else
      TrackGattBeacon(t, r, hash, order)
  }
}
