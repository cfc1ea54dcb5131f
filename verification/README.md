# Beacon tracker model

A Dafny model of `TrackedBeacons`, the part of the Android beacon library
that remembers every beacon it has seen and merges the frames of GATT-based
beacons (beacons that advertise under a service UUID and may split their
data across several frames). It also has proofs of what a `track` call does.

The tracker is modelled as an immutable value `Tracker` holding three
things:

- `heap`, the beacon objects, keyed by reference (`Ref`).
- `beacons`, which is `mBeacons`: a map from hash code to reference.
- `groups`, which is `mBeaconsByServiceUuidAndMac`: a map from the text key
  "Bluetooth address followed by service UUID" to a map from hash code to
  reference.

Both indices store references, so a beacon updated through one index is
updated as seen through the other, as in the Java code.

`track` is the pure transition `Track(t, r, hash, order)`, which returns the
new tracker and an `Outcome`:

- `Prev(previous)` is what the ungrouped path returns: the earlier `mBeacons`
  entry under the beacon's hash, or none.
- `Merged(r)` and `Nothing` are the GATT path's non-null and null returns.
- `Fault` is the `NullPointerException` the GATT path raises when the group
  has no sub-map. The tracker is left unchanged, because the exception comes
  before any write.

Two things the Java code takes from outside become parameters:

- `hash` is `Beacon.hashCode()`, an arbitrary function of the beacon's
  current state. The `Beacon` record carries an `identifiers` field for the
  part of that state the tracker never reads or writes, so two beacon
  objects can hash apart even when every field the tracker uses is equal
  (`UngroupedBeaconsHashApart`).
- `order` is the order in which the `HashMap` being iterated yields its keys.
  It is required to list each key of that sub-map exactly once.

Each loop pass reads the value stored under its key at that moment. So if
an earlier pass put the incoming beacon under a key that has not yet been
visited, a later pass visits the incoming beacon itself.

The main results:

- The ungrouped path behaves as a map put that returns the old value.
- No call ever adds a group key. So on a tracker that starts empty, every
  GATT call faults (`Run`, `RunOutcomes`).
- When its group has a sub-map, a data-only frame refreshes every tracked
  match and reports nothing. When it has none, the call faults.
- When its group has a sub-map, a primary frame is reported. When that
  sub-map held a match, the frame is stored under its final hash in both
  indices, and no entry is removed. When the sub-map was empty, nothing
  changes. When the group has no sub-map, the call faults.
- A primary frame whose group holds one tracked beacon inherits that
  beacon's extra data fields.

The group key has a partner parser. Printing the service UUID and reading it
back gives the UUID (`IntDecimalRoundTrip`), so for equal-length addresses
the key identifies the address and the UUID (`GroupKeyInjective`).

Files:

- `options.dfy`: `Option` and `Lookup`.
- `decimal_text.dfy`: Java's decimal printing of an `int` and its inverse.
- `beacons.dfy`: the beacon record and the group key.
- `tracked_beacons.dfy`: the tracker and `track`.
- `tracked_beacons_proofs.dfy`: properties of the GATT path and of call
  sequences.
- `intended_tracking.dfy`: the corrected GATT path described under Findings.

The class comment says the tracker merges the frames of GATT beacons
(TrackedBeacons.java lines 9-13), and the comment on `track` says it returns
a merged copy of fields from multiple frames (lines 20-22). The code cannot
do this. It looks the group up and dereferences the result without a null
check, and it never adds a group key; it writes only into a sub-map that
already exists. The model follows the code: `Track` faults when the group
has no sub-map. The merge the comments describe is modelled separately, as
the corrected path under Findings.

## Model

| member | source | states |
|---|---|---|
| DecimalText.IntToDecimalCanonical | src/main/java/org/altbeacon/beacon/service/TrackedBeacons.java:69 | the service UUID is printed as Java prints an int: a minus sign exactly for negatives, then at least one decimal digit, with no leading zero |
| DecimalText.IntDecimalRoundTrip | src/main/java/org/altbeacon/beacon/service/TrackedBeacons.java:69 | the service UUID printed as Java prints an int, when parsed back, gives that UUID |
| DecimalText.IntToDecimalInjective | src/main/java/org/altbeacon/beacon/service/TrackedBeacons.java:69 | two service UUIDs print the same text exactly when they are equal |
| Beacons.ServiceUuidAndMac | src/main/java/org/altbeacon/beacon/service/TrackedBeacons.java:68-70 | the group key starts with the Bluetooth address, and the rest of the key parses back to the service UUID |
| Beacons.GroupKeyInjective | src/main/java/org/altbeacon/beacon/service/TrackedBeacons.java:68-70 | for addresses of one length, two beacons share a group key if and only if they share address and service UUID |
| Beacons.GroupKeyAmbiguousAcrossAddressLengths | src/main/java/org/altbeacon/beacon/service/TrackedBeacons.java:69 | the key has no separator, so address "A1" with UUID 2 and address "A" with UUID 12 give the same key |
| TrackedBeacons.UpdateTrackingHashes | src/main/java/org/altbeacon/beacon/service/TrackedBeacons.java:63-66 | afterwards both mBeacons and the group's sub-map hold the beacon under its current hash; the heap and the set of group keys are untouched, and every reference stays valid |
| TrackedBeacons.UpdateTrackingHashesFrame | src/main/java/org/altbeacon/beacon/service/TrackedBeacons.java:63-66 | every other hash of mBeacons and of the sub-map looks up as before, and every other group's sub-map is untouched |
| TrackedBeacons.Visit | src/main/java/org/altbeacon/beacon/service/TrackedBeacons.java:46-55 | one loop pass keeps every object in the heap and adds no group key; the sub-map and mBeacons only gain keys; both index invariants are kept |
| TrackedBeacons.Merge | src/main/java/org/altbeacon/beacon/service/TrackedBeacons.java:45-56 | over any key order the loop keeps the invariants and adds no group key; for a data-only frame it reports nothing; for a primary frame it reports the incoming beacon as soon as there was a match |
| TrackedBeacons.TrackGattBeacon | src/main/java/org/altbeacon/beacon/service/TrackedBeacons.java:40-61 | the GATT path faults, leaving the tracker unchanged, exactly when the group has no sub-map; otherwise it reports the incoming beacon or nothing, and never a different beacon |
| TrackedBeacons.Track | src/main/java/org/altbeacon/beacon/service/TrackedBeacons.java:27-36 | an ungrouped beacon returns the old mBeacons entry under its hash (none if absent); afterwards that hash maps to the beacon, every other hash and the group index are as before; a GATT beacon faults exactly when its group has no sub-map; no call adds a group key |
| TrackedBeaconsProofs.MergeDataOnlyIndices | src/main/java/org/altbeacon/beacon/service/TrackedBeacons.java:46-49 | for a data-only frame the loop changes neither index and reports nothing |
| TrackedBeaconsProofs.MergeDataOnlyHeap | src/main/java/org/altbeacon/beacon/service/TrackedBeacons.java:45-49 | for a data-only frame, each beacon stored under a visited key takes the frame's RSSI and data fields, and no other object changes |
| TrackedBeaconsProofs.MergePrimaryHeap | src/main/java/org/altbeacon/beacon/service/TrackedBeacons.java:50-55 | for a primary frame no object other than the incoming beacon changes, and the incoming beacon changes only in its extra data fields |
| TrackedBeaconsProofs.MergePrimaryBeacons | src/main/java/org/altbeacon/beacon/service/TrackedBeacons.java:53-64 | for a primary frame mBeacons keeps every key, and each entry holds its old value or the incoming beacon |
| TrackedBeaconsProofs.MergePrimaryGroup | src/main/java/org/altbeacon/beacon/service/TrackedBeacons.java:53-65 | for a primary frame the sub-map keeps every key, and each entry holds its old value or the incoming beacon |
| TrackedBeaconsProofs.MergeOtherGroups | src/main/java/org/altbeacon/beacon/service/TrackedBeacons.java:45-66 | for either kind of frame the loop leaves every other group's sub-map unchanged |
| TrackedBeaconsProofs.MergePrimaryRegisters | src/main/java/org/altbeacon/beacon/service/TrackedBeacons.java:53-66 | after at least one pass the incoming beacon is stored under its final hash in mBeacons and in the sub-map |
| TrackedBeaconsProofs.TrackDataOnly | src/main/java/org/altbeacon/beacon/service/TrackedBeacons.java:44-60 | a data-only GATT frame with an existing group returns null; neither index changes; every tracked match takes the frame's RSSI, and its data fields as extra data fields; every object outside the group is unchanged |
| TrackedBeaconsProofs.TrackPrimary | src/main/java/org/altbeacon/beacon/service/TrackedBeacons.java:44-66 | a primary GATT frame with an existing group is returned whether or not the group had matches; only its own extra data fields change; no index entry is removed or pointed anywhere but at it; no other group's sub-map changes; with a match it is stored under its own hash in both indices, with none nothing changes |
| TrackedBeaconsProofs.TrackPrimarySingleMatch | src/main/java/org/altbeacon/beacon/service/TrackedBeacons.java:50-56 | with a single tracked match, the frame takes that match's extra data fields and is added under its own hash to both indices; the old entry is kept |
| TrackedBeaconsProofs.Run | src/main/java/org/altbeacon/beacon/service/TrackedBeacons.java:16-45 | over any sequence of calls from an empty group index, the group index stays empty, the heap is never written, and there is one outcome per call |
| TrackedBeaconsProofs.RunOutcomes | src/main/java/org/altbeacon/beacon/service/TrackedBeacons.java:27-45 | in such a sequence a call faults exactly when its beacon is GATT-based, and every other call returns a previous entry (or none) |
| TrackedBeaconsProofs.UngroupedBeaconsHashApart | src/main/java/org/altbeacon/beacon/service/TrackedBeacons.java:29-30 | two ungrouped beacons that differ only in state the tracker never touches may hash apart; then each put takes its own slot and both calls return no previous entry |
| TrackedBeaconsProofs.PrimaryThenDataOnlyFaults | src/main/java/org/altbeacon/beacon/service/TrackedBeacons.java:44-45 | on a new tracker, a primary frame and then a data-only frame for the same address and UUID both fault, and the primary beacon is never updated |
| IntendedTracking.TrackPrimaryIntended | src/main/java/org/altbeacon/beacon/service/TrackedBeacons.java:44-58 | corrected path: a primary frame is reported and stored under its final hash in mBeacons and in its group's sub-map, even when the group was missing |
| IntendedTracking.TrackDataOnlyIntended | src/main/java/org/altbeacon/beacon/service/TrackedBeacons.java:44-49 | corrected path: a data-only frame is never reported and changes neither index, even when its group is missing |
| IntendedTracking.TrackIntended | src/main/java/org/altbeacon/beacon/service/TrackedBeacons.java:27-61 | corrected track never faults; it behaves like track on ungrouped beacons; a primary frame ends up stored in both indices; a data-only frame adds no index entry |
| IntendedTracking.IntendedPrimaryThenDataOnly | src/main/java/org/altbeacon/beacon/service/TrackedBeacons.java:20-22 | under the corrected path, a primary frame then a data-only frame for the same address and UUID: the second call returns null, and the primary beacon carries the data-only frame's RSSI and data fields |

## Left out

- Threading: `track` is `synchronized`, so each call is modelled as one atomic transition.
- `ConcurrentModificationException`: putting a new key into the sub-map while iterating it, with keys still to visit, makes Java's iterator throw. The model instead carries on over the keys the sub-map had when the loop began.
- `HashMap` iteration order is the `order` parameter, not a modelled hash table.
- The `Beacon` class is not part of this model. Its hash code is the `hash` parameter, the state the tracker does not use is the single `identifiers` field, and field parsing happens upstream.
- A `null` beacon or a `null` Bluetooth address is not modelled. References in the heap are always to live objects.
- Eviction and persistence do not exist in the source.
- Replaying the same calls on a fresh tracker gives the same results. Every operation here is a function, so this holds by construction; no separate lemma states it.
- TrackedBeacons.Track: the invariant "every beacon in a sub-map is the mBeacons entry under the same hash" is not proved, because it does not hold: an ungrouped beacon with a colliding hash replaces the mBeacons entry. Only the weaker form is proved: every hash in a sub-map is a key of mBeacons (`GroupsIndexed`).
- TrackedBeaconsProofs.TrackPrimary: with several matches it does not say whose extra data fields the frame ends up with, because that depends on `HashMap` order. `TrackPrimarySingleMatch` states it for one match.

## Findings

| source | as written | input that shows it | evidently intended | confidence | as-written member | corrected member |
|---|---|---|---|---|---|---|
| src/main/java/org/altbeacon/beacon/service/TrackedBeacons.java:44-45 | `get` returns null for a group key that is not in the group index, and the `for` loop dereferences it. No code ever adds a group key, so every GATT beacon faults and frames are never merged | a beacon with service UUID other than -1, passed to a new tracker | a missing group counts as no matches; a primary frame is stored in both indices, creating its sub-map, so that a later data-only frame merges into it | high; not executed | TrackedBeaconsProofs.PrimaryThenDataOnlyFaults | IntendedTracking.IntendedPrimaryThenDataOnly |
