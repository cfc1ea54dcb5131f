/** Properties of the beacon tracker: what the GATT path does to the tracked
    matches of a data-only frame and of a primary frame, and why, starting
    from a fresh tracker, the GATT path can never succeed. */
module TrackedBeaconsProofs {
  import opened Options
  import opened Beacons
  import opened TrackedBeacons

  /** The beacons stored under the keys `keys` of `group`. */
  ghost function MatchesAt(group: map<Int32, Ref>, keys: seq<Int32>): set<Ref> {
    set i | 0 <= i < |keys| && keys[i] in group :: group[keys[i]]
  }

  lemma MatchesAtEnumeration(group: map<Int32, Ref>, order: seq<Int32>)
    requires IsEnumeration(order, group.Keys)
    ensures MatchesAt(group, order) == group.Values
  {
  }

  /** An iteration order visits as many keys as the map has. */
  lemma {:induction false} EnumerationLength(order: seq<Int32>, keys: set<Int32>)
    requires IsEnumeration(order, keys)
    ensures |order| == |keys|
    decreases |order|
  {
    if order != [] {
      var last := order[|order| - 1];
      var init := order[..|order| - 1];
      assert IsEnumeration(init, keys - {last}) by {
        forall k | k in keys - {last} ensures k in init {
          var i :| 0 <= i < |order| && order[i] == k;
          assert init[i] == k;
        }
      }
      EnumerationLength(init, keys - {last});
    }
  }

  /** The only way to iterate a one-key map. */
  lemma SingletonEnumeration(order: seq<Int32>, k0: Int32)
    requires IsEnumeration(order, {k0})
    ensures order == [k0]
  {
    EnumerationLength(order, {k0});
    assert order[0] in {k0};
  }

  /** One pass of the loop, unfolded. */
  lemma MergeUnfold(t: Tracker, r: Ref, gk: string, keys: seq<Int32>, hash: HashFn, found: Option<Ref>)
    requires Valid(t) && r in t.heap && gk in t.groups
    requires forall i :: 0 <= i < |keys| ==> keys[i] in t.groups[gk]
    requires keys != []
    ensures Merge(t, r, gk, keys, hash, found)
         == Merge(Visit(t, r, gk, t.groups[gk][keys[0]], hash), r, gk, keys[1..], hash,
                  if t.heap[r].isExtraBeaconData then found else Some(r))
  {
  }

  /** A pass for a data-only frame refreshes the match and nothing else. */
  lemma VisitDataOnly(t: Tracker, r: Ref, gk: string, m: Ref, hash: HashFn)
    requires Valid(t) && r in t.heap && m in t.heap && gk in t.groups
    requires t.heap[r].isExtraBeaconData
    ensures Visit(t, r, gk, m, hash) == t.(heap := t.heap[m := Refresh(t.heap[m], t.heap[r])])
  {
  }

  /** A pass for a primary frame changes one heap object: the incoming
      beacon, which takes the match's extra data fields. */
  lemma VisitPrimaryHeap(t: Tracker, r: Ref, gk: string, m: Ref, hash: HashFn)
    requires Valid(t) && r in t.heap && m in t.heap && gk in t.groups
    requires !t.heap[r].isExtraBeaconData
    ensures Visit(t, r, gk, m, hash).heap
         == t.heap[r := t.heap[r].(extraDataFields := t.heap[m].extraDataFields)]
  {
  }

  /** A pass for a primary frame stores the promoted incoming beacon under
      its new hash in mBeacons and in the group's sub-map. */
  lemma VisitPrimaryIndices(t: Tracker, r: Ref, gk: string, m: Ref, hash: HashFn)
    requires Valid(t) && r in t.heap && m in t.heap && gk in t.groups
    requires !t.heap[r].isExtraBeaconData
    ensures var promoted := t.heap[r].(extraDataFields := t.heap[m].extraDataFields);
      var group: map<Int32, Ref> := t.groups[gk][hash(promoted) := r];
      var t1 := Visit(t, r, gk, m, hash);
      && t1.beacons == t.beacons[hash(promoted) := r]
      && t1.groups == t.groups[gk := group]
  {
  }

  /** `after` keeps every key of `before`, and each of its entries holds the
      value it held in `before` or holds `r`. */
  ghost predicate KeptOrPointsAt(before: map<Int32, Ref>, after: map<Int32, Ref>, r: Ref) {
    && before.Keys <= after.Keys
    && forall h :: h in after ==> Lookup(before, h) == Some(after[h]) || after[h] == r
  }

  lemma KeptOrPointsAtTransitive(a: map<Int32, Ref>, b: map<Int32, Ref>, c: map<Int32, Ref>, r: Ref)
    requires KeptOrPointsAt(a, b, r) && KeptOrPointsAt(b, c, r)
    ensures KeptOrPointsAt(a, c, r)
  {
  }

  /** For a data-only frame the loop leaves both indices and the reported
      beacon alone. */
  lemma {:induction false} MergeDataOnlyIndices(
    t: Tracker, r: Ref, gk: string, keys: seq<Int32>, hash: HashFn, found: Option<Ref>)
    requires Valid(t) && r in t.heap && gk in t.groups
    requires forall i :: 0 <= i < |keys| ==> keys[i] in t.groups[gk]
    requires t.heap[r].isExtraBeaconData
    ensures var res := Merge(t, r, gk, keys, hash, found);
      res.0.beacons == t.beacons && res.0.groups == t.groups
    decreases |keys|
  {
    if keys != [] {
      var m := t.groups[gk][keys[0]];
      MergeUnfold(t, r, gk, keys, hash, found);
      VisitDataOnly(t, r, gk, m, hash);
      MergeDataOnlyIndices(Visit(t, r, gk, m, hash), r, gk, keys[1..], hash, found);
    }
  }

  lemma MatchesAtCons(g: map<Int32, Ref>, keys: seq<Int32>)
    requires keys != [] && keys[0] in g
    ensures MatchesAt(g, keys) == {g[keys[0]]} + MatchesAt(g, keys[1..])
  {
  }

  /** For a data-only frame the loop refreshes, from the incoming frame,
      every beacon stored under a visited key, and no other object. */
  lemma {:induction false} MergeDataOnlyHeap(
    t: Tracker, r: Ref, gk: string, keys: seq<Int32>, hash: HashFn, found: Option<Ref>)
    requires Valid(t) && r in t.heap && gk in t.groups
    requires forall i :: 0 <= i < |keys| ==> keys[i] in t.groups[gk]
    requires t.heap[r].isExtraBeaconData
    ensures var res := Merge(t, r, gk, keys, hash, found);
      forall x :: x in t.heap ==>
        res.0.heap[x] == if x in MatchesAt(t.groups[gk], keys) then Refresh(t.heap[x], t.heap[r]) else t.heap[x]
    decreases |keys|
  {
    if keys != [] {
      var g := t.groups[gk];
      var m := g[keys[0]];
      MergeUnfold(t, r, gk, keys, hash, found);
      VisitDataOnly(t, r, gk, m, hash);
      var t1 := Visit(t, r, gk, m, hash);
      assert t1.groups == t.groups;
      assert t1.heap[r].rssi == t.heap[r].rssi && t1.heap[r].dataFields == t.heap[r].dataFields;
      MergeDataOnlyHeap(t1, r, gk, keys[1..], hash, found);
      MatchesAtCons(g, keys);
    }
  }

  /** For a primary frame the loop changes no heap object but the incoming
      beacon, and that one only in its extra data fields. */
  lemma {:induction false} MergePrimaryHeap(
    t: Tracker, r: Ref, gk: string, keys: seq<Int32>, hash: HashFn, found: Option<Ref>)
    requires Valid(t) && r in t.heap && gk in t.groups
    requires forall i :: 0 <= i < |keys| ==> keys[i] in t.groups[gk]
    requires !t.heap[r].isExtraBeaconData
    ensures var res := Merge(t, r, gk, keys, hash, found);
      && (forall x :: x in t.heap && x != r ==> res.0.heap[x] == t.heap[x])
      && res.0.heap[r] == t.heap[r].(extraDataFields := res.0.heap[r].extraDataFields)
    decreases |keys|
  {
    if keys == [] {
      assert Merge(t, r, gk, keys, hash, found) == (t, found);
    } else {
      var m := t.groups[gk][keys[0]];
      var t1 := Visit(t, r, gk, m, hash);
      MergeUnfold(t, r, gk, keys, hash, found);
      VisitPrimaryHeap(t, r, gk, m, hash);
      MergePrimaryHeap(t1, r, gk, keys[1..], hash, Some(r));
      var res := Merge(t1, r, gk, keys[1..], hash, Some(r));
      assert forall x :: x in t.heap && x != r ==> res.0.heap[x] == t1.heap[x] == t.heap[x];
    }
  }

  /** For a primary frame every mBeacons entry after the loop either holds
      what it held before or holds the incoming beacon: nothing is removed
      and nothing else is written. */
  lemma {:induction false} MergePrimaryBeacons(
    t: Tracker, r: Ref, gk: string, keys: seq<Int32>, hash: HashFn, found: Option<Ref>)
    requires Valid(t) && r in t.heap && gk in t.groups
    requires forall i :: 0 <= i < |keys| ==> keys[i] in t.groups[gk]
    requires !t.heap[r].isExtraBeaconData
    ensures KeptOrPointsAt(t.beacons, Merge(t, r, gk, keys, hash, found).0.beacons, r)
    decreases |keys|
  {
    if keys == [] {
      assert Merge(t, r, gk, keys, hash, found) == (t, found);
    } else {
      var m := t.groups[gk][keys[0]];
      var t1 := Visit(t, r, gk, m, hash);
      MergeUnfold(t, r, gk, keys, hash, found);
      VisitPrimaryIndices(t, r, gk, m, hash);
      assert KeptOrPointsAt(t.beacons, t1.beacons, r);
      MergePrimaryBeacons(t1, r, gk, keys[1..], hash, Some(r));
      var res := Merge(t1, r, gk, keys[1..], hash, Some(r));
      KeptOrPointsAtTransitive(t.beacons, t1.beacons, res.0.beacons, r);
    }
  }

  /** The same for the group's sub-map. */
  lemma {:induction false} MergePrimaryGroup(
    t: Tracker, r: Ref, gk: string, keys: seq<Int32>, hash: HashFn, found: Option<Ref>)
    requires Valid(t) && r in t.heap && gk in t.groups
    requires forall i :: 0 <= i < |keys| ==> keys[i] in t.groups[gk]
    requires !t.heap[r].isExtraBeaconData
    ensures KeptOrPointsAt(t.groups[gk], Merge(t, r, gk, keys, hash, found).0.groups[gk], r)
    decreases |keys|
  {
    if keys == [] {
      assert Merge(t, r, gk, keys, hash, found) == (t, found);
    } else {
      var m := t.groups[gk][keys[0]];
      var t1 := Visit(t, r, gk, m, hash);
      MergeUnfold(t, r, gk, keys, hash, found);
      VisitPrimaryIndices(t, r, gk, m, hash);
      assert KeptOrPointsAt(t.groups[gk], t1.groups[gk], r);
      MergePrimaryGroup(t1, r, gk, keys[1..], hash, Some(r));
      var res := Merge(t1, r, gk, keys[1..], hash, Some(r));
      KeptOrPointsAtTransitive(t.groups[gk], t1.groups[gk], res.0.groups[gk], r);
    }
  }

  /** Whatever the frame, the loop writes into no sub-map but group `gk`'s. */
  lemma {:induction false} MergeOtherGroups(
    t: Tracker, r: Ref, gk: string, keys: seq<Int32>, hash: HashFn, found: Option<Ref>)
    requires Valid(t) && r in t.heap && gk in t.groups
    requires forall i :: 0 <= i < |keys| ==> keys[i] in t.groups[gk]
    ensures var res := Merge(t, r, gk, keys, hash, found);
      forall g :: g in t.groups && g != gk ==> res.0.groups[g] == t.groups[g]
    decreases |keys|
  {
    if keys == [] {
      assert Merge(t, r, gk, keys, hash, found) == (t, found);
    } else {
      var m := t.groups[gk][keys[0]];
      var t1 := Visit(t, r, gk, m, hash);
      var found' := if t.heap[r].isExtraBeaconData then found else Some(r);
      MergeUnfold(t, r, gk, keys, hash, found);
      if t.heap[r].isExtraBeaconData {
        VisitDataOnly(t, r, gk, m, hash);
      } else {
        VisitPrimaryIndices(t, r, gk, m, hash);
      }
      MergeOtherGroups(t1, r, gk, keys[1..], hash, found');
    }
  }

  /** For a primary frame, once the loop has made a pass, the incoming
      beacon is stored under its final hash in mBeacons and in the sub-map. */
  lemma {:induction false} MergePrimaryRegisters(
    t: Tracker, r: Ref, gk: string, keys: seq<Int32>, hash: HashFn, found: Option<Ref>)
    requires Valid(t) && r in t.heap && gk in t.groups
    requires forall i :: 0 <= i < |keys| ==> keys[i] in t.groups[gk]
    requires !t.heap[r].isExtraBeaconData && keys != []
    ensures var res := Merge(t, r, gk, keys, hash, found);
      && Lookup(res.0.beacons, hash(res.0.heap[r])) == Some(r)
      && Lookup(res.0.groups[gk], hash(res.0.heap[r])) == Some(r)
    decreases |keys|
  {
    var m := t.groups[gk][keys[0]];
    var t1 := Visit(t, r, gk, m, hash);
    MergeUnfold(t, r, gk, keys, hash, found);
    VisitPrimaryHeap(t, r, gk, m, hash);
    VisitPrimaryIndices(t, r, gk, m, hash);
    if keys[1..] == [] {
      assert Merge(t1, r, gk, keys[1..], hash, Some(r)) == (t1, Some(r));
    } else {
      MergePrimaryRegisters(t1, r, gk, keys[1..], hash, Some(r));
    }
  }

  /** A GATT beacon whose group has a sub-map: track is the loop over it. */
  lemma TrackGattUnfold(t: Tracker, r: Ref, hash: HashFn, order: seq<Int32>)
    requires Valid(t) && r in t.heap && OrderFits(t, r, order)
    requires t.heap[r].serviceUuid != UNGROUPED && ServiceUuidAndMac(t.heap[r]) in t.groups
    ensures var gk := ServiceUuidAndMac(t.heap[r]);
      && (forall i :: 0 <= i < |order| ==> order[i] in t.groups[gk])
      && Track(t, r, hash, order).tracker == Merge(t, r, gk, order, hash, None).0
      && Track(t, r, hash, order).outcome == if t.heap[r].isExtraBeaconData then Nothing else Merged(r)
  {
  }

  /** A data-only GATT frame whose group exists: the call reports nothing,
      neither index changes, and every tracked match takes the frame's RSSI
      and data fields (as its extra data fields); no other object changes. */
  lemma TrackDataOnly(t: Tracker, r: Ref, hash: HashFn, order: seq<Int32>)
    requires Valid(t) && r in t.heap && OrderFits(t, r, order)
    requires t.heap[r].serviceUuid != UNGROUPED && t.heap[r].isExtraBeaconData
    requires ServiceUuidAndMac(t.heap[r]) in t.groups
    ensures var s := Track(t, r, hash, order);
      var b := t.heap[r];
      var g := t.groups[ServiceUuidAndMac(b)];
      && s.outcome == Nothing
      && s.tracker.beacons == t.beacons && s.tracker.groups == t.groups
      && s.tracker.heap.Keys == t.heap.Keys
      && (forall k :: k in g ==>
            s.tracker.heap[g[k]] == t.heap[g[k]].(rssi := b.rssi, extraDataFields := b.dataFields))
      && (forall x :: x in t.heap && x !in g.Values ==> s.tracker.heap[x] == t.heap[x])
  {
    var gk := ServiceUuidAndMac(t.heap[r]);
    TrackGattUnfold(t, r, hash, order);
    MergeDataOnlyIndices(t, r, gk, order, hash, None);
    MergeDataOnlyHeap(t, r, gk, order, hash, None);
    MatchesAtEnumeration(t.groups[gk], order);
  }

  /** A primary GATT frame whose group exists: the call reports the incoming
      beacon, whether or not the group had matches. Only its extra data
      fields change; no index entry is removed or pointed anywhere but at the
      incoming beacon; no other group's sub-map changes; and when the group had a match, the incoming beacon is
      stored under its own hash in mBeacons and in the group's sub-map. */
  lemma TrackPrimary(t: Tracker, r: Ref, hash: HashFn, order: seq<Int32>)
    requires Valid(t) && r in t.heap && OrderFits(t, r, order)
    requires t.heap[r].serviceUuid != UNGROUPED && !t.heap[r].isExtraBeaconData
    requires ServiceUuidAndMac(t.heap[r]) in t.groups
    ensures var s := Track(t, r, hash, order);
      var gk := ServiceUuidAndMac(t.heap[r]);
      var s' := s.tracker;
      && s.outcome == Merged(r)
      && (forall x :: x in t.heap && x != r ==> s'.heap[x] == t.heap[x])
      && s'.heap[r] == t.heap[r].(extraDataFields := s'.heap[r].extraDataFields)
      && KeptOrPointsAt(t.beacons, s'.beacons, r)
      && KeptOrPointsAt(t.groups[gk], s'.groups[gk], r)
      && (forall g :: g in t.groups && g != gk ==> s'.groups[g] == t.groups[g])
      && (|t.groups[gk]| > 0 ==>
            && Lookup(s'.beacons, hash(s'.heap[r])) == Some(r)
            && Lookup(s'.groups[gk], hash(s'.heap[r])) == Some(r))
      && (|t.groups[gk]| == 0 ==> s' == t)
  {
    var gk := ServiceUuidAndMac(t.heap[r]);
    TrackGattUnfold(t, r, hash, order);
    MergePrimaryHeap(t, r, gk, order, hash, None);
    MergePrimaryBeacons(t, r, gk, order, hash, None);
    MergePrimaryGroup(t, r, gk, order, hash, None);
    MergeOtherGroups(t, r, gk, order, hash, None);
    if |t.groups[gk]| > 0 {
      var k :| k in t.groups[gk];
      assert k in order;
      MergePrimaryRegisters(t, r, gk, order, hash, None);
    } else {
      EnumerationLength(order, t.groups[gk].Keys);
    }
  }

  /** A primary frame for a group holding exactly one tracked beacon: the
      frame inherits that beacon's extra data fields and is stored under its
      own hash in both indices; the old entry stays where it was. */
  lemma TrackPrimarySingleMatch(t: Tracker, r: Ref, hash: HashFn, order: seq<Int32>, k0: Int32)
    requires Valid(t) && r in t.heap && OrderFits(t, r, order)
    requires t.heap[r].serviceUuid != UNGROUPED && !t.heap[r].isExtraBeaconData
    requires ServiceUuidAndMac(t.heap[r]) in t.groups
    requires t.groups[ServiceUuidAndMac(t.heap[r])].Keys == {k0}
    ensures var s := Track(t, r, hash, order);
      var gk := ServiceUuidAndMac(t.heap[r]);
      var g := t.groups[gk];
      var merged := t.heap[r].(extraDataFields := t.heap[g[k0]].extraDataFields);
      && s.outcome == Merged(r)
      && s.tracker.heap == t.heap[r := merged]
      && s.tracker.beacons == t.beacons[hash(merged) := r]
      && s.tracker.groups == t.groups[gk := g[hash(merged) := r]]
  {
    var gk := ServiceUuidAndMac(t.heap[r]);
    var g := t.groups[gk];
    SingletonEnumeration(order, k0);
    TrackGattUnfold(t, r, hash, order);
    MergeUnfold(t, r, gk, order, hash, None);
    VisitPrimaryHeap(t, r, gk, g[k0], hash);
    VisitPrimaryIndices(t, r, gk, g[k0], hash);
    var t1 := Visit(t, r, gk, g[k0], hash);
    assert Merge(t1, r, gk, [], hash, Some(r)) == (t1, Some(r));
  }

  /** A sequence of `track` calls on a tracker whose group index is empty,
      returning the final tracker and each call's outcome. The group index
      stays empty and the heap is never written. */
  function Run(t: Tracker, rs: seq<Ref>, hash: HashFn): (res: (Tracker, seq<Outcome>))
    requires Valid(t) && t.groups == map[]
    requires forall i :: 0 <= i < |rs| ==> rs[i] in t.heap
    ensures Valid(res.0) && res.0.groups == map[] && res.0.heap == t.heap
    ensures |res.1| == |rs|
    decreases |rs|
  {
    if rs == [] then (t, [])
    else
      var s := Track(t, rs[0], hash, []);
      var rest := Run(s.tracker, rs[1..], hash);
      (rest.0, [s.outcome] + rest.1)
  }

  /** The outcome a call on beacon `b` has when no group has a sub-map:
      a fault exactly for a GATT beacon, a previous entry (or none) for any
      other. */
  predicate NoGroupOutcome(b: Beacon, o: Outcome) {
    && (o == Fault <==> b.serviceUuid != UNGROUPED)
    && (b.serviceUuid == UNGROUPED ==> o.Prev?)
  }

  /** In such a sequence every GATT call faults and every other call takes
      the ungrouped path, returning the previous entry or none. */
  lemma {:induction false} RunOutcomes(t: Tracker, rs: seq<Ref>, hash: HashFn)
    requires Valid(t) && t.groups == map[]
    requires forall i :: 0 <= i < |rs| ==> rs[i] in t.heap
    ensures var outs := Run(t, rs, hash).1;
      forall i :: 0 <= i < |rs| ==> NoGroupOutcome(t.heap[rs[i]], outs[i])
    decreases |rs|
  {
    if rs != [] {
      var s := Track(t, rs[0], hash, []);
      assert s.tracker.heap == t.heap;
      assert NoGroupOutcome(t.heap[rs[0]], s.outcome);
      RunOutcomes(s.tracker, rs[1..], hash);
      var outs := Run(t, rs, hash).1;
      var rest := Run(s.tracker, rs[1..], hash).1;
      assert outs == [s.outcome] + rest;
      forall i | 1 <= i < |rs| ensures NoGroupOutcome(t.heap[rs[i]], outs[i]) {
        assert rs[i] == rs[1..][i - 1] && outs[i] == rest[i - 1];
      }
    }
  }

  /** Two ungrouped beacons that differ only in state the tracker never
      touches can hash apart: then each takes its own mBeacons slot and both
      calls return no previous entry. */
  lemma UngroupedBeaconsHashApart(b: Beacon)
    requires b.serviceUuid == UNGROUPED
    ensures var b' := b.(identifiers := b.identifiers + [0]);
      var hash: HashFn := (x: Beacon) => if x.identifiers == b.identifiers then 0 else 1;
      Run(Empty(map[0 := b, 1 := b']), [0, 1], hash).1 == [Prev(None), Prev(None)]
  {
  }

  /** On a fresh tracker, a primary GATT frame followed by a data-only frame
      for the same address and service UUID: both calls fault, and the
      primary beacon never receives the data-only frame's fields. */
  lemma PrimaryThenDataOnlyFaults(heap: map<Ref, Beacon>, r1: Ref, r2: Ref, hash: HashFn)
    requires r1 in heap && r2 in heap
    requires heap[r1].serviceUuid != UNGROUPED && !heap[r1].isExtraBeaconData
    requires heap[r2].isExtraBeaconData
    requires heap[r2].bluetoothAddress == heap[r1].bluetoothAddress
    requires heap[r2].serviceUuid == heap[r1].serviceUuid
    ensures var res := Run(Empty(heap), [r1, r2], hash);
      && res.1 == [Fault, Fault]
      && res.0.heap[r1] == heap[r1]
  {
  }
}
