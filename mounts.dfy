/** The grouping of autofs map entries by mount point in `write_state`
    (infod_client/src/main.rs): a `BTreeMap<&str, Vec<Mount>>`, kept here as a
    sequence of groups in ascending key order. */
module Mounts {
  import opened Text
  import opened Records

  /** One entry of the map: a mount point and its entries, in arrival order. */
  datatype MountGroup = MountGroup(mountpoint: string, mounts: seq<Mount>)

  /** The keys of a `BTreeMap` are strictly ascending. */
  predicate Ascending(groups: seq<MountGroup>) {
    forall i, j :: 0 <= i < j < |groups| ==> StrLess(groups[i].mountpoint, groups[j].mountpoint)
  }

  function Keys(groups: seq<MountGroup>): set<string> {
    set i | 0 <= i < |groups| :: groups[i].mountpoint
  }

  /** The entries stored under `key`, none if it is absent. */
  function Lookup(groups: seq<MountGroup>, key: string): seq<Mount> {
    if groups == [] then []
    else if groups[0].mountpoint == key then groups[0].mounts
    else Lookup(groups[1..], key)
  }

  /** The entries of `mounts` whose mount point is `key`, in order: what the
      group of `key` should hold. */
  function MountsAt(mounts: seq<Mount>, key: string): (r: seq<Mount>)
    ensures forall m :: m in r ==> m in mounts && m.mountpoint == key
    ensures |r| <= |mounts|
  {
    if mounts == [] then []
    else
      var last := mounts[|mounts| - 1];
      MountsAt(mounts[..|mounts| - 1], key) + (if last.mountpoint == key then [last] else [])
  }

  /** `entry(mountpoint).or_insert_with(Vec::new).push(mount)` */
  function Enter(groups: seq<MountGroup>, m: Mount): (r: seq<MountGroup>)
    ensures |groups| <= |r| <= |groups| + 1
  {
    if groups == [] then [MountGroup(m.mountpoint, [m])]
    else if groups[0].mountpoint == m.mountpoint then
      [groups[0].(mounts := groups[0].mounts + [m])] + groups[1..]
    else if StrLess(m.mountpoint, groups[0].mountpoint) then
      [MountGroup(m.mountpoint, [m])] + groups
    else [groups[0]] + Enter(groups[1..], m)
  }

  /** The map after entering every mount of the state, first to last. */
  function GroupByMountpoint(mounts: seq<Mount>): seq<MountGroup> {
    if mounts == [] then []
    else Enter(GroupByMountpoint(mounts[..|mounts| - 1]), mounts[|mounts| - 1])
  }

  /** The loop of `write_state` that fills the map. */
  method GroupMounts(mounts: seq<Mount>) returns (groups: seq<MountGroup>)
    ensures groups == GroupByMountpoint(mounts)
  {
    groups := [];
    var i := 0;
    while i < |mounts|
      invariant i <= |mounts|
      invariant groups == GroupByMountpoint(mounts[..i])
    {
      assert mounts[..i + 1][..i] == mounts[..i];
      groups := Enter(groups, mounts[i]);
      i := i + 1;
    }
    assert mounts[..|mounts|] == mounts;
  }

  // ---------------------------------------------------------------------------
  // Properties

  lemma {:induction false} KeysCons(g: MountGroup, groups: seq<MountGroup>)
    ensures Keys([g] + groups) == {g.mountpoint} + Keys(groups)
  {
    var all := [g] + groups;
    forall k | k in Keys(groups) ensures k in Keys(all) {
      var i :| 0 <= i < |groups| && groups[i].mountpoint == k;
      assert all[i + 1].mountpoint == k;
    }
    assert all[0].mountpoint == g.mountpoint;
    forall k | k in Keys(all) ensures k in {g.mountpoint} + Keys(groups) {
      var i :| 0 <= i < |all| && all[i].mountpoint == k;
      if i > 0 {
        assert groups[i - 1].mountpoint == k;
      }
    }
  }

  lemma {:induction false} EnterKeys(groups: seq<MountGroup>, m: Mount)
    ensures Keys(Enter(groups, m)) == Keys(groups) + {m.mountpoint}
  {
    if groups == [] {
      KeysCons(MountGroup(m.mountpoint, [m]), []);
    } else {
      var head := groups[0];
      var tail := groups[1..];
      assert groups == [head] + tail;
      KeysCons(head, tail);
      if head.mountpoint == m.mountpoint {
        KeysCons(head.(mounts := head.mounts + [m]), tail);
      } else if StrLess(m.mountpoint, head.mountpoint) {
        KeysCons(MountGroup(m.mountpoint, [m]), groups);
      } else {
        EnterKeys(tail, m);
        KeysCons(head, Enter(tail, m));
      }
    }
  }

  lemma {:induction false} AscendingTail(groups: seq<MountGroup>, k: string)
    requires Ascending(groups) && groups != []
    requires k in Keys(groups[1..])
    ensures StrLess(groups[0].mountpoint, k)
  {
    var i :| 0 <= i < |groups[1..]| && groups[1..][i].mountpoint == k;
    assert groups[i + 1].mountpoint == k;
  }

  /** Entering keeps the keys ascending. */
  lemma {:induction false} EnterAscending(groups: seq<MountGroup>, m: Mount)
    requires Ascending(groups)
    ensures Ascending(Enter(groups, m))
  {
    var r := Enter(groups, m);
    if groups == [] {
    } else if groups[0].mountpoint == m.mountpoint {
      assert forall i :: 0 <= i < |r| ==> r[i].mountpoint == groups[i].mountpoint;
    } else if StrLess(m.mountpoint, groups[0].mountpoint) {
      forall i, j | 0 <= i < j < |r| ensures StrLess(r[i].mountpoint, r[j].mountpoint) {
        if i == 0 && j > 1 {
          StrLessTransitive(m.mountpoint, groups[0].mountpoint, groups[j - 1].mountpoint);
        }
      }
    } else {
      StrLessTotal(m.mountpoint, groups[0].mountpoint);
      var tail := Enter(groups[1..], m);
      EnterAscending(groups[1..], m);
      EnterKeys(groups[1..], m);
      forall i, j | 0 <= i < j < |r| ensures StrLess(r[i].mountpoint, r[j].mountpoint) {
        if i == 0 {
          var k := tail[j - 1].mountpoint;
          assert k in Keys(tail);
          if k != m.mountpoint {
            AscendingTail(groups, k);
          }
        } else {
          assert r[i] == tail[i - 1] && r[j] == tail[j - 1];
        }
      }
    }
  }

  lemma {:induction false} LookupAbsent(groups: seq<MountGroup>, key: string)
    requires key !in Keys(groups)
    ensures Lookup(groups, key) == []
  {
    if groups != [] {
      assert groups[0].mountpoint != key;
      assert Keys(groups[1..]) <= Keys(groups) by {
        forall k | k in Keys(groups[1..]) ensures k in Keys(groups) {
          var i :| 0 <= i < |groups[1..]| && groups[1..][i].mountpoint == k;
          assert groups[i + 1].mountpoint == k;
        }
      }
      LookupAbsent(groups[1..], key);
    }
  }

  /** Entering a mount adds it at the end of its own group and nowhere else. */
  lemma {:induction false} EnterLookup(groups: seq<MountGroup>, m: Mount, key: string)
    requires Ascending(groups)
    ensures Lookup(Enter(groups, m), key)
            == Lookup(groups, key) + (if key == m.mountpoint then [m] else [])
  {
    if groups == [] {
    } else if groups[0].mountpoint == m.mountpoint {
    } else if StrLess(m.mountpoint, groups[0].mountpoint) {
      if key == m.mountpoint {
        assert m.mountpoint !in Keys(groups) by {
          forall i | 0 <= i < |groups| ensures groups[i].mountpoint != m.mountpoint {
            if i > 0 {
              StrLessTransitive(m.mountpoint, groups[0].mountpoint, groups[i].mountpoint);
            }
            StrLessIrreflexive(m.mountpoint);
          }
        }
        LookupAbsent(groups, key);
      }
    } else {
      EnterLookup(groups[1..], m, key);
    }
  }

  lemma {:induction false} LookupAt(groups: seq<MountGroup>, i: nat)
    requires Ascending(groups) && i < |groups|
    ensures Lookup(groups, groups[i].mountpoint) == groups[i].mounts
    decreases i
  {
    if i > 0 {
      StrLessIrreflexive(groups[0].mountpoint);
      LookupAt(groups[1..], i - 1);
    }
  }

  lemma {:induction false} MountsAtContains(mounts: seq<Mount>, m: Mount)
    requires m in mounts
    ensures m in MountsAt(mounts, m.mountpoint)
  {
    var last := mounts[|mounts| - 1];
    if last != m {
      assert mounts == mounts[..|mounts| - 1] + [last];
      MountsAtContains(mounts[..|mounts| - 1], m);
    }
  }

  /** The map built from the mounts of a state: keys ascending, one key per
      mount point that occurs, and under each key exactly the mounts with that
      mount point, in the order of the state. */
  lemma {:induction false} GroupByMountpointSpec(mounts: seq<Mount>)
    ensures var groups := GroupByMountpoint(mounts);
            && Ascending(groups)
            && Keys(groups) == (set m | m in mounts :: m.mountpoint)
            && forall key :: Lookup(groups, key) == MountsAt(mounts, key)
  {
    if mounts != [] {
      var init := mounts[..|mounts| - 1];
      var last := mounts[|mounts| - 1];
      assert mounts == init + [last];
      GroupByMountpointSpec(init);
      var before := GroupByMountpoint(init);
      EnterAscending(before, last);
      EnterKeys(before, last);
      forall key ensures Lookup(GroupByMountpoint(mounts), key) == MountsAt(mounts, key) {
        EnterLookup(before, last, key);
      }
    }
  }

  /** Each group written to a mount file holds exactly the state's mounts for
      its mount point, in order, and is never empty; every mount point of the
      state has a group. */
  lemma {:induction false} GroupsPartitionMounts(mounts: seq<Mount>)
    ensures var groups := GroupByMountpoint(mounts);
            && Ascending(groups)
            && (forall i :: 0 <= i < |groups| ==>
                  groups[i].mounts == MountsAt(mounts, groups[i].mountpoint) && groups[i].mounts != [])
            && (forall m :: m in mounts ==> exists i :: 0 <= i < |groups| && groups[i].mountpoint == m.mountpoint)
  {
    var groups := GroupByMountpoint(mounts);
    GroupByMountpointSpec(mounts);
    forall i | 0 <= i < |groups|
      ensures groups[i].mounts == MountsAt(mounts, groups[i].mountpoint) && groups[i].mounts != []
    {
      LookupAt(groups, i);
      assert groups[i].mountpoint in Keys(groups);
      var m :| m in mounts && m.mountpoint == groups[i].mountpoint;
      MountsAtContains(mounts, m);
    }
    forall m | m in mounts ensures exists i :: 0 <= i < |groups| && groups[i].mountpoint == m.mountpoint {
      assert m.mountpoint in Keys(groups);
    }
  }
}
