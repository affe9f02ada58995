/**
 Two loops the guard leans on: bringing the kernel's probe table in line with the addresses just resolved, and
 taking an inventory of containers while some of them vanish.
 */
module EgressTables {
  import opened Prelude
  import opened EgressEvidence

  // ----- The probe table -----

  class ProbeTable {
    const capacity: nat
    var entries: set<Addr>
    /** How many more kernel calls succeed. */
    var calls: nat
    /** The largest size the table has had. */
    ghost var peak: nat

    constructor (capacity: nat, entries: set<Addr>, calls: nat)
      ensures this.capacity == capacity && this.entries == entries && this.calls == calls && peak == |entries|
    {
      this.capacity, this.entries, this.calls, peak := capacity, entries, calls, |entries|;
    }

    method Delete(key: Addr) returns (ok: bool)
      modifies `entries, `calls
      ensures ok <==> old(calls) > 0
      ensures entries == (if ok then old(entries) - {key} else old(entries))
                && calls == (if ok then old(calls) - 1 else old(calls))
    {
      if calls == 0 { return false; }
      entries, calls := entries - {key}, calls - 1;
      ok := true;
    }

    /** A key that is not there yet needs room. */
    method Update(key: Addr) returns (ok: bool)
      requires |entries| <= peak
      modifies `entries, `calls, `peak
      ensures ok <==> old(calls) > 0 && (key in old(entries) || |old(entries)| < capacity)
      ensures entries == (if ok then old(entries) + {key} else old(entries))
                && calls == (if ok then old(calls) - 1 else old(calls))
      ensures |entries| <= peak && peak == (if |entries| <= old(peak) then old(peak) else |entries|)
    {
      if calls == 0 || (key !in entries && |entries| >= capacity) { return false; }
      if key in entries { assert entries + {key} == entries; }
      entries, calls := entries + {key}, calls - 1;
      if |entries| > peak { peak := |entries|; }
      ok := true;
    }

    /** `sync_probes`: stale addresses go first, so the table is never larger than before or than wanted, and a wanted
        set that fits always gets in; cut short, it leaves what was wanted and already there alone. */
    method Sync(desired: set<Addr>) returns (ok: bool)
      requires peak == |entries| <= capacity
      modifies `entries, `calls, `peak
      ensures ok <==> |desired| <= capacity && |old(entries) - desired| + |desired| <= old(calls)
      ensures ok ==> entries == desired
      ensures old(entries) * desired <= entries <= old(entries) + desired
      ensures peak <= if |old(entries)| <= |desired| then |desired| else |old(entries)|
    {
      ghost var start, budget := entries, calls;
      var stale := entries - desired;
      var rest := stale;
      while rest != {}
        invariant rest <= stale && entries == start - (stale - rest)
        invariant |rest| + budget == |stale| + calls
        invariant peak == |start|
        decreases rest
      {
        var key :| key in rest;
        var deleted := Delete(key);
        if !deleted {
          NoRoomOrCalls(rest, stale, desired, budget);
          return false;
        }
        rest := rest - {key};
      }
      assert entries == start * desired;
      Smaller(entries, start);
      ok := AddAll(desired, |start|);
    }

    method AddAll(desired: set<Addr>, ghost before: nat) returns (ok: bool)
      requires entries <= desired && |entries| <= peak <= before <= capacity
      modifies `entries, `calls, `peak
      ensures ok <==> |desired| <= capacity && |desired| <= old(calls)
      ensures ok ==> entries == desired
      ensures old(entries) <= entries <= desired
      ensures peak <= if before <= |desired| then |desired| else before
    {
      var rest := desired;
      while rest != {}
        invariant rest <= desired && desired - rest <= entries <= desired && old(entries) <= entries
        invariant |rest| + old(calls) == |desired| + calls
        invariant |entries| <= capacity && |entries| <= peak <= if before <= |desired| then |desired| else before
        decreases rest
      {
        var key :| key in rest;
        Smaller(entries + {key}, desired);
        var added := Update(key);
        if !added {
          assert |rest| >= 1 by { Smaller({key}, rest); }
          return false;
        }
        rest := rest - {key};
      }
      assert entries == desired;
      ok := true;
    }
  }

  lemma {:induction false} Smaller(a: set<Addr>, b: set<Addr>)
    requires a <= b
    ensures |a| <= |b| && (|a| == |b| ==> a == b)
  {
    if a != {} {
      var x :| x in a;
      Smaller(a - {x}, b - {x});
    } else if b != {} {
      var y :| y in b;
      assert |b - {y}| == |b| - 1;
    }
  }

  lemma NoRoomOrCalls(rest: set<Addr>, stale: set<Addr>, desired: set<Addr>, budget: nat)
    requires rest <= stale && rest != {} && |rest| + budget == |stale|
    ensures |stale| + |desired| > budget
  {
    var x :| x in rest;
    assert |rest - {x}| == |rest| - 1;
  }

  // ----- The container snapshot -----

  type Id = nat

  /** How an inspection ends: it reports all containers, it fails as when one is gone, or it answers nonsense. */
  datatype Inspection = Reported | InspectFailed | Nonsense

  /** `listing(k)` answers the k-th listing, `None` if it fails; `inspection(k)` the k-th inspection. */
  datatype Docker = Docker(listing: nat -> Option<seq<Id>>, inspection: nat -> Inspection)

  datatype Snapshot = Containers(ids: seq<Id>) | SnapshotRaised

  function Keep(ids: seq<Id>, running: seq<Id>): seq<Id> {
    if ids == [] then []
    else
      var n := |ids| - 1;
      if ids[n] in running then Keep(ids[..n], running) + [ids[n]] else Keep(ids[..n], running)
  }

  /** `egress_container_snapshot`; `rounds` counts the inspections made. */
  method TakeSnapshot(docker: Docker) returns (r: Snapshot, rounds: nat)
    ensures docker.listing(0).None? ==> r.SnapshotRaised? && rounds == 0
    ensures docker.listing(0).Some? ==>
              && rounds <= |docker.listing(0).value|
              && (forall k :: 0 < k < rounds ==> docker.listing(k).Some?)
              && (forall k :: 0 <= k < rounds - 1 ==> docker.inspection(k).InspectFailed?)
    ensures r.Containers? && r.ids == [] ==> Queried(docker, rounds) == []
    ensures r.Containers? && r.ids != [] ==>
              rounds > 0 && docker.inspection(rounds - 1).Reported? && r.ids == Queried(docker, rounds - 1)
    ensures r.SnapshotRaised? && docker.listing(0).Some? ==> rounds > 0 && GivesUp(docker, rounds - 1)
    ensures r.Containers? ==> forall k :: 0 <= k < rounds ==> !GivesUp(docker, k)
  {
    rounds := 0;
    var first := docker.listing(0);
    if first.None? { return SnapshotRaised, 0; }
    var ids := first.value;
    var k := 0;
    while ids != []
      invariant k == rounds && ids == Queried(docker, k) && |ids| + k <= |first.value|
      invariant forall i :: 0 <= i <= k ==> docker.listing(i).Some?
      invariant forall i :: 0 <= i < k ==> docker.inspection(i).InspectFailed? && !GivesUp(docker, i)
      decreases |ids|
    {
      rounds := rounds + 1;
      match docker.inspection(k) {
        case Reported => return Containers(ids), rounds;
        case Nonsense => return SnapshotRaised, rounds;
        case InspectFailed =>
      }
      var running := docker.listing(k + 1);
      if running.None? { return SnapshotRaised, rounds; }
      var remaining := Keep(ids, running.value);
      KeepLength(ids, running.value);
      if |remaining| == |ids| { return SnapshotRaised, rounds; }
      ids, k := remaining, k + 1;
    }
    r := Containers([]);
  }

  /** The identifiers the inspection after `k` shrinkings is asked about. */
  function Queried(docker: Docker, k: nat): seq<Id> {
    if k == 0 then docker.listing(0).GetOr([]) else Keep(Queried(docker, k - 1), docker.listing(k).GetOr([]))
  }

  /** The inspection `k` ends the snapshot with an error: nonsense, or a failure that no vanished container explains. */
  predicate GivesUp(docker: Docker, k: nat) {
    || docker.inspection(k).Nonsense?
    || (docker.inspection(k).InspectFailed? && (docker.listing(k + 1).None?
                                                || Queried(docker, k + 1) == Queried(docker, k)))
  }

  lemma {:induction false} KeepLength(ids: seq<Id>, running: seq<Id>)
    ensures |Keep(ids, running)| <= |ids|
    ensures |Keep(ids, running)| == |ids| ==> Keep(ids, running) == ids
    ensures Keep(ids, running) == ids <==> forall id <- ids :: id in running
  {
    if ids != [] {
      var n := |ids| - 1;
      KeepLength(ids[..n], running);
      assert ids == ids[..n] + [ids[n]];
    }
  }

  /** Of the first listing, in its order, those that are in all of the listings up to `k`. */
  function Survivors(docker: Docker, ids: seq<Id>, k: nat): seq<Id> {
    if ids == [] then []
    else
      var n := |ids| - 1;
      var rest := Survivors(docker, ids[..n], k);
      if forall i :: 0 <= i <= k ==> ids[n] in docker.listing(i).GetOr([]) then rest + [ids[n]] else rest
  }

  /** What is queried is the order-preserving intersection of all listings so far: nothing started later gets in. */
  lemma {:induction false} QueriedSurvived(docker: Docker, k: nat)
    ensures Queried(docker, k) == Survivors(docker, docker.listing(0).GetOr([]), k)
  {
    var ids := docker.listing(0).GetOr([]);
    if k == 0 {
      AllSurvive(docker, ids, |ids|);
      assert ids[..|ids|] == ids;
    } else {
      QueriedSurvived(docker, k - 1);
      KeepSurvivors(docker, ids, k);
    }
  }

  lemma {:induction false} AllSurvive(docker: Docker, ids: seq<Id>, n: nat)
    requires n <= |ids| && ids == docker.listing(0).GetOr([])
    ensures Survivors(docker, ids[..n], 0) == ids[..n]
  {
    if n > 0 {
      AllSurvive(docker, ids, n - 1);
      assert ids[..n][..n - 1] == ids[..n - 1] && ids[..n] == ids[..n - 1] + [ids[n - 1]];
      assert ids[n - 1] in ids;
    }
  }

  lemma {:induction false} KeepAppend(ids: seq<Id>, id: Id, running: seq<Id>)
    ensures Keep(ids + [id], running) == Keep(ids, running) + if id in running then [id] else []
  {
    assert (ids + [id])[..|ids|] == ids;
  }

  lemma {:induction false} KeepSurvivors(docker: Docker, ids: seq<Id>, k: nat)
    requires k > 0
    ensures Keep(Survivors(docker, ids, k - 1), docker.listing(k).GetOr([])) == Survivors(docker, ids, k)
  {
    if ids != [] {
      var n := |ids| - 1;
      KeepSurvivors(docker, ids[..n], k);
      KeepAppend(Survivors(docker, ids[..n], k - 1), ids[n], docker.listing(k).GetOr([]));
    }
  }
}
