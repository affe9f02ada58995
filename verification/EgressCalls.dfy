/**
 What one round of the guard does in which order: the calls it makes, what is left when it comes too late, and when a
 service is probed next.
 */
module EgressCalls {
  import opened Prelude
  import opened EgressEvidence
  import opened EgressGuard
  import opened EgressRuns

  /** How the calls of a round end that got through its service loop. */
  function Ending(policy: Policy, m: Memory, env: Env): Machine {
    var d := DecidedBy(policy, m, env);
    var notes := NotesUpTo(policy, m, d.inventory, env, |policy.services|);
    Announced(policy, Machine(m.leases, notes.pending, env.calls, false, []), m, notes.nextProbe, d.inventory, d.states,
              env)
  }

  // ----- Which calls each part makes -----

  /** Between the two, only leases were revoked. */
  predicate Revoking(before: seq<Op>, after: seq<Op>) {
    before <= after && forall i :: |before| <= i < |after| ==> after[i].Revoke?
  }

  /** Between the two, only leases were granted and probes launched. */
  predicate Issuing(before: seq<Op>, after: seq<Op>) {
    before <= after && forall i :: |before| <= i < |after| ==> after[i].Grant? || after[i].Launch?
  }

  lemma {:induction false} RevokeKeysMade(m: Machine, keys: seq<Key>, n: nat)
    requires n <= |keys|
    ensures Revoking(m.made, RevokeKeys(m, keys, n).made)
  {
    if n > 0 { RevokeKeysMade(m, keys, n - 1); }
  }

  lemma {:induction false} RevokeAllMade(policy: Policy, m: Machine, inventory: map<Name, Service>, n: nat)
    requires n <= |policy.services|
    ensures Revoking(m.made, RevokeAll(policy, m, inventory, n).made)
  {
    if n > 0 {
      RevokeAllMade(policy, m, inventory, n - 1);
      var before, name := RevokeAll(policy, m, inventory, n - 1), policy.services[n - 1];
      if name in inventory { RevokeKeysMade(before, inventory[name].Keys(), |inventory[name].Keys()|); }
    }
  }

  lemma {:induction false} WithdrawMade(policy: Policy, m: Machine, earlier: Memory, inventory: map<Name, Service>,
                                        states: map<Name, State>, shared: bool, n: nat)
    requires n <= |policy.services|
    ensures Revoking(m.made, Withdraw(policy, m, earlier, inventory, states, shared, n).made)
  {
    if n > 0 {
      WithdrawMade(policy, m, earlier, inventory, states, shared, n - 1);
      var before, name := Withdraw(policy, m, earlier, inventory, states, shared, n - 1), policy.services[n - 1];
      if name in earlier.inventory {
        RevokeKeysMade(before, earlier.inventory[name].Keys(), |earlier.inventory[name].Keys()|);
      }
    }
  }

  /** One call per parent group, all for the same addresses. */
  function Syncs(parents: seq<nat>, wanted: set<Addr>): seq<Op> {
    seq(|parents|, i requires 0 <= i < |parents| => SyncProbes(parents[i], wanted))
  }

  lemma {:induction false} SyncMade(m: Machine, parents: seq<nat>, wanted: set<Addr>, n: nat)
    requires n <= |parents|
    ensures var end := SyncAll(m, parents, wanted, n);
            && (m.raised ==> end == m)
            && m.made <= end.made && |end.made| <= |m.made| + n
            && (forall i :: |m.made| <= i < |end.made| ==> end.made[i].SyncProbes?)
            && (!end.raised ==> end.made == m.made + Syncs(parents, wanted)[..n])
  {
    if n > 0 {
      SyncMade(m, parents, wanted, n - 1);
      var all := Syncs(parents, wanted);
      assert all[..n] == all[..n - 1] + [all[n - 1]];
    }
  }

  lemma {:induction false} GrantMade(m: Machine, keys: seq<Key>, lease: Lease, n: nat)
    requires n <= |keys|
    ensures Issuing(m.made, GrantKeys(m, keys, lease, n).made) && (m.raised ==> GrantKeys(m, keys, lease, n) == m)
  {
    if n > 0 { GrantMade(m, keys, lease, n - 1); }
  }

  lemma {:induction false} IssueMade(policy: Policy, m: Machine, nextProbe: map<Name, Time>,
                                     inventory: map<Name, Service>, states: map<Name, State>, env: Env, n: nat)
    requires n <= |policy.services|
    ensures var end := IssueAll(policy, m, nextProbe, inventory, states, env, n);
            Issuing(m.made, end.made) && (m.raised ==> end == m)
  {
    if n > 0 {
      IssueMade(policy, m, nextProbe, inventory, states, env, n - 1);
      var before, name := IssueAll(policy, m, nextProbe, inventory, states, env, n - 1), policy.services[n - 1];
      if name in inventory && name in states {
        GrantMade(before, inventory[name].Keys(), LeaseFor(policy, name, states[name], env.start),
                  |inventory[name].Keys()|);
      }
    }
  }

  // ----- The order of the calls -----

  /** The firewall was reloaded with the states `d` decided at `at`, and right behind that the probe tables of all
      parent groups were brought to the addresses of this round, or emptied without shared protection. */
  predicate Protected(d: Decided, env: Env, made: seq<Op>, at: nat) {
    var wanted := if d.shared then env.probes else {};
    && at + 1 + |env.parents| <= |made|
    && made[at] == ReloadFirewall(d.states, d.shared)
    && forall k :: 0 <= k < |env.parents| ==> made[at + 1 + k] == SyncProbes(env.parents[k], wanted)
  }

  /** The calls up to the reload of the firewall, and behind it if the round is late. */
  lemma WithdrawnMade(policy: Policy, m: Machine, earlier: Memory, d: Decided, env: Env) returns (at: nat)
    requires m.made == [] && d.shared == Shared(env)
    ensures var end := Withdrawn(policy, m, earlier, d.inventory, d.states, env);
            && at <= |end.made|
            && (forall i :: 0 <= i < |end.made| ==> end.made[i].Revoke? || i == at)
            && (at < |end.made| ==> end.made[at] == ReloadFirewall(d.states, d.shared))
            && (!end.raised ==> at < |end.made|)
            && (!env.late && !end.raised ==> at == |end.made| - 1)
  {
    var n := |policy.services|;
    WithdrawMade(policy, m, earlier, d.inventory, d.states, Shared(env), n);
    var first := Withdraw(policy, m, earlier, d.inventory, d.states, Shared(env), n);
    RevokeAllMade(policy, first, d.inventory, n);
    var second := if Shared(env) then first else RevokeAll(policy, first, d.inventory, n);
    var third := Do(second, ReloadFirewall(d.states, Shared(env)));
    at := |second.made|;
    RevokeAllMade(policy, third, d.inventory, n);
    if third.raised { RaisedForGood(policy, third, d.inventory, n); }
  }

  lemma {:induction false} RaisedForGood(policy: Policy, m: Machine, inventory: map<Name, Service>, n: nat)
    requires n <= |policy.services| && m.raised
    ensures RevokeAll(policy, m, inventory, n) == m
  {
    if n > 0 {
      RaisedForGood(policy, m, inventory, n - 1);
      var name := policy.services[n - 1];
      if name in inventory { RaisedKeys(m, inventory[name].Keys(), |inventory[name].Keys()|); }
    }
  }

  lemma {:induction false} RaisedKeys(m: Machine, keys: seq<Key>, n: nat)
    requires n <= |keys| && m.raised
    ensures RevokeKeys(m, keys, n) == m
  {
    if n > 0 { RaisedKeys(m, keys, n - 1); }
  }

  /** Main result: wherever a round is cut short, what it has done by then is in order. First leases are only revoked;
      nothing is granted, no probe launched and no status published unless the round is in time, the firewall was
      reloaded with this round's states and all probe tables were brought in line before; a status comes last, with the
      very states and the end of the leases; and a round that completes has published it. */
  lemma CallOrder(policy: Policy, m: Memory, env: Env) returns (at: nat)
    ensures var d, end := DecidedBy(policy, m, env), Ending(policy, m, env);
            && at <= |end.made|
            && (forall i :: 0 <= i < at ==> end.made[i].Revoke?)
            && (forall i :: 0 <= i < |end.made|
                            && (end.made[i].Grant? || end.made[i].Launch? || end.made[i].Publish?) ==>
                  !env.late && Protected(d, env, end.made, at) && at + |env.parents| < i)
            && (forall i :: 0 <= i < |end.made| && end.made[i].Publish? ==>
                  i == |end.made| - 1 && end.made[i] == Publish(d.states, d.shared, d.start + policy.lease))
            && (!end.raised ==> at < |end.made| && end.made[at] == ReloadFirewall(d.states, d.shared))
            && (!end.raised && !env.late ==> end.made[|end.made| - 1].Publish?)
  {
    var d := DecidedBy(policy, m, env);
    var notes := NotesUpTo(policy, m, d.inventory, env, |policy.services|);
    at := AnnouncedInOrder(policy, Machine(m.leases, notes.pending, env.calls, false, []), m, notes.nextProbe, d, env);
  }

  /** The same of any sequence of calls, as one fact. */
  predicate Arranged(policy: Policy, d: Decided, env: Env, made: seq<Op>, raised: bool, at: nat) {
    && at <= |made|
    && (forall i :: 0 <= i < at ==> made[i].Revoke?)
    && (forall i :: 0 <= i < |made| && (made[i].Grant? || made[i].Launch? || made[i].Publish?) ==>
          !env.late && Protected(d, env, made, at) && at + |env.parents| < i)
    && (forall i :: 0 <= i < |made| && made[i].Publish? ==>
          i == |made| - 1 && made[i] == Publish(d.states, d.shared, d.start + policy.lease))
    && (!raised ==> at < |made| && made[at] == ReloadFirewall(d.states, d.shared))
    && (!raised && !env.late ==> made[|made| - 1].Publish?)
  }

  lemma AnnouncedInOrder(policy: Policy, start: Machine, earlier: Memory, nextProbe: map<Name, Time>, d: Decided,
                         env: Env)
    returns (at: nat)
    requires start.made == [] && d.start == env.start && d.shared == Shared(env)
    ensures var end := Announced(policy, start, earlier, nextProbe, d.inventory, d.states, env);
            Arranged(policy, d, env, end.made, end.raised, at)
  {
    at := WithdrawnMade(policy, start, earlier, d, env);
    var withdrawn := Withdrawn(policy, start, earlier, d.inventory, d.states, env);
    if env.late {
      assert Arranged(policy, d, env, withdrawn.made, withdrawn.raised, at);
    } else {
      SignedInOrder(policy, withdrawn, nextProbe, d, env, at);
    }
  }

  lemma SignedInOrder(policy: Policy, withdrawn: Machine, nextProbe: map<Name, Time>, d: Decided, env: Env, at: nat)
    requires !env.late && d.start == env.start && d.shared == Shared(env) && at <= |withdrawn.made|
    requires forall i :: 0 <= i < |withdrawn.made| ==> withdrawn.made[i].Revoke? || i == at
    requires at < |withdrawn.made| ==> withdrawn.made[at] == ReloadFirewall(d.states, d.shared)
    requires !withdrawn.raised ==> at == |withdrawn.made| - 1
    ensures var synced := SyncAll(withdrawn, env.parents, Wanted(env), |env.parents|);
            var issued := IssueAll(policy, synced, nextProbe, d.inventory, d.states, env, |policy.services|);
            var end := Do(issued, Publish(d.states, d.shared, d.start + policy.lease));
            Arranged(policy, d, env, end.made, end.raised, at)
  {
    var synced := SyncAll(withdrawn, env.parents, Wanted(env), |env.parents|);
    SyncMade(withdrawn, env.parents, Wanted(env), |env.parents|);
    IssueMade(policy, synced, nextProbe, d.inventory, d.states, env, |policy.services|);
    InOrder(policy, d, env, withdrawn, synced,
            IssueAll(policy, synced, nextProbe, d.inventory, d.states, env, |policy.services|), at);
  }

  lemma InOrder(policy: Policy, d: Decided, env: Env, withdrawn: Machine, synced: Machine, issued: Machine, at: nat)
    requires !env.late && d.start == env.start && d.shared == Shared(env) && at <= |withdrawn.made|
    requires forall i :: 0 <= i < |withdrawn.made| ==> withdrawn.made[i].Revoke? || i == at
    requires at < |withdrawn.made| ==> withdrawn.made[at] == ReloadFirewall(d.states, d.shared)
    requires withdrawn.raised ==> synced == withdrawn
    requires !withdrawn.raised ==> at == |withdrawn.made| - 1
    requires withdrawn.made <= synced.made
    requires forall i :: |withdrawn.made| <= i < |synced.made| ==> synced.made[i].SyncProbes?
    requires !synced.raised ==>
               !withdrawn.raised && synced.made == withdrawn.made + Syncs(env.parents, Wanted(env))[..|env.parents|]
    requires Issuing(synced.made, issued.made) && (synced.raised ==> issued == synced)
    ensures var end := Do(issued, Publish(d.states, d.shared, d.start + policy.lease));
            Arranged(policy, d, env, end.made, end.raised, at)
  {
    var made := Do(issued, Publish(d.states, d.shared, d.start + policy.lease)).made;
    assert issued.made <= made;
    if !synced.raised {
      assert Syncs(env.parents, Wanted(env))[..|env.parents|] == Syncs(env.parents, Wanted(env));
      assert Protected(d, env, synced.made, at);
      assert Protected(d, env, made, at);
    }
  }

  // ----- A round that comes too late -----

  /** A round that has outlived its lease raises and grants nothing; if its calls go through, no lease of any current
      service is left. */
  lemma LateCloses(policy: Policy, m: Memory, env: Env)
    requires LoopDone(policy, env) && env.late
    ensures var round := RoundOf(policy, m, env);
            && round.raised && round.memory.leaseStates == m.leaseStates && OnlyFewer(m.leases, round.memory.leases)
            && (!Ending(policy, m, env).raised ==>
                  forall name <- round.memory.inventory :: name in policy.services ==>
                    forall key <- round.memory.inventory[name].Keys() :: key !in round.memory.leases)
  {
    var n, d := |policy.services|, DecidedBy(policy, m, env);
    var notes := NotesUpTo(policy, m, d.inventory, env, n);
    var start := Machine(m.leases, notes.pending, env.calls, false, []);
    WithdrawnFewer(policy, start, m, d.inventory, d.states, env);
    if !Ending(policy, m, env).raised {
      var first := Withdraw(policy, start, m, d.inventory, d.states, Shared(env), n);
      var second := if Shared(env) then first else RevokeAll(policy, first, d.inventory, n);
      RevokeAllGone(policy, Do(second, ReloadFirewall(d.states, Shared(env))), d.inventory, n);
    }
  }

  /** The clean-up behind a round that raised closes every service of the stored inventory, if it goes through, and
      opens nothing in any case. */
  lemma CleanUpCloses(policy: Policy, w: World, calls: nat)
    ensures var m := Machine(w.memory.leases, w.memory.notes.pending, calls, false, []);
            var after := Next(policy, w, CleanUp(calls));
            && after.memory.notes == w.memory.notes && after.memory.inventory == w.memory.inventory
            && OnlyFewer(w.memory.leases, after.memory.leases)
            && (!RevokeAll(policy, m, w.memory.inventory, |policy.services|).raised ==>
                  forall name <- w.memory.inventory :: name in policy.services ==>
                    forall key <- w.memory.inventory[name].Keys() :: key !in after.memory.leases)
  {
    var m, n := Machine(w.memory.leases, w.memory.notes.pending, calls, false, []), |policy.services|;
    RevokeAllFewer(policy, m, w.memory.inventory, n);
    if !RevokeAll(policy, m, w.memory.inventory, n).raised {
      RevokeAllGone(policy, m, w.memory.inventory, n);
      forall name | name in w.memory.inventory && name in policy.services
        ensures forall key <- w.memory.inventory[name].Keys() :: key !in Next(policy, w, CleanUp(calls)).memory.leases
      {
        var i :| 0 <= i < n && policy.services[i] == name;
      }
    }
  }

  // ----- When a service is probed -----

  /** What a finished probe leaves, as one statement: a purge forgets everything and makes a probe due at once; an
      answer to a probe of another identity is thrown away; its own answer is taken in, and the next probe is due after
      the regular interval if all sources passed, else after three seconds, or the interval if that is shorter. */
  lemma ProbeTakenIn(policy: Policy, slot: Slot, before: Option<Identity>, service: Service, shared: bool,
                     answer: Answer, now: Time)
    ensures var after := Refresh(policy, slot, before, service, shared, answer, now, ALL);
            if !shared || !service.valid || before != Some(service.Id()) then
              after == Slot(None, None, None, Some(0))
            else if slot.pending == None || answer == NotDone then after == slot
            else if slot.pending != Some(service.Id()) then after == slot.(pending := None)
            else
              && after.pending == None
              && (answer == ProbeRaised ==> after.observations == None && after.passes == None)
              && (answer.Returned? ==>
                    && after.observations.Some? && |after.observations.value| == |answer.results|
                    && forall i :: 0 <= i < |answer.results| ==>
                      after.observations.value[i] == answer.results[i].(launchedFor := service.Id()))
              && after.nextProbe.Some?
              && (answer.Returned? && (forall o <- answer.results :: o.status == Passed) ==>
                    after.nextProbe.value == now + policy.refresh)
              && (answer == ProbeRaised || (exists o <- answer.results :: o.status != Passed) ==>
                    && after.nextProbe.value <= now + 3_000_000_000 && after.nextProbe.value <= now + policy.refresh
                    && after.nextProbe.value - now in {3_000_000_000, policy.refresh})
  {
    if Stale(before, service, shared) {
      Purged(slot, 4);
    } else if slot.pending == Some(service.Id()) && !answer.NotDone? {
      TakenIn(policy, slot, service.Id(), answer, now);
    } else if slot.pending.Some? && !answer.NotDone? {
      assert EditedBy(slot, [PutPending(None)], 1) == Edited(EditedBy(slot, [PutPending(None)], 0), PutPending(None));
    }
  }

  lemma TakenIn(policy: Policy, slot: Slot, id: Identity, answer: Answer, now: Time)
    requires slot.pending == Some(id) && !answer.NotDone?
    ensures var after := EditedBy(slot, Collecting(policy, slot, id, answer, now), 4);
            && after.pending == None
            && after.observations == (if answer.Returned? then Some(Stamp(answer.results, id)) else None)
            && (answer.ProbeRaised? ==> after.passes == None)
            && after.nextProbe == Some(Due(policy, now, answer.Returned? && AllPassed(answer.results)))
  {
    var edits := Collecting(policy, slot, id, answer, now);
    assert EditedBy(slot, edits, 1) == Edited(EditedBy(slot, edits, 0), edits[0]);
    assert EditedBy(slot, edits, 2) == Edited(EditedBy(slot, edits, 1), edits[1]);
    assert EditedBy(slot, edits, 3) == Edited(EditedBy(slot, edits, 2), edits[2]);
  }

  lemma {:induction false} GrantKeepsPending(m: Machine, keys: seq<Key>, lease: Lease, n: nat)
    requires n <= |keys|
    ensures GrantKeys(m, keys, lease, n).pending == m.pending
  {
    if n > 0 { GrantKeepsPending(m, keys, lease, n - 1); }
  }

  lemma {:induction false} SyncKeepsPending(m: Machine, parents: seq<nat>, wanted: set<Addr>, n: nat)
    requires n <= |parents|
    ensures SyncAll(m, parents, wanted, n).pending == m.pending
  {
    if n > 0 { SyncKeepsPending(m, parents, wanted, n - 1); }
  }

  lemma {:induction false} RevokeKeysKeepsPending(m: Machine, keys: seq<Key>, n: nat)
    requires n <= |keys|
    ensures RevokeKeys(m, keys, n).pending == m.pending
  {
    if n > 0 { RevokeKeysKeepsPending(m, keys, n - 1); }
  }

  lemma {:induction false} RevokeAllKeepsPending(policy: Policy, m: Machine, inventory: map<Name, Service>, n: nat)
    requires n <= |policy.services|
    ensures RevokeAll(policy, m, inventory, n).pending == m.pending
  {
    if n > 0 {
      RevokeAllKeepsPending(policy, m, inventory, n - 1);
      var before, name := RevokeAll(policy, m, inventory, n - 1), policy.services[n - 1];
      if name in inventory { RevokeKeysKeepsPending(before, inventory[name].Keys(), |inventory[name].Keys()|); }
    }
  }

  lemma {:induction false} WithdrawKeepsPending(policy: Policy, m: Machine, earlier: Memory,
                                                inventory: map<Name, Service>, states: map<Name, State>, shared: bool,
                                                n: nat)
    requires n <= |policy.services|
    ensures Withdraw(policy, m, earlier, inventory, states, shared, n).pending == m.pending
  {
    if n > 0 {
      WithdrawKeepsPending(policy, m, earlier, inventory, states, shared, n - 1);
      var before, name := Withdraw(policy, m, earlier, inventory, states, shared, n - 1), policy.services[n - 1];
      if name in earlier.inventory {
        RevokeKeysKeepsPending(before, earlier.inventory[name].Keys(), |earlier.inventory[name].Keys()|);
      }
    }
  }

  /** The probe under way for `name` once the first `n` services had their turn. */
  lemma {:induction false} LaunchedFor(policy: Policy, m: Machine, nextProbe: map<Name, Time>,
                                       inventory: map<Name, Service>, states: map<Name, State>, env: Env, n: nat,
                                       name: Name)
    requires n <= |policy.services| && DistinctServices(policy)
    requires !IssueAll(policy, m, nextProbe, inventory, states, env, n).raised
    requires name in inventory && name in states
    ensures Get(IssueAll(policy, m, nextProbe, inventory, states, env, n).pending, name) ==
              if name in m.pending then Some(m.pending[name])
              else if name in policy.services[..n] && !states[name].Blocked?
                  && env.launchClock(name) >= Get(nextProbe, name).GetOr(0)
              then Some(inventory[name].Id())
              else None
  {
    if n > 0 {
      var before, last := IssueAll(policy, m, nextProbe, inventory, states, env, n - 1), policy.services[n - 1];
      assert policy.services[..n] == policy.services[..n - 1] + [last];
      if last in inventory && last in states && !states[last].Blocked? {
        var keys, lease := inventory[last].Keys(), LeaseFor(policy, last, states[last], env.start);
        GrantRaised(before, keys, lease, |keys|);
        GrantKeepsPending(before, keys, lease, |keys|);
      }
      LaunchedFor(policy, m, nextProbe, inventory, states, env, n - 1, name);
    }
  }

  /** After a completed round a probe is under way for a service exactly if one was still running, or the service is not
      blocked and its next probe had come due; a new one is for the identity just decided on. When it is due next does
      not change by launching it. */
  lemma ProbedExactly(policy: Policy, m: Memory, env: Env, name: Name)
    requires DistinctServices(policy) && LoopDone(policy, env) && !RoundOf(policy, m, env).raised
    requires name in policy.services && name in DecidedBy(policy, m, env).inventory
    ensures var d, after := DecidedBy(policy, m, env), RoundOf(policy, m, env).memory.notes.At(name);
            var slot := RefreshAt(policy, m, m.notes.At(name), d.inventory, env, name, ALL);
            && name in d.states && after.nextProbe == slot.nextProbe
            && after.pending ==
                 if slot.pending.Some? then slot.pending
                 else if d.states[name] != Blocked && env.launchClock(name) >= slot.nextProbe.GetOr(0)
                 then Some(d.inventory[name].Id())
                 else None
  {
    var n, d := |policy.services|, DecidedBy(policy, m, env);
    var notes := NotesUpTo(policy, m, d.inventory, env, n);
    var start := Machine(m.leases, notes.pending, env.calls, false, []);
    assert policy.services[..n] == policy.services;
    NotesAt(policy, m, d.inventory, env, n, name);
    StatesAt(policy, m, d.inventory, env, n, name);
    NothingRaised(policy, start, m, notes.nextProbe, d.inventory, d.states, env);
    var withdrawn := Withdrawn(policy, start, m, d.inventory, d.states, env);
    var synced := SyncAll(withdrawn, env.parents, Wanted(env), |env.parents|);
    WithdrawnKeepsPending(policy, start, m, d, env);
    SyncKeepsPending(withdrawn, env.parents, Wanted(env), |env.parents|);
    LaunchedFor(policy, synced, notes.nextProbe, d.inventory, d.states, env, n, name);
  }

  lemma WithdrawnKeepsPending(policy: Policy, m: Machine, earlier: Memory, d: Decided, env: Env)
    ensures Withdrawn(policy, m, earlier, d.inventory, d.states, env).pending == m.pending
  {
    var n := |policy.services|;
    WithdrawKeepsPending(policy, m, earlier, d.inventory, d.states, Shared(env), n);
    var first := Withdraw(policy, m, earlier, d.inventory, d.states, Shared(env), n);
    RevokeAllKeepsPending(policy, first, d.inventory, n);
    var second := if Shared(env) then first else RevokeAll(policy, first, d.inventory, n);
    RevokeAllKeepsPending(policy, Do(second, ReloadFirewall(d.states, Shared(env))), d.inventory, n);
  }
}
