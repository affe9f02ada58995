/**
 Any number of guard rounds, each of which may raise anywhere, with clean-ups cut short and the guard killed
 and restarted in between: what a packet that the kernel filter lets out rests on.
 */
module EgressRuns {
  import opened Prelude
  import opened EgressEvidence
  import opened EgressGuard

  /** What a round that got through its service loop had decided, on which observations, and up to what time they had to
      be fresh. */
  datatype Decided = Decided(start: Time, shared: bool, inventory: map<Name, Service>, states: map<Name, State>,
                             evidence: map<Name, seq<Observation>>, horizon: map<Name, Time>)

  datatype World = World(memory: Memory, log: seq<Decided>)

  /** `CleanUp` is the revocation after a failed round, of which `calls` calls succeed; `Restart` kills the guard and
      starts another over the same kernel table. A frozen guard is one that takes no further step. */
  datatype Event = OneRound(env: Env) | CleanUp(calls: nat) | Restart

  predicate DistinctServices(policy: Policy) {
    forall i, j :: 0 <= i < j < |policy.services| ==> policy.services[i] != policy.services[j]
  }

  /** Clocks do not run backwards within a round, and the inventory lists the services of the policy. */
  ghost predicate Possible(policy: Policy, env: Env) {
    && (forall name :: env.clock(name) >= env.start)
    && (env.inventory.Some? ==> env.inventory.value.Keys == set name | name in policy.services)
  }

  function Installed(): World {
    World(Memory(map[], Notes(map[], map[], map[], map[]), map[], map[]), [])
  }

  function DecidedBy(policy: Policy, m: Memory, env: Env): Decided {
    var inventory := env.inventory.GetOr(m.inventory);
    var n := |policy.services|;
    var notes := NotesUpTo(policy, m, inventory, env, n);
    var states := StatesUpTo(policy, m, inventory, env, n);
    Decided(env.start, Shared(env), inventory, states,
            map name | name in states :: Evidence(policy, notes.At(name), env.clock(name)),
            map name | name in states :: env.clock(name) + policy.lease)
  }

  function Next(policy: Policy, w: World, event: Event): World {
    match event
    case OneRound(env) =>
      World(RoundOf(policy, w.memory, env).memory,
            if LoopDone(policy, env) then w.log + [DecidedBy(policy, w.memory, env)] else w.log)
    case CleanUp(calls) =>
      var m := Machine(w.memory.leases, w.memory.notes.pending, calls, false, []);
      w.(memory := w.memory.(leases := RevokeAll(policy, m, w.memory.inventory, |policy.services|).leases))
    case Restart => w.(memory := Installed().memory.(leases := w.memory.leases))
  }

  function Run(policy: Policy, events: seq<Event>): World {
    if events == [] then Installed() else Next(policy, Run(policy, events[..|events| - 1]), events[|events| - 1])
  }

  // ----- What the calls do to the leases -----

  predicate OnlyFewer(before: map<Key, Lease>, after: map<Key, Lease>) {
    forall key <- after :: key in before && after[key] == before[key]
  }

  lemma {:induction false} RevokeKeysFewer(m: Machine, keys: seq<Key>, n: nat)
    requires n <= |keys|
    ensures OnlyFewer(m.leases, RevokeKeys(m, keys, n).leases)
  {
    if n > 0 { RevokeKeysFewer(m, keys, n - 1); }
  }

  lemma {:induction false} RevokeAllFewer(policy: Policy, m: Machine, inventory: map<Name, Service>, n: nat)
    requires n <= |policy.services|
    ensures OnlyFewer(m.leases, RevokeAll(policy, m, inventory, n).leases)
  {
    if n > 0 {
      RevokeAllFewer(policy, m, inventory, n - 1);
      var before, name := RevokeAll(policy, m, inventory, n - 1), policy.services[n - 1];
      if name in inventory { RevokeKeysFewer(before, inventory[name].Keys(), |inventory[name].Keys()|); }
    }
  }

  lemma {:induction false} WithdrawFewer(policy: Policy, m: Machine, earlier: Memory, inventory: map<Name, Service>,
                                         states: map<Name, State>, shared: bool, n: nat)
    requires n <= |policy.services|
    ensures OnlyFewer(m.leases, Withdraw(policy, m, earlier, inventory, states, shared, n).leases)
  {
    if n > 0 {
      WithdrawFewer(policy, m, earlier, inventory, states, shared, n - 1);
      var before, name := Withdraw(policy, m, earlier, inventory, states, shared, n - 1), policy.services[n - 1];
      if name in earlier.inventory {
        RevokeKeysFewer(before, earlier.inventory[name].Keys(), |earlier.inventory[name].Keys()|);
      }
    }
  }

  lemma {:induction false} SyncKeeps(m: Machine, parents: seq<nat>, wanted: set<Addr>, n: nat)
    requires n <= |parents|
    ensures SyncAll(m, parents, wanted, n).leases == m.leases
  {
    if n > 0 { SyncKeeps(m, parents, wanted, n - 1); }
  }

  lemma {:induction false} GrantedOnly(m: Machine, keys: seq<Key>, lease: Lease, n: nat)
    requires n <= |keys|
    ensures var after := GrantKeys(m, keys, lease, n).leases;
            forall key <- after :: (key in m.leases && after[key] == m.leases[key])
                || (key in keys && after[key] == lease)
  {
    if n > 0 { GrantedOnly(m, keys, lease, n - 1); }
  }

  /** `lease` is one that a round which decided `d` grants to the service `name` for `key`. */
  predicate Backs(policy: Policy, d: Decided, name: Name, key: Key, lease: Lease) {
    && name in d.states && name in d.inventory && !d.states[name].Blocked?
    && key in d.inventory[name].Keys() && lease == LeaseFor(policy, name, d.states[name], d.start)
  }

  /** An entry of the lease table is either one of `leases` or granted by the round that decided `d`. */
  ghost predicate Accounted(policy: Policy, leases: map<Key, Lease>, d: Decided, key: Key, lease: Lease) {
    (key in leases && leases[key] == lease) || exists name :: Backs(policy, d, name, key, lease)
  }

  ghost predicate AllAccounted(policy: Policy, leases: map<Key, Lease>, d: Decided, after: map<Key, Lease>) {
    forall key <- after :: Accounted(policy, leases, d, key, after[key])
  }

  lemma AccountedThrough(policy: Policy, a: map<Key, Lease>, b: map<Key, Lease>, c: map<Key, Lease>, d: Decided)
    requires AllAccounted(policy, a, d, b) && AllAccounted(policy, b, d, c)
    ensures AllAccounted(policy, a, d, c)
  {
    forall key | key in c ensures Accounted(policy, a, d, key, c[key]) {
      assert Accounted(policy, b, d, key, c[key]);
      if key in b { assert Accounted(policy, a, d, key, b[key]); }
    }
  }

  lemma IssueAccounted(policy: Policy, m: Machine, nextProbe: Option<Time>, d: Decided, env: Env, name: Name)
    requires d.start == env.start && name in d.inventory && name in d.states
    ensures AllAccounted(policy, m.leases, d,
              Issue(policy, m, name, d.inventory[name], d.states[name], nextProbe, env).leases)
  {
    var keys, lease := d.inventory[name].Keys(), LeaseFor(policy, name, d.states[name], env.start);
    GrantedOnly(m, keys, lease, |keys|);
    if !d.states[name].Blocked? {
      forall key | key in keys ensures Backs(policy, d, name, key, lease) {
      }
    }
  }

  lemma {:induction false} IssuedOnly(policy: Policy, m: Machine, nextProbe: map<Name, Time>, d: Decided, env: Env,
                                      n: nat)
    requires n <= |policy.services| && d.start == env.start
    ensures AllAccounted(policy, m.leases, d, IssueAll(policy, m, nextProbe, d.inventory, d.states, env, n).leases)
  {
    if n > 0 {
      IssuedOnly(policy, m, nextProbe, d, env, n - 1);
      var before, name := IssueAll(policy, m, nextProbe, d.inventory, d.states, env, n - 1), policy.services[n - 1];
      if name in d.inventory && name in d.states {
        IssueAccounted(policy, before, Get(nextProbe, name), d, env, name);
        AccountedThrough(policy, m.leases, before.leases,
                         Issue(policy, before, name, d.inventory[name], d.states[name], Get(nextProbe, name),
                               env).leases, d);
      }
    }
  }

  lemma AnnouncedOnly(policy: Policy, m: Machine, earlier: Memory, nextProbe: map<Name, Time>, d: Decided, env: Env)
    requires d.start == env.start
    ensures AllAccounted(policy, m.leases, d,
              Announced(policy, m, earlier, nextProbe, d.inventory, d.states, env).leases)
  {
    WithdrawnFewer(policy, m, earlier, d.inventory, d.states, env);
    var withdrawn := Withdrawn(policy, m, earlier, d.inventory, d.states, env);
    if !env.late {
      var synced := SyncAll(withdrawn, env.parents, Wanted(env), |env.parents|);
      SyncKeeps(withdrawn, env.parents, Wanted(env), |env.parents|);
      IssuedOnly(policy, synced, nextProbe, d, env, |policy.services|);
      AccountedThrough(policy, m.leases, withdrawn.leases,
                       IssueAll(policy, synced, nextProbe, d.inventory, d.states, env, |policy.services|).leases, d);
    }
  }

  lemma WithdrawnFewer(policy: Policy, m: Machine, earlier: Memory, inventory: map<Name, Service>,
                       states: map<Name, State>, env: Env)
    ensures OnlyFewer(m.leases, Withdrawn(policy, m, earlier, inventory, states, env).leases)
  {
    var n := |policy.services|;
    WithdrawFewer(policy, m, earlier, inventory, states, Shared(env), n);
    var first := Withdraw(policy, m, earlier, inventory, states, Shared(env), n);
    RevokeAllFewer(policy, first, inventory, n);
    var second := if Shared(env) then first else RevokeAll(policy, first, inventory, n);
    RevokeAllFewer(policy, Do(second, ReloadFirewall(states, Shared(env))), inventory, n);
  }

  // ----- What the service loop leaves -----

  predicate Handled(policy: Policy, name: Name, n: nat)
    requires n <= |policy.services|
  {
    name in policy.services[..n]
  }

  lemma {:induction false} NotesAt(policy: Policy, m: Memory, inventory: map<Name, Service>, env: Env, n: nat,
                                   name: Name)
    requires n <= |policy.services| && DistinctServices(policy)
    ensures NotesUpTo(policy, m, inventory, env, n).At(name) ==
              if name in inventory && Handled(policy, name, n)
              then RefreshAt(policy, m, m.notes.At(name), inventory, env, name, ALL)
              else m.notes.At(name)
  {
    if n > 0 {
      NotesAt(policy, m, inventory, env, n - 1, name);
      var last := policy.services[n - 1];
      assert policy.services[..n] == policy.services[..n - 1] + [last];
      if last in inventory {
        var notes := NotesUpTo(policy, m, inventory, env, n - 1);
        PutGet(notes, last, RefreshAt(policy, m, notes.At(last), inventory, env, last, ALL), name);
      }
    }
  }

  lemma {:induction false} StatesAt(policy: Policy, m: Memory, inventory: map<Name, Service>, env: Env, n: nat,
                                    name: Name)
    requires n <= |policy.services| && DistinctServices(policy)
    ensures var states := StatesUpTo(policy, m, inventory, env, n);
            && (name in states <==> name in inventory && Handled(policy, name, n))
            && (name in states ==>
                  states[name] == StateOf(policy, NotesUpTo(policy, m, inventory, env, n).At(name), inventory[name],
                                          Shared(env), env.clock(name)))
  {
    if n > 0 {
      StatesAt(policy, m, inventory, env, n - 1, name);
      var last := policy.services[n - 1];
      assert policy.services[..n] == policy.services[..n - 1] + [last];
      NotesAt(policy, m, inventory, env, n, name);
      NotesAt(policy, m, inventory, env, n - 1, name);
    }
  }

  // ----- Provenance -----

  predicate Stores(slot: Slot, o: Observation) {
    || (slot.observations.Some? && o in slot.observations.value)
    || (slot.passes.Some? && exists url <- slot.passes.value :: slot.passes.value[url] == o)
  }

  /** Every stored observation was made for the identity its service has in the stored inventory. */
  ghost predicate Genuine(m: Memory) {
    forall name, o :: Stores(m.notes.At(name), o) ==> IdOf(m.inventory, name) == Some(o.launchedFor)
  }

  lemma {:induction false} PassedOfFrom(results: seq<Observation>, url: Url)
    requires url in PassedOf(results)
    ensures PassedOf(results)[url] in results
  {
    var n := |results| - 1;
    if !(results[n].status.Passed? && results[n].url == url) { PassedOfFrom(results[..n], url); }
  }

  // ----- How far a round gets with one service -----

  /** How many of the updates for `name` a round reaches. */
  function Reached(policy: Policy, env: Env, name: Name): nat {
    if LoopDone(policy, env) then ALL
    else if env.early then 0
    else if name in policy.services[..env.stopAt] then ALL
    else if name == policy.services[env.stopAt] then env.within
    else 0
  }

  /** What a round leaves of the observations of `name`, however it ends. */
  function ExpectedSlot(policy: Policy, m: Memory, env: Env, name: Name): Slot {
    var inventory := env.inventory.GetOr(m.inventory);
    if name in inventory && name in policy.services
    then RefreshAt(policy, m, m.notes.At(name), inventory, env, name, Reached(policy, env, name))
    else m.notes.At(name)
  }

  ghost predicate Left(policy: Policy, m: Memory, env: Env, name: Name) {
    var slot, expected := RoundOf(policy, m, env).memory.notes.At(name), ExpectedSlot(policy, m, env, name);
    slot.observations == expected.observations && slot.passes == expected.passes
  }

  lemma SlotLeft(policy: Policy, m: Memory, env: Env, name: Name)
    requires DistinctServices(policy)
    ensures Left(policy, m, env, name)
  {
    var inventory := env.inventory.GetOr(m.inventory);
    if LoopDone(policy, env) {
      NotesAt(policy, m, inventory, env, |policy.services|, name);
      assert policy.services[..|policy.services|] == policy.services;
    } else if !env.early {
      CutSlot(policy, m, inventory, env, name);
    }
  }

  lemma CutSlot(policy: Policy, m: Memory, inventory: map<Name, Service>, env: Env, name: Name)
    requires DistinctServices(policy) && !env.early && !LoopDone(policy, env)
    ensures CutNotes(policy, m, inventory, env).At(name) ==
              if name in inventory && name in policy.services
              then RefreshAt(policy, m, m.notes.At(name), inventory, env, name, Reached(policy, env, name))
              else m.notes.At(name)
  {
    var notes, cut := NotesUpTo(policy, m, inventory, env, env.stopAt), policy.services[env.stopAt];
    NotesAt(policy, m, inventory, env, env.stopAt, name);
    NotesAt(policy, m, inventory, env, env.stopAt, cut);
    assert cut !in policy.services[..env.stopAt];
    if cut in inventory {
      PutGet(notes, cut, RefreshAt(policy, m, notes.At(cut), inventory, env, cut, env.within), name);
    }
  }

  // ----- Provenance over one round -----

  /** What is left stored of a service whose identity changed, if the round reaches only `n` of its updates: the first
      drops the observations, the second the passes. */
  predicate LeftBehind(slot: Slot, n: nat, o: Observation) {
    Stores(if n == 0 then slot else if n == 1 then slot.(observations := None) else EMPTY, o)
  }

  lemma RefreshStores(policy: Policy, slot: Slot, before: Option<Identity>, service: Service, shared: bool,
                      answer: Answer,
                      now: Time, n: nat, o: Observation)
    requires forall was :: Stores(slot, was) ==> before == Some(was.launchedFor)
    ensures before != Some(service.Id()) ==>
              (Stores(Refresh(policy, slot, before, service, shared, answer, now, n), o) <==> LeftBehind(slot, n, o))
    ensures before == Some(service.Id()) ==>
              Stores(Refresh(policy, slot, before, service, shared, answer, now, n), o) ==>
              o.launchedFor == service.Id()
  {
    var edits := Edits(policy, slot, before, service, shared, answer, now);
    if Stale(before, service, shared) {
      Purged(slot, Least(n, 4));
    } else if Stores(Refresh(policy, slot, before, service, shared, answer, now, n), o) {
      CollectedStores(policy, slot, service.Id(), answer, now, Least(n, |edits|), o);
    }
  }

  lemma Purged(slot: Slot, n: nat)
    requires n <= 4
    ensures var after := EditedBy(slot, PURGE, n);
            && after.observations == (if n >= 1 then None else slot.observations)
            && after.passes == (if n >= 2 then None else slot.passes)
            && (n == 4 ==> after == EMPTY)
  {
    if n > 0 { Purged(slot, n - 1); }
  }

  lemma {:induction false} Collected(policy: Policy, slot: Slot, id: Identity, answer: Answer, now: Time, n: nat)
    requires n <= |Collecting(policy, slot, id, answer, now)|
    ensures var after := EditedBy(slot, Collecting(policy, slot, id, answer, now), n);
            var stamped := if answer.Returned? then Some(Stamp(answer.results, id)) else None;
            && after.observations == (if n >= 2 then stamped else slot.observations)
            && after.passes == (if n < 3 then slot.passes
                                else if stamped.Some? then Some(slot.passes.GetOr(map[]) + PassedOf(stamped.value))
                                    else None)
  {
    if n > 0 { Collected(policy, slot, id, answer, now, n - 1); }
  }

  lemma CollectedStores(policy: Policy, slot: Slot, id: Identity, answer: Answer, now: Time, n: nat, o: Observation)
    requires n <= |Collecting(policy, slot, id, answer, now)|
    requires forall was :: Stores(slot, was) ==> was.launchedFor == id
    requires Stores(EditedBy(slot, Collecting(policy, slot, id, answer, now), n), o)
    ensures o.launchedFor == id
  {
    Collected(policy, slot, id, answer, now, n);
    var after := EditedBy(slot, Collecting(policy, slot, id, answer, now), n);
    if !Stores(slot, o) {
      var stamped := Stamp(answer.results, id);
      if o !in stamped {
        var url :| url in after.passes.value && after.passes.value[url] == o;
        assert url in PassedOf(stamped);
        PassedOfFrom(stamped, url);
      }
    }
  }

  /** An exception inside the service loop after a new inventory was stored, before the observations were dropped of a
      service whose identity had changed. */
  ghost predicate Disrupts(policy: Policy, m: Memory, env: Env) {
    && !env.early && env.inventory.Some?
    && exists name, o :: LeftBehind(m.notes.At(name), Reached(policy, env, name), o)
                         && IdOf(env.inventory.value, name) != IdOf(m.inventory, name)
  }

  predicate Listed(policy: Policy, m: Memory) {
    forall name <- m.inventory :: name in policy.services
  }

  /** Provenance survives a round, wherever it raises, exactly unless it is disrupted in that one place. */
  lemma ProvenanceExactly(policy: Policy, m: Memory, env: Env)
    requires DistinctServices(policy) && Possible(policy, env) && Genuine(m) && Listed(policy, m)
    ensures Genuine(RoundOf(policy, m, env).memory) <==> !Disrupts(policy, m, env)
  {
    var after := RoundOf(policy, m, env).memory;
    if env.early {
    } else if Disrupts(policy, m, env) {
      var name, o :| LeftBehind(m.notes.At(name), Reached(policy, env, name), o)
                     && IdOf(env.inventory.value, name) != IdOf(m.inventory, name);
      assert Stores(m.notes.At(name), o) && IdOf(m.inventory, name) == Some(o.launchedFor);
      StoredAfter(policy, m, env, name, o);
      assert Stores(after.notes.At(name), o);
    } else {
      forall name, o | Stores(after.notes.At(name), o) ensures IdOf(after.inventory, name) == Some(o.launchedFor) {
        StoredAfter(policy, m, env, name, o);
      }
    }
  }

  /** What is stored after a round that got to its service loop. */
  lemma StoredAfter(policy: Policy, m: Memory, env: Env, name: Name, o: Observation)
    requires DistinctServices(policy) && Possible(policy, env) && Genuine(m) && Listed(policy, m) && !env.early
    ensures var after := RoundOf(policy, m, env).memory;
            && (IdOf(after.inventory, name) != IdOf(m.inventory, name) ==>
                  (Stores(after.notes.At(name), o) <==> LeftBehind(m.notes.At(name), Reached(policy, env, name), o)))
            && (IdOf(after.inventory, name) == IdOf(m.inventory, name) && Stores(after.notes.At(name), o) ==>
                  IdOf(after.inventory, name) == Some(o.launchedFor))
  {
    var slot, inventory := m.notes.At(name), env.inventory.GetOr(m.inventory);
    SlotLeft(policy, m, env, name);
    assert forall was :: Stores(slot, was) ==> IdOf(m.inventory, name) == Some(was.launchedFor);
    if name in inventory && name in policy.services {
      RefreshStores(policy, slot, IdOf(m.inventory, name), inventory[name], Shared(env), env.answers(name), env.start,
                    Reached(policy, env, name), o);
    } else {
      assert !Stores(slot, o);
    }
  }

  // ----- Whole runs -----

  /** No round of the run is disrupted. */
  ghost predicate Undisturbed(policy: Policy, events: seq<Event>) {
    forall i :: 0 <= i < |events| && events[i].OneRound? ==>
        !Disrupts(policy, Run(policy, events[..i]).memory, events[i].env)
  }

  ghost predicate PossibleRun(policy: Policy, events: seq<Event>) {
    DistinctServices(policy) && forall event <- events :: event.OneRound? ==> Possible(policy, event.env)
  }

  /** A service that may send anything is valid under intact shared protection; if it is compliant, its observations are
      admissible to the end of the lease. */
  ghost predicate Grounded(policy: Policy, d: Decided, name: Name) {
    && d.shared && name in d.inventory && d.inventory[name].valid && name in d.states && name in d.evidence
    && (d.states[name].Compliant? ==>
          exists horizon :: horizon >= d.start + policy.lease && Meets(policy, d.evidence[name], horizon))
  }

  ghost predicate OwnEvidence(d: Decided, name: Name) {
    name in d.inventory && name in d.evidence && forall o <- d.evidence[name] :: o.launchedFor == d.inventory[name].Id()
  }

  ghost predicate Inv(policy: Policy, w: World) {
    && Listed(policy, w.memory)
    && (forall key <- w.memory.leases :: exists d <- w.log, name :: Backs(policy, d, name, key, w.memory.leases[key]))
    && (forall d <- w.log, name <- d.states :: !d.states[name].Blocked? ==> Grounded(policy, d, name))
  }

  lemma DecidedGrounded(policy: Policy, m: Memory, env: Env, name: Name)
    requires DistinctServices(policy) && Possible(policy, env)
    requires var d := DecidedBy(policy, m, env); name in d.states && !d.states[name].Blocked?
    ensures Grounded(policy, DecidedBy(policy, m, env), name)
  {
    var d := DecidedBy(policy, m, env);
    StatesAt(policy, m, d.inventory, env, |policy.services|, name);
    assert d.states[name].Compliant? ==> Meets(policy, d.evidence[name], env.clock(name) + policy.lease);
  }

  lemma DecidedOwn(policy: Policy, m: Memory, env: Env, name: Name)
    requires DistinctServices(policy) && LoopDone(policy, env) && Genuine(RoundOf(policy, m, env).memory)
    requires name in DecidedBy(policy, m, env).states
    ensures OwnEvidence(DecidedBy(policy, m, env), name)
  {
    var d, after := DecidedBy(policy, m, env), RoundOf(policy, m, env).memory;
    StatesAt(policy, m, d.inventory, env, |policy.services|, name);
    var slot := NotesUpTo(policy, m, d.inventory, env, |policy.services|).At(name);
    assert after.notes.At(name).observations == slot.observations && after.notes.At(name).passes == slot.passes;
    forall o | o in d.evidence[name] ensures o.launchedFor == d.inventory[name].Id() {
      assert Stores(after.notes.At(name), o);
    }
  }

  lemma RoundKeeps(policy: Policy, w: World, env: Env)
    requires Inv(policy, w) && DistinctServices(policy) && Possible(policy, env)
    ensures Inv(policy, Next(policy, w, OneRound(env)))
  {
    var w' := Next(policy, w, OneRound(env));
    if LoopDone(policy, env) {
      var d := DecidedBy(policy, w.memory, env);
      var notes := NotesUpTo(policy, w.memory, d.inventory, env, |policy.services|);
      AnnouncedOnly(policy, Machine(w.memory.leases, notes.pending, env.calls, false, []), w.memory, notes.nextProbe, d,
                    env);
      assert d == w'.log[|w.log|];
      forall key | key in w'.memory.leases ensures exists d <- w'.log, name ::
          Backs(policy, d, name, key, w'.memory.leases[key]) {
        assert Accounted(policy, w.memory.leases, d, key, w'.memory.leases[key]);
        if name :| Backs(policy, d, name, key, w'.memory.leases[key]) {
        } else {
          var was, name :| was in w.log && Backs(policy, was, name, key, w.memory.leases[key]);
          assert was in w'.log;
        }
      }
      forall e, name | e in w'.log && name in e.states && !e.states[name].Blocked? ensures Grounded(policy, e, name) {
        if e !in w.log { DecidedGrounded(policy, w.memory, env, name); }
      }
    }
  }

  lemma {:induction false} RunInv(policy: Policy, events: seq<Event>)
    requires PossibleRun(policy, events)
    ensures Inv(policy, Run(policy, events))
  {
    if events != [] {
      var n := |events| - 1;
      RunInv(policy, events[..n]);
      var w := Run(policy, events[..n]);
      match events[n]
      case OneRound(env) => RoundKeeps(policy, w, env);
      case CleanUp(calls) =>
        RevokeAllFewer(policy, Machine(w.memory.leases, w.memory.notes.pending, calls, false, []), w.memory.inventory,
                       |policy.services|);
      case Restart =>
    }
  }

  ghost predicate OwnInv(policy: Policy, w: World) {
    Genuine(w.memory) && forall d <- w.log, name <- d.states :: OwnEvidence(d, name)
  }

  lemma {:induction false} RunGenuine(policy: Policy, events: seq<Event>)
    requires PossibleRun(policy, events) && Undisturbed(policy, events)
    ensures OwnInv(policy, Run(policy, events))
  {
    if events != [] {
      var n := |events| - 1;
      assert forall i :: 0 <= i <= n ==> events[..n][..i] == events[..i];
      RunGenuine(policy, events[..n]);
      RunInv(policy, events[..n]);
      if events[n].OneRound? { GenuineRound(policy, Run(policy, events[..n]), events[n].env); }
    }
  }

  lemma GenuineRound(policy: Policy, w: World, env: Env)
    requires OwnInv(policy, w) && Listed(policy, w.memory) && DistinctServices(policy) && Possible(policy, env)
    requires !Disrupts(policy, w.memory, env)
    ensures OwnInv(policy, Next(policy, w, OneRound(env)))
  {
    ProvenanceExactly(policy, w.memory, env);
    var w' := Next(policy, w, OneRound(env));
    forall d, name | d in w'.log && name in d.states ensures OwnEvidence(d, name) {
      if d !in w.log { DecidedOwn(policy, w.memory, env, name); }
    }
  }

  /** A quorum of different sources, each of which had seen a permitted address no longer ago than the maximum age, at
      `t`. */
  predicate Corroborated(policy: Policy, evidence: seq<Observation>, t: Time) {
    && |PassedUrls(evidence)| >= policy.quorum
    && forall o <- evidence :: o.status.Passed? ==>
         o.url in policy.urls && o.ip.Some? && o.ip.value in policy.allowed && t - o.at <= policy.maxAge
  }

  lemma GroundedCorroborates(policy: Policy, d: Decided, name: Name, t: Time)
    requires Grounded(policy, d, name) && d.states[name].Compliant? && t < d.start + policy.lease
    ensures Corroborated(policy, d.evidence[name], t)
  {
    var horizon :| horizon >= d.start + policy.lease && Meets(policy, d.evidence[name], horizon);
    SuccessesAreSources(d.evidence[name]);
  }

  /** What entitles `packet` to leave at `t`: its service, by the decision `d` of a round begun less than one lease
      before. */
  predicate Entitles(policy: Policy, d: Decided, name: Name, packet: Packet, probes: set<Addr>, t: Time) {
    && packet.V4?
    && d.start <= t < d.start + policy.lease
    && d.shared && name in d.states && name in d.inventory && d.inventory[name].valid
      && packet.key in d.inventory[name].Keys()
    && match d.states[name]
       case Compliant => name in d.evidence && Corroborated(policy, d.evidence[name], t)
       case Probing => packet.destination in probes
       case Blocked => false
  }

  /** Main result: whatever rounds raised, were cut short or never came, a packet the filter lets out at `t` (loopback
      aside) belongs to a service that a round, begun less than one lease before, had found compliant or probing;
      probing packets go to listed probe addresses only; and compliance rests on a quorum of sources still fresh at
      `t`. */
  lemma LeaseSafety(policy: Policy, events: seq<Event>, packet: Packet, probes: set<Addr>, t: Time)
    requires PossibleRun(policy, events) && !Local(packet)
    requires forall event <- events :: event.OneRound? ==> event.env.start <= t
    requires Gate(packet, Run(policy, events).memory.leases, probes, t).Accept?
    ensures exists d <- Run(policy, events).log, name ::
              && Entitles(policy, d, name, packet, probes, t)
              && Gate(packet, Run(policy, events).memory.leases, probes, t) ==
                Accept(Some(Mark(name, d.states[name].Probing?)))
  {
    var w := Run(policy, events);
    RunInv(policy, events);
    LogStarts(policy, events, t);
    var d, name :| d in w.log && Backs(policy, d, name, packet.key, w.memory.leases[packet.key]);
    assert Grounded(policy, d, name);
    if d.states[name].Compliant? { GroundedCorroborates(policy, d, name, t); }
    assert Entitles(policy, d, name, packet, probes, t);
  }

  lemma {:induction false} LogStarts(policy: Policy, events: seq<Event>, t: Time)
    requires forall event <- events :: event.OneRound? ==> event.env.start <= t
    ensures forall d <- Run(policy, events).log :: d.start <= t
  {
    if events != [] { LogStarts(policy, events[..|events| - 1], t); }
  }

  /** Main result: in an undisturbed run every observation behind a decision was made by a probe launched for the very
      identity that was decided on, across all restarts and late answers. */
  lemma NoBorrowedEvidence(policy: Policy, events: seq<Event>, d: Decided, name: Name)
    requires PossibleRun(policy, events) && Undisturbed(policy, events)
    requires d in Run(policy, events).log && name in d.states
    ensures OwnEvidence(d, name)
  {
    RunGenuine(policy, events);
  }

  /** Main result: the same for every run in which no round raises between storing the inventory and the end of its
      service loop - a round may still raise before and anywhere after, be late, or die. */
  lemma OwnEvidenceAlways(policy: Policy, events: seq<Event>, d: Decided, name: Name)
    requires PossibleRun(policy, events)
    requires forall event <- events :: event.OneRound? ==> event.env.early || LoopDone(policy, event.env)
    requires d in Run(policy, events).log && name in d.states
    ensures OwnEvidence(d, name)
  {
    forall i | 0 <= i < |events| && events[i].OneRound?
      ensures !Disrupts(policy, Run(policy, events[..i]).memory, events[i].env)
    {
      assert events[i] in events;
    }
    NoBorrowedEvidence(policy, events, d, name);
  }

  // ----- The one place where provenance is lost -----

  const SAMPLE := Policy([0], [0], {7}, 1, 100, 10, 5)

  function Container(id: nat): Service {
    Service(id, [Binding(3, 30, 9)], Some(Place(0, id)), Some(100 + id), Some(0), true, 0, [])
  }

  function Calm(start: Time, container: nat, answer: Answer): Env {
    Env(start, true, false, Some(map[0 := Container(container)]), _ => answer, _ => start, _ => start, [], {}, 1, 0,
        9, false)
  }

  function Seen(container: nat): Observation {
    Observation(0, Passed, Some(7), 0, Sha256, Container(container).Id())
  }

  /** Container 1 is started and then probed successfully; container 2 replaces it, but an exception strikes before its
      service is looked at; another round follows. */
  function Script(k: nat): Env {
    if k == 0 then Calm(0, 1, NotDone)
    else if k == 1 then Calm(1, 1, Returned([Seen(1)]))
    else if k == 2 then Calm(2, 2, NotDone).(stopAt := 0)
    else Calm(3, 2, NotDone)
  }

  function Rounds(n: nat): seq<Event> {
    seq(n, i requires 0 <= i < n => OneRound(Script(i)))
  }

  lemma LastRound(n: nat)
    ensures Run(SAMPLE, Rounds(n + 1)) == Next(SAMPLE, Run(SAMPLE, Rounds(n)), OneRound(Script(n)))
  {
    assert Rounds(n + 1) == Rounds(n) + [OneRound(Script(n))];
    RunLast(SAMPLE, Rounds(n), OneRound(Script(n)));
  }

  lemma RunLast(policy: Policy, events: seq<Event>, event: Event)
    ensures Run(policy, events + [event]) == Next(policy, Run(policy, events), event)
  {
    assert (events + [event])[..|events|] == events;
  }

  /** The last round finds the second container compliant on the probe of the first. */
  lemma BorrowedEvidence()
    ensures PossibleRun(SAMPLE, Rounds(4)) && exists d <- Run(SAMPLE, Rounds(4)).log :: Borrows(d)
  {
    var m := Run(SAMPLE, Rounds(3)).memory;
    ThreeRounds(m);
    FourthRound(m);
    LastRound(3);
    RoundLogged(SAMPLE, Run(SAMPLE, Rounds(3)), Script(3));
    ScriptPossible();
  }

  lemma ScriptPossible()
    ensures PossibleRun(SAMPLE, Rounds(4))
  {
    forall event | event in Rounds(4) ensures Possible(SAMPLE, event.env) {
      var k :| 0 <= k < 4 && event == OneRound(Script(k));
    }
  }

  lemma RoundLogged(policy: Policy, w: World, env: Env)
    requires LoopDone(policy, env)
    ensures DecidedBy(policy, w.memory, env) in Next(policy, w, OneRound(env)).log
  {
    assert Next(policy, w, OneRound(env)).log[|w.log|] == DecidedBy(policy, w.memory, env);
  }

  ghost predicate Borrows(d: Decided) {
    0 in d.states && d.states[0].Compliant? && !OwnEvidence(d, 0)
  }

  lemma ThreeRounds(m: Memory)
    requires m == Run(SAMPLE, Rounds(3)).memory
    ensures m.inventory == map[0 := Container(2)] && HoldsFirst(m)
  {
    LastRound(2);
    TwoRounds(Run(SAMPLE, Rounds(2)).memory);
  }

  lemma TwoRounds(m: Memory)
    requires m == Run(SAMPLE, Rounds(2)).memory
    ensures HoldsFirst(m)
  {
    LastRound(0);
    LastRound(1);
    assert Rounds(0) == [];
    FirstRound(Installed().memory);
    SecondRound(Run(SAMPLE, Rounds(1)).memory);
  }

  /** What is stored is the first container's success. */
  predicate HoldsFirst(m: Memory) {
    && Get(m.notes.observations, 0) == Some([Seen(1)])
    && forall url <- m.notes.At(0).passes.GetOr(map[]) :: m.notes.At(0).passes.value[url] == Seen(1)
  }

  lemma FirstRound(m: Memory)
    requires m == Installed().memory
    ensures var after := RoundOf(SAMPLE, m, Script(0)).memory;
            && after.inventory == map[0 := Container(1)] && 0 !in after.notes.passes
            && Get(after.notes.pending, 0) == Some(Container(1).Id())
  {
    var env, inventory := Script(0), map[0 := Container(1)];
    assert SAMPLE.services[..1] == [0];
    NotesAt(SAMPLE, m, inventory, env, 1, 0);
    StatesAt(SAMPLE, m, inventory, env, 1, 0);
    var notes, states := NotesUpTo(SAMPLE, m, inventory, env, 1), StatesUpTo(SAMPLE, m, inventory, env, 1);
    assert notes.At(0) == EMPTY && states[0] == Probing;
    var start := Machine(map[], notes.pending, 9, false, []);
    assert Withdraw(SAMPLE, start, m, inventory, states, true, 0) == start;
    assert Withdraw(SAMPLE, start, m, inventory, states, true, 1) == start;
    var reloaded := start.(calls := 8, made := [ReloadFirewall(states, true)]);
    assert Withdrawn(SAMPLE, start, m, inventory, states, env) == reloaded;
    var granted := GrantKeys(reloaded, Container(1).Keys(), LeaseFor(SAMPLE, 0, Probing, 0), 1);
    assert GrantKeys(reloaded, Container(1).Keys(), LeaseFor(SAMPLE, 0, Probing, 0), 0) == reloaded;
    assert granted.calls == 7 && !granted.raised && granted.pending == notes.pending;
    assert notes.At(0).pending.None? && Get(notes.nextProbe, 0) == Some(0);
    var issued := Issue(SAMPLE, reloaded, 0, Container(1), Probing, Some(0), env);
    assert issued.pending == notes.pending[0 := Container(1).Id()];
    assert IssueAll(SAMPLE, reloaded, notes.nextProbe, inventory, states, env, 0) == reloaded;
    assert IssueAll(SAMPLE, reloaded, notes.nextProbe, inventory, states, env, 1) == issued;
  }

  lemma SecondRound(m: Memory)
    requires m.inventory == map[0 := Container(1)] && Get(m.notes.pending, 0) == Some(Container(1).Id())
               && 0 !in m.notes.passes
    ensures HoldsFirst(RoundOf(SAMPLE, m, Script(1)).memory)
  {
    var env := Calm(1, 1, Returned([Seen(1)]));
    assert SAMPLE.services[..1] == [0];
    NotesAt(SAMPLE, m, map[0 := Container(1)], env, 1, 0);
    assert Stamp([Seen(1)], Container(1).Id()) == [Seen(1)];
    assert m.notes.At(0).pending == Some(Container(1).Id());
    assert [Seen(1)][..0] == [] && PassedOf([Seen(1)]) == map[0 := Seen(1)];
    assert RoundOf(SAMPLE, m, env).memory.notes.passes == NotesUpTo(SAMPLE, m, map[0 := Container(1)], env, 1).passes;
    assert RoundOf(SAMPLE, m, env).memory.notes.observations ==
             NotesUpTo(SAMPLE, m, map[0 := Container(1)], env, 1).observations;
  }

  lemma FourthRound(m: Memory)
    requires m.inventory == map[0 := Container(2)] && HoldsFirst(m)
    ensures Borrows(DecidedBy(SAMPLE, m, Script(3)))
  {
    var env, d := Calm(3, 2, NotDone), DecidedBy(SAMPLE, m, Calm(3, 2, NotDone));
    assert SAMPLE.services[..1] == [0];
    NotesAt(SAMPLE, m, map[0 := Container(2)], env, 1, 0);
    StatesAt(SAMPLE, m, map[0 := Container(2)], env, 1, 0);
    var slot := m.notes.At(0);
    assert NotesUpTo(SAMPLE, m, map[0 := Container(2)], env, 1).At(0) == slot;
    assert Evidence(SAMPLE, slot, 3) == [Seen(1)];
    assert [Seen(1)][..0] == [] && Successes([Seen(1)]) == 1;
    assert Meets(SAMPLE, [Seen(1)], 8);
    assert d.evidence[0][0] == Seen(1);
  }

  // ----- Losing protection closes everything -----

  lemma {:induction false} RevokeKeysGone(m: Machine, keys: seq<Key>, n: nat)
    requires n <= |keys| && !RevokeKeys(m, keys, n).raised
    ensures forall i :: 0 <= i < n ==> keys[i] !in RevokeKeys(m, keys, n).leases
  {
    if n > 0 { RevokeKeysGone(m, keys, n - 1); }
  }

  lemma {:induction false} RevokeAllGone(policy: Policy, m: Machine, inventory: map<Name, Service>, n: nat)
    requires n <= |policy.services| && !RevokeAll(policy, m, inventory, n).raised
    ensures forall i :: 0 <= i < n && policy.services[i] in inventory ==>
              forall key <- inventory[policy.services[i]].Keys() :: key !in RevokeAll(policy, m, inventory, n).leases
  {
    if n > 0 {
      var before, name := RevokeAll(policy, m, inventory, n - 1), policy.services[n - 1];
      if name in inventory {
        var keys := inventory[name].Keys();
        RaisedStays(before, keys, |keys|);
        RevokeAllGone(policy, m, inventory, n - 1);
        RevokeKeysGone(before, keys, |keys|);
        RevokeKeysFewer(before, keys, |keys|);
      } else {
        RevokeAllGone(policy, m, inventory, n - 1);
      }
    }
  }

  lemma {:induction false} RaisedStays(m: Machine, keys: seq<Key>, n: nat)
    requires n <= |keys| && !RevokeKeys(m, keys, n).raised
    ensures !m.raised
  {
    if n > 0 { RaisedStays(m, keys, n - 1); }
  }

  lemma {:induction false} NothingIssued(policy: Policy, m: Machine, nextProbe: map<Name, Time>,
      inventory: map<Name, Service>,
                                         states: map<Name, State>, env: Env, n: nat)
    requires n <= |policy.services| && forall name <- states :: states[name].Blocked?
    ensures IssueAll(policy, m, nextProbe, inventory, states, env, n) == m
  {
    if n > 0 { NothingIssued(policy, m, nextProbe, inventory, states, env, n - 1); }
  }

  lemma {:induction false} SyncRaised(m: Machine, parents: seq<nat>, wanted: set<Addr>, n: nat)
    requires n <= |parents| && m.raised
    ensures SyncAll(m, parents, wanted, n).raised
  {
    if n > 0 { SyncRaised(m, parents, wanted, n - 1); }
  }

  /** A round that finds shared protection lost and gets to its end leaves no lease for any current service. */
  lemma LossCloses(policy: Policy, m: Memory, env: Env, name: Name)
    requires DistinctServices(policy) && LoopDone(policy, env) && !Shared(env) && !RoundOf(policy, m, env).raised
    requires var after := RoundOf(policy, m, env).memory; name in after.inventory && name in policy.services
    ensures var after := RoundOf(policy, m, env).memory;
            forall key <- after.inventory[name].Keys() :: key !in after.leases
  {
    var n, d := |policy.services|, DecidedBy(policy, m, env);
    var notes := NotesUpTo(policy, m, d.inventory, env, n);
    forall other | other in d.states ensures d.states[other].Blocked? {
      StatesAt(policy, m, d.inventory, env, n, other);
    }
    var start := Machine(m.leases, notes.pending, env.calls, false, []);
    var first := Withdraw(policy, start, m, d.inventory, d.states, false, n);
    var withdrawn := Do(RevokeAll(policy, first, d.inventory, n), ReloadFirewall(d.states, false));
    var synced := SyncAll(withdrawn, env.parents, Wanted(env), |env.parents|);
    NothingIssued(policy, synced, notes.nextProbe, d.inventory, d.states, env, n);
    SyncKeeps(withdrawn, env.parents, Wanted(env), |env.parents|);
    if withdrawn.raised { SyncRaised(withdrawn, env.parents, Wanted(env), |env.parents|); }
    RevokeAllGone(policy, first, d.inventory, n);
    var i :| 0 <= i < n && policy.services[i] == name;
  }

  /** Losing protection, or a service becoming invalid, also drops everything remembered of it: nothing seen before
      counts when it comes back. */
  lemma LossForgets(policy: Policy, m: Memory, env: Env, name: Name)
    requires DistinctServices(policy) && LoopDone(policy, env) && name in policy.services
    requires var after := RoundOf(policy, m, env).memory;
             name in after.inventory && (!Shared(env) || !after.inventory[name].valid)
    ensures var slot := RoundOf(policy, m, env).memory.notes.At(name); slot.observations.None? && slot.passes.None?
  {
    var n, inventory, after := |policy.services|, env.inventory.GetOr(m.inventory), RoundOf(policy, m, env).memory;
    NotesAt(policy, m, inventory, env, n, name);
    assert policy.services[..n] == policy.services;
    var notes := NotesUpTo(policy, m, inventory, env, n);
    assert after.notes.observations == notes.observations && after.notes.passes == notes.passes;
    Purged(m.notes.At(name), 4);
    assert notes.At(name) == EMPTY;
  }

  // ----- A completed round leaves exactly its own leases -----

  lemma {:induction false} RevokeAllRaised(policy: Policy, m: Machine, inventory: map<Name, Service>, n: nat)
    requires n <= |policy.services| && !RevokeAll(policy, m, inventory, n).raised
    ensures !m.raised
  {
    if n > 0 {
      var before, name := RevokeAll(policy, m, inventory, n - 1), policy.services[n - 1];
      if name in inventory { RaisedStays(before, inventory[name].Keys(), |inventory[name].Keys()|); }
      RevokeAllRaised(policy, m, inventory, n - 1);
    }
  }

  lemma {:induction false} GrantRaised(m: Machine, keys: seq<Key>, lease: Lease, n: nat)
    requires n <= |keys| && !GrantKeys(m, keys, lease, n).raised
    ensures !m.raised && forall i :: 0 <= i < n ==> keys[i] in GrantKeys(m, keys, lease, n).leases
  {
    if n > 0 { GrantRaised(m, keys, lease, n - 1); }
  }

  lemma {:induction false} IssueRaised(policy: Policy, m: Machine, nextProbe: map<Name, Time>,
                                       inventory: map<Name, Service>,
                                       states: map<Name, State>, env: Env, n: nat)
    requires n <= |policy.services| && !IssueAll(policy, m, nextProbe, inventory, states, env, n).raised
    ensures !m.raised
  {
    if n > 0 {
      var before, name := IssueAll(policy, m, nextProbe, inventory, states, env, n - 1), policy.services[n - 1];
      if name in inventory && name in states && !states[name].Blocked? {
        GrantRaised(before, inventory[name].Keys(), LeaseFor(policy, name, states[name], env.start),
                    |inventory[name].Keys()|);
      }
      IssueRaised(policy, m, nextProbe, inventory, states, env, n - 1);
    }
  }

  lemma {:induction false} WithdrawGone(policy: Policy, m: Machine, earlier: Memory, inventory: map<Name, Service>,
                                        states: map<Name, State>, shared: bool, n: nat, i: nat)
    requires i < n <= |policy.services| && !Withdraw(policy, m, earlier, inventory, states, shared, n).raised
    requires var name := policy.services[i];
             name in earlier.inventory && Withdraws(earlier, inventory, states, shared, name)
    ensures forall key <- earlier.inventory[policy.services[i]].Keys() ::
              key !in Withdraw(policy, m, earlier, inventory, states, shared, n).leases
  {
    var before, name := Withdraw(policy, m, earlier, inventory, states, shared, n - 1), policy.services[n - 1];
    if name in earlier.inventory && Withdraws(earlier, inventory, states, shared, name) {
      var keys := earlier.inventory[name].Keys();
      RaisedStays(before, keys, |keys|);
      RevokeKeysGone(before, keys, |keys|);
      RevokeKeysFewer(before, keys, |keys|);
    }
    if i < n - 1 { WithdrawGone(policy, m, earlier, inventory, states, shared, n - 1, i); }
  }

  /** If the whole tail of a round went through, so did its first part. */
  lemma NothingRaised(policy: Policy, m: Machine, earlier: Memory, nextProbe: map<Name, Time>,
                      inventory: map<Name, Service>,
                      states: map<Name, State>, env: Env)
    requires !env.late && !Announced(policy, m, earlier, nextProbe, inventory, states, env).raised
    ensures !Withdraw(policy, m, earlier, inventory, states, Shared(env), |policy.services|).raised
    ensures var withdrawn := Withdrawn(policy, m, earlier, inventory, states, env);
            var synced := SyncAll(withdrawn, env.parents, Wanted(env), |env.parents|);
            !IssueAll(policy, synced, nextProbe, inventory, states, env, |policy.services|).raised
  {
    var n := |policy.services|;
    var withdrawn := Withdrawn(policy, m, earlier, inventory, states, env);
    var synced := SyncAll(withdrawn, env.parents, Wanted(env), |env.parents|);
    IssueRaised(policy, synced, nextProbe, inventory, states, env, n);
    if withdrawn.raised { SyncRaised(withdrawn, env.parents, Wanted(env), |env.parents|); }
    if !Shared(env) {
      RevokeAllRaised(policy, Withdraw(policy, m, earlier, inventory, states, Shared(env), n), inventory, n);
    }
  }

  /** After a completed round no lease is left from a service whose state, identity, network or anything else but its
      dependencies changed: whatever its old keys still open, this round granted. */
  lemma ChangeWithdraws(policy: Policy, m: Memory, env: Env, name: Name)
    requires DistinctServices(policy) && LoopDone(policy, env) && !RoundOf(policy, m, env).raised
    requires name in policy.services && name in m.inventory
    requires var d := DecidedBy(policy, m, env);
             || !d.shared || Get(d.states, name) != Get(m.leaseStates, name) || name !in d.inventory
             || d.inventory[name].(dependencies := []) != m.inventory[name].(dependencies := [])
    ensures var leases := RoundOf(policy, m, env).memory.leases;
            forall key <- m.inventory[name].Keys() ::
              key in leases ==> exists other :: Backs(policy, DecidedBy(policy, m, env), other, key, leases[key])
  {
    var n, d := |policy.services|, DecidedBy(policy, m, env);
    var notes := NotesUpTo(policy, m, d.inventory, env, n);
    var start := Machine(m.leases, notes.pending, env.calls, false, []);
    NothingRaised(policy, start, m, notes.nextProbe, d.inventory, d.states, env);
    var i :| 0 <= i < n && policy.services[i] == name;
    WithdrawGone(policy, start, m, d.inventory, d.states, Shared(env), n, i);
    AfterWithdrawal(policy, start, m, notes.nextProbe, d, env);
    forall key | key in m.inventory[name].Keys() && key in RoundOf(policy, m, env).memory.leases
      ensures exists other :: Backs(policy, d, other, key, RoundOf(policy, m, env).memory.leases[key])
    {
      assert Accounted(policy, Withdraw(policy, start, m, d.inventory, d.states, Shared(env), n).leases, d, key,
                       RoundOf(policy, m, env).memory.leases[key]);
    }
  }

  lemma AfterWithdrawal(policy: Policy, m: Machine, earlier: Memory, nextProbe: map<Name, Time>, d: Decided, env: Env)
    requires d.start == env.start && !env.late
    ensures AllAccounted(policy, Withdraw(policy, m, earlier, d.inventory, d.states, Shared(env),
              |policy.services|).leases, d,
                         Announced(policy, m, earlier, nextProbe, d.inventory, d.states, env).leases)
  {
    var n := |policy.services|;
    var first := Withdraw(policy, m, earlier, d.inventory, d.states, Shared(env), n);
    RevokeAllFewer(policy, first, d.inventory, n);
    var withdrawn := Withdrawn(policy, m, earlier, d.inventory, d.states, env);
    assert OnlyFewer(first.leases, withdrawn.leases);
    var synced := SyncAll(withdrawn, env.parents, Wanted(env), |env.parents|);
    SyncKeeps(withdrawn, env.parents, Wanted(env), |env.parents|);
    IssuedOnly(policy, synced, nextProbe, d, env, n);
    AccountedThrough(policy, first.leases, withdrawn.leases,
                     IssueAll(policy, synced, nextProbe, d.inventory, d.states, env, n).leases, d);
  }

  /** A completed round that found shared protection lost leaves no lease of any service it knew before, either. */
  lemma LossClosesOld(policy: Policy, m: Memory, env: Env, name: Name)
    requires DistinctServices(policy) && LoopDone(policy, env) && !Shared(env) && !RoundOf(policy, m, env).raised
    requires name in m.inventory && name in policy.services
    ensures forall key <- m.inventory[name].Keys() :: key !in RoundOf(policy, m, env).memory.leases
  {
    var d, leases := DecidedBy(policy, m, env), RoundOf(policy, m, env).memory.leases;
    ChangeWithdraws(policy, m, env, name);
    forall key | key in m.inventory[name].Keys() ensures key !in leases {
      if key in leases {
        var other :| Backs(policy, d, other, key, leases[key]);
        StatesAt(policy, m, d.inventory, env, |policy.services|, other);
      }
    }
  }

  /** `key` is open by a lease that the round which decided `d` grants. */
  ghost predicate Open(policy: Policy, d: Decided, leases: map<Key, Lease>, key: Key) {
    key in leases && exists other :: Backs(policy, d, other, key, leases[key])
  }

  lemma {:induction false} IssuedToAll(policy: Policy, m: Machine, nextProbe: map<Name, Time>, d: Decided, env: Env,
                                       n: nat, i: nat)
    requires i < n <= |policy.services| && d.start == env.start
    requires !IssueAll(policy, m, nextProbe, d.inventory, d.states, env, n).raised
    requires var name := policy.services[i]; name in d.inventory && name in d.states && !d.states[name].Blocked?
    ensures var after := IssueAll(policy, m, nextProbe, d.inventory, d.states, env, n).leases;
            forall key <- d.inventory[policy.services[i]].Keys() :: Open(policy, d, after, key)
  {
    var before, last := IssueAll(policy, m, nextProbe, d.inventory, d.states, env, n - 1), policy.services[n - 1];
    var after := IssueAll(policy, m, nextProbe, d.inventory, d.states, env, n);
    var issues := last in d.inventory && last in d.states;
    if issues { IssueOpens(policy, before, Get(nextProbe, last), d, env, last); }
    if i < n - 1 {
      IssuedToAll(policy, m, nextProbe, d, env, n - 1, i);
      forall key | key in d.inventory[policy.services[i]].Keys() ensures Open(policy, d, after.leases, key) {
        assert Open(policy, d, before.leases, key);
        if issues { StaysOpen(policy, before, Get(nextProbe, last), d, env, last, key); }
      }
    }
  }

  /** Issuing to one service opens its keys. */
  lemma IssueOpens(policy: Policy, m: Machine, nextProbe: Option<Time>, d: Decided, env: Env, name: Name)
    requires name in d.inventory && name in d.states && d.start == env.start
    requires !Issue(policy, m, name, d.inventory[name], d.states[name], nextProbe, env).raised
    ensures !m.raised
    ensures var after := Issue(policy, m, name, d.inventory[name], d.states[name], nextProbe, env).leases;
            !d.states[name].Blocked? ==> forall key <- d.inventory[name].Keys() :: Open(policy, d, after, key)
  {
    if !d.states[name].Blocked? {
      var keys, lease := d.inventory[name].Keys(), LeaseFor(policy, name, d.states[name], env.start);
      GrantRaised(m, keys, lease, |keys|);
      GrantedLast(m, keys, lease, |keys|);
      forall key | key in keys ensures Backs(policy, d, name, key, lease) {
      }
    }
  }

  /** It closes nothing that is open. */
  lemma StaysOpen(policy: Policy, m: Machine, nextProbe: Option<Time>, d: Decided, env: Env, name: Name, key: Key)
    requires name in d.inventory && name in d.states && d.start == env.start
    requires !Issue(policy, m, name, d.inventory[name], d.states[name], nextProbe, env).raised
    requires Open(policy, d, m.leases, key)
    ensures Open(policy, d, Issue(policy, m, name, d.inventory[name], d.states[name], nextProbe, env).leases, key)
  {
    if !d.states[name].Blocked? {
      var keys, lease := d.inventory[name].Keys(), LeaseFor(policy, name, d.states[name], env.start);
      GrantedLast(m, keys, lease, |keys|);
      GrantedOnly(m, keys, lease, |keys|);
      if key in keys { assert Backs(policy, d, name, key, lease); }
    }
  }

  lemma {:induction false} GrantedLast(m: Machine, keys: seq<Key>, lease: Lease, n: nat)
    requires n <= |keys| && !GrantKeys(m, keys, lease, n).raised
    ensures var after := GrantKeys(m, keys, lease, n).leases;
            && (forall i :: 0 <= i < n ==> keys[i] in after && after[keys[i]] == lease)
            && (forall key <- m.leases :: key in after && (after[key] == m.leases[key] || after[key] == lease))
  {
    if n > 0 {
      GrantRaised(m, keys, lease, n);
      GrantedLast(m, keys, lease, n - 1);
    }
  }

  /** After a completed round every key of a compliant or probing service is open to the end of this round's lease. */
  lemma AdmittedGetsLease(policy: Policy, m: Memory, env: Env, name: Name, key: Key)
    requires DistinctServices(policy) && LoopDone(policy, env) && !RoundOf(policy, m, env).raised
               && name in policy.services
    requires var d := DecidedBy(policy, m, env);
             name in d.states && name in d.inventory && !d.states[name].Blocked? && key in d.inventory[name].Keys()
    ensures var leases := RoundOf(policy, m, env).memory.leases;
            && key in leases && leases[key].expires == env.start + policy.lease
            && exists other :: Backs(policy, DecidedBy(policy, m, env), other, key, leases[key])
  {
    var n, d := |policy.services|, DecidedBy(policy, m, env);
    var notes := NotesUpTo(policy, m, d.inventory, env, n);
    var start := Machine(m.leases, notes.pending, env.calls, false, []);
    NothingRaised(policy, start, m, notes.nextProbe, d.inventory, d.states, env);
    var withdrawn := Withdrawn(policy, start, m, d.inventory, d.states, env);
    var synced := SyncAll(withdrawn, env.parents, Wanted(env), |env.parents|);
    var i :| 0 <= i < n && policy.services[i] == name;
    IssuedToAll(policy, synced, notes.nextProbe, d, env, n, i);
    assert Open(policy, d, RoundOf(policy, m, env).memory.leases, key);
  }

  /** And such a key works, if no other service has it too: until the lease ends the filter lets its packets out under
      the service's mark - all of them if the service is compliant, those to the probe addresses if it is probing. */
  lemma AdmittedPasses(policy: Policy, m: Memory, env: Env, name: Name, packet: Packet, probes: set<Addr>, t: Time)
    requires DistinctServices(policy) && LoopDone(policy, env) && !RoundOf(policy, m, env).raised
               && name in policy.services
    requires packet.V4? && !Local(packet) && t < env.start + policy.lease
    requires var d := DecidedBy(policy, m, env);
             && name in d.states && name in d.inventory && !d.states[name].Blocked?
             && packet.key in d.inventory[name].Keys()
             && forall other <- d.inventory :: packet.key in d.inventory[other].Keys() ==> other == name
    ensures var state := DecidedBy(policy, m, env).states[name];
            Gate(packet, RoundOf(policy, m, env).memory.leases, probes, t) ==
              if state == Compliant || packet.destination in probes
              then Accept(Some(Mark(name, state == Probing))) else Drop
  {
    AdmittedGetsLease(policy, m, env, name, packet.key);
    var leases := RoundOf(policy, m, env).memory.leases;
    var other :| Backs(policy, DecidedBy(policy, m, env), other, packet.key, leases[packet.key]);
    assert other == name;
  }

  // ----- What a service is found to be -----

  /** `d` found `name` blocked, compliant or probing as it should. */
  predicate FoundRightly(policy: Policy, d: Decided, name: Name) {
    && name in d.states && name in d.inventory && name in d.evidence && name in d.horizon
    && d.horizon[name] >= d.start + policy.lease
    && (d.states[name] == Blocked <==> !d.shared || !d.inventory[name].valid)
    && (d.states[name] == Compliant <==>
          && d.shared && d.inventory[name].valid
          && Convinces(policy, d.evidence[name], d.horizon[name]))
  }

  lemma DecidedRightly(policy: Policy, m: Memory, env: Env, name: Name)
    requires DistinctServices(policy) && Possible(policy, env)
    requires name in DecidedBy(policy, m, env).inventory && name in policy.services
    ensures FoundRightly(policy, DecidedBy(policy, m, env), name)
  {
    var d := DecidedBy(policy, m, env);
    StatesAt(policy, m, d.inventory, env, |policy.services|, name);
    assert policy.services[..|policy.services|] == policy.services;
    MeetsExactly(policy, d.evidence[name], d.horizon[name]);
  }

  /** Main result: every decision of every run covers exactly the services of its inventory, and finds one blocked if
      and only if protection was lost or the service is invalid, and compliant if and only if neither holds and a quorum
      of different sources convinces to the end of the lease about to be signed. */
  lemma {:induction false} DecidedExactly(policy: Policy, events: seq<Event>, d: Decided, name: Name)
    requires PossibleRun(policy, events) && d in Run(policy, events).log
    ensures name in d.states <==> name in d.inventory
    ensures name in d.inventory ==> FoundRightly(policy, d, name)
  {
    var n := |events| - 1;
    var w := Run(policy, events[..n]);
    if d in w.log {
      DecidedExactly(policy, events[..n], d, name);
    } else {
      var env := events[n].env;
      assert events[n] in events;
      RunInv(policy, events[..n]);
      assert d == DecidedBy(policy, w.memory, env);
      StatesAt(policy, w.memory, d.inventory, env, |policy.services|, name);
      assert policy.services[..|policy.services|] == policy.services;
      if name in d.inventory { DecidedRightly(policy, w.memory, env, name); }
    }
  }

  // ----- The success that counts -----

  /** What a service's probes gave since its memory was last cleared: the results looked at last, and all results
      merged into its passes, one batch after the other. */
  datatype Trace = Trace(latest: Option<seq<Observation>>, merged: seq<Observation>)

  /** The trace after a round reached `n` updates of a service for which a probe of `pending` was under way. */
  function Traced(t: Trace, pending: Option<Identity>, stale: bool, id: Identity, answer: Answer, n: nat): Trace {
    if stale then Trace(if n >= 1 then None else t.latest, if n >= 2 then [] else t.merged)
    else if pending != Some(id) then t
    else match answer
      case NotDone => t
      case ProbeRaised => Trace(if n >= 2 then None else t.latest, if n >= 3 then [] else t.merged)
      case Returned(results) =>
        Trace(if n >= 2 then Some(Stamp(results, id)) else t.latest,
              if n >= 3 then t.merged + Stamp(results, id) else t.merged)
  }

  /** The trace of `name` over a whole run. */
  function History(policy: Policy, events: seq<Event>, name: Name): Trace {
    if events == [] then Trace(None, [])
    else
      var n := |events| - 1;
      var t := History(policy, events[..n], name);
      match events[n]
      case CleanUp(_) => t
      case Restart => Trace(None, [])
      case OneRound(env) =>
        var m := Run(policy, events[..n]).memory;
        var inventory := env.inventory.GetOr(m.inventory);
        if name !in inventory || name !in policy.services then t
        else Traced(t, m.notes.At(name).pending, Stale(IdOf(m.inventory, name), inventory[name], Shared(env)),
                    inventory[name].Id(), env.answers(name), Reached(policy, env, name))
  }

  /** A slot holds the latest results and, per source, the success merged last. */
  ghost predicate Tells(slot: Slot, t: Trace) {
    && slot.observations == t.latest
    && forall url {:trigger LastPassed(t.merged, url)} ::
      Get(slot.passes.GetOr(map[]), url) == LastPassed(t.merged, url)
  }

  lemma TellsAfter(policy: Policy, slot: Slot, before: Option<Identity>, service: Service, shared: bool, answer: Answer,
                   now: Time, n: nat, t: Trace)
    requires Tells(slot, t)
    ensures Tells(Refresh(policy, slot, before, service, shared, answer, now, n),
                  Traced(t, slot.pending, Stale(before, service, shared), service.Id(), answer, n))
  {
    var id, edits := service.Id(), Edits(policy, slot, before, service, shared, answer, now);
    if Stale(before, service, shared) {
      Purged(slot, Least(n, 4));
    } else {
      Collected(policy, slot, id, answer, now, Least(n, |edits|));
      if answer.Returned? { MergedLast(slot.passes.GetOr(map[]), t.merged, Stamp(answer.results, id)); }
    }
  }

  lemma MergedLast(passes: map<Url, Observation>, merged: seq<Observation>, results: seq<Observation>)
    requires forall url :: Get(passes, url) == LastPassed(merged, url)
    ensures forall url :: Get(passes + PassedOf(results), url) == LastPassed(merged + results, url)
  {
    forall url ensures Get(passes + PassedOf(results), url) == LastPassed(merged + results, url) {
      PassedIsLast(results, url);
      LastOfBoth(merged, results, url);
    }
  }

  /** Main result: over any run, the guard keeps of every source exactly the success it received last since the
      service's memory was cleared - by a change, a loss of protection, a probe that raised or a restart. */
  lemma {:induction false} MostRecentSuccess(policy: Policy, events: seq<Event>, name: Name)
    requires DistinctServices(policy)
    ensures Tells(Run(policy, events).memory.notes.At(name), History(policy, events, name))
  {
    if events != [] {
      var n := |events| - 1;
      MostRecentSuccess(policy, events[..n], name);
      if events[n].OneRound? { TellsRound(policy, events[..n], events[n].env, name); }
    }
  }

  lemma TellsRound(policy: Policy, events: seq<Event>, env: Env, name: Name)
    requires DistinctServices(policy) && Tells(Run(policy, events).memory.notes.At(name), History(policy, events, name))
    ensures Tells(RoundOf(policy, Run(policy, events).memory, env).memory.notes.At(name),
                  History(policy, events + [OneRound(env)], name))
  {
    var m := Run(policy, events).memory;
    var inventory := env.inventory.GetOr(m.inventory);
    assert (events + [OneRound(env)])[..|events|] == events;
    SlotLeft(policy, m, env, name);
    if name in inventory && name in policy.services {
      TellsAfter(policy, m.notes.At(name), IdOf(m.inventory, name), inventory[name], Shared(env), env.answers(name),
                 env.start,
                 Reached(policy, env, name), History(policy, events, name));
    }
  }

  /** Every decision of a run judges a source by the success received last, while that is fresh to the end of the
      lease, and otherwise by the last answer of the source, success or not. */
  lemma JudgedByIt(policy: Policy, events: seq<Event>, env: Env, name: Name)
    requires DistinctServices(policy) && LoopDone(policy, env)
    requires name in DecidedBy(policy, Run(policy, events).memory, env).states
    ensures var d := DecidedBy(policy, Run(policy, events).memory, env);
            var t := History(policy, events + [OneRound(env)], name);
            var latest := t.latest.GetOr([]);
            && d in Run(policy, events + [OneRound(env)]).log && |d.evidence[name]| == |latest|
            && forall i :: 0 <= i < |latest| ==>
                 d.evidence[name][i] == Best(policy, t, latest[i], env.clock(name) + policy.lease)
  {
    var m := Run(policy, events).memory;
    var all := events + [OneRound(env)];
    assert all[..|events|] == events;
    RoundLogged(policy, Run(policy, events), env);
    MostRecentSuccess(policy, all, name);
    var d := DecidedBy(policy, m, env);
    var slot := NotesUpTo(policy, m, d.inventory, env, |policy.services|).At(name);
    assert Tells(slot, History(policy, all, name)) by {
      var after := RoundOf(policy, m, env).memory.notes.At(name);
      assert slot.observations == after.observations && slot.passes == after.passes;
    }
    EvidenceTold(policy, slot, History(policy, all, name), env.clock(name));
  }

  function Best(policy: Policy, t: Trace, item: Observation, horizon: Time): Observation {
    var best := LastPassed(t.merged, item.url);
    if best.Some? && Fresh(policy, best.value, horizon) then best.value else item
  }

  lemma EvidenceTold(policy: Policy, slot: Slot, t: Trace, clock: Time)
    requires Tells(slot, t)
    ensures var latest, evidence := t.latest.GetOr([]), Evidence(policy, slot, clock);
            |evidence| == |latest| && forall i :: 0 <= i < |latest| ==>
                evidence[i] == Best(policy, t, latest[i], clock + policy.lease)
  {
    var latest := t.latest.GetOr([]);
    forall i | 0 <= i < |latest| ensures Evidence(policy, slot, clock)[i] ==
        Best(policy, t, latest[i], clock + policy.lease) {
      assert Get(slot.passes.GetOr(map[]), latest[i].url) == LastPassed(t.merged, latest[i].url);
    }
  }
}
