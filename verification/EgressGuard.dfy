/**
 One round of the origin's egress guard: what it remembers of each service, what it tells the kernel, and
 where it can be cut short. `RoundOf` is the round as a function, `Guard.Step` the code.
 */
module EgressGuard {
  import opened Prelude
  import opened EgressEvidence

  const RETRY: Time := 3_000_000_000

  datatype State = Compliant | Probing | Blocked

  /** What the guard remembers of one service: `pending` is the identity a running probe was launched for. */
  datatype Slot = Slot(observations: Option<seq<Observation>>, passes: Option<map<Url, Observation>>,
                       pending: Option<Identity>, nextProbe: Option<Time>)

  /** The guard's dictionaries. */
  datatype Notes = Notes(observations: map<Name, seq<Observation>>, passes: map<Name, map<Url, Observation>>,
                         pending: map<Name, Identity>, nextProbe: map<Name, Time>)
  {
    function At(name: Name): Slot {
      Slot(Get(observations, name), Get(passes, name), Get(pending, name), Get(nextProbe, name))
    }

    function Put(name: Name, slot: Slot): Notes {
      Notes(Set(observations, name, slot.observations), Set(passes, name, slot.passes),
            Set(pending, name, slot.pending), Set(nextProbe, name, slot.nextProbe))
    }
  }

  function Get<V>(m: map<Name, V>, name: Name): Option<V> {
    if name in m then Some(m[name]) else None
  }

  function Set<V>(m: map<Name, V>, name: Name, v: Option<V>): map<Name, V> {
    if v.Some? then m[name := v.value] else m - {name}
  }

  lemma PutGet(notes: Notes, name: Name, slot: Slot, other: Name)
    ensures notes.Put(name, slot).At(other) == if other == name then slot else notes.At(other)
  {
  }

  lemma SetTwice<V>(m: map<Name, V>, name: Name, a: Option<V>, b: Option<V>)
    ensures Set(Set(m, name, a), name, b) == Set(m, name, b) && Set(m, name, Get(m, name)) == m
  {
  }

  lemma PutTwice(notes: Notes, name: Name, a: Slot, b: Slot)
    ensures notes.Put(name, a).Put(name, b) == notes.Put(name, b) && notes.Put(name, notes.At(name)) == notes
  {
    SetTwice(notes.observations, name, a.observations, b.observations);
    SetTwice(notes.passes, name, a.passes, b.passes);
    SetTwice(notes.pending, name, a.pending, b.pending);
    SetTwice(notes.nextProbe, name, a.nextProbe, b.nextProbe);
  }

  /** The state of a probe's future when the round looks at it. */
  datatype Answer = NotDone | ProbeRaised | Returned(results: seq<Observation>)

  /** What one round meets. `early`: an exception before the inventory is stored. `inventory`: `None` if it cannot be
      read. `stopAt`: how many services the service loop gets through before an exception, if fewer than all, and
      `within`: how many dictionary updates of the next service still happen. `calls`: how many of the later calls
      succeed before one raises. `probes`: the addresses the probe names resolve to. `late`: the round outlived its
      lease. */
  datatype Env = Env(start: Time, shared: bool, early: bool, inventory: Option<map<Name, Service>>,
                     answers: Name -> Answer, clock: Name -> Time, launchClock: Name -> Time, parents: seq<nat>,
                     probes: set<Addr>, stopAt: nat, within: nat, calls: nat, late: bool)

  /** The guard's memory and the kernel's lease table. */
  datatype Memory = Memory(inventory: map<Name, Service>, notes: Notes, leaseStates: map<Name, State>,
                           leases: map<Key, Lease>)

  // ----- One service -----

  function Stamp(results: seq<Observation>, id: Identity): seq<Observation> {
    seq(|results|, i requires 0 <= i < |results| => results[i].(launchedFor := id))
  }

  const EMPTY := Slot(None, None, None, Some(0))

  predicate AllPassed(results: seq<Observation>) {
    forall o <- results :: o.status.Passed?
  }

  function Due(policy: Policy, now: Time, complete: bool): Time {
    now + if complete then policy.refresh else if RETRY <= policy.refresh then RETRY else policy.refresh
  }

  /** One update of a dictionary at the service's name: a value is stored, `None` pops it. */
  datatype Edit =
    | PutObservations(observations: Option<seq<Observation>>)
    | PutPasses(passes: Option<map<Url, Observation>>)
    | PutPending(pending: Option<Identity>)
    | PutNextProbe(due: Option<Time>)

  function Edited(slot: Slot, edit: Edit): Slot {
    match edit
    case PutObservations(o) => slot.(observations := o)
    case PutPasses(p) => slot.(passes := p)
    case PutPending(p) => slot.(pending := p)
    case PutNextProbe(t) => slot.(nextProbe := t)
  }

  /** The slot after the first `n` updates. */
  function EditedBy(slot: Slot, edits: seq<Edit>, n: nat): Slot
    requires n <= |edits|
  {
    if n == 0 then slot else Edited(EditedBy(slot, edits, n - 1), edits[n - 1])
  }

  function Least(a: nat, b: nat): nat {
    if a <= b then a else b
  }

  /** What the updates of one service start from, what they are, and how many of them happen. */
  datatype Plan = Plan(notes: Notes, edits: seq<Edit>, budget: nat)

  lemma OneEdit(notes: Notes, name: Name, edit: Edit, after: Notes)
    requires match edit
             case PutObservations(o) => after == notes.(observations := Set(notes.observations, name, o))
             case PutPasses(p) => after == notes.(passes := Set(notes.passes, name, p))
             case PutPending(p) => after == notes.(pending := Set(notes.pending, name, p))
             case PutNextProbe(t) => after == notes.(nextProbe := Set(notes.nextProbe, name, t))
    ensures after == notes.Put(name, Edited(notes.At(name), edit))
  {
    PutTwice(notes, name, EMPTY, EMPTY);
  }

  /** Everything seen of a service is forgotten, in this order. */
  const PURGE := [PutObservations(None), PutPasses(None), PutNextProbe(Some(0)), PutPending(None)]

  /** Takes in a finished probe; one launched for another identity is thrown away. */
  function Collecting(policy: Policy, slot: Slot, id: Identity, answer: Answer, now: Time): seq<Edit> {
    if slot.pending.None? || answer.NotDone? then []
    else if slot.pending.value != id then [PutPending(None)]
    else match answer
      case Returned(results) =>
        var stamped := Stamp(results, id);
        [PutPending(None), PutObservations(Some(stamped)),
         PutPasses(Some(slot.passes.GetOr(map[]) + PassedOf(stamped))),
         PutNextProbe(Some(Due(policy, now, AllPassed(results))))]
      case _ => [PutPending(None), PutObservations(None), PutPasses(None), PutNextProbe(Some(Due(policy, now, false)))]
  }

  predicate Stale(before: Option<Identity>, service: Service, shared: bool) {
    !shared || !service.valid || before != Some(service.Id())
  }

  /** The updates a round makes for one service. After a purge no probe is pending, so there is nothing to collect. */
  function Edits(policy: Policy, slot: Slot, before: Option<Identity>, service: Service, shared: bool, answer: Answer,
                 now: Time):
    (edits: seq<Edit>)
    ensures |edits| <= 4
  {
    if Stale(before, service, shared) then PURGE else Collecting(policy, slot, service.Id(), answer, now)
  }

  function IdOf(inventory: map<Name, Service>, name: Name): Option<Identity> {
    if name in inventory then Some(inventory[name].Id()) else None
  }

  /** What a round does to the memory of one service if it gets as far as `n` updates. */
  function Refresh(policy: Policy, slot: Slot, before: Option<Identity>, service: Service, shared: bool, answer: Answer,
                   now: Time, n: nat): Slot
  {
    var edits := Edits(policy, slot, before, service, shared, answer, now);
    EditedBy(slot, edits, Least(n, |edits|))
  }

  /** More updates than a service ever needs. */
  const ALL: nat := 4

  function Evidence(policy: Policy, slot: Slot, clock: Time): seq<Observation> {
    Effective(policy, slot.observations.GetOr([]), slot.passes.GetOr(map[]), clock + policy.lease)
  }

  function StateOf(policy: Policy, slot: Slot, service: Service, shared: bool, clock: Time): State {
    if !shared || !service.valid then Blocked
    else if Meets(policy, Evidence(policy, slot, clock), clock + policy.lease) then Compliant
    else Probing
  }

  // ----- The service loop, after `n` services -----

  function NotesUpTo(policy: Policy, m: Memory, inventory: map<Name, Service>, env: Env, n: nat): Notes
    requires n <= |policy.services|
  {
    if n == 0 then m.notes
    else
      var notes := NotesUpTo(policy, m, inventory, env, n - 1);
      var name := policy.services[n - 1];
      if name !in inventory then notes
      else notes.Put(name, RefreshAt(policy, m, notes.At(name), inventory, env, name, ALL))
  }

  function RefreshAt(policy: Policy, m: Memory, slot: Slot, inventory: map<Name, Service>, env: Env, name: Name,
                     n: nat): Slot
    requires name in inventory
  {
    Refresh(policy, slot, IdOf(m.inventory, name), inventory[name], Shared(env), env.answers(name), env.start, n)
  }

  /** What a loop leaves that raises at the service `stopAt`, after some of its updates. */
  function CutNotes(policy: Policy, m: Memory, inventory: map<Name, Service>, env: Env): Notes
    requires env.stopAt < |policy.services|
  {
    var notes := NotesUpTo(policy, m, inventory, env, env.stopAt);
    var name := policy.services[env.stopAt];
    if name !in inventory then notes
    else notes.Put(name, RefreshAt(policy, m, notes.At(name), inventory, env, name, env.within))
  }

  function StatesUpTo(policy: Policy, m: Memory, inventory: map<Name, Service>, env: Env, n: nat): map<Name, State>
    requires n <= |policy.services|
  {
    if n == 0 then map[]
    else
      var states := StatesUpTo(policy, m, inventory, env, n - 1);
      var name := policy.services[n - 1];
      if name !in inventory then states
      else states[name := StateOf(policy, NotesUpTo(policy, m, inventory, env, n).At(name), inventory[name],
                                  Shared(env), env.clock(name))]
  }

  // ----- The calls that follow -----

  datatype Op =
    | Revoke(key: Key)
    | ReloadFirewall(states: map<Name, State>, shared: bool)
    | SyncProbes(parent: nat, wanted: set<Addr>)
    | Grant(key: Key, lease: Lease)
    | Launch(name: Name, id: Identity)
    | Publish(states: map<Name, State>, shared: bool, validUntil: Time)

  /** What the calls act on, and which of them have been made. `calls` more succeed. */
  datatype Machine = Machine(leases: map<Key, Lease>, pending: map<Name, Identity>, calls: nat, raised: bool,
                             made: seq<Op>)

  /** Once a call has raised, the ones behind it are not made. */
  function Do(m: Machine, op: Op): Machine {
    if m.raised then m
    else if m.calls == 0 then m.(raised := true)
    else
      var left := m.(calls := m.calls - 1, made := m.made + [op]);
      match op
      case Revoke(key) => left.(leases := m.leases - {key})
      case Grant(key, lease) => left.(leases := m.leases[key := lease])
      case Launch(name, id) => left.(pending := m.pending[name := id])
      case _ => left
  }

  function RevokeKeys(m: Machine, keys: seq<Key>, n: nat): Machine
    requires n <= |keys|
  {
    if n == 0 then m else Do(RevokeKeys(m, keys, n - 1), Revoke(keys[n - 1]))
  }

  /** `revoke` on one service. */
  function RevokeService(m: Machine, service: Service): Machine {
    RevokeKeys(m, service.Keys(), |service.Keys()|)
  }

  function RevokeAll(policy: Policy, m: Machine, inventory: map<Name, Service>, n: nat): Machine
    requires n <= |policy.services|
  {
    if n == 0 then m
    else
      var before := RevokeAll(policy, m, inventory, n - 1);
      var name := policy.services[n - 1];
      if name in inventory then RevokeService(before, inventory[name]) else before
  }

  /** A service loses its old leases when protection as a whole failed, its state changed, or anything but its
      dependencies did. */
  predicate Withdraws(earlier: Memory, inventory: map<Name, Service>, states: map<Name, State>, shared: bool,
                      name: Name)
    requires name in earlier.inventory
  {
    || !shared
    || Get(states, name) != Get(earlier.leaseStates, name)
    || name !in inventory || inventory[name].LeaseView() != earlier.inventory[name].LeaseView()
  }

  function Withdraw(policy: Policy, m: Machine, earlier: Memory, inventory: map<Name, Service>,
                    states: map<Name, State>, shared: bool, n: nat): Machine
    requires n <= |policy.services|
  {
    if n == 0 then m
    else
      var before := Withdraw(policy, m, earlier, inventory, states, shared, n - 1);
      var name := policy.services[n - 1];
      if name in earlier.inventory && Withdraws(earlier, inventory, states, shared, name)
          then RevokeService(before, earlier.inventory[name]) else before
  }

  function SyncAll(m: Machine, parents: seq<nat>, wanted: set<Addr>, n: nat): Machine
    requires n <= |parents|
  {
    if n == 0 then m else Do(SyncAll(m, parents, wanted, n - 1), SyncProbes(parents[n - 1], wanted))
  }

  /** The probe addresses that are to be let through: none without shared protection. */
  function Wanted(env: Env): set<Addr> {
    if Shared(env) then env.probes else {}
  }

  function LeaseFor(policy: Policy, name: Name, state: State, start: Time): Lease {
    Lease(start + policy.lease, Mark(name, state.Probing?), state.Probing?)
  }

  function GrantKeys(m: Machine, keys: seq<Key>, lease: Lease, n: nat): Machine
    requires n <= |keys|
  {
    if n == 0 then m else Do(GrantKeys(m, keys, lease, n - 1), Grant(keys[n - 1], lease))
  }

  function Issue(policy: Policy, m: Machine, name: Name, service: Service, state: State, nextProbe: Option<Time>,
                 env: Env): Machine {
    if state.Blocked? then m
    else
      var granted := GrantKeys(m, service.Keys(), LeaseFor(policy, name, state, env.start), |service.Keys()|);
      var due := name !in m.pending && env.launchClock(name) >= nextProbe.GetOr(0);
      if due then Do(granted, Launch(name, service.Id())) else granted
  }

  function IssueAll(policy: Policy, m: Machine, nextProbe: map<Name, Time>, inventory: map<Name, Service>,
                    states: map<Name, State>, env: Env, n: nat): Machine
    requires n <= |policy.services|
  {
    if n == 0 then m
    else
      var before := IssueAll(policy, m, nextProbe, inventory, states, env, n - 1);
      var name := policy.services[n - 1];
      if name !in inventory || name !in states then before
      else Issue(policy, before, name, inventory[name], states[name], Get(nextProbe, name), env)
  }

  function Withdrawn(policy: Policy, m: Machine, earlier: Memory, inventory: map<Name, Service>,
                     states: map<Name, State>, env: Env): Machine {
    var n := |policy.services|;
    var first := Withdraw(policy, m, earlier, inventory, states, Shared(env), n);
    var second := if Shared(env) then first else RevokeAll(policy, first, inventory, n);
    var third := Do(second, ReloadFirewall(states, Shared(env)));
    if env.late then RevokeAll(policy, third, inventory, n) else third
  }

  function Announced(policy: Policy, m: Machine, earlier: Memory, nextProbe: map<Name, Time>,
                     inventory: map<Name, Service>,
                     states: map<Name, State>, env: Env): Machine
  {
    var withdrawn := Withdrawn(policy, m, earlier, inventory, states, env);
    if env.late then withdrawn
    else
      var synced := SyncAll(withdrawn, env.parents, Wanted(env), |env.parents|);
      Do(IssueAll(policy, synced, nextProbe, inventory, states, env, |policy.services|),
         Publish(states, Shared(env), env.start + policy.lease))
  }

  // ----- The round -----

  predicate Shared(env: Env) {
    env.shared && env.inventory.Some?
  }

  predicate LoopDone(policy: Policy, env: Env) {
    !env.early && env.stopAt >= |policy.services|
  }

  datatype Round = Round(memory: Memory, raised: bool)

  /** `step`. A round that raises leaves behind whatever it had done by then. */
  function RoundOf(policy: Policy, m: Memory, env: Env): Round {
    var inventory := env.inventory.GetOr(m.inventory);
    if env.early then Round(m, true)
    else if !LoopDone(policy, env) then
      Round(m.(inventory := inventory, notes := CutNotes(policy, m, inventory, env)), true)
    else
      var notes := NotesUpTo(policy, m, inventory, env, |policy.services|);
      var states := StatesUpTo(policy, m, inventory, env, |policy.services|);
      var end := Announced(policy, Machine(m.leases, notes.pending, env.calls, false, []), m, notes.nextProbe,
                           inventory, states, env);
      var raised := end.raised || env.late;
      var leaseStates := if raised then m.leaseStates else states;
      Round(Memory(inventory, notes.(pending := end.pending), leaseStates, end.leases), raised)
  }

  // ----- The code -----

  class Guard {
    const policy: Policy
    var inventory: map<Name, Service>
    var observations: map<Name, seq<Observation>>
    var passes: map<Name, map<Url, Observation>>
    var pending: map<Name, Identity>
    var nextProbe: map<Name, Time>
    var leaseStates: map<Name, State>
    /** The kernel's table, and how many more calls on it and its surroundings succeed. */
    var leases: map<Key, Lease>
    var calls: nat
    var raised: bool
    ghost var made: seq<Op>

    ghost function Remembered(): Notes
      reads this
    {
      Notes(observations, passes, pending, nextProbe)
    }

    ghost function Snapshot(): Memory
      reads this
    {
      Memory(inventory, Remembered(), leaseStates, leases)
    }

    ghost function Kernel(): Machine
      reads this
    {
      Machine(leases, pending, calls, raised, made)
    }

    /** A guard process that has just started over an existing kernel table. */
    constructor (policy: Policy, leases: map<Key, Lease>)
      ensures this.policy == policy
      ensures Snapshot() == Memory(map[], Notes(map[], map[], map[], map[]), map[], leases)
    {
      this.policy, this.leases, calls, raised, made := policy, leases, 0, false, [];
      inventory, observations, passes, pending, nextProbe, leaseStates := map[], map[], map[], map[], map[], map[];
    }

    /** `i` of the updates `plan.edits` have been reached since the dictionaries were `plan.notes`; `left` more
        succeed. */
    ghost predicate Underway(name: Name, plan: Plan, i: nat, left: nat)
      reads this
    {
      && i <= |plan.edits| && left == (if plan.budget <= i then 0 else plan.budget - i)
      && Remembered() == plan.notes.Put(name, EditedBy(plan.notes.At(name), plan.edits, Least(i, plan.budget)))
    }

    /** One dictionary update, if it is still reached. */
    method Update(name: Name, edit: Edit, left: nat, ghost plan: Plan, ghost i: nat) returns (rest: nat)
      requires Underway(name, plan, i, left) && i < |plan.edits| && plan.edits[i] == edit
      modifies `observations, `passes, `pending, `nextProbe
      ensures Underway(name, plan, i + 1, rest)
    {
      if left == 0 { return 0; }
      ghost var before := Remembered();
      match edit {
        case PutObservations(o) => observations := Set(observations, name, o);
        case PutPasses(p) => passes := Set(passes, name, p);
        case PutPending(p) => pending := Set(pending, name, p);
        case PutNextProbe(t) => nextProbe := Set(nextProbe, name, t);
      }
      OneEdit(before, name, edit, Remembered());
      PutTwice(plan.notes, name, EditedBy(plan.notes.At(name), plan.edits, i),
               EditedBy(plan.notes.At(name), plan.edits, i + 1));
      rest := left - 1;
    }

    /** What is remembered of a service that is not the one seen before is dropped. */
    method Purge(name: Name, budget: nat)
      modifies `observations, `passes, `pending, `nextProbe
      ensures Remembered() == old(Remembered()).Put(name, EditedBy(old(Remembered()).At(name), PURGE, Least(budget, 4)))
    {
      ghost var plan := Plan(Remembered(), PURGE, budget);
      PutTwice(plan.notes, name, EMPTY, EMPTY);
      var left := Update(name, PutObservations(None), budget, plan, 0);
      left := Update(name, PutPasses(None), left, plan, 1);
      left := Update(name, PutNextProbe(Some(0)), left, plan, 2);
      left := Update(name, PutPending(None), left, plan, 3);
    }

    /** A finished probe is taken in. */
    method CollectProbe(name: Name, identity: Identity, answer: Answer, now: Time, budget: nat)
      modifies `observations, `passes, `pending, `nextProbe
      ensures var slot := old(Remembered()).At(name);
              var edits := Collecting(policy, slot, identity, answer, now);
              Remembered() == old(Remembered()).Put(name, EditedBy(slot, edits, Least(budget, |edits|)))
    {
      ghost var plan := Plan(Remembered(), Collecting(policy, Remembered().At(name), identity, answer, now), budget);
      PutTwice(plan.notes, name, EMPTY, EMPTY);
      if name !in pending || answer.NotDone? { return; }
      var launched := pending[name];
      var seen := if name in passes then passes[name] else map[];
      var left := Update(name, PutPending(None), budget, plan, 0);
      if launched != identity { return; }
      var complete := false;
      if answer.Returned? {
        var results := Stamp(answer.results, identity);
        left := Update(name, PutObservations(Some(results)), left, plan, 1);
        left := Update(name, PutPasses(Some(seen + PassedOf(results))), left, plan, 2);
        complete := AllPassed(answer.results);
      } else {
        left := Update(name, PutObservations(None), left, plan, 1);
        left := Update(name, PutPasses(None), left, plan, 2);
      }
      left := Update(name, PutNextProbe(Some(Due(policy, now, complete))), left, plan, 3);
    }

    /** The dictionaries in one round of the service loop, of whose updates `budget` happen. After a purge no probe is
        pending, so collecting does nothing. */
    method RefreshOne(name: Name, service: Service, before: Option<Identity>, shared: bool, answer: Answer, now: Time,
                      budget: nat)
      modifies `observations, `passes, `pending, `nextProbe
      ensures Remembered() ==
                old(Remembered()).Put(name,
                                      Refresh(policy, old(Remembered()).At(name), before, service, shared, answer, now,
                                              budget))
    {
      var identity := service.Id();
      if !shared || !service.valid || before != Some(identity) {
        Purge(name, budget);
      } else {
        CollectProbe(name, identity, answer, now, budget);
      }
    }

    /** How the observations of a service are judged, up to the end of the lease about to be signed. */
    method Judge(name: Name, service: Service, shared: bool, clock: Time) returns (state: State)
      ensures state == StateOf(policy, Remembered().At(name), service, shared, clock)
      ensures state == Blocked <==> !shared || !service.valid
      ensures state == Compliant <==>
              && shared && service.valid
              && Convinces(policy, Evidence(policy, Remembered().At(name), clock), clock + policy.lease)
    {
      var horizon := clock + policy.lease;
      var evidence := EffectiveObservations(policy, if name in observations then observations[name] else [],
                                            if name in passes then passes[name] else map[], horizon);
      var enough := ObservationsCompliant(policy, evidence, horizon);
      MeetsExactly(policy, evidence, horizon);
      state := if shared && service.valid && enough then Compliant else if shared && service.valid then Probing
          else Blocked;
    }

    method ServiceLoop(ghost m: Memory, previous: map<Name, Service>, shared: bool, env: Env)
      returns (states: map<Name, State>)
      requires m.notes == Remembered() && m.inventory == previous && shared == Shared(env)
      modifies `observations, `passes, `pending, `nextProbe
      ensures if env.stopAt < |policy.services| then Remembered() == CutNotes(policy, m, inventory, env)
              else && Remembered() == NotesUpTo(policy, m, inventory, env, |policy.services|)
                   && states == StatesUpTo(policy, m, inventory, env, |policy.services|)
    {
      states := map[];
      for k := 0 to |policy.services|
        invariant k <= env.stopAt
        invariant Remembered() == NotesUpTo(policy, m, inventory, env, k)
                    && states == StatesUpTo(policy, m, inventory, env, k)
      {
        var name := policy.services[k];
        if name in inventory {
          RefreshOne(name, inventory[name], IdOf(previous, name), shared, env.answers(name), env.start,
                     if k < env.stopAt then ALL else env.within);
        }
        if k == env.stopAt { return; }
        if name in inventory {
          var state := Judge(name, inventory[name], shared, env.clock(name));
          states := states[name := state];
        }
      }
    }

    /** One call that can raise. */
    method Call(op: Op)
      modifies `leases, `pending, `calls, `raised, `made
      ensures Kernel() == Do(old(Kernel()), op)
    {
      if raised { return; }
      if calls == 0 {
        raised := true;
        return;
      }
      calls, made := calls - 1, made + [op];
      match op {
        case Revoke(key) => leases := leases - {key};
        case Grant(key, lease) => leases := leases[key := lease];
        case Launch(name, id) => pending := pending[name := id];
        case _ =>
      }
    }

    method RevokeOne(service: Service)
      modifies `leases, `pending, `calls, `raised, `made
      ensures Kernel() == RevokeService(old(Kernel()), service)
    {
      var keys := service.Keys();
      for i := 0 to |keys|
        invariant Kernel() == RevokeKeys(old(Kernel()), keys, i)
      {
        Call(Revoke(keys[i]));
      }
    }

    method RevokeInventory()
      modifies `leases, `pending, `calls, `raised, `made
      ensures Kernel() == RevokeAll(policy, old(Kernel()), inventory, |policy.services|)
    {
      for i := 0 to |policy.services|
        invariant Kernel() == RevokeAll(policy, old(Kernel()), inventory, i)
      {
        if policy.services[i] in inventory { RevokeOne(inventory[policy.services[i]]); }
      }
    }

    method WithdrawOld(ghost m: Memory, previous: map<Name, Service>, states: map<Name, State>, shared: bool)
      requires m.inventory == previous && m.leaseStates == leaseStates
      modifies `leases, `pending, `calls, `raised, `made
      ensures Kernel() == Withdraw(policy, old(Kernel()), m, inventory, states, shared, |policy.services|)
    {
      for i := 0 to |policy.services|
        invariant Kernel() == Withdraw(policy, old(Kernel()), m, inventory, states, shared, i)
      {
        var name := policy.services[i];
        if name in previous {
          var changed := name !in inventory || inventory[name].LeaseView() != previous[name].LeaseView();
          if !shared || changed || Get(states, name) != Get(leaseStates, name) { RevokeOne(previous[name]); }
        }
      }
    }

    method IssueOne(name: Name, service: Service, state: State, env: Env)
      modifies `leases, `pending, `calls, `raised, `made
      ensures Kernel() == Issue(policy, old(Kernel()), name, service, state, Get(nextProbe, name), env)
    {
      if state.Blocked? { return; }
      var keys := service.Keys();
      var idle := name !in pending;
      for i := 0 to |keys|
        invariant Kernel() == GrantKeys(old(Kernel()), keys, LeaseFor(policy, name, state, env.start), i)
      {
        Call(Grant(keys[i], LeaseFor(policy, name, state, env.start)));
      }
      if idle && env.launchClock(name) >= Get(nextProbe, name).GetOr(0) { Call(Launch(name, service.Id())); }
    }

    /** Old leases go before the firewall changes; a round that has outlived its lease goes no further. */
    method WithdrawAndReload(ghost m: Memory, previous: map<Name, Service>, states: map<Name, State>, shared: bool,
                             env: Env)
      requires m.inventory == previous && m.leaseStates == leaseStates && shared == Shared(env)
      modifies `leases, `pending, `calls, `raised, `made
      ensures Kernel() == Withdrawn(policy, old(Kernel()), m, inventory, states, env)
    {
      WithdrawOld(m, previous, states, shared);
      if !shared { RevokeInventory(); }
      Call(ReloadFirewall(states, shared));
      if env.late { RevokeInventory(); }
    }

    method SyncTables(shared: bool, env: Env)
      requires shared == Shared(env)
      modifies `leases, `pending, `calls, `raised, `made
      ensures Kernel() == SyncAll(old(Kernel()), env.parents, Wanted(env), |env.parents|)
    {
      for i := 0 to |env.parents|
        invariant Kernel() == SyncAll(old(Kernel()), env.parents, Wanted(env), i)
      {
        Call(SyncProbes(env.parents[i], if shared then env.probes else {}));
      }
    }

    method IssueInventory(states: map<Name, State>, env: Env)
      modifies `leases, `pending, `calls, `raised, `made
      ensures Kernel() == IssueAll(policy, old(Kernel()), nextProbe, inventory, states, env, |policy.services|)
    {
      for i := 0 to |policy.services|
        invariant Kernel() == IssueAll(policy, old(Kernel()), nextProbe, inventory, states, env, i)
      {
        var name := policy.services[i];
        if name in inventory && name in states { IssueOne(name, inventory[name], states[name], env); }
      }
    }

    /** The calls at the end of a round. */
    method Announce(ghost m: Memory, previous: map<Name, Service>, states: map<Name, State>, shared: bool, env: Env)
      requires m.inventory == previous && m.leaseStates == leaseStates && shared == Shared(env)
      modifies `leases, `pending, `calls, `raised, `made
      ensures Kernel() == Announced(policy, old(Kernel()), m, nextProbe, inventory, states, env)
    {
      WithdrawAndReload(m, previous, states, shared, env);
      if env.late { return; }
      SyncTables(shared, env);
      IssueInventory(states, env);
      Call(Publish(states, shared, env.start + policy.lease));
    }

    method Step(env: Env) returns (failed: bool)
      modifies this
      ensures Round(Snapshot(), failed) == RoundOf(policy, old(Snapshot()), env)
    {
      calls, raised, made := env.calls, false, [];
      if env.early { return true; }
      var shared := env.shared;
      var previous := inventory;
      if env.inventory.Some? { inventory := env.inventory.value; } else { shared := false; }
      var states := ServiceLoop(old(Snapshot()), previous, shared, env);
      if env.stopAt < |policy.services| { return true; }
      Announce(old(Snapshot()), previous, states, shared, env);
      failed := raised || env.late;
      if !failed { leaseStates := states; }
    }
  }
}
