/**
 When an interrupted deployment can still be closed: from a world in which no process is inside the lock,
 some run clears the active journal exactly under a condition that can be read off the journal and the disk.
 */
module DeployRecovery {
  import opened Prelude
  import opened SwitchTable
  import opened JournalText
  import opened DeployRuns
  import opened DeploySafety

  /** No process is inside the lock. */
  predicate Quiet(s: World) {
    s.lock.None? && forall p <- s.stage :: s.stage[p].Waiting?
  }

  /** Some prepared receipt's path holds something else. */
  predicate Clash(s: World, receipts: seq<Receipt>) {
    exists r <- receipts :: r.path in s.files && s.files[r.path] != r.sha
  }

  /** The journal is beyond automatic recovery: unreadable, or receipts are registered that can no longer be
      completed. */
  ghost predicate Stuck(codec: Codec, s: World, j: Journal) {
    var log := LogOf(codec, j);
    || log.tail.Corrupt?
    || exists receipts :: Registers(log.records, receipts) && (!AllNew(s.disk, j.intent) || Clash(s, receipts))
  }

  // ----- A stuck journal stays -----

  /** Where processes can stand while the journal `j` is stuck. */
  ghost predicate Harmless(codec: Codec, s: World, j: Name, st: Stage)
    requires j in s.journals
  {
    match st
    case Waiting => true
    case Entered => true
    case Finished => true
    case Checking(_, receipts) => st.j == j && Prepared(LogOf(codec, s.journals[j]), receipts)
    case Completing(_, receipts, k) =>
      && st.j == j && Prepared(LogOf(codec, s.journals[j]), receipts) && AllNew(s.disk, s.journals[j].intent)
      && k <= |receipts| && forall i :: 0 <= i < k ==>
        receipts[i].path in s.files && s.files[receipts[i].path] == receipts[i].sha
    case _ => false
  }

  ghost predicate Hopeless(codec: Codec, s: World, j: Name) {
    && Inv(codec, s) && j in s.journals && Stuck(codec, s, s.journals[j])
    && forall p {:trigger Harmless(codec, s, j, s.stage[p])} | p in s.stage :: Harmless(codec, s, j, s.stage[p])
  }

  lemma HopelessAct(codec: Codec, s: World, p: Pid, c: Choice, j: Name)
    requires Sound(codec) && Hopeless(codec, s, j) && p in s.stage && !s.stage[p].Waiting?
    ensures var s' := Next(codec, s, Act(p, c));
            && s'.journals == s.journals && s'.disk == s.disk && p in s'.stage && s'.stage == s.stage[p := s'.stage[p]]
            && Stuck(codec, s', s.journals[j]) && Harmless(codec, s', j, s'.stage[p])
            && (forall q <- s.files :: q in s'.files && s'.files[q] == s.files[q])
  {
    var st := s.stage[p];
    assert Harmless(codec, s, j, st) && Fits(codec, s, st);
    if st.Entered? {
      StuckStartup(codec, s, p, j);
    } else if st.Completing? {
      StuckCompleting(codec, s, p, st, c);
    }
  }

  lemma StuckStartup(codec: Codec, s: World, p: Pid, j: Name)
    requires Sound(codec) && Hopeless(codec, s, j) && p in s.stage
    ensures var s' := Startup(codec, s, p);
            s' == To(s, p, s'.stage[p]) && Harmless(codec, s', j, s'.stage[p])
  {
    var journal := s.journals[j];
    assert JournalInv(codec, s, journal);
    StartupReads(codec, journal);
    assert !LogOf(codec, journal).tail.Corrupt? ==> !NoneRegistered(LogOf(codec, journal).records);
    if |s.journals| <= 1 {
      assert Only(s.journals.Keys) == j;
    }
  }

  lemma StuckCompleting(codec: Codec, s: World, p: Pid, st: Stage, c: Choice)
    requires Sound(codec) && st.Completing? && Hopeless(codec, s, st.j) && p in s.stage && s.stage[p] == st
    ensures var s' := Recover(codec, s, p, st, c);
            && s'.journals == s.journals && s'.disk == s.disk && p in s'.stage && s'.stage == s.stage[p := s'.stage[p]]
            && Stuck(codec, s', s.journals[st.j]) && Harmless(codec, s', st.j, s'.stage[p])
            && (forall q <- s.files :: q in s'.files && s'.files[q] == s.files[q])
  {
    assert Harmless(codec, s, st.j, st);
    ClashAhead(codec, s, st);
    assert JournalInv(codec, s, s.journals[st.j]);
    ValidPrepared(codec, s.journals[st.j], st.receipts, st.k);
    CompletingMoves(codec, s, p, st, c);
    var s' := Recover(codec, s, p, st, c);
    ClashStays(s, s', st.receipts);
    StillStuck(codec, s', s.journals[st.j], st.receipts);
    StillHarmless(codec, s, s', st, s'.stage[p]);
  }

  lemma StillStuck(codec: Codec, s: World, journal: Journal, receipts: seq<Receipt>)
    requires Prepared(LogOf(codec, journal), receipts) && Clash(s, receipts)
    ensures Stuck(codec, s, journal)
  {
  }

  lemma StillHarmless(codec: Codec, s: World, s': World, st: Stage, next: Stage)
    requires st.Completing? && st.j in s.journals && Harmless(codec, s, st.j, st) && st.k < |st.receipts|
    requires s'.journals == s.journals && s'.disk == s.disk
    requires forall q <- s.files :: q in s'.files && s'.files[q] == s.files[q]
    requires var r := st.receipts[st.k];
             !next.Finished? ==>
               next == Completing(st.j, st.receipts, st.k + 1) && r.path in s'.files && s'.files[r.path] == r.sha
    ensures Harmless(codec, s', st.j, next)
  {
  }

  lemma CompletingMoves(codec: Codec, s: World, p: Pid, st: Stage, c: Choice)
    requires p in s.stage && st.Completing? && st.j in s.journals && st.k < |st.receipts|
    requires st.receipts[st.k].sha == st.receipts[st.k].payload
    ensures var s', r := Recover(codec, s, p, st, c), st.receipts[st.k];
            && s' == s.(files := s'.files, stage := s.stage[p := s'.stage[p]])
            && (!s'.stage[p].Finished? ==>
                  s'.stage[p] == Completing(st.j, st.receipts, st.k + 1) && r.path in s'.files
                      && s'.files[r.path] == r.sha)
            && (forall q <- s.files :: q in s'.files && s'.files[q] == s.files[q])
  {
  }

  lemma ClashAhead(codec: Codec, s: World, st: Stage)
    requires st.Completing? && Hopeless(codec, s, st.j) && Harmless(codec, s, st.j, st)
    ensures st.k < |st.receipts| && Clash(s, st.receipts)
  {
    var journal := s.journals[st.j];
    assert JournalInv(codec, s, journal);
    var receipts :| Registers(LogOf(codec, journal).records, receipts) && Clash(s, receipts);
    OnlyOneRegistered(journal.intent, LogOf(codec, journal).records, receipts, st.receipts);
  }

  lemma ClashStays(s: World, s': World, receipts: seq<Receipt>)
    requires Clash(s, receipts) && forall q <- s.files :: q in s'.files && s'.files[q] == s.files[q]
    ensures Clash(s', receipts)
  {
  }

  /** No event takes a stuck journal off the disk or out of its state. */
  lemma HopelessStep(codec: Codec, s: World, event: Event, j: Name)
    requires Sound(codec) && Hopeless(codec, s, j)
    ensures Hopeless(codec, Next(codec, s, event), j)
  {
    var s' := Next(codec, s, event);
    var p := if event.Drift? then 0 else event.pid;
    if event.Act? {
      ActStep(codec, s, p, event.choice);
      if p in s.stage && !s.stage[p].Waiting? { HopelessAct(codec, s, p, event.choice, j); }
    } else {
      OuterStep(codec, s, event);
    }
    forall q | q in s'.stage ensures Harmless(codec, s', j, s'.stage[q]) {
      if q in s.stage { assert Harmless(codec, s, j, s.stage[q]); }
    }
  }

  lemma {:induction false} HopelessRun(codec: Codec, s: World, events: seq<Event>, j: Name)
    requires Sound(codec) && Hopeless(codec, s, j)
    ensures Hopeless(codec, Run(codec, s, events), j)
  {
    if events != [] {
      HopelessRun(codec, s, events[..|events| - 1], j);
      HopelessStep(codec, Run(codec, s, events[..|events| - 1]), events[|events| - 1], j);
    }
  }

  // ----- Any other journal can be closed -----

  ghost predicate Reaches(codec: Codec, s: World, s': World) {
    exists events :: Run(codec, s, events) == s'
  }

  /** Some run from `s` leaves no active journal. */
  ghost predicate CanClose(codec: Codec, s: World) {
    exists s' :: Reaches(codec, s, s') && s'.journals == map[]
  }

  lemma {:induction false} RunAppend(codec: Codec, s: World, first: seq<Event>, rest: seq<Event>)
    ensures Run(codec, s, first + rest) == Run(codec, Run(codec, s, first), rest)
  {
    if rest == [] {
      assert first + rest == first;
    } else {
      var n := |rest| - 1;
      assert (first + rest)[..|first + rest| - 1] == first + rest[..n];
      RunAppend(codec, s, first, rest[..n]);
    }
  }

  lemma ReachesAfter(codec: Codec, s: World, event: Event, end: World)
    requires Reaches(codec, Next(codec, s, event), end)
    ensures Reaches(codec, s, end)
  {
    var events :| Run(codec, Next(codec, s, event), events) == end;
    assert [event][..0] == [];
    assert Run(codec, s, [event]) == Next(codec, Run(codec, s, []), event);
    RunAppend(codec, s, [event], events);
  }

  /** If a journal can be closed after a step, it can be closed before it. */
  lemma CloseAfter(codec: Codec, s: World, event: Event)
    requires CanClose(codec, Next(codec, s, event))
    ensures CanClose(codec, s)
  {
    var end :| Reaches(codec, Next(codec, s, event), end) && end.journals == map[];
    ReachesAfter(codec, s, event, end);
  }

  lemma Closed(codec: Codec, s: World)
    requires s.journals == map[]
    ensures CanClose(codec, s)
  {
    assert Run(codec, s, []) == s;
  }

  /** A step in which every call succeeds and an append of `r` is written out in full. */
  function Smooth(codec: Codec, intent: Intent, r: Record): Choice {
    Choice(NoFault, |codec.render(r)| + 1, true, 0, intent, [])
  }

  /** A process `p` stands at `st` in a world that meets the invariant, with `j` the active journal. */
  ghost predicate Standing(codec: Codec, s: World, p: Pid, j: Name, st: Stage) {
    Inv(codec, s) && p in s.stage && s.stage[p] == st && j in s.journals && s.journals.Keys == {j}
  }

  // ----- A process undoes what it has begun -----

  /** All of these are steps of `p`. */
  predicate StepsOf(p: Pid, events: seq<Event>) {
    forall event <- events :: event.Act? && event.pid == p
  }

  /** No journal is active, and the transaction of `intent` that was open in `s` is undone. */
  predicate Reverted(s: World, end: World, intent: Intent) {
    end.journals == map[] && end.origin == s.origin && RolledBack(end, intent)
  }

  /** Steps of `p` alone can undo the transaction of `intent`. */
  ghost predicate CanUndo(codec: Codec, s: World, p: Pid, intent: Intent) {
    exists events :: StepsOf(p, events) && Reverted(s, Run(codec, s, events), intent)
  }

  lemma UndoAfter(codec: Codec, s: World, p: Pid, c: Choice, intent: Intent)
    requires var s' := Next(codec, s, Act(p, c)); CanUndo(codec, s', p, intent) && s'.origin == s.origin
    ensures CanUndo(codec, s, p, intent)
  {
    var s' := Next(codec, s, Act(p, c));
    var events :| StepsOf(p, events) && Reverted(s', Run(codec, s', events), intent);
    var all := [Act(p, c)] + events;
    assert [Act(p, c)][..0] == [];
    assert Run(codec, s, [Act(p, c)]) == Next(codec, Run(codec, s, []), Act(p, c));
    RunAppend(codec, s, [Act(p, c)], events);
    assert StepsOf(p, all) && Reverted(s, Run(codec, s, all), intent);
  }

  lemma UndoCloses(codec: Codec, s: World, p: Pid, intent: Intent)
    requires CanUndo(codec, s, p, intent)
    ensures CanClose(codec, s)
  {
    var events :| StepsOf(p, events) && Reverted(s, Run(codec, s, events), intent);
    assert Reaches(codec, s, Run(codec, s, events));
  }

  lemma RetiringUndoes(codec: Codec, s: World, p: Pid, j: Name)
    requires Standing(codec, s, p, j, Retiring(j))
    ensures CanUndo(codec, s, p, s.journals[j].intent)
  {
    var intent := s.journals[j].intent;
    var c := Smooth(codec, intent, OtherRecord(0));
    assert RolledBack(s, intent) by {
      assert Fits(codec, s, s.stage[p]) && RollbackInv(s, s.stage[p]) && JournalInv(codec, s, s.journals[j]);
      SettledRollsBack(s, intent);
    }
    var s' := Next(codec, s, Act(p, c));
    assert s' == s.(journals := map[], stage := s'.stage);
    assert Run(codec, s', []) == s' && StepsOf(p, []) && Reverted(s', s', intent);
    UndoAfter(codec, s, p, c, intent);
  }

  lemma Marked(codec: Codec, s: World, p: Pid, j: Name, st: Stage)
    requires Sound(codec) && Standing(codec, s, p, j, st) && (st.RollbackStarting? || st.RollbackMarking?) && st.j == j
    ensures var mark := if st.RollbackStarting? then RollbackBegin else RollbackDone;
            var s' := Next(codec, s, Act(p, Smooth(codec, s.journals[j].intent, MarkRecord(s, j, mark))));
            var next := if st.RollbackStarting? then RollingBack(j, st.plan, |st.plan|, true) else Retiring(j);
            && Standing(codec, s', p, j, next) && s'.disk == s.disk && s'.origin == s.origin
            && s'.journals[j].intent == s.journals[j].intent
  {
    var mark := if st.RollbackStarting? then RollbackBegin else RollbackDone;
    var c := Smooth(codec, s.journals[j].intent, MarkRecord(s, j, mark));
    ActStep(codec, s, p, c);
    assert AmountOf(codec, Write(MarkRecord(s, j, mark), c.count)).Whole?;
  }

  lemma MarkingUndoes(codec: Codec, s: World, p: Pid, j: Name)
    requires Sound(codec) && Standing(codec, s, p, j, RollbackMarking(j))
    ensures CanUndo(codec, s, p, s.journals[j].intent)
  {
    Marked(codec, s, p, j, RollbackMarking(j));
    var c := Smooth(codec, s.journals[j].intent, MarkRecord(s, j, RollbackDone));
    RetiringUndoes(codec, Next(codec, s, Act(p, c)), p, j);
    UndoAfter(codec, s, p, c, s.journals[j].intent);
  }

  /** The rollback loop with `k` entries to go, those behind it settled. */
  lemma {:induction false} RollingUndoes(codec: Codec, s: World, p: Pid, j: Name, plan: seq<Decision>, k: nat)
    requires Sound(codec) && Standing(codec, s, p, j, RollingBack(j, plan, k, true))
    requires forall n :: k <= n < |s.journals[j].intent.entries| ==>
               Decide(s.disk, s.journals[j].intent.entries[n]).Settled()
    ensures CanUndo(codec, s, p, s.journals[j].intent)
    decreases k
  {
    var st := RollingBack(j, plan, k, true);
    var entries := s.journals[j].intent.entries;
    var c := Smooth(codec, s.journals[j].intent, OtherRecord(0));
    var s' := Next(codec, s, Act(p, c));
    ActStep(codec, s, p, c);
    assert RollbackInv(s, st) by { assert Fits(codec, s, s.stage[p]); }
    if k == 0 {
      assert forall e <- entries :: Decide(s.disk, e).Settled();
      MarkingUndoes(codec, s', p, j);
    } else {
      UndoneSmoothly(codec, s, p, j, plan, k);
      RollingUndoes(codec, s', p, j, plan, k - 1);
    }
    UndoAfter(codec, s, p, c, s.journals[j].intent);
  }

  lemma UndoneSmoothly(codec: Codec, s: World, p: Pid, j: Name, plan: seq<Decision>, k: nat)
    requires Sound(codec) && Standing(codec, s, p, j, RollingBack(j, plan, k, true)) && k > 0
    requires RollbackInv(s, RollingBack(j, plan, k, true))
    requires forall n :: k <= n < |s.journals[j].intent.entries| ==>
               Decide(s.disk, s.journals[j].intent.entries[n]).Settled()
    ensures var s' := Next(codec, s, Act(p, Smooth(codec, s.journals[j].intent, OtherRecord(0))));
            && Standing(codec, s', p, j, RollingBack(j, plan, k - 1, true))
            && s'.journals == s.journals && s'.origin == s.origin
            && forall n :: k - 1 <= n < |s.journals[j].intent.entries| ==>
              Decide(s'.disk, s.journals[j].intent.entries[n]).Settled()
  {
    var entries := s.journals[j].intent.entries;
    var c := Smooth(codec, s.journals[j].intent, OtherRecord(0));
    ActStep(codec, s, p, c);
    assert EntriesInv(s.origin.disk, s.disk, entries) by { assert JournalInv(codec, s, s.journals[j]); }
    RollDisk(s.origin.disk, s.disk, entries, plan, k);
    RollNext(codec, s, p, j, plan, k, c);
  }

  lemma RollDisk(origin: Disk, disk: Disk, entries: seq<Entry>, plan: seq<Decision>, k: nat)
    requires EntriesInv(origin, disk, entries) && 0 < k <= |entries| == |plan|
               && plan[k - 1] == Decide(disk, entries[k - 1])
    requires forall n :: k <= n < |entries| ==> Decide(disk, entries[n]).Settled()
    ensures var r := ApplyAction(disk, entries[k - 1], plan[k - 1], NoFault);
            r.ok && forall n :: k - 1 <= n < |entries| ==> Decide(r.disk, entries[n]).Settled()
  {
    CrashClosure(disk, entries[k - 1], NoFault);
    OthersKept(disk, ApplyAction(disk, entries[k - 1], plan[k - 1], NoFault).disk, entries, k - 1);
  }

  lemma RollNext(codec: Codec, s: World, p: Pid, j: Name, plan: seq<Decision>, k: nat, c: Choice)
    requires p in s.stage && s.stage[p] == RollingBack(j, plan, k, true) && j in s.journals && c.fault.NoFault?
    requires 0 < k <= |s.journals[j].intent.entries| && k <= |plan|
    ensures var r := ApplyAction(s.disk, s.journals[j].intent.entries[k - 1], plan[k - 1], NoFault);
            Next(codec, s, Act(p, c)) == To(s.(disk := r.disk), p, RollingBack(j, plan, k - 1, r.ok))
  {
  }

  lemma PlanningUndoes(codec: Codec, s: World, p: Pid, j: Name)
    requires Sound(codec) && Standing(codec, s, p, j, Planning(j))
    ensures CanUndo(codec, s, p, s.journals[j].intent)
  {
    var intent := s.journals[j].intent;
    var plan := Plan(s.disk, intent.entries);
    var c := Smooth(codec, intent, OtherRecord(0));
    ActStep(codec, s, p, c);
    NothingBlocked(codec, s, j);
    var s1 := Next(codec, s, Act(p, c));
    assert s1 == To(s, p, RollbackStarting(j, plan));
    Marked(codec, s1, p, j, RollbackStarting(j, plan));
    var c1 := Smooth(codec, intent, MarkRecord(s1, j, RollbackBegin));
    RollingUndoes(codec, Next(codec, s1, Act(p, c1)), p, j, plan, |plan|);
    UndoAfter(codec, s1, p, c1, intent);
    UndoAfter(codec, s, p, c, intent);
  }

  lemma NothingBlocked(codec: Codec, s: World, j: Name)
    requires Inv(codec, s) && j in s.journals
    ensures forall d <- Plan(s.disk, s.journals[j].intent.entries) :: !d.Blocked()
  {
    assert JournalInv(codec, s, s.journals[j]);
    forall e | e in s.journals[j].intent.entries ensures !Decide(s.disk, e).Blocked() {
      CrashClosure(s.disk, e, NoFault);
    }
  }

  // ----- A process completes what is registered -----

  /** No journal is active, the transaction of `journal` is done, and `p` is ready for another one. */
  ghost predicate Resumed(codec: Codec, s: World, end: World, p: Pid, journal: Journal) {
    && end.journals == map[] && end.origin == s.origin && Committed(codec, end, journal)
    && p in end.stage && end.stage[p].Ready?
  }

  /** Steps of `p` alone can complete the transaction of `journal`. */
  ghost predicate CanComplete(codec: Codec, s: World, p: Pid, journal: Journal) {
    exists events :: StepsOf(p, events) && Resumed(codec, s, Run(codec, s, events), p, journal)
  }

  lemma CompleteAfter(codec: Codec, s: World, p: Pid, c: Choice, journal: Journal)
    requires var s' := Next(codec, s, Act(p, c)); CanComplete(codec, s', p, journal) && s'.origin == s.origin
    ensures CanComplete(codec, s, p, journal)
  {
    var s' := Next(codec, s, Act(p, c));
    var events :| StepsOf(p, events) && Resumed(codec, s', Run(codec, s', events), p, journal);
    var all := [Act(p, c)] + events;
    assert [Act(p, c)][..0] == [];
    assert Run(codec, s, [Act(p, c)]) == Next(codec, Run(codec, s, []), Act(p, c));
    RunAppend(codec, s, [Act(p, c)], events);
    assert StepsOf(p, all) && Resumed(codec, s, Run(codec, s, all), p, journal);
  }

  lemma CompleteCloses(codec: Codec, s: World, p: Pid, journal: Journal)
    requires CanComplete(codec, s, p, journal)
    ensures CanClose(codec, s)
  {
    var events :| StepsOf(p, events) && Resumed(codec, s, Run(codec, s, events), p, journal);
    assert Reaches(codec, s, Run(codec, s, events));
  }

  lemma ClearingCompletes(codec: Codec, s: World, p: Pid, j: Name, receipts: seq<Receipt>)
    requires Standing(codec, s, p, j, Clearing(j, receipts))
    ensures CanComplete(codec, s, p, s.journals[j])
  {
    var c := Smooth(codec, s.journals[j].intent, OtherRecord(0));
    ClearingCommitted(codec, s, p, j, receipts);
    ClearingNext(codec, s, p, j, receipts, c);
    var s' := Next(codec, s, Act(p, c));
    assert Run(codec, s', []) == s' && StepsOf(p, []) && Resumed(codec, s', s', p, s.journals[j]);
    CompleteAfter(codec, s, p, c, s.journals[j]);
  }

  lemma ClearingCommitted(codec: Codec, s: World, p: Pid, j: Name, receipts: seq<Receipt>)
    requires Standing(codec, s, p, j, Clearing(j, receipts))
    ensures Committed(codec, s, s.journals[j])
  {
    assert Fits(codec, s, s.stage[p]) && CommitInv(codec, s, s.stage[p]) && JournalInv(codec, s, s.journals[j]);
    NewCommits(codec, s, s.journals[j], receipts);
  }

  lemma ClearingNext(codec: Codec, s: World, p: Pid, j: Name, receipts: seq<Receipt>, c: Choice)
    requires p in s.stage && s.stage[p] == Clearing(j, receipts) && s.journals.Keys == {j} && c.fault.NoFault?
    ensures Next(codec, s, Act(p, c)) == s.(journals := map[], stage := s.stage[p := Ready])
    ensures forall journal :: Committed(codec, s, journal) ==> Committed(codec, Next(codec, s, Act(p, c)), journal)
  {
    assert s.journals - {j} == map[];
  }

  lemma {:induction false} CompletingCompletes(codec: Codec, s: World, p: Pid, j: Name, receipts: seq<Receipt>, k: nat)
    requires Sound(codec) && Standing(codec, s, p, j, Completing(j, receipts, k)) && k <= |receipts|
               && !Clash(s, receipts)
    ensures CanComplete(codec, s, p, s.journals[j])
    decreases |receipts| - k
  {
    var c := Smooth(codec, s.journals[j].intent, OtherRecord(0));
    var s' := Next(codec, s, Act(p, c));
    ActStep(codec, s, p, c);
    if k == |receipts| {
      ClearingCompletes(codec, s', p, j, receipts);
    } else {
      CompletedSmoothly(codec, s, p, j, receipts, k);
      CompletingCompletes(codec, s', p, j, receipts, k + 1);
    }
    CompleteAfter(codec, s, p, c, s.journals[j]);
  }

  lemma CompletedSmoothly(codec: Codec, s: World, p: Pid, j: Name, receipts: seq<Receipt>, k: nat)
    requires Sound(codec) && Standing(codec, s, p, j, Completing(j, receipts, k)) && k < |receipts|
               && !Clash(s, receipts)
    ensures var s' := Next(codec, s, Act(p, Smooth(codec, s.journals[j].intent, OtherRecord(0))));
            && Standing(codec, s', p, j, Completing(j, receipts, k + 1)) && !Clash(s', receipts)
            && s'.journals == s.journals && s'.origin == s.origin
  {
    var c := Smooth(codec, s.journals[j].intent, OtherRecord(0));
    ActStep(codec, s, p, c);
    var intent := s.journals[j].intent;
    assert JournalInv(codec, s, s.journals[j]) && Fits(codec, s, s.stage[p]) && CommitInv(codec, s, s.stage[p]);
    ValidPrepared(codec, s.journals[j], receipts, k);
    assert receipts[k] in receipts;
    CompletedNext(codec, s, p, j, receipts, k, c);
    forall n | 0 <= n < |receipts| && n != k ensures receipts[n].path != receipts[k].path {
      if n < k { DistinctPaths(intent, receipts, n, k); } else { DistinctPaths(intent, receipts, k, n); }
    }
  }

  lemma CompletedNext(codec: Codec, s: World, p: Pid, j: Name, receipts: seq<Receipt>, k: nat, c: Choice)
    requires p in s.stage && s.stage[p] == Completing(j, receipts, k) && j in s.journals && c.fault.NoFault?
    requires k < |receipts| && receipts[k].sha == receipts[k].payload
    requires receipts[k].path in s.files ==> s.files[receipts[k].path] == receipts[k].sha
    ensures Next(codec, s, Act(p, c)) ==
              To(s.(files := s.files[receipts[k].path := receipts[k].sha]), p, Completing(j, receipts, k + 1))
  {
    if receipts[k].path in s.files {
      assert s.files[receipts[k].path := receipts[k].sha] == s.files;
    }
  }

  lemma CheckingCompletes(codec: Codec, s: World, p: Pid, j: Name, receipts: seq<Receipt>)
    requires Sound(codec) && Standing(codec, s, p, j, Checking(j, receipts))
    requires AllNew(s.disk, s.journals[j].intent) && !Clash(s, receipts)
    ensures CanComplete(codec, s, p, s.journals[j])
  {
    var c := Smooth(codec, s.journals[j].intent, OtherRecord(0));
    ActStep(codec, s, p, c);
    CompletingCompletes(codec, Next(codec, s, Act(p, c)), p, j, receipts, 0);
    CompleteAfter(codec, s, p, c, s.journals[j]);
  }

  lemma {:induction false} Unused(pids: set<Pid>) returns (p: Pid)
    ensures forall q <- pids :: q < p
  {
    if pids == {} {
      p := 0;
    } else {
      var q :| q in pids;
      var r := Unused(pids - {q});
      p := if r > q then r else q + 1;
      assert forall x <- pids :: x == q || x in pids - {q};
    }
  }

  /** Startup on the one active journal undoes the transaction if no receipts are registered, and else completes it. */
  lemma StartupCloses(codec: Codec, s: World, p: Pid, j: Name)
    requires Sound(codec) && Standing(codec, s, p, j, Entered) && !Stuck(codec, s, s.journals[j])
    ensures CanClose(codec, s)
    ensures if NoneRegistered(LogOf(codec, s.journals[j]).records) then CanUndo(codec, s, p, s.journals[j].intent)
            else CanComplete(codec, s, p, s.journals[j])
  {
    var c := Smooth(codec, s.journals[j].intent, OtherRecord(0));
    ActStep(codec, s, p, c);
    var receipts := StartupMoves(codec, s, p, j, c);
    var s' := Next(codec, s, Act(p, c));
    if receipts.Some? {
      CheckingCompletes(codec, s', p, j, receipts.value);
      CompleteAfter(codec, s, p, c, s.journals[j]);
      CompleteCloses(codec, s, p, s.journals[j]);
    } else {
      PlanningUndoes(codec, s', p, j);
      UndoAfter(codec, s, p, c, s.journals[j].intent);
      UndoCloses(codec, s, p, s.journals[j].intent);
    }
  }

  lemma NextIsStartup(codec: Codec, s: World, p: Pid, j: Name, c: Choice)
    requires p in s.stage && s.stage[p] == Entered && s.journals.Keys == {j}
    ensures Next(codec, s, Act(p, c)) == StartupOn(codec, s, p, j)
  {
    assert |s.journals| == |s.journals.Keys| == 1 && Only(s.journals.Keys) == j;
  }

  /** Where startup goes from here: to completing what is registered, or to undoing. */
  lemma StartupMoves(codec: Codec, s: World, p: Pid, j: Name, c: Choice) returns (receipts: Option<seq<Receipt>>)
    requires Sound(codec) && Standing(codec, s, p, j, Entered) && !Stuck(codec, s, s.journals[j])
    ensures Next(codec, s, Act(p, c)) == To(s, p, if receipts.Some? then Checking(j, receipts.value) else Planning(j))
    ensures receipts.None? <==> NoneRegistered(LogOf(codec, s.journals[j]).records)
    ensures receipts.Some? ==> AllNew(s.disk, s.journals[j].intent) && !Clash(s, receipts.value)
  {
    var journal := s.journals[j];
    NextIsStartup(codec, s, p, j, c);
    assert ValidIntent(journal.intent) && Acceptable(journal.intent, LogOf(codec, journal).records) by {
      assert JournalInv(codec, s, journal);
    }
    StartupReads(codec, journal);
    receipts := Load(codec, FileText(codec, journal.intent, journal.writes)).markers.receipts;
  }

  // ----- A journal can get stuck -----

  ghost predicate Strands(codec: Codec, s: World, j: Name) {
    Quiet(s) && j in s.journals && Stuck(codec, s, s.journals[j])
  }

  /** Some run from `s` leaves a stuck journal and nobody inside the lock. */
  ghost predicate CanStrand(codec: Codec, s: World) {
    exists s', j :: Reaches(codec, s, s') && Strands(codec, s', j)
  }

  lemma StrandAfter(codec: Codec, s: World, event: Event)
    requires CanStrand(codec, Next(codec, s, event))
    ensures CanStrand(codec, s)
  {
    var end, j :| Reaches(codec, Next(codec, s, event), end) && Strands(codec, end, j);
    ReachesAfter(codec, s, event, end);
  }

  /** The process dies while its journal is unreadable. */
  lemma LeavingStrands(codec: Codec, s: World, p: Pid, j: Name, st: Stage)
    requires Standing(codec, s, p, j, st) && !st.Waiting? && LogOf(codec, s.journals[j]).tail.Corrupt?
    ensures CanStrand(codec, s)
  {
    var s' := Next(codec, s, Leave(p));
    assert Run(codec, s', []) == s';
    assert Reaches(codec, s', s') && Strands(codec, s', j);
    StrandAfter(codec, s, Leave(p));
  }

  /** A marker written in full behind a cut one. */
  lemma StartingStrands(codec: Codec, s: World, p: Pid, j: Name, plan: seq<Decision>)
    requires Sound(codec) && Standing(codec, s, p, j, RollbackStarting(j, plan))
               && LogOf(codec, s.journals[j]).tail.Torn?
    ensures CanStrand(codec, s)
  {
    var r := MarkRecord(s, j, RollbackBegin);
    var event := Act(p, Smooth(codec, s.journals[j].intent, r));
    var s' := Next(codec, s, event);
    Marked(codec, s, p, j, RollbackStarting(j, plan));
    AppendLog(codec, s.journals[j], Write(r, event.choice.count));
    assert s'.journals[j] == s.journals[j].(writes := s.journals[j].writes + [Write(r, event.choice.count)]);
    assert AmountOf(codec, Write(r, event.choice.count)).Whole?;
    LeavingStrands(codec, s', p, j, RollingBack(j, plan, |plan|, true));
    StrandAfter(codec, s, event);
  }

  lemma PlanningStrands(codec: Codec, s: World, p: Pid, j: Name)
    requires Sound(codec) && Standing(codec, s, p, j, Planning(j)) && LogOf(codec, s.journals[j]).tail.Torn?
    ensures CanStrand(codec, s)
  {
    var event := Act(p, Smooth(codec, s.journals[j].intent, OtherRecord(0)));
    ActStep(codec, s, p, event.choice);
    NothingBlocked(codec, s, j);
    var plan := Plan(s.disk, s.journals[j].intent.entries);
    assert Next(codec, s, event) == To(s, p, RollbackStarting(j, plan));
    StartingStrands(codec, Next(codec, s, event), p, j, plan);
    StrandAfter(codec, s, event);
  }

  /** The first marker of a transaction is cut after one character. */
  lemma BeginningStrands(codec: Codec, s: World, p: Pid, j: Name)
    requires Sound(codec) && Standing(codec, s, p, j, Beginning(j))
    ensures CanStrand(codec, s)
  {
    var r := MarkRecord(s, j, SwitchBegin);
    var event := Act(p, Smooth(codec, s.journals[j].intent, r).(count := 1));
    var s' := Next(codec, s, event);
    ActStep(codec, s, p, event.choice);
    assert LogOf(codec, s.journals[j]).tail.Clean? by {
      assert Fits(codec, s, s.stage[p]) && ForwardInv(codec, s, s.stage[p]);
    }
    assert Rendered(codec.render(r)) && AmountOf(codec, Write(r, 1)).Part?;
    AppendLog(codec, s.journals[j], Write(r, 1));
    assert s'.journals[j] == s.journals[j].(writes := s.journals[j].writes + [Write(r, 1)]);
    PlanningStrands(codec, s', p, j);
    StrandAfter(codec, s, event);
  }

  /** Every well-built transaction can end up stuck: its first marker is cut short, the rollback this sets off writes
      its own marker in full behind it, and the process dies. From then on `ClosableExactly` says that nothing closes
      it. */
  lemma StuckReachable(codec: Codec, start: World, intent: Intent)
    requires Sound(codec) && Initial(start) && WellBuilt(intent, start.disk)
    ensures CanStrand(codec, start)
  {
    var c := Choice(NoFault, 0, true, 0, intent, []);
    var s1 := Next(codec, start, Arrive(0));
    var s2 := Next(codec, s1, Acquire(0));
    var s3 := Next(codec, s2, Act(0, c));
    var s4 := Next(codec, s3, Act(0, c));
    assert Run(codec, start, []) == start;
    Reached(codec, start, []);
    OuterStep(codec, start, Arrive(0));
    OuterStep(codec, s1, Acquire(0));
    ActStep(codec, s2, 0, c);
    assert s3.stage[0] == Ready;
    ActStep(codec, s3, 0, c);
    assert s4.journals == map[0 := Journal(intent, [])];
    BeginningStrands(codec, s4, 0, 0);
    StrandAfter(codec, s3, Act(0, c));
    StrandAfter(codec, s2, Act(0, c));
    StrandAfter(codec, s1, Acquire(0));
    StrandAfter(codec, start, Arrive(0));
  }

  // ----- Main result -----

  /** Main result: from a reachable world in which nobody is inside the lock, the interrupted transaction can be
      closed exactly when its journal is not stuck; and while it is stuck, no run whatsoever closes it. */
  lemma ClosableExactly(codec: Codec, start: World, events: seq<Event>, j: Name)
    requires Sound(codec) && Initial(start)
    requires Quiet(Run(codec, start, events)) && j in Run(codec, start, events).journals
    ensures var s := Run(codec, start, events); CanClose(codec, s) <==> !Stuck(codec, s, s.journals[j])
  {
    var s := Run(codec, start, events);
    Reached(codec, start, events);
    if Stuck(codec, s, s.journals[j]) {
      assert Hopeless(codec, s, j);
      forall s' | Reaches(codec, s, s') ensures s'.journals != map[] {
        var more :| Run(codec, s, more) == s';
        HopelessRun(codec, s, more, j);
      }
    } else {
      var p := Unused(s.stage.Keys);
      assert p !in s.stage;
      OuterStep(codec, s, Arrive(p));
      var s1 := Next(codec, s, Arrive(p));
      OuterStep(codec, s1, Acquire(p));
      assert s.journals.Keys == {j};
      StartupCloses(codec, Next(codec, s1, Acquire(p)), p, j);
      CloseAfter(codec, s1, Acquire(p));
      CloseAfter(codec, s, Arrive(p));
    }
  }

  /** And how: a process that gets the lock then can, by its own steps alone, take a transaction without registered
      receipts back to the old state, and bring one with registered receipts to its committed end, after which it is
      ready to deploy. */
  lemma RecoveryExactly(codec: Codec, start: World, events: seq<Event>, j: Name, p: Pid)
    requires Sound(codec) && Initial(start)
    requires Quiet(Run(codec, start, events)) && j in Run(codec, start, events).journals
    requires p in Run(codec, start, events).stage
    requires var s := Run(codec, start, events); !Stuck(codec, s, s.journals[j])
    ensures var s := Run(codec, start, events);
            var inside := Next(codec, s, Acquire(p));
            if NoneRegistered(LogOf(codec, s.journals[j]).records)
            then CanUndo(codec, inside, p, s.journals[j].intent)
            else CanComplete(codec, inside, p, s.journals[j])
  {
    var s := Run(codec, start, events);
    Reached(codec, start, events);
    OuterStep(codec, s, Acquire(p));
    assert s.journals.Keys == {j};
    StartupCloses(codec, Next(codec, s, Acquire(p)), p, j);
  }
}
