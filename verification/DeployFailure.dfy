/**
 What becomes of a transaction one of whose steps fails: the process that ran it can undo it, and can do nothing else
 with it. Once the process has registered its receipts it is the other way round.
 */
module DeployFailure {
  import opened Prelude
  import opened SwitchTable
  import opened JournalText
  import opened DeployRuns
  import opened DeploySafety
  import opened DeployRecovery
  import SwitchSite

  // ----- When a transaction opens -----

  /** `event` is the publication of a new intent under the name `j`: by a process that is ready, after all checks, and
      the call takes effect. */
  predicate Publishes(s: World, event: Event, j: Name) {
    && event.Act? && event.pid in s.stage && s.stage[event.pid].Ready?
    && event.choice.ok && event.choice.name == j && j !in s.journals
    && WellBuilt(event.choice.intent, s.disk) && !event.choice.fault.Refused?
  }

  /** A journal appears in no other step; it starts without markers, and what production and the receipts were then is
      what the transaction is measured against, until the next one opens. */
  lemma OpensExactly(codec: Codec, s: World, event: Event, j: Name)
    requires j !in s.journals
    ensures var s' := Next(codec, s, event);
            && (j in s'.journals <==> Publishes(s, event, j))
            && (j in s'.journals ==>
                  && s'.journals == s.journals[j := Journal(event.choice.intent, [])]
                  && s'.origin == Origin(s.disk, s.files) && s'.disk == s.disk && s'.files == s.files)
            && (s'.origin != s.origin ==> exists name :: Publishes(s, event, name))
  {
    var s' := Next(codec, s, event);
    if event.Act? && event.pid in s.stage && Grounded(s, s.stage[event.pid]) {
      var st := s.stage[event.pid];
      if st.Ready? {
        if s'.origin != s.origin { assert Publishes(s, event, event.choice.name); }
      } else if st.Forwarding() {
        ForwardOpensNothing(codec, s, event.pid, st, event.choice);
      } else if !st.Entered? {
        RecoverOpensNothing(codec, s, event.pid, st, event.choice);
      }
    }
  }

  lemma ForwardOpensNothing(codec: Codec, s: World, p: Pid, st: Stage, c: Choice)
    requires Grounded(s, st) && !st.Ready?
    ensures var s' := Forward(codec, s, p, st, c); s'.journals.Keys <= s.journals.Keys && s'.origin == s.origin
  {
  }

  lemma RecoverOpensNothing(codec: Codec, s: World, p: Pid, st: Stage, c: Choice)
    requires Grounded(s, st)
    ensures var s' := Recover(codec, s, p, st, c); s'.journals.Keys <= s.journals.Keys && s'.origin == s.origin
  {
  }

  // ----- When a step of a transaction fails -----

  /** All of `r` reaches the journal, line break included, and the append reports success. */
  predicate Delivered(codec: Codec, r: Record, c: Choice) {
    c.fault.NoFault? && c.count > |codec.render(r)|
  }

  /** What the step at `st` appends to the journal, if it appends. */
  function Appends(s: World, st: Stage, c: Choice): Option<Record>
    requires st.InTransaction() && st.j in s.journals
  {
    match st
    case Beginning(j) => Some(MarkRecord(s, j, SwitchBegin))
    case Switching(j, i) =>
      if i < |s.journals[j].intent.entries| then None else Some(MarkRecord(s, j, SwitchDone))
    case Confirming(j) => Some(MarkRecord(s, j, Verified))
    case Preparing(j) => Some(MarkerRecord(ReceiptsPrepared, ShaOf(s.journals[j].intent), Some(c.receipts)))
    case _ => None
  }

  /** A check of the step does not pass, its append is cut, or its call is refused or fails late. */
  predicate Fails(codec: Codec, s: World, st: Stage, c: Choice)
    requires st.InTransaction() && st.j in s.journals
  {
    || ((st.Switching? || st.Verifying? || st.Preparing?) && !c.ok)
    || (st.Preparing? && !ValidReceipts(s.journals[st.j].intent, c.receipts))
    || (if Appends(s, st, c).Some? then !Delivered(codec, Appends(s, st, c).value, c)
        else !st.Verifying? && !c.fault.NoFault?)
  }

  /** What a step of an open transaction leaves, whether it fails or not. */
  ghost predicate StillOpen(codec: Codec, s: World, s': World, p: Pid, j: Name) {
    && p in s'.stage && Standing(codec, s', p, j, s'.stage[p]) && j in s.journals
    && s'.journals[j].intent == s.journals[j].intent && s'.origin == s.origin && s'.files == s.files
  }

  lemma StaysOpen(codec: Codec, s: World, p: Pid, st: Stage, c: Choice)
    requires Sound(codec) && st.InTransaction() && Standing(codec, s, p, st.j, st)
    ensures StillOpen(codec, s, Next(codec, s, Act(p, c)), p, st.j)
  {
    ActStep(codec, s, p, c);
    ForwardKeeps(codec, s, p, st, c);
    assert s.files == s.origin.files by { assert Fits(codec, s, st) && ForwardInv(codec, s, st); }
  }

  lemma ForwardKeeps(codec: Codec, s: World, p: Pid, st: Stage, c: Choice)
    requires st.InTransaction() && st.j in s.journals && p in s.stage && s.stage[p] == st
    ensures var s' := Next(codec, s, Act(p, c));
            && p in s'.stage && s'.origin == s.origin && s'.files == s.files && s'.journals.Keys == s.journals.Keys
            && s'.journals[st.j].intent == s.journals[st.j].intent
  {
  }

  /** A step of a transaction goes on exactly if it does not fail. */
  lemma TurnsBackExactly(codec: Codec, s: World, p: Pid, st: Stage, c: Choice)
    requires Sound(codec) && st.InTransaction() && Standing(codec, s, p, st.j, st)
    ensures var next := Next(codec, s, Act(p, c)).stage;
            p in next && if Fails(codec, s, st, c) then next[p] == Planning(st.j) else next[p].Forwarding()
  {
    assert Fits(codec, s, st);
    if Appends(s, st, c).Some? {
      AppendTurns(codec, s, p, st, c);
    } else {
      CallTurns(codec, s, p, st, c);
    }
  }

  lemma AppendTurns(codec: Codec, s: World, p: Pid, st: Stage, c: Choice)
    requires st.InTransaction() && p in s.stage && s.stage[p] == st && st.j in s.journals && Appends(s, st, c).Some?
    ensures var next := Next(codec, s, Act(p, c)).stage;
            p in next && if Fails(codec, s, st, c) then next[p] == Planning(st.j) else next[p].Forwarding()
  {
    var w := Write(Appends(s, st, c).value, c.count);
    assert AmountOf(codec, w).Whole? <==> c.count > |codec.render(w.record)|;
  }

  lemma CallTurns(codec: Codec, s: World, p: Pid, st: Stage, c: Choice)
    requires st.InTransaction() && Standing(codec, s, p, st.j, st) && Appends(s, st, c).None?
    ensures var next := Next(codec, s, Act(p, c)).stage;
            p in next && if Fails(codec, s, st, c) then next[p] == Planning(st.j) else next[p].Forwarding()
  {
    var intent := s.journals[st.j].intent;
    assert Disjoint(intent.entries) && ForwardInv(codec, s, st) by {
      assert JournalInv(codec, s, s.journals[st.j]) && Fits(codec, s, s.stage[p]);
    }
    if st.Verifying? {
      SwitchedIsNew(s.disk, intent.entries);
    } else if st.Renaming? {
      assert HalfSwitched(intent.entries[st.i], SlotsOf(s.disk, intent.entries[st.i]));
      assert intent.entries[st.i].candidate in s.disk;
    } else {
      assert Untouched(intent.entries[st.i], SlotsOf(s.disk, intent.entries[st.i]));
      Possible(s.disk, intent.entries[st.i], c.fault);
      SwitchTurns(codec, s, p, st, c);
    }
  }

  lemma SwitchTurns(codec: Codec, s: World, p: Pid, st: Stage, c: Choice)
    requires st.Switching? && st.j in s.journals && st.i < |s.journals[st.j].intent.entries|
    requires p in s.stage && s.stage[p] == st
    requires var e := s.journals[st.j].intent.entries[st.i];
             if e.oldContent.None?
             then RenameNoReplace(s.disk, e.candidate, e.production, c.fault).ok <==> c.fault.NoFault?
             else && e.backup !in s.disk
                  && (AtomicExchange(s.disk, e.candidate, e.production, c.fault).ok <==> c.fault.NoFault?)
    ensures var next := Next(codec, s, Act(p, c)).stage;
            p in next && if Fails(codec, s, st, c) then next[p] == Planning(st.j) else next[p].Forwarding()
  {
  }

  /** The first call on an untouched entry is possible. */
  lemma Possible(disk: Disk, e: Entry, fault: Fault)
    requires e.Distinct() && Untouched(e, SlotsOf(disk, e))
    ensures if e.oldContent.None? then RenameNoReplace(disk, e.candidate, e.production, fault).ok <==> fault.NoFault?
            else && e.backup !in disk
                 && (AtomicExchange(disk, e.candidate, e.production, fault).ok <==> fault.NoFault?)
  {
    assert e.candidate in disk && e.backup !in disk;
    assert e.production in disk <==> e.oldContent.Some?;
  }

  // ----- A failed transaction -----

  /** Main result: from every reachable world, if a step of an open transaction fails - a check, a call that is refused
      or fails late, an append cut anywhere - then steps of the same process alone can close the journal with
      production as before and no receipt written. */
  lemma FailureUndone(codec: Codec, start: World, events: seq<Event>, p: Pid, c: Choice)
    requires Sound(codec) && Initial(start)
    requires var s := Run(codec, start, events);
             p in s.stage && s.stage[p].InTransaction() && s.stage[p].j in s.journals && Fails(codec, s, s.stage[p], c)
    ensures var s := Run(codec, start, events);
            CanUndo(codec, Next(codec, s, Act(p, c)), p, s.journals[s.stage[p].j].intent)
  {
    var s := Run(codec, start, events);
    var st := s.stage[p];
    Reached(codec, start, events);
    assert s.journals.Keys == {st.j};
    StaysOpen(codec, s, p, st, c);
    TurnsBackExactly(codec, s, p, st, c);
    PlanningUndoes(codec, Next(codec, s, Act(p, c)), p, st.j);
  }

  /** A process that is on its way back from the transaction of `intent`, or has given up. */
  ghost predicate Retreats(codec: Codec, s: World, p: Pid, j: Name, intent: Intent) {
    && Inv(codec, s) && p in s.stage && s.files == s.origin.files
    && (s.stage[p].Finished? || (s.stage[p].InRollback() && s.stage[p].j == j))
    && if j in s.journals then s.journals[j].intent == intent else RolledBack(s, intent)
  }

  lemma RetreatStep(codec: Codec, s: World, p: Pid, j: Name, intent: Intent, c: Choice)
    requires Sound(codec) && Retreats(codec, s, p, j, intent)
    ensures var s' := Next(codec, s, Act(p, c)); Retreats(codec, s', p, j, intent) && s'.origin == s.origin
  {
    ActStep(codec, s, p, c);
    var st := s.stage[p];
    if st.InRollback() {
      assert Grounded(s, st) && RollbackInv(s, st) by { assert Fits(codec, s, st); }
      RetreatMoves(codec, s, p, st, c);
      if j !in Next(codec, s, Act(p, c)).journals {
        assert EntriesInv(s.origin.disk, s.disk, intent.entries) by { assert JournalInv(codec, s, s.journals[j]); }
        SettledRollsBack(s, intent);
      }
    }
  }

  lemma RetreatMoves(codec: Codec, s: World, p: Pid, st: Stage, c: Choice)
    requires st.InRollback() && st.j in s.journals && p in s.stage && s.stage[p] == st
    ensures var s' := Next(codec, s, Act(p, c));
            && p in s'.stage && s'.files == s.files && s'.origin == s.origin
            && (s'.stage[p].Finished? || (s'.stage[p].InRollback() && s'.stage[p].j == st.j))
            && (if st.j in s'.journals then s'.journals[st.j].intent == s.journals[st.j].intent
                else st.Retiring? && s'.disk == s.disk)
  {
  }

  lemma {:induction false} RetreatRun(codec: Codec, s: World, p: Pid, j: Name, intent: Intent, more: seq<Event>)
    requires Sound(codec) && Retreats(codec, s, p, j, intent) && StepsOf(p, more)
    ensures Retreats(codec, Run(codec, s, more), p, j, intent) && Run(codec, s, more).origin == s.origin
  {
    if more != [] {
      var n := |more| - 1;
      RetreatRun(codec, s, p, j, intent, more[..n]);
      assert more[n] in more;
      RetreatStep(codec, Run(codec, s, more[..n]), p, j, intent, more[n].choice);
    }
  }

  /** Main result: and whatever that process does after the failure, it writes no receipt and never closes the journal
      on anything but the old state. */
  lemma FailureNeverCommits(codec: Codec, start: World, events: seq<Event>, p: Pid, c: Choice, more: seq<Event>)
    requires Sound(codec) && Initial(start) && StepsOf(p, more)
    requires var s := Run(codec, start, events);
             p in s.stage && s.stage[p].InTransaction() && s.stage[p].j in s.journals && Fails(codec, s, s.stage[p], c)
    ensures var s := Run(codec, start, events);
            var j := s.stage[p].j;
            var end := Run(codec, Next(codec, s, Act(p, c)), more);
            && end.files == s.files && end.origin == s.origin
            && if j in end.journals then end.journals[j].intent == s.journals[j].intent
               else RolledBack(end, s.journals[j].intent)
  {
    var s := Run(codec, start, events);
    var st := s.stage[p];
    Reached(codec, start, events);
    assert s.journals.Keys == {st.j};
    StaysOpen(codec, s, p, st, c);
    TurnsBackExactly(codec, s, p, st, c);
    assert s.files == s.origin.files by { assert Fits(codec, s, st) && ForwardInv(codec, s, st); }
    RetreatRun(codec, Next(codec, s, Act(p, c)), p, st.j, s.journals[st.j].intent, more);
  }

  // ----- A rollback that fails -----

  /** A step of the rollback fails: a marker is cut or its append fails, or an action that is due is refused or fails
      late. */
  predicate FailsBack(codec: Codec, s: World, st: Stage, c: Choice)
    requires st.InRollback() && st.j in s.journals
  {
    match st
    case RollbackStarting(j, _) => !Delivered(codec, MarkRecord(s, j, RollbackBegin), c)
    case RollingBack(_, plan, k, _) => 0 < k <= |plan| && plan[k - 1].Acts() && !c.fault.NoFault?
    case RollbackMarking(j) => !Delivered(codec, MarkRecord(s, j, RollbackDone), c)
    case _ => false
  }

  /** A process whose rollback met a failure: it still undoes what it can, but will not retire the journal. */
  ghost predicate Spoilt(codec: Codec, s: World, p: Pid, j: Name, intent: Intent) {
    && Inv(codec, s) && p in s.stage && j in s.journals && s.journals[j].intent == intent
    && (s.stage[p].Finished? || (s.stage[p].RollingBack? && s.stage[p].j == j && !s.stage[p].clean))
  }

  lemma SpoiltStep(codec: Codec, s: World, p: Pid, j: Name, intent: Intent, c: Choice)
    requires Sound(codec) && Spoilt(codec, s, p, j, intent)
    ensures Spoilt(codec, Next(codec, s, Act(p, c)), p, j, intent)
  {
    ActStep(codec, s, p, c);
  }

  lemma {:induction false} SpoiltRun(codec: Codec, s: World, p: Pid, j: Name, intent: Intent, more: seq<Event>)
    requires Sound(codec) && Spoilt(codec, s, p, j, intent) && StepsOf(p, more)
    ensures Spoilt(codec, Run(codec, s, more), p, j, intent)
  {
    if more != [] {
      var n := |more| - 1;
      SpoiltRun(codec, s, p, j, intent, more[..n]);
      assert more[n] in more;
      SpoiltStep(codec, Run(codec, s, more[..n]), p, j, intent, more[n].choice);
    }
  }

  lemma FailingBackSpoils(codec: Codec, s: World, p: Pid, st: Stage, c: Choice)
    requires Sound(codec) && st.InRollback() && Standing(codec, s, p, st.j, st) && FailsBack(codec, s, st, c)
    ensures Spoilt(codec, Next(codec, s, Act(p, c)), p, st.j, s.journals[st.j].intent)
  {
    ActStep(codec, s, p, c);
    if st.RollingBack? {
      assert Disjoint(s.journals[st.j].intent.entries) && RollbackInv(s, st) by {
        assert JournalInv(codec, s, s.journals[st.j]) && Fits(codec, s, s.stage[p]);
      }
      SwitchSite.ActionEffect(s.disk, s.journals[st.j].intent.entries[st.k - 1], c.fault);
      ActionSpoils(codec, s, p, st, c);
    } else {
      MarkSpoils(codec, s, p, st, c);
    }
  }

  lemma ActionSpoils(codec: Codec, s: World, p: Pid, st: Stage, c: Choice)
    requires st.RollingBack? && st.j in s.journals && p in s.stage && s.stage[p] == st
    requires 0 < st.k <= |s.journals[st.j].intent.entries| && st.k <= |st.plan|
    requires !ApplyAction(s.disk, s.journals[st.j].intent.entries[st.k - 1], st.plan[st.k - 1], c.fault).ok
    ensures var s' := Next(codec, s, Act(p, c));
            s'.journals == s.journals && p in s'.stage
                && s'.stage[p] == RollingBack(st.j, st.plan, st.k - 1, false)
  {
  }

  lemma MarkSpoils(codec: Codec, s: World, p: Pid, st: Stage, c: Choice)
    requires (st.RollbackStarting? || st.RollbackMarking?) && st.j in s.journals && p in s.stage && s.stage[p] == st
    requires FailsBack(codec, s, st, c)
    ensures var s' := Next(codec, s, Act(p, c));
            p in s'.stage && s'.stage[p].Finished? && st.j in s'.journals
                && s'.journals[st.j].intent == s.journals[st.j].intent
  {
    var mark := if st.RollbackStarting? then RollbackBegin else RollbackDone;
    assert AmountOf(codec, Write(MarkRecord(s, st.j, mark), c.count)).Whole? <==>
           c.count > |codec.render(MarkRecord(s, st.j, mark))|;
  }

  /** A rollback in which a marker or a due action failed leaves the journal active, whatever else its process does: the
      next start finds it. */
  lemma FailedRollbackKeepsJournal(codec: Codec, start: World, events: seq<Event>, p: Pid, c: Choice, more: seq<Event>)
    requires Sound(codec) && Initial(start) && StepsOf(p, more)
    requires var s := Run(codec, start, events);
             p in s.stage && s.stage[p].InRollback() && s.stage[p].j in s.journals && FailsBack(codec, s, s.stage[p], c)
    ensures var s := Run(codec, start, events);
            s.stage[p].j in Run(codec, Next(codec, s, Act(p, c)), more).journals
  {
    var s := Run(codec, start, events);
    var st := s.stage[p];
    Reached(codec, start, events);
    assert s.journals.Keys == {st.j};
    FailingBackSpoils(codec, s, p, st, c);
    SpoiltRun(codec, Next(codec, s, Act(p, c)), p, st.j, s.journals[st.j].intent, more);
  }

  // ----- A transaction whose receipts are registered -----

  /** A process that is writing its registered receipts, or has given up with them on file. */
  ghost predicate Commits(codec: Codec, s: World, p: Pid, disk: Disk, journal: Journal, j: Name) {
    && Inv(codec, s) && p in s.stage && s.disk == disk
    && (s.stage[p].Finished? || ((s.stage[p].Writing? || s.stage[p].Removing?) && s.stage[p].j == j))
    && if j in s.journals then s.journals[j] == journal else Committed(codec, s, journal)
  }

  lemma CommitsStep(codec: Codec, s: World, p: Pid, disk: Disk, journal: Journal, j: Name, c: Choice)
    requires Sound(codec) && Commits(codec, s, p, disk, journal, j)
    ensures Commits(codec, Next(codec, s, Act(p, c)), p, disk, journal, j)
  {
    ActStep(codec, s, p, c);
    var st := s.stage[p];
    if !st.Finished? {
      assert Grounded(s, st) && CommitInv(codec, s, st) by { assert Fits(codec, s, st); }
      CommitMoves(codec, s, p, st, c);
      if st.Removing? {
        assert JournalInv(codec, s, s.journals[j]);
        NewCommits(codec, s, journal, st.receipts);
      }
    }
  }

  lemma CommitMoves(codec: Codec, s: World, p: Pid, st: Stage, c: Choice)
    requires (st.Writing? || st.Removing?) && st.j in s.journals && p in s.stage && s.stage[p] == st
    ensures var s' := Next(codec, s, Act(p, c));
            && p in s'.stage && s'.disk == s.disk && s'.origin == s.origin
            && (s'.stage[p].Finished? || ((s'.stage[p].Writing? || s'.stage[p].Removing?) && s'.stage[p].j == st.j))
            && (if st.j in s'.journals then s'.journals[st.j] == s.journals[st.j]
                else st.Removing? && s'.files == s.files)
  {
  }

  lemma {:induction false} CommitsRun(codec: Codec, s: World, p: Pid, disk: Disk, journal: Journal, j: Name,
                                      more: seq<Event>)
    requires Sound(codec) && Commits(codec, s, p, disk, journal, j) && StepsOf(p, more)
    ensures Commits(codec, Run(codec, s, more), p, disk, journal, j)
  {
    if more != [] {
      var n := |more| - 1;
      CommitsRun(codec, s, p, disk, journal, j, more[..n]);
      assert more[n] in more;
      CommitsStep(codec, Run(codec, s, more[..n]), p, disk, journal, j, more[n].choice);
    }
  }

  /** Main result: a process that went on after registering its receipts never takes production back, whatever fails:
      it closes the journal on the committed state, or leaves it, with everything new, to the next start. */
  lemma RegisteredNeverUndone(codec: Codec, start: World, events: seq<Event>, p: Pid, more: seq<Event>)
    requires Sound(codec) && Initial(start) && StepsOf(p, more)
    requires var s := Run(codec, start, events); p in s.stage && (s.stage[p].Writing? || s.stage[p].Removing?)
    ensures var s := Run(codec, start, events);
            var j := s.stage[p].j;
            var end := Run(codec, s, more);
            && j in s.journals && AllNew(s.disk, s.journals[j].intent) && end.disk == s.disk
            && if j in end.journals then end.journals[j] == s.journals[j] else Committed(codec, end, s.journals[j])
  {
    var s := Run(codec, start, events);
    var st := s.stage[p];
    Reached(codec, start, events);
    assert Grounded(s, st) && CommitInv(codec, s, st) by { assert Fits(codec, s, st); }
    CommitsRun(codec, s, p, s.disk, s.journals[st.j], st.j, more);
  }
}
