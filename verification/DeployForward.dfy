/**
 A deployment that nothing interrupts commits: from a process that is ready, some run takes the transaction to its end
 with every object new and every receipt on disk.
 */
module DeployForward {
  import opened Prelude
  import opened SwitchTable
  import opened JournalText
  import opened DeployRuns
  import opened DeploySafety
  import opened DeployRecovery

  /** The step `event` from `s` closes the journal `j` of `intent` and leaves its transaction done. */
  ghost predicate Commits(codec: Codec, s: World, event: Event, j: Name, intent: Intent) {
    && j in s.journals && s.journals[j].intent == intent
    && Next(codec, s, event).journals == map[] && Committed(codec, Next(codec, s, event), s.journals[j])
  }

  /** Some run from `s` ends the transaction of `intent` done. */
  ghost predicate CanCommit(codec: Codec, s: World, intent: Intent) {
    exists before, event, j :: Reaches(codec, s, before) && Commits(codec, before, event, j, intent)
  }

  lemma CommitAfter(codec: Codec, s: World, event: Event, intent: Intent)
    requires CanCommit(codec, Next(codec, s, event), intent)
    ensures CanCommit(codec, s, intent)
  {
    var end, last, j :| Reaches(codec, Next(codec, s, event), end) && Commits(codec, end, last, j, intent);
    ReachesAfter(codec, s, event, end);
  }

  lemma RemovingCommits(codec: Codec, s: World, p: Pid, j: Name, receipts: seq<Receipt>)
    requires Standing(codec, s, p, j, Removing(j, receipts))
    ensures CanCommit(codec, s, s.journals[j].intent)
  {
    var intent := s.journals[j].intent;
    var event := Act(p, Smooth(codec, intent, OtherRecord(0)));
    var s' := Next(codec, s, event);
    assert Committed(codec, s, s.journals[j]) by {
      assert Fits(codec, s, s.stage[p]) && CommitInv(codec, s, s.stage[p]) && JournalInv(codec, s, s.journals[j]);
      NewCommits(codec, s, s.journals[j], receipts);
    }
    assert s' == s.(journals := map[], stage := s'.stage);
    assert Run(codec, s, []) == s;
    assert Reaches(codec, s, s) && Commits(codec, s, event, j, intent);
  }

  /** No receipt from `k` on has its path taken. */
  predicate FreeFrom(s: World, receipts: seq<Receipt>, k: nat) {
    forall i :: k <= i < |receipts| ==> receipts[i].path !in s.files
  }

  lemma {:induction false} WritingCommits(codec: Codec, s: World, p: Pid, j: Name, receipts: seq<Receipt>, k: nat)
    requires Sound(codec) && Standing(codec, s, p, j, Writing(j, receipts, k)) && k <= |receipts|
               && FreeFrom(s, receipts, k)
    ensures CanCommit(codec, s, s.journals[j].intent)
    decreases |receipts| - k
  {
    var intent := s.journals[j].intent;
    var event := Act(p, Smooth(codec, intent, OtherRecord(0)));
    var s' := Next(codec, s, event);
    ActStep(codec, s, p, event.choice);
    if k == |receipts| {
      RemovingCommits(codec, s', p, j, receipts);
    } else {
      WrittenFree(codec, s, p, j, receipts, k, event.choice);
      WritingCommits(codec, s', p, j, receipts, k + 1);
    }
    CommitAfter(codec, s, event, intent);
  }

  lemma WrittenFree(codec: Codec, s: World, p: Pid, j: Name, receipts: seq<Receipt>, k: nat, c: Choice)
    requires Standing(codec, s, p, j, Writing(j, receipts, k)) && k < |receipts| && FreeFrom(s, receipts, k)
    requires c.ok && c.fault.NoFault?
    ensures var s' := Next(codec, s, Act(p, c));
            s' == To(s.(files := s.files[receipts[k].path := receipts[k].payload]), p, Writing(j, receipts, k + 1)) &&
            FreeFrom(s', receipts, k + 1)
  {
    var intent := s.journals[j].intent;
    assert ValidIntent(intent) && ValidReceipts(intent, receipts) by {
      assert JournalInv(codec, s, s.journals[j]) && Fits(codec, s, s.stage[p]) && CommitInv(codec, s, s.stage[p]);
      ValidPrepared(codec, s.journals[j], receipts, k);
    }
    forall i | k < i < |receipts| ensures receipts[i].path != receipts[k].path {
      DistinctPaths(intent, receipts, k, i);
    }
  }

  /** One receipt body per client, at its place. */
  function BodiesFor(intent: Intent): seq<Receipt>
    requires ValidIntent(intent)
  {
    seq(|intent.clients|, i requires 0 <= i < |intent.clients| =>
          assert intent.clients[i] in intent.clients;
          Receipt(intent.clients[i], intent.receiptPaths[intent.clients[i]], 0, 0))
  }

  /** The places of the receipts are free. */
  predicate Vacant(s: World, intent: Intent) {
    forall c <- intent.receiptPaths :: intent.receiptPaths[c] !in s.files
  }

  /** The append of the step at `st`, written out in full. */
  function InFull(codec: Codec, s: World, j: Name, st: Stage, bodies: seq<Receipt>): Choice
    requires j in s.journals
  {
    var intent := s.journals[j].intent;
    var record := match st
      case Beginning(_) => MarkRecord(s, j, SwitchBegin)
      case Switching(_, _) => MarkRecord(s, j, SwitchDone)
      case Confirming(_) => MarkRecord(s, j, Verified)
      case _ => MarkerRecord(ReceiptsPrepared, ShaOf(intent), Some(bodies));
    Smooth(codec, intent, record).(receipts := bodies)
  }

  lemma PreparingCommits(codec: Codec, s: World, p: Pid, j: Name)
    requires Sound(codec) && Standing(codec, s, p, j, Preparing(j)) && Vacant(s, s.journals[j].intent)
    ensures CanCommit(codec, s, s.journals[j].intent)
  {
    var intent := s.journals[j].intent;
    assert ValidIntent(intent) by { assert JournalInv(codec, s, s.journals[j]); }
    var bodies := BodiesFor(intent);
    var event := Act(p, InFull(codec, s, j, Preparing(j), bodies));
    var s' := Next(codec, s, event);
    ActStep(codec, s, p, event.choice);
    assert ValidReceipts(intent, bodies);
    WritingCommits(codec, s', p, j, bodies, 0);
    CommitAfter(codec, s, event, intent);
  }

  lemma ConfirmingCommits(codec: Codec, s: World, p: Pid, j: Name)
    requires Sound(codec) && Standing(codec, s, p, j, Confirming(j)) && Vacant(s, s.journals[j].intent)
    ensures CanCommit(codec, s, s.journals[j].intent)
  {
    var intent := s.journals[j].intent;
    var event := Act(p, InFull(codec, s, j, Confirming(j), []));
    ActStep(codec, s, p, event.choice);
    PreparingCommits(codec, Next(codec, s, event), p, j);
    CommitAfter(codec, s, event, intent);
  }

  lemma VerifyingCommits(codec: Codec, s: World, p: Pid, j: Name)
    requires Sound(codec) && Standing(codec, s, p, j, Verifying(j)) && Vacant(s, s.journals[j].intent)
    ensures CanCommit(codec, s, s.journals[j].intent)
  {
    var intent := s.journals[j].intent;
    var event := Act(p, Smooth(codec, intent, OtherRecord(0)));
    ActStep(codec, s, p, event.choice);
    assert AllNew(s.disk, intent) by {
      assert Fits(codec, s, s.stage[p]) && ForwardInv(codec, s, s.stage[p]);
      SwitchedIsNew(s.disk, intent.entries);
    }
    ConfirmingCommits(codec, Next(codec, s, event), p, j);
    CommitAfter(codec, s, event, intent);
  }

  lemma AllSwitchedCommits(codec: Codec, s: World, p: Pid, j: Name, i: nat)
    requires Sound(codec) && Standing(codec, s, p, j, Switching(j, i)) && Vacant(s, s.journals[j].intent)
    requires i == |s.journals[j].intent.entries|
    ensures CanCommit(codec, s, s.journals[j].intent)
  {
    var event := Act(p, InFull(codec, s, j, Switching(j, i), []));
    ActStep(codec, s, p, event.choice);
    VerifyingCommits(codec, Next(codec, s, event), p, j);
    CommitAfter(codec, s, event, s.journals[j].intent);
  }

  lemma {:induction false} SwitchingCommits(codec: Codec, s: World, p: Pid, j: Name, i: nat)
    requires Sound(codec) && Standing(codec, s, p, j, Switching(j, i)) && Vacant(s, s.journals[j].intent)
    requires i <= |s.journals[j].intent.entries|
    ensures CanCommit(codec, s, s.journals[j].intent)
    decreases |s.journals[j].intent.entries| - i
  {
    var intent := s.journals[j].intent;
    if i == |intent.entries| {
      AllSwitchedCommits(codec, s, p, j, i);
    } else {
      var event := Act(p, Smooth(codec, intent, OtherRecord(0)));
      var s1 := Next(codec, s, event);
      ActStep(codec, s, p, event.choice);
      EntrySwitches(codec, s, p, j, i, event.choice);
      if intent.entries[i].oldContent.None? {
        SwitchingCommits(codec, s1, p, j, i + 1);
      } else {
        var s2 := Next(codec, s1, event);
        ActStep(codec, s1, p, event.choice);
        EntryRenames(codec, s1, p, j, i, event.choice);
        SwitchingCommits(codec, s2, p, j, i + 1);
        CommitAfter(codec, s1, event, intent);
      }
      CommitAfter(codec, s, event, intent);
    }
  }

  lemma EntrySwitches(codec: Codec, s: World, p: Pid, j: Name, i: nat, c: Choice)
    requires Standing(codec, s, p, j, Switching(j, i)) && i < |s.journals[j].intent.entries| && c.ok && c.fault.NoFault?
    ensures var s' := Next(codec, s, Act(p, c));
            var first := s.journals[j].intent.entries[i].oldContent.None?;
            var next := if first then Switching(j, i + 1) else Renaming(j, i);
            s' == To(s.(disk := s'.disk), p, next)
  {
    var entries := s.journals[j].intent.entries;
    assert entries[i].Distinct() && Untouched(entries[i], SlotsOf(s.disk, entries[i])) by {
      assert JournalInv(codec, s, s.journals[j]) && Fits(codec, s, s.stage[p]) && ForwardInv(codec, s, s.stage[p]);
    }
    Switchable(s.disk, entries[i]);
    SwitchNext(codec, s, p, j, i, c);
  }

  lemma SwitchNext(codec: Codec, s: World, p: Pid, j: Name, i: nat, c: Choice)
    requires p in s.stage && s.stage[p] == Switching(j, i) && j in s.journals && c.ok && c.fault.NoFault?
    requires i < |s.journals[j].intent.entries|
    requires var e := s.journals[j].intent.entries[i];
             if e.oldContent.None? then RenameNoReplace(s.disk, e.candidate, e.production, NoFault).ok
             else e.backup !in s.disk && AtomicExchange(s.disk, e.candidate, e.production, NoFault).ok
    ensures var s' := Next(codec, s, Act(p, c));
            var first := s.journals[j].intent.entries[i].oldContent.None?;
            s' == To(s.(disk := s'.disk), p, if first then Switching(j, i + 1) else Renaming(j, i))
  {
  }

  lemma Switchable(disk: Disk, e: Entry)
    requires e.Distinct() && Untouched(e, SlotsOf(disk, e))
    ensures if e.oldContent.None? then RenameNoReplace(disk, e.candidate, e.production, NoFault).ok
            else e.backup !in disk && AtomicExchange(disk, e.candidate, e.production, NoFault).ok
  {
    assert e.candidate in disk && e.backup !in disk;
    assert e.production in disk <==> e.oldContent.Some?;
  }

  lemma EntryRenames(codec: Codec, s: World, p: Pid, j: Name, i: nat, c: Choice)
    requires Standing(codec, s, p, j, Renaming(j, i)) && i < |s.journals[j].intent.entries| && c.fault.NoFault?
    ensures var s' := Next(codec, s, Act(p, c)); s' == To(s.(disk := s'.disk), p, Switching(j, i + 1))
  {
    var e := s.journals[j].intent.entries[i];
    assert HalfSwitched(e, SlotsOf(s.disk, e)) by {
      assert Fits(codec, s, s.stage[p]) && ForwardInv(codec, s, s.stage[p]);
    }
    assert e.candidate in s.disk;
  }

  lemma BeginningCommits(codec: Codec, s: World, p: Pid, j: Name)
    requires Sound(codec) && Standing(codec, s, p, j, Beginning(j)) && Vacant(s, s.journals[j].intent)
    ensures CanCommit(codec, s, s.journals[j].intent)
  {
    var intent := s.journals[j].intent;
    var event := Act(p, InFull(codec, s, j, Beginning(j), []));
    ActStep(codec, s, p, event.choice);
    SwitchingCommits(codec, Next(codec, s, event), p, j, 0);
    CommitAfter(codec, s, event, intent);
  }

  /** Main result: a ready process can take any well-built intent whose receipt paths are free to a committed end. */
  lemma ReadyCommits(codec: Codec, start: World, events: seq<Event>, p: Pid, intent: Intent)
    requires Sound(codec) && Initial(start)
    requires var s := Run(codec, start, events);
             p in s.stage && s.stage[p].Ready? && WellBuilt(intent, s.disk) && Vacant(s, intent)
    ensures CanCommit(codec, Run(codec, start, events), intent)
  {
    var s := Run(codec, start, events);
    Reached(codec, start, events);
    var event := Act(p, Choice(NoFault, 0, true, 0, intent, []));
    ActStep(codec, s, p, event.choice);
    assert Fits(codec, s, s.stage[p]);
    var s' := Next(codec, s, event);
    assert s'.journals == map[0 := Journal(intent, [])];
    BeginningCommits(codec, s', p, 0);
    CommitAfter(codec, s, event, intent);
  }
}
