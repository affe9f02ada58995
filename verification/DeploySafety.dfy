/**
 Every step of every run keeps the invariant of the deployer, and what follows from it about whole runs.
 */
module DeploySafety {
  import opened Prelude
  import opened SwitchTable
  import opened JournalText
  import opened DeployRuns

  // ----- Lemmas about one step -----

  /** A call on one entry's paths leaves the other entries alone. */
  lemma OthersKept(before: Disk, after: Disk, entries: seq<Entry>, i: nat)
    requires i < |entries| && Disjoint(entries) && SameOutside(before, after, entries[i].Paths())
    ensures forall k :: 0 <= k < |entries| && k != i ==>
              SlotsOf(after, entries[k]) == SlotsOf(before, entries[k])
                  && Decide(after, entries[k]) == Decide(before, entries[k])
  {
    forall k | 0 <= k < |entries| && k != i
      ensures SlotsOf(after, entries[k]) == SlotsOf(before, entries[k])
                && Decide(after, entries[k]) == Decide(before, entries[k])
    {
      FrameSlots(before, after, entries[i].Paths(), entries[k]);
    }
  }

  lemma OneEntry(origin: Disk, before: Disk, after: Disk, entries: seq<Entry>, i: nat)
    requires i < |entries| && EntriesInv(origin, before, entries)
    requires SameOutside(before, after, entries[i].Paths()) && InFlight(entries[i], SlotsOf(after, entries[i]))
    ensures EntriesInv(origin, after, entries)
  {
    OthersKept(before, after, entries, i);
    forall e | e in entries ensures InFlight(e, SlotsOf(after, e)) {
      var k :| 0 <= k < |entries| && entries[k] == e;
      assert InFlight(entries[k], SlotsOf(before, entries[k]));
    }
    OutsideKept(origin, before, after, entries, i);
  }

  lemma OutsideKept(origin: Disk, before: Disk, after: Disk, entries: seq<Entry>, i: nat)
    requires i < |entries| && SameOutside(origin, before, AllPaths(entries))
               && SameOutside(before, after, entries[i].Paths())
    ensures SameOutside(origin, after, AllPaths(entries))
  {
    assert entries[i] in entries;
    assert forall p <- entries[i].Paths() :: p in AllPaths(entries);
  }

  /** A call that half-switches or switches entry `i` moves the boundary of a forward run. */
  lemma Advance(before: Disk, after: Disk, entries: seq<Entry>, i: nat, k: nat)
    requires Disjoint(entries) && i < |entries| && i <= k <= i + 1 && Halfway(before, entries, i, k)
    requires SameOutside(before, after, entries[i].Paths())
    ensures Halfway(after, entries, i, i + 1)
    ensures Switched(entries[i], SlotsOf(after, entries[i])) ==> Halfway(after, entries, i + 1, i + 1)
  {
    OthersKept(before, after, entries, i);
  }

  lemma GrowKeeps(intent: Intent, log: Log, r: Record, amount: Amount)
    requires log.tail.Unterminated? ==> log.records != []
    requires Acceptable(intent, log.records) && Ours(intent, r)
    requires Prepares(r) ==> NoneRegistered(log.records) && r.receipts.Some? && ValidReceipts(intent, r.receipts.value)
    ensures var grown := Grow(log, r, amount);
            && Acceptable(intent, grown.records)
            && (!Prepares(r) && NoneRegistered(log.records) ==> NoneRegistered(grown.records))
            && (log.tail.Clean? && amount.Whole? ==> grown == Log(log.records + [r], Clean))
  {
  }

  lemma AppendLog(codec: Codec, j: Journal, w: Write)
    ensures LogOf(codec, j.(writes := j.writes + [w])) == Grow(LogOf(codec, j), w.record, AmountOf(codec, w))
  {
    assert (j.writes + [w])[..|j.writes|] == j.writes;
  }

  /** What the startup reads back from the file. */
  lemma StartupReads(codec: Codec, j: Journal)
    requires Sound(codec) && ValidIntent(j.intent) && Acceptable(j.intent, LogOf(codec, j).records)
    ensures var log := LogOf(codec, j);
            var loaded := Load(codec, FileText(codec, j.intent, j.writes));
            && (loaded.Rejected? <==> log.tail.Corrupt?)
            && (loaded.Loaded? ==>
                  && loaded.intent == j.intent
                  && (loaded.markers.receipts.None? <==> NoneRegistered(log.records))
                  && (loaded.markers.receipts.Some? ==> Prepared(log, loaded.markers.receipts.value)))
  {
    LoadOfHistory(codec, j.intent, j.writes);
    var records := LogOf(codec, j).records;
    var all := [IntentRecord(j.intent, ShaOf(j.intent))] + records;
    assert all[1..] == records;
    MarkersRead(j.intent, records, Markers([], None));
  }

  lemma OnlyOneRegistered(intent: Intent, records: seq<Record>, a: seq<Receipt>, b: seq<Receipt>)
    requires Acceptable(intent, records) && Registers(records, a) && Registers(records, b)
    ensures a == b
  {
    var x :| x in records && Prepares(x) && x.receipts == Some(a);
    var y :| y in records && Prepares(y) && y.receipts == Some(b);
    var m, n :| 0 <= m < |records| && 0 <= n < |records| && records[m] == x && records[n] == y;
    assert m == n;
  }

  // ----- Every step keeps the invariant -----

  /** A step that changes only the stage of `p`. */
  lemma OnlyStage(codec: Codec, s: World, p: Pid, st: Stage)
    requires p in s.stage && Local(codec, s, s.stage[p]) && Fits(codec, To(s, p, st), st)
    ensures Keeps(codec, s, To(s, p, st), p)
  {
    assert forall j <- s.journals :: JournalInv(codec, To(s, p, st), s.journals[j]) ==
             JournalInv(codec, s, s.journals[j]);
  }

  lemma Appended(codec: Codec, s: World, p: Pid, j: Name, r: Record, c: Choice, next: Stage, failed: Stage)
    requires p in s.stage && Local(codec, s, s.stage[p]) && j in s.journals
    requires s.files == s.origin.files && Ours(s.journals[j].intent, r)
    requires Prepares(r) ==>
               && NoneRegistered(LogOf(codec, s.journals[j]).records)
               && r.receipts.Some? && ValidReceipts(s.journals[j].intent, r.receipts.value)
    requires var s' := Append(codec, s, p, j, r, c, next, failed); Fits(codec, s', s'.stage[p])
    ensures Keeps(codec, s, Append(codec, s, p, j, r, c, next, failed), p)
  {
    var s' := Append(codec, s, p, j, r, c, next, failed);
    var w := Write(r, c.count);
    assert JournalInv(codec, s, s.journals[j]);
    AppendLog(codec, s.journals[j], w);
    GrowKeeps(s.journals[j].intent, LogOf(codec, s.journals[j]), r, AmountOf(codec, w));
    assert JournalInv(codec, s', s'.journals[j]);
  }

  lemma AppendedLog(codec: Codec, s: World, p: Pid, j: Name, r: Record, c: Choice, next: Stage, failed: Stage)
    requires j in s.journals && Fresh(LogOf(codec, s.journals[j]))
    ensures var s' := Append(codec, s, p, j, r, c, next, failed);
            && s'.disk == s.disk && s'.files == s.files && s'.origin == s.origin
            && j in s'.journals && s'.journals[j].intent == s.journals[j].intent
            && (s'.stage[p] != failed ==>
                  && s'.stage[p] == next
                  && LogOf(codec, s'.journals[j]) == Log(LogOf(codec, s.journals[j]).records + [r], Clean))
  {
    var s', w := Append(codec, s, p, j, r, c, next, failed), Write(r, c.count);
    assert s'.stage[p] == (if AmountOf(codec, w).Whole? && c.fault.NoFault? then next else failed);
    assert s'.journals[j] == s.journals[j].(writes := s.journals[j].writes + [w]);
    if s'.stage[p] != failed {
      AppendLog(codec, s.journals[j], w);
      WholeOnClean(LogOf(codec, s.journals[j]), r);
    }
  }

  lemma WholeOnClean(log: Log, r: Record)
    requires log.tail.Clean?
    ensures Grow(log, r, Whole) == Log(log.records + [r], Clean)
  {
  }

  /** A step that runs one call on the paths of entry `i`. */
  lemma Called(codec: Codec, s: World, p: Pid, j: Name, i: nat, disk: Disk, st: Stage)
    requires p in s.stage && Local(codec, s, s.stage[p]) && j in s.journals && s.files == s.origin.files
    requires i < |s.journals[j].intent.entries|
    requires var e := s.journals[j].intent.entries[i];
             SameOutside(s.disk, disk, e.Paths()) && InFlight(e, SlotsOf(disk, e))
    requires Fits(codec, To(s.(disk := disk), p, st), st)
    ensures Keeps(codec, s, To(s.(disk := disk), p, st), p)
  {
    var s' := To(s.(disk := disk), p, st);
    assert JournalInv(codec, s, s.journals[j]);
    OneEntry(s.origin.disk, s.disk, disk, s.journals[j].intent.entries, i);
    assert JournalInv(codec, s', s'.journals[j]);
  }

  lemma PublishStep(codec: Codec, s: World, p: Pid, c: Choice)
    requires p in s.stage && Local(codec, s, s.stage[p]) && s.stage[p].Ready?
    ensures Keeps(codec, s, Forward(codec, s, p, Ready, c), p)
  {
    var s' := Forward(codec, s, p, Ready, c);
    assert Fits(codec, s, s.stage[p]);
    if c.name !in s'.journals {
      OnlyStage(codec, s, p, Finished);
    } else {
      var journal := Journal(c.intent, []);
      assert s'.journals == map[c.name := journal];
      assert JournalInv(codec, s', journal);
      assert Halfway(s'.disk, c.intent.entries, 0, 0) by {
        assert forall e <- c.intent.entries :: Untouched(e, SlotsOf(s'.disk, e));
      }
    }
  }

  lemma BeginStep(codec: Codec, s: World, p: Pid, c: Choice)
    requires p in s.stage && Local(codec, s, s.stage[p]) && s.stage[p].Beginning?
    ensures Keeps(codec, s, Forward(codec, s, p, s.stage[p], c), p)
  {
    var j := s.stage[p].j;
    assert Fits(codec, s, s.stage[p]) && ForwardInv(codec, s, s.stage[p]);
    var r := MarkRecord(s, j, SwitchBegin);
    AppendedLog(codec, s, p, j, r, c, Switching(j, 0), Planning(j));
    Appended(codec, s, p, j, r, c, Switching(j, 0), Planning(j));
  }

  lemma VerifyStep(codec: Codec, s: World, p: Pid, c: Choice)
    requires p in s.stage && Local(codec, s, s.stage[p]) && s.stage[p].Verifying?
    ensures Keeps(codec, s, Forward(codec, s, p, s.stage[p], c), p)
  {
    var j := s.stage[p].j;
    assert Fits(codec, s, s.stage[p]) && ForwardInv(codec, s, s.stage[p]);
    OnlyStage(codec, s, p, if c.ok && AllNew(s.disk, s.journals[j].intent) then Confirming(j) else Planning(j));
  }

  lemma ConfirmStep(codec: Codec, s: World, p: Pid, c: Choice)
    requires p in s.stage && Local(codec, s, s.stage[p]) && s.stage[p].Confirming?
    ensures Keeps(codec, s, Forward(codec, s, p, s.stage[p], c), p)
  {
    var j := s.stage[p].j;
    assert Fits(codec, s, s.stage[p]) && ForwardInv(codec, s, s.stage[p]);
    var r := MarkRecord(s, j, Verified);
    AppendedLog(codec, s, p, j, r, c, Preparing(j), Planning(j));
    Appended(codec, s, p, j, r, c, Preparing(j), Planning(j));
  }

  lemma PrepareStep(codec: Codec, s: World, p: Pid, c: Choice)
    requires p in s.stage && Local(codec, s, s.stage[p]) && s.stage[p].Preparing?
    ensures Keeps(codec, s, Forward(codec, s, p, s.stage[p], c), p)
  {
    var j := s.stage[p].j;
    assert Fits(codec, s, s.stage[p]) && ForwardInv(codec, s, s.stage[p]);
    var intent := s.journals[j].intent;
    if !c.ok || !ValidReceipts(intent, c.receipts) {
      OnlyStage(codec, s, p, Planning(j));
    } else {
      PreparedFits(codec, s, p, s.stage[p], c);
      Appended(codec, s, p, j, MarkerRecord(ReceiptsPrepared, ShaOf(intent), Some(c.receipts)), c,
               Writing(j, c.receipts, 0), Planning(j));
    }
  }

  lemma PreparedFits(codec: Codec, s: World, p: Pid, st: Stage, c: Choice)
    requires st.Preparing? && st.j in s.journals && ForwardInv(codec, s, st)
    ensures var r := MarkerRecord(ReceiptsPrepared, ShaOf(s.journals[st.j].intent), Some(c.receipts));
            var s' := Append(codec, s, p, st.j, r, c, Writing(st.j, c.receipts, 0), Planning(st.j));
            Fits(codec, s', s'.stage[p])
  {
    var intent := s.journals[st.j].intent;
    var r := MarkerRecord(ReceiptsPrepared, ShaOf(intent), Some(c.receipts));
    AppendedLog(codec, s, p, st.j, r, c, Writing(st.j, c.receipts, 0), Planning(st.j));
    SwitchedIsNew(s.disk, intent.entries);
    LastRegisters(LogOf(codec, s.journals[st.j]).records, r, c.receipts);
  }

  lemma LastRegisters(records: seq<Record>, r: Record, receipts: seq<Receipt>)
    requires Prepares(r) && r.receipts == Some(receipts)
    ensures Registers(records + [r], receipts)
  {
    assert (records + [r])[|records|] == r;
  }

  lemma SwitchedIsNew(disk: Disk, entries: seq<Entry>)
    requires Halfway(disk, entries, |entries|, |entries|)
    ensures forall e <- entries :: ObjectSha(disk, e.production, e.kind) == Sha(e.newContent)
  {
    forall e | e in entries ensures ObjectSha(disk, e.production, e.kind) == Sha(e.newContent) {
      var i :| 0 <= i < |entries| && entries[i] == e;
      assert Switched(entries[i], SlotsOf(disk, e));
    }
  }

  lemma SwitchStep(codec: Codec, s: World, p: Pid, c: Choice)
    requires Sound(codec) && p in s.stage && Local(codec, s, s.stage[p]) && s.stage[p].Switching?
    ensures Keeps(codec, s, Forward(codec, s, p, s.stage[p], c), p)
  {
    var st := s.stage[p];
    assert Fits(codec, s, st) && ForwardInv(codec, s, st);
    if !c.ok {
      OnlyStage(codec, s, p, Planning(st.j));
    } else if st.i >= |s.journals[st.j].intent.entries| {
      AllSwitchedStep(codec, s, p, c);
    } else if s.journals[st.j].intent.entries[st.i].oldContent.None? {
      InstallEntryStep(codec, s, p, c);
    } else {
      ExchangeEntryStep(codec, s, p, c);
    }
  }

  lemma AllSwitchedStep(codec: Codec, s: World, p: Pid, c: Choice)
    requires p in s.stage && Local(codec, s, s.stage[p]) && s.stage[p].Switching? && c.ok && s.stage[p].j in s.journals
    requires s.stage[p].i >= |s.journals[s.stage[p].j].intent.entries|
    ensures Keeps(codec, s, Forward(codec, s, p, s.stage[p], c), p)
  {
    var j := s.stage[p].j;
    assert Fits(codec, s, s.stage[p]) && ForwardInv(codec, s, s.stage[p]);
    var r := MarkRecord(s, j, SwitchDone);
    AppendedLog(codec, s, p, j, r, c, Verifying(j), Planning(j));
    Appended(codec, s, p, j, r, c, Verifying(j), Planning(j));
  }

  lemma InstallEntryStep(codec: Codec, s: World, p: Pid, c: Choice)
    requires p in s.stage && Local(codec, s, s.stage[p]) && s.stage[p].Switching? && c.ok && s.stage[p].j in s.journals
    requires var entries := s.journals[s.stage[p].j].intent.entries;
             s.stage[p].i < |entries| && entries[s.stage[p].i].oldContent.None?
    ensures Keeps(codec, s, Forward(codec, s, p, s.stage[p], c), p)
  {
    assert Fits(codec, s, s.stage[p]) && ForwardInv(codec, s, s.stage[p]);
    InstallEffect(codec, s, p, s.stage[p], c.fault);
  }

  lemma InstallEffect(codec: Codec, s: World, p: Pid, st: Stage, fault: Fault)
    requires p in s.stage && Local(codec, s, s.stage[p]) && st.Switching? && st.j in s.journals
               && ForwardInv(codec, s, st)
    requires st.i < |s.journals[st.j].intent.entries| && s.journals[st.j].intent.entries[st.i].oldContent.None?
    ensures var e := s.journals[st.j].intent.entries[st.i];
            var r := RenameNoReplace(s.disk, e.candidate, e.production, fault);
            Keeps(codec, s, To(s.(disk := r.disk), p, if r.ok then Switching(st.j, st.i + 1) else Planning(st.j)), p)
  {
    var entries := s.journals[st.j].intent.entries;
    assert Disjoint(entries) by { assert JournalInv(codec, s, s.journals[st.j]); }
    var r := RenameNoReplace(s.disk, entries[st.i].candidate, entries[st.i].production, fault);
    EntryInstalled(s.disk, entries, st.i, fault);
    var next := if r.ok then Switching(st.j, st.i + 1) else Planning(st.j);
    Forwarded(codec, s, p, r.disk, st, next);
    Called(codec, s, p, st.j, st.i, r.disk, next);
  }

  lemma ExchangeEntryStep(codec: Codec, s: World, p: Pid, c: Choice)
    requires p in s.stage && Local(codec, s, s.stage[p]) && s.stage[p].Switching? && c.ok && s.stage[p].j in s.journals
    requires var entries := s.journals[s.stage[p].j].intent.entries;
             s.stage[p].i < |entries| && entries[s.stage[p].i].oldContent.Some?
    ensures Keeps(codec, s, Forward(codec, s, p, s.stage[p], c), p)
  {
    var j, i := s.stage[p].j, s.stage[p].i;
    assert Fits(codec, s, s.stage[p]) && ForwardInv(codec, s, s.stage[p]) && JournalInv(codec, s, s.journals[j]);
    var entries := s.journals[j].intent.entries;
    var r := AtomicExchange(s.disk, entries[i].candidate, entries[i].production, c.fault);
    EntryExchanged(s.disk, entries, i, c.fault);
    Forwarded(codec, s, p, r.disk, s.stage[p], if r.ok then Renaming(j, i) else Planning(j));
    Called(codec, s, p, j, i, r.disk, if r.ok then Renaming(j, i) else Planning(j));
  }

  /** Where a switching call of the transaction leads. */
  lemma Forwarded(codec: Codec, s: World, p: Pid, disk: Disk, st: Stage, next: Stage)
    requires (st.Switching? || st.Renaming?) && st.j in s.journals && ForwardInv(codec, s, st)
    requires next.Switching? || next.Renaming? || next.Planning?
    requires next.j == st.j
    requires var entries := s.journals[st.j].intent.entries;
             && (next.Switching? ==> Halfway(disk, entries, next.i, next.i))
             && (next.Renaming? ==> next.i < |entries| && Halfway(disk, entries, next.i, next.i + 1)
                                    && HalfSwitched(entries[next.i], SlotsOf(disk, entries[next.i])))
    ensures Fits(codec, To(s.(disk := disk), p, next), next)
  {
    var s' := To(s.(disk := disk), p, next);
    assert s'.disk == disk && s'.journals == s.journals && s'.files == s.files && s'.origin == s.origin;
    if next.Planning? {
      assert RollbackInv(s', next);
    } else {
      assert ForwardInv(codec, s', next);
    }
  }

  lemma EntryInstalled(disk: Disk, entries: seq<Entry>, i: nat, fault: Fault)
    requires i < |entries| && Disjoint(entries) && Halfway(disk, entries, i, i) && entries[i].oldContent.None?
    ensures var e := entries[i];
            var r := RenameNoReplace(disk, e.candidate, e.production, fault);
            && SameOutside(disk, r.disk, e.Paths()) && InFlight(e, SlotsOf(r.disk, e))
            && (r.ok ==> Halfway(r.disk, entries, i + 1, i + 1))
  {
    InstallStep(disk, entries[i], fault);
    Advance(disk, RenameNoReplace(disk, entries[i].candidate, entries[i].production, fault).disk, entries, i, i);
  }

  lemma EntryExchanged(disk: Disk, entries: seq<Entry>, i: nat, fault: Fault)
    requires i < |entries| && Disjoint(entries) && Halfway(disk, entries, i, i) && entries[i].oldContent.Some?
    ensures var e := entries[i];
            var r := AtomicExchange(disk, e.candidate, e.production, fault);
            && e.backup !in disk
            && SameOutside(disk, r.disk, e.Paths()) && InFlight(e, SlotsOf(r.disk, e))
            && (r.ok ==> Halfway(r.disk, entries, i, i + 1) && HalfSwitched(e, SlotsOf(r.disk, e)))
  {
    ExchangeStep(disk, entries[i], fault);
    Advance(disk, AtomicExchange(disk, entries[i].candidate, entries[i].production, fault).disk, entries, i, i);
  }

  lemma InstallStep(disk: Disk, e: Entry, fault: Fault)
    requires e.Distinct() && e.oldContent.None? && Untouched(e, SlotsOf(disk, e))
    ensures var r := RenameNoReplace(disk, e.candidate, e.production, fault);
            && SameOutside(disk, r.disk, e.Paths()) && InFlight(e, SlotsOf(r.disk, e))
            && (r.ok ==> Switched(e, SlotsOf(r.disk, e)))
  {
    assert e.candidate in disk && e.production !in disk;
  }

  lemma ExchangeStep(disk: Disk, e: Entry, fault: Fault)
    requires e.Distinct() && e.oldContent.Some? && Untouched(e, SlotsOf(disk, e))
    ensures e.backup !in disk
    ensures var r := AtomicExchange(disk, e.candidate, e.production, fault);
            && SameOutside(disk, r.disk, e.Paths()) && InFlight(e, SlotsOf(r.disk, e))
            && (r.ok ==> HalfSwitched(e, SlotsOf(r.disk, e)))
  {
    var s := SlotsOf(disk, e);
    assert e.backup in disk <==> s.backup.Some?;
    assert e.candidate in disk && e.production in disk;
  }

  lemma BackupStep(disk: Disk, e: Entry, fault: Fault)
    requires e.Distinct() && HalfSwitched(e, SlotsOf(disk, e))
    ensures var r := RenameToBackup(disk, e, fault);
            && SameOutside(disk, r.disk, e.Paths()) && InFlight(e, SlotsOf(r.disk, e))
            && (r.ok ==> Switched(e, SlotsOf(r.disk, e)))
  {
    assert e.candidate in disk && e.production in disk && e.backup !in disk;
  }

  lemma EntryBackedUp(disk: Disk, entries: seq<Entry>, i: nat, fault: Fault)
    requires i < |entries| && Disjoint(entries) && Halfway(disk, entries, i, i + 1)
    requires HalfSwitched(entries[i], SlotsOf(disk, entries[i]))
    ensures var r := RenameToBackup(disk, entries[i], fault);
            && SameOutside(disk, r.disk, entries[i].Paths()) && InFlight(entries[i], SlotsOf(r.disk, entries[i]))
            && (r.ok ==> Halfway(r.disk, entries, i + 1, i + 1))
  {
    BackupStep(disk, entries[i], fault);
    Advance(disk, RenameToBackup(disk, entries[i], fault).disk, entries, i, i + 1);
  }

  lemma RenameStep(codec: Codec, s: World, p: Pid, c: Choice)
    requires p in s.stage && Local(codec, s, s.stage[p]) && s.stage[p].Renaming?
    ensures Keeps(codec, s, Forward(codec, s, p, s.stage[p], c), p)
  {
    var j, i := s.stage[p].j, s.stage[p].i;
    assert Fits(codec, s, s.stage[p]) && ForwardInv(codec, s, s.stage[p]) && JournalInv(codec, s, s.journals[j]);
    var entries := s.journals[j].intent.entries;
    var r := RenameToBackup(s.disk, entries[i], c.fault);
    EntryBackedUp(s.disk, entries, i, c.fault);
    Forwarded(codec, s, p, r.disk, s.stage[p], if r.ok then Switching(j, i + 1) else Planning(j));
    Called(codec, s, p, j, i, r.disk, if r.ok then Switching(j, i + 1) else Planning(j));
  }

  /** Writing one prepared receipt, in the transaction or in its completion. */
  lemma ReceiptWritten(codec: Codec, s: World, p: Pid, st: Stage, c: Choice, next: Stage)
    requires p in s.stage && s.stage[p] == st && Local(codec, s, st) && (st.Writing? || st.Completing?)
               && st.k < |st.receipts|
    requires if st.Writing? then next == Writing(st.j, st.receipts, st.k + 1)
               else next == Completing(st.j, st.receipts, st.k + 1)
    ensures Keeps(codec, s, WriteReceipt(s, p, st.receipts[st.k], c, next), p)
  {
    var r := st.receipts[st.k];
    assert Grounded(s, st) && CommitInv(codec, s, st) by { assert Fits(codec, s, st); }
    assert r.sha == r.payload by {
      assert JournalInv(codec, s, s.journals[st.j]);
      ValidPrepared(codec, s.journals[st.j], st.receipts, st.k);
    }
    if r.path in s.files || c.fault.Refused? {
      OnlyStage(codec, s, p, Finished);
    } else {
      FilesGrow(s.origin.files, s.files, st.receipts, st.k);
      FilesWritten(codec, s, p, st, s.files[r.path := r.payload], if c.fault.NoFault? then next else Finished);
    }
  }

  lemma FilesWritten(codec: Codec, s: World, p: Pid, st: Stage, files: map<Path, nat>, next: Stage)
    requires p in s.stage && Local(codec, s, st) && (st.Writing? || st.Completing?) && st.j in s.journals
    requires st.k < |st.receipts| && CommitInv(codec, s, st)
    requires FilesWithin(s.origin.files, files, st.receipts) && OnDisk(files, st.receipts[..st.k + 1])
    requires next.Finished? || next == Writing(st.j, st.receipts, st.k + 1)
               || next == Completing(st.j, st.receipts, st.k + 1)
    ensures Keeps(codec, s, s.(files := files, stage := s.stage[p := next]), p)
  {
    var s' := s.(files := files, stage := s.stage[p := next]);
    assert JournalInv(codec, s, s.journals[st.j]);
    assert ReceiptsInv(s'.origin, s'.disk, s'.files, s.journals[st.j].intent, LogOf(codec, s.journals[st.j]));
    assert JournalInv(codec, s', s'.journals[st.j]);
    if !next.Finished? {
      assert CommitInv(codec, s', next);
    }
  }

  lemma FilesGrow(before: map<Path, nat>, files: map<Path, nat>, receipts: seq<Receipt>, k: nat)
    requires FilesWithin(before, files, receipts) && k < |receipts| && OnDisk(files, receipts[..k])
    requires receipts[k].path !in files
    ensures var files' := files[receipts[k].path := receipts[k].sha];
            FilesWithin(before, files', receipts) && OnDisk(files', receipts[..k + 1])
  {
    assert receipts[k] in receipts;
    assert receipts[..k + 1] == receipts[..k] + [receipts[k]];
  }

  lemma ValidPrepared(codec: Codec, j: Journal, receipts: seq<Receipt>, k: nat)
    requires Acceptable(j.intent, LogOf(codec, j).records) && Prepared(LogOf(codec, j), receipts) && k < |receipts|
    ensures ValidReceipts(j.intent, receipts) && receipts[k].sha == receipts[k].payload
  {
  }

  lemma WriteStep(codec: Codec, s: World, p: Pid, c: Choice)
    requires p in s.stage && Local(codec, s, s.stage[p]) && s.stage[p].Writing?
    ensures Keeps(codec, s, Forward(codec, s, p, s.stage[p], c), p)
  {
    var st := s.stage[p];
    assert Fits(codec, s, st) && CommitInv(codec, s, st);
    if !c.ok {
      OnlyStage(codec, s, p, Finished);
    } else if st.k >= |st.receipts| {
      assert st.receipts[..st.k] == st.receipts;
      OnlyStage(codec, s, p, Removing(st.j, st.receipts));
    } else {
      ReceiptWritten(codec, s, p, st, c, Writing(st.j, st.receipts, st.k + 1));
    }
  }

  lemma DropStep(codec: Codec, s: World, p: Pid, j: Name, c: Choice, next: Stage)
    requires p in s.stage && Local(codec, s, s.stage[p]) && j in s.journals && (next.Finished? || next.Ready?)
    ensures Keeps(codec, s, Drop(s, p, j, c, next), p)
  {
    if c.fault.Refused? {
      OnlyStage(codec, s, p, Finished);
    } else {
      assert Drop(s, p, j, c, next).journals == map[];
    }
  }

  lemma StartupStep(codec: Codec, s: World, p: Pid)
    requires Sound(codec) && p in s.stage && Local(codec, s, s.stage[p]) && s.stage[p].Entered?
    ensures Keeps(codec, s, Startup(codec, s, p), p)
  {
    if s.journals == map[] {
      OnlyStage(codec, s, p, Ready);
    } else if |s.journals| > 1 {
      OnlyStage(codec, s, p, Finished);
    } else {
      StartupOnStep(codec, s, p, Only(s.journals.Keys));
    }
  }

  lemma StartupOnStep(codec: Codec, s: World, p: Pid, j: Name)
    requires Sound(codec) && p in s.stage && Local(codec, s, s.stage[p]) && j in s.journals
    ensures Keeps(codec, s, StartupOn(codec, s, p, j), p)
  {
    var journal := s.journals[j];
    assert JournalInv(codec, s, journal);
    StartupReads(codec, journal);
    match Load(codec, FileText(codec, journal.intent, journal.writes))
    case Rejected => OnlyStage(codec, s, p, Finished);
    case Loaded(_, m) => StartupDecides(codec, s, p, j, m.receipts);
  }

  lemma StartupDecides(codec: Codec, s: World, p: Pid, j: Name, receipts: Option<seq<Receipt>>)
    requires p in s.stage && Local(codec, s, s.stage[p]) && j in s.journals && JournalInv(codec, s, s.journals[j])
    requires var log := LogOf(codec, s.journals[j]);
             if receipts.Some? then Prepared(log, receipts.value) else NoneRegistered(log.records)
    ensures Keeps(codec, s, To(s, p, if receipts.Some? then Checking(j, receipts.value) else Planning(j)), p)
  {
    if receipts.Some? {
      CheckingFiles(codec, s, s.journals[j], receipts.value);
      assert CommitInv(codec, To(s, p, Checking(j, receipts.value)), Checking(j, receipts.value));
      OnlyStage(codec, s, p, Checking(j, receipts.value));
    } else {
      NothingRegistered(codec, s, s.journals[j]);
      assert RollbackInv(To(s, p, Planning(j)), Planning(j));
      OnlyStage(codec, s, p, Planning(j));
    }
  }

  lemma NothingRegistered(codec: Codec, s: World, j: Journal)
    requires JournalInv(codec, s, j) && NoneRegistered(LogOf(codec, j).records)
    ensures s.files == s.origin.files
  {
  }

  lemma CheckingFiles(codec: Codec, s: World, j: Journal, receipts: seq<Receipt>)
    requires JournalInv(codec, s, j) && Prepared(LogOf(codec, j), receipts)
    ensures FilesWithin(s.origin.files, s.files, receipts)
  {
    if s.files != s.origin.files {
      var r :| Prepared(LogOf(codec, j), r) && FilesWithin(s.origin.files, s.files, r);
      OnlyOneRegistered(j.intent, LogOf(codec, j).records, r, receipts);
    }
  }

  lemma CommitStep(codec: Codec, s: World, p: Pid, c: Choice)
    requires p in s.stage && Local(codec, s, s.stage[p]) && (s.stage[p].Checking? || s.stage[p].Completing?)
    ensures Grounded(s, s.stage[p]) && Keeps(codec, s, Recover(codec, s, p, s.stage[p], c), p)
  {
    var st := s.stage[p];
    assert Fits(codec, s, st) && CommitInv(codec, s, st);
    if st.Checking? {
      var allNew := AllNew(s.disk, s.journals[st.j].intent);
      OnlyStage(codec, s, p, if allNew then Completing(st.j, st.receipts, 0) else Finished);
    } else if st.k >= |st.receipts| {
      assert st.receipts[..st.k] == st.receipts;
      OnlyStage(codec, s, p, Clearing(st.j, st.receipts));
    } else if st.receipts[st.k].path in s.files {
      ReceiptVerified(codec, s, p, st);
    } else {
      ReceiptWritten(codec, s, p, st, c, Completing(st.j, st.receipts, st.k + 1));
    }
  }

  lemma ReceiptVerified(codec: Codec, s: World, p: Pid, st: Stage)
    requires p in s.stage && s.stage[p] == st && Local(codec, s, st) && st.Completing? && st.k < |st.receipts|
    requires st.receipts[st.k].path in s.files && st.j in s.journals && CommitInv(codec, s, st)
    ensures var r := st.receipts[st.k];
            var next := if s.files[r.path] == r.sha then Completing(st.j, st.receipts, st.k + 1) else Finished;
            Keeps(codec, s, To(s, p, next), p)
  {
    var r := st.receipts[st.k];
    if s.files[r.path] == r.sha {
      assert st.receipts[..st.k + 1] == st.receipts[..st.k] + [r];
      OnlyStage(codec, s, p, Completing(st.j, st.receipts, st.k + 1));
    } else {
      OnlyStage(codec, s, p, Finished);
    }
  }

  lemma PlanStep(codec: Codec, s: World, p: Pid, c: Choice)
    requires p in s.stage && Local(codec, s, s.stage[p]) && s.stage[p].Planning?
    ensures Grounded(s, s.stage[p]) && Keeps(codec, s, Recover(codec, s, p, s.stage[p], c), p)
  {
    assert Fits(codec, s, s.stage[p]) && RollbackInv(s, s.stage[p]);
    OnlyStage(codec, s, p, Recover(codec, s, p, s.stage[p], c).stage[p]);
  }

  lemma RollbackMarkStep(codec: Codec, s: World, p: Pid, c: Choice)
    requires p in s.stage && Local(codec, s, s.stage[p])
               && (s.stage[p].RollbackStarting? || s.stage[p].RollbackMarking?)
    ensures Grounded(s, s.stage[p]) && Keeps(codec, s, Recover(codec, s, p, s.stage[p], c), p)
  {
    var st := s.stage[p];
    assert Fits(codec, s, st) && RollbackInv(s, st);
    if st.RollbackStarting? {
      Appended(codec, s, p, st.j, MarkRecord(s, st.j, RollbackBegin), c, RollingBack(st.j, st.plan, |st.plan|, true),
               Finished);
    } else {
      Appended(codec, s, p, st.j, MarkRecord(s, st.j, RollbackDone), c, Retiring(st.j), Finished);
    }
  }

  lemma RollStep(codec: Codec, s: World, p: Pid, c: Choice)
    requires p in s.stage && Local(codec, s, s.stage[p]) && s.stage[p].RollingBack?
    ensures Grounded(s, s.stage[p]) && Keeps(codec, s, Recover(codec, s, p, s.stage[p], c), p)
  {
    var st := s.stage[p];
    assert Fits(codec, s, st) && RollbackInv(s, st);
    if st.k == 0 {
      Rejudged(codec, s, p, st);
    } else {
      UndoStep(codec, s, p, st, c.fault);
    }
  }

  lemma UndoStep(codec: Codec, s: World, p: Pid, st: Stage, fault: Fault)
    requires p in s.stage && Local(codec, s, s.stage[p]) && st.RollingBack? && st.k > 0
    requires st.j in s.journals && RollbackInv(s, st)
    ensures var r := ApplyAction(s.disk, s.journals[st.j].intent.entries[st.k - 1], st.plan[st.k - 1], fault);
            Keeps(codec, s, To(s.(disk := r.disk), p, RollingBack(st.j, st.plan, st.k - 1, st.clean && r.ok)), p)
  {
    var r := ApplyAction(s.disk, s.journals[st.j].intent.entries[st.k - 1], st.plan[st.k - 1], fault);
    assert EntriesInv(s.origin.disk, s.disk, s.journals[st.j].intent.entries) by {
      assert JournalInv(codec, s, s.journals[st.j]);
    }
    UndoneHolds(s, st, fault);
    Undone(codec, s, p, st, r.disk, st.clean && r.ok);
  }

  lemma Rejudged(codec: Codec, s: World, p: Pid, st: Stage)
    requires p in s.stage && Local(codec, s, s.stage[p]) && st == s.stage[p] && st.RollingBack? && st.j in s.journals
               && RollbackInv(s, st)
    ensures var settled := forall e <- s.journals[st.j].intent.entries :: Decide(s.disk, e).Settled();
            Keeps(codec, s, To(s, p, if st.clean && settled then RollbackMarking(st.j) else Finished), p)
  {
    var settled := forall e <- s.journals[st.j].intent.entries :: Decide(s.disk, e).Settled();
    if st.clean && settled {
      assert RollbackInv(To(s, p, RollbackMarking(st.j)), RollbackMarking(st.j));
      OnlyStage(codec, s, p, RollbackMarking(st.j));
    } else {
      OnlyStage(codec, s, p, Finished);
    }
  }

  lemma UndoneHolds(s: World, st: Stage, fault: Fault)
    requires st.RollingBack? && st.k > 0 && st.j in s.journals && RollbackInv(s, st)
    requires EntriesInv(s.origin.disk, s.disk, s.journals[st.j].intent.entries)
    ensures UndoneFacts(s, st, ApplyAction(s.disk, s.journals[st.j].intent.entries[st.k - 1], st.plan[st.k - 1],
              fault).disk)
  {
    RollEffect(s.origin.disk, s.disk, s.journals[st.j].intent.entries, st.plan, st.k - 1, fault);
  }

  ghost predicate UndoneFacts(s: World, st: Stage, disk: Disk)
    requires st.RollingBack? && st.k > 0 && st.j in s.journals && RollbackInv(s, st)
  {
    var entries, i := s.journals[st.j].intent.entries, st.k - 1;
    && SameOutside(s.disk, disk, entries[i].Paths()) && InFlight(entries[i], SlotsOf(disk, entries[i]))
    && forall n :: 0 <= n < i ==> st.plan[n] == Decide(disk, entries[n])
  }

  lemma Undone(codec: Codec, s: World, p: Pid, st: Stage, disk: Disk, clean: bool)
    requires p in s.stage && Local(codec, s, s.stage[p]) && st.RollingBack? && st.k > 0
    requires st.j in s.journals && RollbackInv(s, st) && UndoneFacts(s, st, disk)
    ensures Keeps(codec, s, To(s.(disk := disk), p, RollingBack(st.j, st.plan, st.k - 1, clean)), p)
  {
    var next := RollingBack(st.j, st.plan, st.k - 1, clean);
    assert RollbackInv(To(s.(disk := disk), p, next), next);
    Called(codec, s, p, st.j, st.k - 1, disk, next);
  }

  lemma RollEffect(origin: Disk, disk: Disk, entries: seq<Entry>, plan: seq<Decision>, i: nat, fault: Fault)
    requires EntriesInv(origin, disk, entries) && i < |plan| == |entries|
    requires forall n :: 0 <= n <= i ==> plan[n] == Decide(disk, entries[n])
    ensures var r := ApplyAction(disk, entries[i], plan[i], fault);
            && SameOutside(disk, r.disk, entries[i].Paths()) && InFlight(entries[i], SlotsOf(r.disk, entries[i]))
            && forall n :: 0 <= n < i ==> plan[n] == Decide(r.disk, entries[n])
  {
    CrashClosure(disk, entries[i], fault);
    OthersKept(disk, ApplyAction(disk, entries[i], plan[i], fault).disk, entries, i);
  }

  /** Other processes are waiting, so what `p` relies on is the whole invariant. */
  lemma KeepsInv(codec: Codec, s: World, s': World, p: Pid)
    requires Inv(codec, s) && p in s.stage && !s.stage[p].Waiting? && Keeps(codec, s, s', p)
    ensures Inv(codec, s')
  {
    forall q | q in s'.stage ensures Fits(codec, s', s'.stage[q]) && (!s'.stage[q].Waiting? ==> s'.lock == Some(q)) {
      if q != p {
        assert q in s.stage && s'.stage[q] == s.stage[q];
        assert s.stage[q].Waiting?;
      }
    }
  }

  lemma ActStep(codec: Codec, s: World, p: Pid, c: Choice)
    requires Sound(codec) && Inv(codec, s)
    ensures Inv(codec, Next(codec, s, Act(p, c)))
  {
    if p in s.stage && !s.stage[p].Waiting? {
      assert Fits(codec, s, s.stage[p]);
      InsideStep(codec, s, p, c);
      KeepsInv(codec, s, Next(codec, s, Act(p, c)), p);
    }
  }

  lemma InsideStep(codec: Codec, s: World, p: Pid, c: Choice)
    requires Sound(codec) && p in s.stage && Local(codec, s, s.stage[p]) && !s.stage[p].Waiting?
    ensures Keeps(codec, s, Next(codec, s, Act(p, c)), p)
  {
    match s.stage[p]
    case Waiting =>
    case Finished =>
    case Entered => StartupStep(codec, s, p);
    case Ready => PublishStep(codec, s, p, c);
    case Beginning(_) => BeginStep(codec, s, p, c);
    case Switching(_, _) => SwitchStep(codec, s, p, c);
    case Renaming(_, _) => RenameStep(codec, s, p, c);
    case Verifying(_) => VerifyStep(codec, s, p, c);
    case Confirming(_) => ConfirmStep(codec, s, p, c);
    case Preparing(_) => PrepareStep(codec, s, p, c);
    case Writing(_, _, _) => WriteStep(codec, s, p, c);
    case Removing(j, _) => DropStep(codec, s, p, j, c, Finished);
    case Planning(_) => PlanStep(codec, s, p, c);
    case RollbackStarting(_, _) => RollbackMarkStep(codec, s, p, c);
    case RollingBack(_, _, _, _) => RollStep(codec, s, p, c);
    case RollbackMarking(_) => RollbackMarkStep(codec, s, p, c);
    case Retiring(j) => DropStep(codec, s, p, j, c, Finished);
    case Checking(_, _) => CommitStep(codec, s, p, c);
    case Completing(_, _, _) => CommitStep(codec, s, p, c);
    case Clearing(j, _) => DropStep(codec, s, p, j, c, Ready);
  }

  /** Processes coming and going, and the world changing while no transaction is open. */
  lemma OuterStep(codec: Codec, s: World, event: Event)
    requires Inv(codec, s) && !event.Act?
    ensures Inv(codec, Next(codec, s, event))
  {
    match event
    case Drift(disk, files) => if s.journals == map[] { Unstaged(codec, s, s.(disk := disk, files := files)); }
    case Arrive(p) => StagesKept(codec, s, Next(codec, s, event));
    case Acquire(p) => StagesKept(codec, s, Next(codec, s, event));
    case Leave(p) => StagesKept(codec, s, Next(codec, s, event));
  }

  /** Without an active journal no stage depends on the disk. */
  lemma Unstaged(codec: Codec, s: World, s': World)
    requires Inv(codec, s) && s.journals == map[] && s' == s.(disk := s'.disk, files := s'.files)
    ensures Inv(codec, s')
  {
    forall p | p in s'.stage ensures Fits(codec, s', s'.stage[p]) {
      assert Fits(codec, s, s.stage[p]);
    }
  }

  lemma StagesKept(codec: Codec, s: World, s': World)
    requires Inv(codec, s) && s' == s.(stage := s'.stage, lock := s'.lock) && Exclusive(s')
    requires forall p <- s'.stage :: s'.stage[p].Waiting? || s'.stage[p].Entered?
               || (p in s.stage && s'.stage[p] == s.stage[p])
    ensures Inv(codec, s')
  {
    forall j | j in s'.journals ensures JournalInv(codec, s', s'.journals[j]) {
      assert JournalInv(codec, s, s.journals[j]);
    }
    forall p | p in s'.stage ensures Fits(codec, s', s'.stage[p]) {
      if p in s.stage { assert Fits(codec, s, s.stage[p]); }
    }
  }

  lemma {:induction false} RunInv(codec: Codec, s: World, events: seq<Event>)
    requires Sound(codec) && Inv(codec, s)
    ensures Inv(codec, Run(codec, s, events))
  {
    if events != [] {
      var n := |events| - 1;
      RunInv(codec, s, events[..n]);
      if events[n].Act? {
        ActStep(codec, Run(codec, s, events[..n]), events[n].pid, events[n].choice);
      } else {
        OuterStep(codec, Run(codec, s, events[..n]), events[n]);
      }
    }
  }

  lemma Reached(codec: Codec, start: World, events: seq<Event>)
    requires Sound(codec) && Initial(start)
    ensures Inv(codec, Run(codec, start, events))
  {
    RunInv(codec, start, events);
  }

  // ----- Main results on whole runs -----

  /** Production is what it was when the intent was published, and no receipt has been written. */
  predicate RolledBack(s: World, intent: Intent) {
    && (forall e <- intent.entries :: At(s.disk, e.production) == At(s.origin.disk, e.production))
    && s.files == s.origin.files
  }

  /** Every object is new, and the receipts registered in the journal, one per client, are all on disk with their
      registered digests; no other receipt changed. */
  ghost predicate Committed(codec: Codec, s: World, journal: Journal) {
    && (forall e <- journal.intent.entries :: At(s.disk, e.production) == Some(e.NewNode()))
    && exists receipts ::
         && Prepared(LogOf(codec, journal), receipts) && ValidReceipts(journal.intent, receipts)
         && OnDisk(s.files, receipts) && FilesWithin(s.origin.files, s.files, receipts)
  }

  /** Atomicity: whatever happened before, the step after which a transaction's journal is no longer active leaves the
      transaction entirely undone or entirely done, and nothing outside its own paths was ever touched. */
  lemma Atomicity(codec: Codec, start: World, events: seq<Event>, last: Event, j: Name)
    requires Sound(codec) && Initial(start)
    requires j in Run(codec, start, events).journals && j !in Next(codec, Run(codec, start, events), last).journals
    ensures var journal := Run(codec, start, events).journals[j];
            var s := Next(codec, Run(codec, start, events), last);
            && (RolledBack(s, journal.intent) || Committed(codec, s, journal))
            && SameOutside(s.origin.disk, s.disk, AllPaths(journal.intent.entries))
  {
    var s := Run(codec, start, events);
    Reached(codec, start, events);
    Dropped(codec, s, last, j);
    ClosingStage(codec, s, s.stage[last.pid], j);
  }

  /** A process about to take the journal away stands before a transaction that is undone or done. */
  lemma ClosingStage(codec: Codec, s: World, st: Stage, j: Name)
    requires Local(codec, s, st) && j in s.journals && (st.Retiring? || st.Removing? || st.Clearing?) && st.j == j
    ensures RolledBack(s, s.journals[j].intent) || Committed(codec, s, s.journals[j])
    ensures SameOutside(s.origin.disk, s.disk, AllPaths(s.journals[j].intent.entries))
  {
    assert Fits(codec, s, st) && JournalInv(codec, s, s.journals[j]);
    if st.Retiring? {
      assert RollbackInv(s, st);
      SettledRollsBack(s, s.journals[j].intent);
    } else {
      assert CommitInv(codec, s, st);
      NewCommits(codec, s, s.journals[j], st.receipts);
    }
  }

  /** Only three steps end a transaction. */
  lemma Dropped(codec: Codec, s: World, last: Event, j: Name)
    requires Inv(codec, s) && j in s.journals && j !in Next(codec, s, last).journals
    ensures last.Act? && last.pid in s.stage
    ensures var st := s.stage[last.pid]; (st.Retiring? || st.Removing? || st.Clearing?) && st.j == j
    ensures Next(codec, s, last).disk == s.disk && Next(codec, s, last).files == s.files
              && Next(codec, s, last).origin == s.origin
  {
    if last.Act? && last.pid in s.stage && Grounded(s, s.stage[last.pid]) {
      var st := s.stage[last.pid];
      if st.Forwarding() {
        DroppedForward(codec, s, last.pid, st, last.choice, j);
      } else if !st.Entered? {
        DroppedRecover(codec, s, last.pid, st, last.choice, j);
      }
    }
  }

  lemma DroppedForward(codec: Codec, s: World, p: Pid, st: Stage, c: Choice, j: Name)
    requires Grounded(s, st) && j in s.journals
    ensures var s' := Forward(codec, s, p, st, c);
            j !in s'.journals ==>
              st.Removing? && st.j == j && s'.disk == s.disk && s'.files == s.files && s'.origin == s.origin
  {
  }

  lemma DroppedRecover(codec: Codec, s: World, p: Pid, st: Stage, c: Choice, j: Name)
    requires Grounded(s, st) && j in s.journals
    ensures var s' := Recover(codec, s, p, st, c);
            j !in s'.journals ==>
              (st.Retiring? || st.Clearing?) && st.j == j && s'.disk == s.disk && s'.files == s.files
                  && s'.origin == s.origin
  {
  }

  lemma SettledRollsBack(s: World, intent: Intent)
    requires s.files == s.origin.files && EntriesInv(s.origin.disk, s.disk, intent.entries)
    requires forall e <- intent.entries :: Decide(s.disk, e).Settled()
    ensures RolledBack(s, intent)
  {
    forall e | e in intent.entries ensures At(s.disk, e.production) == At(s.origin.disk, e.production) {
      SettledIsOld(s.disk, e);
      assert Untouched(e, SlotsOf(s.origin.disk, e));
    }
  }

  lemma NewCommits(codec: Codec, s: World, journal: Journal, receipts: seq<Receipt>)
    requires JournalInv(codec, s, journal) && AllNew(s.disk, journal.intent)
    requires Prepared(LogOf(codec, journal), receipts)
    requires OnDisk(s.files, receipts) && FilesWithin(s.origin.files, s.files, receipts)
    ensures Committed(codec, s, journal)
  {
    if receipts != [] { ValidPrepared(codec, journal, receipts, 0); }
    forall e | e in journal.intent.entries ensures At(s.disk, e.production) == Some(e.NewNode()) {
      assert ObjectSha(s.disk, e.production, e.kind) == Sha(e.newContent);
    }
    assert ValidReceipts(journal.intent, receipts);
  }

  /** While a transaction is open, a receipt that was not there before it implies that production is new throughout, and
      that this very content is registered for it in the journal. */
  lemma ReceiptImpliesNew(codec: Codec, start: World, events: seq<Event>, j: Name, path: Path)
    requires Sound(codec) && Initial(start)
    requires var s := Run(codec, start, events); j in s.journals && path in s.files && path !in s.origin.files
    ensures var s := Run(codec, start, events);
            && AllNew(s.disk, s.journals[j].intent)
            && exists r <- LogOf(codec, s.journals[j]).records, item ::
                 Prepares(r) && item in r.receipts.GetOr([]) && item.path == path && item.sha == s.files[path]
  {
    Reached(codec, start, events);
    var s := Run(codec, start, events);
    assert JournalInv(codec, s, s.journals[j]);
    var receipts :|
      Prepared(LogOf(codec, s.journals[j]), receipts) && AllNew(s.disk, s.journals[j].intent)
          && FilesWithin(s.origin.files, s.files, receipts);
    var item: Receipt :| item in receipts && item.path == path && item.sha == s.files[path];
    var r :| r in LogOf(codec, s.journals[j]).records && Prepares(r) && r.receipts == Some(receipts);
    assert item in r.receipts.GetOr([]);
  }

  /** In every reachable world with an open transaction, recovery can decide every entry, and each entry still holds
      exactly the objects it held when the intent was published. */
  lemma NeverStrandedOrLost(codec: Codec, start: World, events: seq<Event>, j: Name, e: Entry)
    requires Sound(codec) && Initial(start)
    requires j in Run(codec, start, events).journals && e in Run(codec, start, events).journals[j].intent.entries
    ensures var s := Run(codec, start, events);
            && !Decide(s.disk, e).Blocked()
            && Holdings(SlotsOf(s.disk, e)) == Holdings(SlotsOf(s.origin.disk, e))
  {
    Reached(codec, start, events);
    var s := Run(codec, start, events);
    assert JournalInv(codec, s, s.journals[j]);
    CrashClosure(s.disk, e, NoFault);
    InFlightHolds(e, SlotsOf(s.disk, e), SlotsOf(s.origin.disk, e));
  }

  lemma InFlightHolds(e: Entry, s: Slots, before: Slots)
    requires InFlight(e, s) && Untouched(e, before)
    ensures Holdings(s) == Holdings(before)
  {
  }

  /** Two deployers: at most one is inside the lock, at most one journal is active, so a process that recovers a
      journal never meets another process's transaction in progress. */
  lemma OneDeployer(codec: Codec, start: World, events: seq<Event>, p: Pid, q: Pid)
    requires Sound(codec) && Initial(start)
    requires var s := Run(codec, start, events);
             p in s.stage && q in s.stage && p != q && !s.stage[p].Waiting?
    ensures var s := Run(codec, start, events);
            s.stage[q].Waiting? && forall a, b :: a in s.journals && b in s.journals ==> a == b
  {
    Reached(codec, start, events);
  }
}
