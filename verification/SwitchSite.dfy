/**
 The code that changes things: a journal object that appends to its file, and a site whose files the switch,
 restore and completion loops replace. Every call may be refused, or fail after it took effect.
 */
module SwitchSite {
  import opened Prelude
  import opened SwitchTable
  import opened JournalText
  import opened DeployRuns
  import opened DeploySafety

  // ----- Loading -----

  /** `SwitchJournal.load`, as its two loops. */
  method LoadText(codec: Codec, text: string) returns (r: Loaded)
    ensures r == Load(codec, text)
  {
    var lines := Split(text);
    assert lines[0..] == lines;
    var records: seq<Record> := [];
    var i := 0;
    while i < |lines|
      invariant 0 <= i <= |lines| && (records == [] <==> i == 0)
      invariant ReadLines(codec, lines, false) == Prefixed(records, ReadLines(codec, lines[i..], records != []))
    {
      var last := i == |lines| - 1;
      assert lines[i..][1..] == lines[i + 1..];
      if lines[i] == "" {
        if !last { return Rejected; }
        break;
      }
      match codec.parse(lines[i]) {
        case NotJson =>
          if !last || records == [] { return Rejected; }
          break;
        case NotObject =>
          return Rejected;
        case JsonObject(record) =>
          PrefixMore(records, record, ReadLines(codec, lines[i + 1..], true));
          records := records + [record];
      }
      i := i + 1;
    }
    assert ReadLines(codec, lines, false) == Some(records);
    if records == [] || !records[0].IntentRecord? { return Rejected; }
    var intent := records[0].intent;
    if !ValidIntent(intent) || records[0].sha != ShaOf(intent) { return Rejected; }
    var m := LoadMarkers(intent, records[1..]);
    return if m.None? then Rejected else Loaded(intent, m.value);
  }

  function Prefixed(records: seq<Record>, rest: Option<seq<Record>>): (all: Option<seq<Record>>)
    ensures records == [] ==> all == rest
    ensures rest == Some([]) ==> all == Some(records)
  {
    if rest.None? then None
    else
      assert [] + rest.value == rest.value && records + [] == records;
      Some(records + rest.value)
  }

  lemma PrefixMore(records: seq<Record>, record: Record, rest: Option<seq<Record>>)
    ensures Prefixed(records + [record], rest) == Prefixed(records, if rest.None? then None
              else Some([record] + rest.value))
  {
    if rest.Some? {
      assert records + [record] + rest.value == records + ([record] + rest.value);
    }
  }

  method LoadMarkers(intent: Intent, records: seq<Record>) returns (m: Option<Markers>)
    ensures m == ReadMarkers(intent, records, Markers([], None))
  {
    var marks: seq<Mark>, receipts: Option<seq<Receipt>> := [], None;
    for i := 0 to |records|
      invariant ReadMarkers(intent, records, Markers([], None)) ==
                  ReadMarkers(intent, records[i..], Markers(marks, receipts))
    {
      var record := records[i];
      assert records[i..][1..] == records[i + 1..];
      if !record.MarkerRecord? || record.sha != ShaOf(intent) { return None; }
      marks := marks + [record.mark];
      if record.mark == ReceiptsPrepared {
        if receipts.Some? || record.receipts.None? || !ValidReceipts(intent, record.receipts.value) { return None; }
        receipts := record.receipts;
      }
    }
    return Some(Markers(marks, receipts));
  }

  // ----- The journal object -----

  /** How an append goes: the amounts the successive writes accept (none left: the next one fails), and how the rest
      ends. */
  datatype Delivery = Delivery(chunks: seq<nat>, fault: Fault) {
    /** How many of `size` characters reach the file. */
    function Count(size: nat): (n: nat)
      ensures n <= size
    {
      if fault.Refused? then 0 else Delivered(chunks, size)
    }

    predicate Complete(size: nat) {
      fault.NoFault? && Count(size) == size
    }
  }

  function Total(chunks: seq<nat>): nat {
    if chunks == [] then 0 else chunks[0] + Total(chunks[1..])
  }

  /** However the writes divide it up, what is accepted in all arrives, up to the whole. */
  function Delivered(chunks: seq<nat>, size: nat): nat {
    if Total(chunks) < size then Total(chunks) else size
  }

  class SwitchJournal {
    const codec: Codec
    const intent: Intent
    var text: string
    var active: bool
    var markers: seq<Mark>
    var receipts: Option<seq<Receipt>>
    ghost var writes: seq<Write>

    /** The file is the intent line followed by what each append delivered. */
    ghost predicate Valid()
      reads this
    {
      text == FileText(codec, intent, writes)
    }

    /** `create`, whose one-shot publication is a single step. */
    constructor (codec: Codec, intent: Intent)
      ensures Valid() && active && writes == [] && markers == [] && receipts == None
      ensures this.codec == codec && this.intent == intent
    {
      this.codec, this.intent := codec, intent;
      text, active, markers, receipts, writes := Line(codec, IntentRecord(intent, ShaOf(intent))), true, [], None, [];
    }

    predicate Admits(mark: Mark, body: Option<seq<Receipt>>) {
      mark == ReceiptsPrepared ==> body.Some? && ValidReceipts(intent, body.value)
    }

    /** The marker `mark` as a line of the file. */
    function LineOf(mark: Mark): string {
      Line(codec, MarkerRecord(mark, ShaOf(intent), None))
    }

    /** As much of that line as reaches the file. */
    function Piece(mark: Mark, delivery: Delivery): string {
      LineOf(mark)[..delivery.Count(|LineOf(mark)|)]
    }

    method Append(mark: Mark, body: Option<seq<Receipt>>, delivery: Delivery) returns (ok: bool)
      requires Valid()
      modifies `text, `markers, `receipts, `writes
      ensures Valid()
      ensures mark == ReceiptsPrepared && (body == None || !ValidReceipts(intent, body.value)) ==>
                !ok && writes == old(writes) && text == old(text)
      ensures mark != ReceiptsPrepared || (body.Some? && ValidReceipts(intent, body.value)) ==>
                var record := MarkerRecord(mark, ShaOf(intent), body);
                var line := Line(codec, record);
                && writes == old(writes) + [Write(record, delivery.Count(|line|))]
                && text == old(text) + line[..delivery.Count(|line|)]
                && (ok <==> delivery.Complete(|line|))
      ensures markers == old(markers) + if ok then [mark] else []
      ensures receipts == if ok && mark == ReceiptsPrepared then body else old(receipts)
    {
      if !Admits(mark, body) { return false; }
      ok := WriteLine(MarkerRecord(mark, ShaOf(intent), body), delivery);
      if ok {
        markers := markers + [mark];
        receipts := if mark == ReceiptsPrepared then body else receipts;
      }
    }

    method WriteLine(record: Record, delivery: Delivery) returns (ok: bool)
      requires Valid()
      modifies `text, `writes
      ensures Valid()
      ensures var line := Line(codec, record);
              && writes == old(writes) + [Write(record, delivery.Count(|line|))]
              && text == old(text) + line[..delivery.Count(|line|)]
              && (ok <==> delivery.fault.NoFault? && delivery.Count(|line|) == |line|)
    {
      var line := Line(codec, record);
      var count := 0;
      if !delivery.fault.Refused? { count := Deliver(line, delivery.chunks); }
      writes := writes + [Write(record, count)];
      FileGrows(codec, intent, old(writes), Write(record, count));
      ok := delivery.fault.NoFault? && count == |line|;
    }

    /** The write loop: each call accepts some of what is left. */
    method Deliver(line: string, chunks: seq<nat>) returns (count: nat)
      modifies `text
      ensures count == Delivered(chunks, |line|) && text == old(text) + line[..count]
    {
      count := 0;
      var rest: seq<nat> := chunks;
      while count < |line| && rest != []
        invariant count <= |line| && text == old(text) + line[..count]
        invariant count + Delivered(rest, |line| - count) == Delivered(chunks, |line|)
        decreases |rest|
      {
        var taken := if rest[0] < |line| - count then rest[0] else |line| - count;
        text := text + line[count..count + taken];
        assert line[..count] + line[count..count + taken] == line[..count + taken];
        count, rest := count + taken, rest[1..];
      }
    }

    /** `remove` and `retire`: the file leaves its active name. */
    method Close(fault: Fault) returns (ok: bool)
      modifies `active
      ensures active == (old(active) && fault.Refused?)
      ensures ok <==> fault.NoFault?
    {
      if !fault.Refused? { active := false; }
      ok := fault.NoFault?;
    }
  }

  lemma FileGrows(codec: Codec, intent: Intent, writes: seq<Write>, w: Write)
    requires w.count <= |Line(codec, w.record)|
    ensures FileText(codec, intent, writes + [w]) == FileText(codec, intent, writes) + Line(codec, w.record)[..w.count]
  {
    assert (writes + [w])[..|writes|] == writes;
  }

  // ----- The site -----

  datatype Restored = Blocked | NotBegun | Incomplete | NotMarked | NotRetired | Retired
  datatype Completed = Mismatched | ReceiptRefused | NotRemoved | ReceiptsCompleted

  /** What becomes of the entry at `i` of a plan when its action meets `fault`. */
  predicate ActedAlone(before: Disk, after: Disk, e: Entry, fault: Fault) {
    SlotsOf(after, e) == SlotsOf(ApplyAction(before, e, Decide(before, e), fault).disk, e)
  }

  /** Every entry met exactly its own action. */
  predicate UndoneBy(before: Disk, after: Disk, entries: seq<Entry>, actions: nat -> Fault) {
    forall i :: 0 <= i < |entries| ==> ActedAlone(before, after, entries[i], actions(i))
  }

  predicate SomeActionFails(before: Disk, entries: seq<Entry>, actions: nat -> Fault) {
    exists i :: 0 <= i < |entries| && Decide(before, entries[i]).Acts() && !actions(i).NoFault?
  }

  predicate AllAtOld(disk: Disk, entries: seq<Entry>) {
    forall e <- entries :: AtOldState(e, SlotsOf(disk, e))
  }

  /** None of the calls that switch `e` fails. */
  predicate Faultless(e: Entry, f1: Fault, f2: Fault) {
    f1.NoFault? && (e.oldContent.None? || f2.NoFault?)
  }

  /** A run that began on `start` has switched the entries before `n` and touched nothing else. */
  predicate SwitchedUpTo(start: Disk, disk: Disk, entries: seq<Entry>, n: nat) {
    Disjoint(entries) && Halfway(disk, entries, n, n) && SameOutside(start, disk, AllPaths(entries))
  }

  /** The same, except that entry `n` is somewhere in between. */
  predicate StoppedAt(start: Disk, disk: Disk, entries: seq<Entry>, n: nat) {
    && n < |entries| && Disjoint(entries) && Halfway(disk, entries, n, n + 1)
    && InFlight(entries[n], SlotsOf(disk, entries[n])) && SameOutside(start, disk, AllPaths(entries))
  }

  class Site {
    var disk: Disk
    /** Receipts in the control directory. */
    var files: map<Path, nat>

    /** `switch_intent_entry`. */
    method SwitchOne(e: Entry, f1: Fault, f2: Fault) returns (ok: bool)
      modifies `disk
      ensures Outcome(disk, ok) == SwitchEntry(old(disk), e, f1, f2)
    {
      if e.oldContent.None? {
        var installed := RenameNoReplace(disk, e.candidate, e.production, f1);
        disk := installed.disk;
        return installed.ok;
      }
      if e.backup in disk { return false; }
      var exchanged := AtomicExchange(disk, e.candidate, e.production, f1);
      disk := exchanged.disk;
      if !exchanged.ok { return false; }
      var moved := RenameToBackup(disk, e, f2);
      disk := moved.disk;
      ok := moved.ok;
    }

    /** One round of the switching loop, in a run that began on `start`. */
    method SwitchNext(ghost start: Disk, entries: seq<Entry>, i: nat, f1: Fault, f2: Fault) returns (ok: bool)
      requires i < |entries| && SwitchedUpTo(start, disk, entries, i)
      modifies `disk
      ensures ok <==> Faultless(entries[i], f1, f2)
      ensures if ok then SwitchedUpTo(start, disk, entries, i + 1) else StoppedAt(start, disk, entries, i)
    {
      ok := SwitchOne(entries[i], f1, f2);
      SwitchedOne(start, old(disk), disk, ok, entries, i, f1, f2);
    }

    /** The switching loop. It stops at the first failure, which leaves exactly one entry between old and new. */
    method SwitchAll(entries: seq<Entry>, f1: nat -> Fault, f2: nat -> Fault) returns (ok: bool, done: nat)
      requires SwitchedUpTo(disk, disk, entries, 0)
      modifies `disk
      ensures done <= |entries| && (ok <==> done == |entries|)
      ensures if ok then SwitchedUpTo(old(disk), disk, entries, done) else StoppedAt(old(disk), disk, entries, done)
      ensures forall i :: 0 <= i < done ==> Faultless(entries[i], f1(i), f2(i))
      ensures !ok ==> !Faultless(entries[done], f1(done), f2(done))
    {
      done := 0;
      while done < |entries|
        invariant done <= |entries| && SwitchedUpTo(old(disk), disk, entries, done)
        invariant forall i :: 0 <= i < done ==> Faultless(entries[i], f1(i), f2(i))
      {
        ok := SwitchNext(old(disk), entries, done, f1(done), f2(done));
        if !ok { return; }
        done := done + 1;
      }
      ok := true;
    }

    /** `restore_switch_journal`: judge everything, then undo in reverse order; a failed action does not stop the
        others. */
    method Restore(journal: SwitchJournal, actions: nat -> Fault, begin: Delivery, end: Delivery, retire: Fault)
      returns (r: Restored)
      requires journal.Valid() && Disjoint(journal.intent.entries)
      modifies `disk, journal`text, journal`markers, journal`receipts, journal`writes, journal`active
      ensures journal.Valid() && journal.receipts == old(journal.receipts)
      // When it ends how.
      ensures r.Blocked? <==> exists e <- journal.intent.entries :: Decide(old(disk), e).Blocked()
      ensures r.NotBegun? <==> !r.Blocked? && !begin.Complete(|journal.LineOf(RollbackBegin)|)
      ensures r.Incomplete? <==>
              && !r.Blocked? && !r.NotBegun?
              && exists i ::
                   && 0 <= i < |journal.intent.entries|
                   && Decide(old(disk), journal.intent.entries[i]).Acts() && !actions(i).NoFault?
      ensures r.NotMarked? ==> !end.Complete(|journal.LineOf(RollbackDone)|)
      ensures r.NotRetired? || r.Retired? ==>
                end.Complete(|journal.LineOf(RollbackDone)|) && (r.Retired? <==> retire.NoFault?)
      // What it leaves on file.
      ensures r.Blocked? ==> unchanged(this) && unchanged(journal)
      ensures r.NotBegun? || r.Incomplete? ==> journal.text == old(journal.text) + journal.Piece(RollbackBegin, begin)
      ensures r.NotMarked? || r.NotRetired? || r.Retired? ==>
                journal.text == old(journal.text) + journal.LineOf(RollbackBegin) + journal.Piece(RollbackDone, end)
      ensures r.NotBegun? ==> journal.markers == old(journal.markers)
      ensures r.Incomplete? || r.NotMarked? ==> journal.markers == old(journal.markers) + [RollbackBegin]
      ensures r.NotRetired? || r.Retired? ==> journal.markers == old(journal.markers) + [RollbackBegin, RollbackDone]
      ensures journal.active == (old(journal.active) && !r.Retired? && (r.NotRetired? ==> retire.Refused?))
      // What it does to production.
      ensures SameOutside(old(disk), disk, AllPaths(journal.intent.entries))
      ensures if r.Blocked? || r.NotBegun? then disk == old(disk)
                else UndoneBy(old(disk), disk, journal.intent.entries, actions)
      ensures r.NotMarked? || r.NotRetired? || r.Retired? ==> AllAtOld(disk, journal.intent.entries)
    {
      var entries := journal.intent.entries;
      var plan := JudgeAll(entries);
      var blocked := AnyOf(plan);
      if blocked { return Blocked; }
      var ok := journal.Append(RollbackBegin, None, begin);
      if !ok { return NotBegun; }
      assert journal.Piece(RollbackBegin, begin) == journal.LineOf(RollbackBegin);
      r := RollBack(journal, plan, actions, end, retire);
    }

    method RollBack(journal: SwitchJournal, plan: seq<Decision>, actions: nat -> Fault, end: Delivery, retire: Fault)
        returns (r: Restored)
      requires journal.Valid() && Disjoint(journal.intent.entries)
      requires plan == Plan(disk, journal.intent.entries)
      requires forall e <- journal.intent.entries :: !Decide(disk, e).Blocked()
      modifies `disk, journal`text, journal`markers, journal`receipts, journal`writes, journal`active
      ensures journal.Valid() && SameOutside(old(disk), disk, AllPaths(journal.intent.entries))
      ensures UndoneBy(old(disk), disk, journal.intent.entries, actions)
      ensures if SomeActionFails(old(disk), journal.intent.entries, actions)
              then r == Incomplete && unchanged(journal)
              else AllAtOld(disk, journal.intent.entries) && MarkedBy(journal, end, retire, r)
    {
      PlanBlocked(disk, journal.intent.entries);
      var clean := UndoAndJudge(journal.intent.entries, plan, actions);
      if !clean { return Incomplete; }
      r := FinishRollback(journal, end, retire);
    }

    /** The closing marker was appended as far as `end` says, and behind it the journal was retired. */
    twostate predicate MarkedBy(journal: SwitchJournal, end: Delivery, retire: Fault, r: Restored)
      reads journal
    {
      var complete := end.Complete(|journal.LineOf(RollbackDone)|);
      && r == (if !complete then NotMarked else if retire.NoFault? then Retired else NotRetired)
      && journal.text == old(journal.text) + journal.Piece(RollbackDone, end)
      && journal.markers == old(journal.markers) + (if complete then [RollbackDone] else [])
      && journal.receipts == old(journal.receipts)
      && journal.active == (old(journal.active) && (!complete || retire.Refused?))
    }

    method FinishRollback(journal: SwitchJournal, end: Delivery, retire: Fault) returns (r: Restored)
      requires journal.Valid()
      modifies journal`text, journal`markers, journal`receipts, journal`writes, journal`active
      ensures journal.Valid() && MarkedBy(journal, end, retire, r)
    {
      var ok := journal.Append(RollbackDone, None, end);
      if !ok { return NotMarked; }
      ok := journal.Close(retire);
      r := if ok then Retired else NotRetired;
    }

    method UndoAndJudge(entries: seq<Entry>, plan: seq<Decision>, actions: nat -> Fault) returns (clean: bool)
      requires Disjoint(entries) && plan == Plan(disk, entries) && forall d <- plan :: !d.Blocked()
      modifies `disk
      ensures UndoneBy(old(disk), disk, entries, actions) && SameOutside(old(disk), disk, AllPaths(entries))
      ensures clean <==> !SomeActionFails(old(disk), entries, actions)
      ensures clean ==> AllAtOld(disk, entries)
    {
      PlanBlocked(disk, entries);
      var undone := UndoAll(entries, plan, actions);
      AfterUndo(old(disk), disk, entries, actions);
      var again := JudgeAll(entries);
      clean := undone && forall d <- again :: d.Settled();
      if clean {
        assert forall i :: 0 <= i < |entries| ==> again[i].Settled();
        AllOld(disk, entries);
      }
    }

    /** Whether a plan has a blocked decision. */
    method AnyOf(plan: seq<Decision>) returns (blocked: bool)
      ensures forall entries :: plan == Plan(disk, entries) ==>
                (blocked <==> exists e <- entries :: Decide(disk, e).Blocked())
    {
      blocked := exists d <- plan :: d.Blocked();
      forall entries | plan == Plan(disk, entries) ensures blocked <==>
          exists e <- entries :: Decide(disk, e).Blocked() {
        PlanBlocked(disk, entries);
      }
    }

    method JudgeAll(entries: seq<Entry>) returns (plan: seq<Decision>)
      ensures plan == Plan(disk, entries)
    {
      plan := [];
      var k := |entries|;
      while k > 0
        invariant 0 <= k <= |entries| && plan == Plan(disk, entries)[k..]
      {
        k := k - 1;
        plan := [Decide(disk, entries[k])] + plan;
      }
    }

    method UndoAll(entries: seq<Entry>, plan: seq<Decision>, actions: nat -> Fault) returns (clean: bool)
      requires Disjoint(entries) && plan == Plan(disk, entries) && forall d <- plan :: !d.Blocked()
      modifies `disk
      ensures UndoneBy(old(disk), disk, entries, actions)
      ensures clean <==> forall i :: 0 <= i < |entries| && plan[i].Acts() ==> actions(i).NoFault?
      ensures SameOutside(old(disk), disk, AllPaths(entries))
    {
      clean := true;
      var k := |entries|;
      while k > 0
        invariant 0 <= k <= |entries| && SameOutside(old(disk), disk, AllPaths(entries))
        invariant forall i :: 0 <= i < k ==> SlotsOf(disk, entries[i]) == SlotsOf(old(disk), entries[i])
        invariant forall i :: k <= i < |entries| ==> ActedAlone(old(disk), disk, entries[i], actions(i))
        invariant clean <==> forall i :: k <= i < |entries| && plan[i].Acts() ==> actions(i).NoFault?
      {
        k := k - 1;
        if plan[k].Acts() {
          ghost var before := disk;
          var undone := ApplyAction(disk, entries[k], plan[k], actions(k));
          disk := undone.disk;
          clean := clean && undone.ok;
          UndoOne(old(disk), before, disk, entries, k, actions(k));
        }
      }
    }

    /** `complete_switch_journal`. `writes` says how the publication of each missing receipt ends. */
    method Complete(journal: SwitchJournal, writes: nat -> Fault, remove: Fault) returns (r: Completed)
      requires ValidIntent(journal.intent)
      requires journal.receipts.Some? ==> ValidReceipts(journal.intent, journal.receipts.value)
      modifies `files, journal`active
      ensures r.Mismatched? <==> !AllNew(disk, journal.intent)
      ensures r.ReceiptRefused? <==>
              && !r.Mismatched?
              && exists k ::
                   && 0 <= k < |journal.receipts.GetOr([])|
                   && var item := journal.receipts.GetOr([])[k];
                      if item.path in old(files) then old(files)[item.path] != item.sha else !writes(k).NoFault?
      ensures r.Mismatched? ==> files == old(files)
      ensures FilesWithin(old(files), files, journal.receipts.GetOr([]))
      ensures r.NotRemoved? || r.ReceiptsCompleted? ==>
                OnDisk(files, journal.receipts.GetOr([])) && (r.ReceiptsCompleted? <==> remove.NoFault?)
      ensures journal.active == (old(journal.active) && (r.Mismatched? || r.ReceiptRefused? || remove.Refused?))
    {
      if exists e <- journal.intent.entries :: ObjectSha(disk, e.production, e.kind) != Sha(e.newContent) {
        return Mismatched;
      }
      var ok := CompleteReceipts(journal.intent, journal.receipts.GetOr([]), writes);
      if !ok { return ReceiptRefused; }
      ok := journal.Close(remove);
      r := if ok then ReceiptsCompleted else NotRemoved;
    }

    method CompleteReceipts(intent: Intent, receipts: seq<Receipt>, writes: nat -> Fault) returns (ok: bool)
      requires ValidIntent(intent) && (receipts == [] || ValidReceipts(intent, receipts))
      modifies `files
      ensures ok <==> forall k :: 0 <= k < |receipts| ==>
                  if receipts[k].path in old(files) then old(files)[receipts[k].path] == receipts[k].sha
                  else writes(k).NoFault?
      ensures FilesWithin(old(files), files, receipts) && (ok ==> OnDisk(files, receipts))
    {
      for k := 0 to |receipts|
        invariant Placed(old(files), files, receipts, k)
        invariant forall i :: 0 <= i < k ==>
                    if receipts[i].path in old(files) then old(files)[receipts[i].path] == receipts[i].sha
                    else writes(i).NoFault?
      {
        if receipts[k].path in files {
          if files[receipts[k].path] != receipts[k].sha { return false; }
          OnePlaced(old(files), files, intent, receipts, k);
        } else {
          OnePlaced(old(files), files, intent, receipts, k);
          if !writes(k).Refused? { files := files[receipts[k].path := receipts[k].payload]; }
          if !writes(k).NoFault? || files[receipts[k].path] != receipts[k].sha { return false; }
        }
      }
      ok := true;
    }
  }

  /** The receipts before `k` are on disk; the rest and everything else is as on `start`. */
  predicate Placed(start: map<Path, nat>, files: map<Path, nat>, receipts: seq<Receipt>, k: nat) {
    && k <= |receipts|
    && FilesWithin(start, files, receipts)
    && (forall i :: 0 <= i < k ==> receipts[i].path in files && files[receipts[i].path] == receipts[i].sha)
    && (forall i :: k <= i < |receipts| ==> (receipts[i].path in files <==> receipts[i].path in start))
  }

  lemma OnePlaced(start: map<Path, nat>, files: map<Path, nat>, intent: Intent, receipts: seq<Receipt>, k: nat)
    requires ValidIntent(intent) && ValidReceipts(intent, receipts) && k < |receipts|
               && Placed(start, files, receipts, k)
    ensures receipts[k].path in files ==>
              && receipts[k].path in start && start[receipts[k].path] == files[receipts[k].path]
              && (files[receipts[k].path] == receipts[k].sha ==> Placed(start, files, receipts, k + 1))
    ensures receipts[k].path !in files ==>
              && receipts[k].path !in start
              && Placed(start, files[receipts[k].path := receipts[k].payload], receipts, k + 1)
  {
    assert receipts[k] in receipts;
    if receipts[k].path !in files {
      forall i | 0 <= i < |receipts| && i != k ensures receipts[i].path != receipts[k].path {
        if i < k { DistinctPaths(intent, receipts, i, k); } else { DistinctPaths(intent, receipts, k, i); }
      }
    }
  }

  lemma SwitchedOne(start: Disk, before: Disk, after: Disk, ok: bool, entries: seq<Entry>, i: nat, f1: Fault, f2: Fault)
    requires Disjoint(entries) && i < |entries| && Halfway(before, entries, i, i)
               && SameOutside(start, before, AllPaths(entries))
    requires Outcome(after, ok) == SwitchEntry(before, entries[i], f1, f2)
    ensures Halfway(after, entries, i, i + 1) && InFlight(entries[i], SlotsOf(after, entries[i]))
    ensures ok ==> Halfway(after, entries, i + 1, i + 1)
    ensures ok <==> Faultless(entries[i], f1, f2)
    ensures SameOutside(start, after, AllPaths(entries))
  {
    SwitchKeepsInFlight(before, entries[i], f1, f2);
    Advance(before, after, entries, i, i);
    OutsideKept(start, before, after, entries, i);
  }

  lemma PlanBlocked(disk: Disk, entries: seq<Entry>)
    ensures (exists d <- Plan(disk, entries) :: d.Blocked()) <==> exists e <- entries :: Decide(disk, e).Blocked()
  {
    var plan := Plan(disk, entries);
    if d :| d in plan && d.Blocked() {
      var i :| 0 <= i < |plan| && plan[i] == d;
      assert entries[i] in entries;
    }
    if e :| e in entries && Decide(disk, e).Blocked() {
      var i :| 0 <= i < |entries| && entries[i] == e;
      assert plan[i] in plan;
    }
  }

  lemma UndoOne(start: Disk, before: Disk, after: Disk, entries: seq<Entry>, k: nat, fault: Fault)
    requires Disjoint(entries) && k < |entries| && SameOutside(start, before, AllPaths(entries))
    requires SlotsOf(before, entries[k]) == SlotsOf(start, entries[k]) && !Decide(start, entries[k]).Blocked()
    requires after == ApplyAction(before, entries[k], Decide(start, entries[k]), fault).disk
    ensures ActedAlone(start, after, entries[k], fault) && SameOutside(start, after, AllPaths(entries))
    ensures forall i :: 0 <= i < |entries| && i != k ==> SlotsOf(after, entries[i]) == SlotsOf(before, entries[i])
    ensures ApplyAction(before, entries[k], Decide(start, entries[k]), fault).ok <==>
              (Decide(start, entries[k]).Acts() ==> fault.NoFault?)
  {
    var e := entries[k];
    SlotsDecide(start, before, e);
    ActionEffect(before, e, fault);
    ActionFollowsSlots(start, before, e, fault);
    OthersKept(before, after, entries, k);
    OutsideKept(start, before, after, entries, k);
  }

  /** Decisions and actions depend on an entry's own slots only. */
  lemma SlotsDecide(a: Disk, b: Disk, e: Entry)
    requires SlotsOf(a, e) == SlotsOf(b, e)
    ensures Decide(a, e) == Decide(b, e)
  {
    assert e.production in a <==> SlotsOf(a, e).production.Some?;
    assert e.candidate in a <==> SlotsOf(a, e).candidate.Some?;
    assert e.backup in a <==> SlotsOf(a, e).backup.Some?;
  }

  lemma ActionFollowsSlots(a: Disk, b: Disk, e: Entry, fault: Fault)
    requires e.Distinct() && SlotsOf(a, e) == SlotsOf(b, e)
    ensures SlotsOf(ApplyAction(a, e, Decide(a, e), fault).disk, e) ==
              SlotsOf(ApplyAction(b, e, Decide(b, e), fault).disk, e)
  {
    SlotsDecide(a, b, e);
    ActionEffect(a, e, fault);
    ActionEffect(b, e, fault);
  }

  /** The slots an action that takes effect leaves behind. */
  function UndoneSlots(s: Slots, d: Decision): Slots {
    match d
    case ExchangeCandidate => Slots(s.candidate, s.production, s.backup)
    case ExchangeBackup => Slots(s.backup, s.candidate, s.production)
    case MoveBack => Slots(None, s.production, s.backup)
    case _ => s
  }

  /** On any disk, an action that is decided is also possible: it takes effect unless the call is refused, and then
      settles the entry; nothing else settles it. */
  lemma ActionEffect(disk: Disk, e: Entry, fault: Fault)
    requires e.Distinct()
    ensures var d := Decide(disk, e);
            var r := ApplyAction(disk, e, d, fault);
            && SlotsOf(r.disk, e) == (if fault.Refused? then SlotsOf(disk, e) else UndoneSlots(SlotsOf(disk, e), d))
            && SameOutside(disk, r.disk, e.Paths())
            && (d.Acts() ==> (r.ok <==> fault.NoFault?))
            && (Decide(r.disk, e).Settled() <==> d.Settled() || (d.Acts() && !fault.Refused?))
  {
    var d := Decide(disk, e);
    if d.Acts() {
      if d.MoveBack? {
        assert CanMove(disk, e.production, e.candidate);
      } else {
        var other := if d.ExchangeCandidate? then e.candidate else e.backup;
        assert CanExchange(disk, other, e.production);
      }
    }
  }

  /** After the undo loop an entry is unsettled exactly if its action was refused; in particular the unsettled entries
      only get fewer, and an entry that was settled is not touched again. */
  lemma AfterUndo(before: Disk, after: Disk, entries: seq<Entry>, actions: nat -> Fault)
    requires forall e <- entries :: e.Distinct() && !Decide(before, e).Blocked()
    requires UndoneBy(before, after, entries, actions)
    ensures forall i :: 0 <= i < |entries| ==>
              && (Decide(after, entries[i]).Settled() <==> Decide(before, entries[i]).Settled() || !actions(i).Refused?)
              && (Decide(before, entries[i]).Settled() ==> SlotsOf(after, entries[i]) == SlotsOf(before, entries[i]))
  {
    forall i | 0 <= i < |entries|
      ensures Decide(after, entries[i]).Settled() <==> Decide(before, entries[i]).Settled() || !actions(i).Refused?
      ensures Decide(before, entries[i]).Settled() ==> SlotsOf(after, entries[i]) == SlotsOf(before, entries[i])
    {
      var e := entries[i];
      assert e in entries;
      ActionEffect(before, e, actions(i));
      SlotsDecide(after, ApplyAction(before, e, Decide(before, e), actions(i)).disk, e);
    }
  }

  lemma AllOld(disk: Disk, entries: seq<Entry>)
    requires forall i :: 0 <= i < |entries| ==> Decide(disk, entries[i]).Settled()
    ensures AllAtOld(disk, entries)
  {
    forall e | e in entries ensures AtOldState(e, SlotsOf(disk, e)) {
      SettledIsOld(disk, e);
    }
  }

  function Unsettled(disk: Disk, entries: seq<Entry>): set<int> {
    set i | 0 <= i < |entries| && !Decide(disk, entries[i]).Settled()
  }

  /** The number of unsettled entries drops by one for every action that takes effect. */
  lemma UnsettledDrop(before: Disk, after: Disk, entries: seq<Entry>, actions: nat -> Fault)
    requires forall e <- entries :: e.Distinct() && !Decide(before, e).Blocked()
    requires UndoneBy(before, after, entries, actions)
    ensures var effective := set i | i in Unsettled(before, entries) && !actions(i).Refused?;
            |Unsettled(after, entries)| == |Unsettled(before, entries)| - |effective|
  {
    AfterUndo(before, after, entries, actions);
    var effective := set i | i in Unsettled(before, entries) && !actions(i).Refused?;
    forall i ensures i in Unsettled(after, entries) <==> i in Unsettled(before, entries) - effective {
      if 0 <= i < |entries| {
        assert Decide(after, entries[i]).Settled() <==> Decide(before, entries[i]).Settled() || !actions(i).Refused?;
      }
    }
    Apart(Unsettled(before, entries), effective, Unsettled(after, entries));
  }

  lemma Apart(all: set<int>, gone: set<int>, left: set<int>)
    requires gone <= all && left == all - gone
    ensures |left| == |all| - |gone|
  {
    assert all == left + gone;
  }
}
