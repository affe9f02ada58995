/**
 Whole runs of the deployer: any number of processes sharing one control directory, each of which may
 die, be refused a call, or see a call fail after it took effect, at any point. One event is one atomic
 step of one process.
 */
module DeployRuns {
  import opened Prelude
  import opened SwitchTable
  import opened JournalText

  type Pid = nat
  type Name = nat

  /** An active journal file: its intent and every append that reached it, in order. */
  datatype Journal = Journal(intent: Intent, writes: seq<Write>)

  /** Where a process stands. All stages but `Waiting` are inside `deploy_lock`. */
  datatype Stage =
    | Waiting
    | Entered
    | Ready
    | Finished
    // main: the transaction
    | Beginning(j: Name)
    | Switching(j: Name, i: nat)
    | Renaming(j: Name, i: nat)
    | Verifying(j: Name)
    | Confirming(j: Name)
    | Preparing(j: Name)
    | Writing(j: Name, receipts: seq<Receipt>, k: nat)
    | Removing(j: Name, receipts: seq<Receipt>)
    // restore_switch_journal
    | Planning(j: Name)
    | RollbackStarting(j: Name, plan: seq<Decision>)
    | RollingBack(j: Name, plan: seq<Decision>, k: nat, clean: bool)
    | RollbackMarking(j: Name)
    | Retiring(j: Name)
    // complete_switch_journal
    | Checking(j: Name, receipts: seq<Receipt>)
    | Completing(j: Name, receipts: seq<Receipt>, k: nat)
    | Clearing(j: Name, receipts: seq<Receipt>)
  {
    /** Still in the part of `main` that a failure sends to `restore_switch_journal`, or past it. */
    predicate Forwarding() {
      Ready? || InTransaction() || Writing? || Removing?
    }

    predicate InTransaction() {
      Beginning? || Switching? || Renaming? || Verifying? || Confirming? || Preparing?
    }

    predicate InRollback() {
      Planning? || RollbackStarting? || RollingBack? || RollbackMarking? || Retiring?
    }

    predicate InCommit() {
      Writing? || Removing? || Checking? || Completing? || Clearing?
    }
  }

  /** `disk` and `files` (the receipts in the control directory) as they were when the transaction published its
      intent. */
  datatype Origin = Origin(disk: Disk, files: map<Path, nat>)

  datatype World = World(disk: Disk, files: map<Path, nat>, journals: map<Name, Journal>,
                         lock: Option<Pid>, stage: map<Pid, Stage>, origin: Origin)

  /** What the surroundings decide about one step: how the call ends, how many characters of an append
      reach the file, whether a check passes, and the values a deployment is free to choose. */
  datatype Choice = Choice(fault: Fault, count: nat, ok: bool, name: Name, intent: Intent, receipts: seq<Receipt>)

  datatype Event =
    | Arrive(pid: Pid)
    | Acquire(pid: Pid)
    | Leave(pid: Pid)
    | Drift(disk: Disk, files: map<Path, nat>)
    | Act(pid: Pid, choice: Choice)

  // ----- Building blocks -----

  predicate Disjoint(entries: seq<Entry>) {
    && (forall e <- entries :: e.Distinct())
    && (forall i, j :: 0 <= i < j < |entries| ==> entries[i].Paths() !! entries[j].Paths())
  }

  /** What `intent_entry` establishes for every entry when the intent is written. */
  predicate WellBuilt(intent: Intent, disk: Disk) {
    ValidIntent(intent) && Disjoint(intent.entries) && forall e <- intent.entries :: Untouched(e, SlotsOf(disk, e))
  }

  /** `verify_switched_entries`, and the same check in `complete_switch_journal`. */
  predicate AllNew(disk: Disk, intent: Intent) {
    forall e <- intent.entries :: ObjectSha(disk, e.production, e.kind) == Sha(e.newContent)
  }

  function Plan(disk: Disk, entries: seq<Entry>): seq<Decision> {
    seq(|entries|, i requires 0 <= i < |entries| => Decide(disk, entries[i]))
  }

  function To(s: World, p: Pid, stage: Stage): World {
    s.(stage := s.stage[p := stage])
  }

  /** `append`: `count` characters of the line reach the file; the call returns only if all did and nothing failed. */
  function Append(codec: Codec, s: World, p: Pid, j: Name, r: Record, c: Choice, next: Stage, failed: Stage): World
    requires j in s.journals
  {
    var w := Write(r, c.count);
    var journal := s.journals[j].(writes := s.journals[j].writes + [w]);
    var done := AmountOf(codec, w).Whole? && c.fault.NoFault?;
    s.(journals := s.journals[j := journal], stage := s.stage[p := if done then next else failed])
  }

  function MarkRecord(s: World, j: Name, mark: Mark): Record
    requires j in s.journals
  {
    MarkerRecord(mark, ShaOf(s.journals[j].intent), None)
  }

  /** `_publish_bytes_once` for one receipt. */
  function WriteReceipt(s: World, p: Pid, r: Receipt, c: Choice, next: Stage): World {
    if r.path in s.files || c.fault.Refused? then To(s, p, Finished)
    else s.(files := s.files[r.path := r.payload], stage := s.stage[p := if c.fault.NoFault? then next else Finished])
  }

  /** Unlinking the journal, or renaming it to its retired name. */
  function Drop(s: World, p: Pid, j: Name, c: Choice, next: Stage): World {
    if c.fault.Refused? then To(s, p, Finished)
    else s.(journals := s.journals - {j}, stage := s.stage[p := if c.fault.NoFault? then next else Finished])
  }

  // ----- One step of a process inside the lock -----

  /** A failed transaction goes to `restore_switch_journal` as long as no receipts were prepared. */
  ghost function Forward(codec: Codec, s: World, p: Pid, st: Stage, c: Choice): World
    requires Grounded(s, st)
  {
    match st
    case Ready =>
      if !c.ok || c.name in s.journals || !WellBuilt(c.intent, s.disk) || c.fault.Refused? then To(s, p, Finished)
      else s.(journals := s.journals[c.name := Journal(c.intent, [])], origin := Origin(s.disk, s.files),
              stage := s.stage[p := if c.fault.NoFault? then Beginning(c.name) else Finished])
    case Beginning(j) =>
      Append(codec, s, p, j, MarkRecord(s, j, SwitchBegin), c, Switching(j, 0), Planning(j))
    case Switching(j, i) =>
      var entries := s.journals[j].intent.entries;
      if !c.ok then To(s, p, Planning(j))
      else if i >= |entries| then
        Append(codec, s, p, j, MarkRecord(s, j, SwitchDone), c, Verifying(j), Planning(j))
      else
        var e := entries[i];
        if e.oldContent.None? then
          var r := RenameNoReplace(s.disk, e.candidate, e.production, c.fault);
          To(s.(disk := r.disk), p, if r.ok then Switching(j, i + 1) else Planning(j))
        else if e.backup in s.disk then To(s, p, Planning(j))
        else
          var r := AtomicExchange(s.disk, e.candidate, e.production, c.fault);
          To(s.(disk := r.disk), p, if r.ok then Renaming(j, i) else Planning(j))
    case Renaming(j, i) =>
      var entries := s.journals[j].intent.entries;
      if i >= |entries| then To(s, p, Planning(j))
      else
        var r := RenameToBackup(s.disk, entries[i], c.fault);
        To(s.(disk := r.disk), p, if r.ok then Switching(j, i + 1) else Planning(j))
    case Verifying(j) =>
      To(s, p, if c.ok && AllNew(s.disk, s.journals[j].intent) then Confirming(j) else Planning(j))
    case Confirming(j) =>
      Append(codec, s, p, j, MarkRecord(s, j, Verified), c, Preparing(j), Planning(j))
    case Preparing(j) =>
      if !c.ok || !ValidReceipts(s.journals[j].intent, c.receipts) then To(s, p, Planning(j))
      else
        Append(codec, s, p, j, MarkerRecord(ReceiptsPrepared, ShaOf(s.journals[j].intent), Some(c.receipts)), c,
               Writing(j, c.receipts, 0), Planning(j))
    case Writing(j, receipts, k) =>
      if !c.ok then To(s, p, Finished)
      else if k >= |receipts| then To(s, p, Removing(j, receipts))
      else WriteReceipt(s, p, receipts[k], c, Writing(j, receipts, k + 1))
    case Removing(j, receipts) => Drop(s, p, j, c, Finished)
    case _ => s
  }

  /** `recover_switch_journal` up to its decision, on the one pending journal. */
  ghost function Startup(codec: Codec, s: World, p: Pid): World {
    if s.journals == map[] then To(s, p, Ready)
    else if |s.journals| > 1 then To(s, p, Finished)
    else StartupOn(codec, s, p, Only(s.journals.Keys))
  }

  ghost function StartupOn(codec: Codec, s: World, p: Pid, j: Name): World
    requires j in s.journals
  {
    match Load(codec, FileText(codec, s.journals[j].intent, s.journals[j].writes))
    case Rejected => To(s, p, Finished)
    case Loaded(intent, m) => To(s, p, if m.receipts.Some? then Checking(j, m.receipts.value) else Planning(j))
  }

  ghost function Only(keys: set<Name>): Name
    requires keys != {}
  {
    var j :| j in keys;
    j
  }

  /** `restore_switch_journal` and `complete_switch_journal`. */
  ghost function Recover(codec: Codec, s: World, p: Pid, st: Stage, c: Choice): World
    requires Grounded(s, st)
  {
    match st
    case Planning(j) =>
      var plan := Plan(s.disk, s.journals[j].intent.entries);
      To(s, p, if exists d <- plan :: d.Blocked() then Finished else RollbackStarting(j, plan))
    case RollbackStarting(j, plan) =>
      Append(codec, s, p, j, MarkRecord(s, j, RollbackBegin), c, RollingBack(j, plan, |plan|, true), Finished)
    case RollingBack(j, plan, k, clean) =>
      var entries := s.journals[j].intent.entries;
      if 0 < k <= |entries| && k <= |plan| then
        var r := ApplyAction(s.disk, entries[k - 1], plan[k - 1], c.fault);
        To(s.(disk := r.disk), p, RollingBack(j, plan, k - 1, clean && r.ok))
      else
        To(s, p, if clean && forall e <- entries :: Decide(s.disk, e).Settled() then RollbackMarking(j) else Finished)
    case RollbackMarking(j) =>
      Append(codec, s, p, j, MarkRecord(s, j, RollbackDone), c, Retiring(j), Finished)
    case Retiring(j) => Drop(s, p, j, c, Finished)
    case Checking(j, receipts) =>
      To(s, p, if AllNew(s.disk, s.journals[j].intent) then Completing(j, receipts, 0) else Finished)
    case Completing(j, receipts, k) =>
      if k >= |receipts| then To(s, p, Clearing(j, receipts))
      else if receipts[k].path in s.files then
        To(s, p, if s.files[receipts[k].path] == receipts[k].sha then Completing(j, receipts, k + 1) else Finished)
      else WriteReceipt(s, p, receipts[k], c, Completing(j, receipts, k + 1))
    case Clearing(j, receipts) => Drop(s, p, j, c, Ready)
    case _ => s
  }

  predicate Grounded(s: World, st: Stage) {
    !(st.Waiting? || st.Entered? || st.Ready? || st.Finished?) ==> st.j in s.journals
  }

  ghost function Next(codec: Codec, s: World, event: Event): World {
    match event
    case Arrive(p) => if p in s.stage then s else To(s, p, Waiting)
    case Acquire(p) =>
      if p in s.stage && s.stage[p].Waiting? && s.lock.None? then To(s.(lock := Some(p)), p, Entered) else s
    case Leave(p) =>
      s.(stage := s.stage - {p}, lock := if s.lock == Some(p) then None else s.lock)
    case Drift(disk, files) =>
      if s.journals == map[] then s.(disk := disk, files := files) else s
    case Act(p, c) =>
      if p !in s.stage || !Grounded(s, s.stage[p]) then s
      else
        var st := s.stage[p];
        if st.Entered? then Startup(codec, s, p)
        else if st.Forwarding() then Forward(codec, s, p, st, c)
        else Recover(codec, s, p, st, c)
  }

  ghost predicate Initial(s: World) {
    s.journals == map[] && s.lock.None? && s.stage == map[]
  }

  ghost function Run(codec: Codec, s: World, events: seq<Event>): World {
    if events == [] then s else Next(codec, Run(codec, s, events[..|events| - 1]), events[|events| - 1])
  }

  // ----- The invariant -----

  function AllPaths(entries: seq<Entry>): set<Path> {
    set e <- entries, p <- e.Paths() :: p
  }

  function LogOf(codec: Codec, j: Journal): Log {
    Fold(codec, j.writes)
  }

  predicate Prepared(log: Log, receipts: seq<Receipt>) {
    !log.tail.Corrupt? && Registers(log.records, receipts)
  }

  /** Nothing of `before` is lost or changed, and whatever is new is one of the prepared receipts. */
  predicate FilesWithin(before: map<Path, nat>, files: map<Path, nat>, receipts: seq<Receipt>) {
    && (forall p <- before :: p in files && files[p] == before[p])
    && (forall p <- files :: p in before || exists r <- receipts :: r.path == p && files[p] == r.sha)
  }

  predicate OnDisk(files: map<Path, nat>, receipts: seq<Receipt>) {
    forall r <- receipts :: r.path in files && files[r.path] == r.sha
  }

  predicate EntriesInv(origin: Disk, disk: Disk, entries: seq<Entry>) {
    && Disjoint(entries)
    && (forall e <- entries :: Untouched(e, SlotsOf(origin, e)) && InFlight(e, SlotsOf(disk, e)))
    && SameOutside(origin, disk, AllPaths(entries))
  }

  /** Receipts have begun to appear only if they are registered and every object is new. */
  ghost predicate ReceiptsInv(origin: Origin, disk: Disk, files: map<Path, nat>, intent: Intent, log: Log) {
    files == origin.files ||
    exists receipts ::
      Prepared(log, receipts) && AllNew(disk, intent) && FilesWithin(origin.files, files, receipts)
  }

  ghost predicate JournalInv(codec: Codec, s: World, j: Journal) {
    && ValidIntent(j.intent)
    && EntriesInv(s.origin.disk, s.disk, j.intent.entries)
    && Acceptable(j.intent, LogOf(codec, j).records)
    && ReceiptsInv(s.origin, s.disk, s.files, j.intent, LogOf(codec, j))
  }

  /** Entries before `i` are switched, those from `k` on untouched. */
  predicate Halfway(disk: Disk, entries: seq<Entry>, i: nat, k: nat) {
    && i <= k <= |entries|
    && (forall n :: 0 <= n < i ==> Switched(entries[n], SlotsOf(disk, entries[n])))
    && (forall n :: k <= n < |entries| ==> Untouched(entries[n], SlotsOf(disk, entries[n])))
  }

  predicate Fresh(log: Log) {
    log.tail.Clean? && NoneRegistered(log.records)
  }

  ghost predicate ForwardInv(codec: Codec, s: World, st: Stage)
    requires st.InTransaction() && st.j in s.journals
  {
    var journal := s.journals[st.j];
    var entries := journal.intent.entries;
    && s.files == s.origin.files
    && Fresh(LogOf(codec, journal))
    && match st
       case Beginning(_) => Halfway(s.disk, entries, 0, 0)
       case Switching(_, i) => Halfway(s.disk, entries, i, i)
       case Renaming(_, i) =>
         i < |entries| && Halfway(s.disk, entries, i, i + 1) && HalfSwitched(entries[i], SlotsOf(s.disk, entries[i]))
       case _ => Halfway(s.disk, entries, |entries|, |entries|)
  }

  ghost predicate RollbackInv(s: World, st: Stage)
    requires st.InRollback() && st.j in s.journals
  {
    var entries := s.journals[st.j].intent.entries;
    && s.files == s.origin.files
    && match st
       case RollbackStarting(_, plan) => plan == Plan(s.disk, entries)
       case RollingBack(_, plan, k, _) =>
         |plan| == |entries| && k <= |plan| && forall n :: 0 <= n < k ==> plan[n] == Decide(s.disk, entries[n])
       case RollbackMarking(_) => forall e <- entries :: Decide(s.disk, e).Settled()
       case Retiring(_) => forall e <- entries :: Decide(s.disk, e).Settled()
       case _ => true
  }

  ghost predicate CommitInv(codec: Codec, s: World, st: Stage)
    requires st.InCommit() && st.j in s.journals
  {
    var journal := s.journals[st.j];
    && Prepared(LogOf(codec, journal), st.receipts)
    && FilesWithin(s.origin.files, s.files, st.receipts)
    && (!st.Checking? ==> AllNew(s.disk, journal.intent))
    && match st
       case Writing(_, receipts, k) => k <= |receipts| && OnDisk(s.files, receipts[..k])
       case Completing(_, receipts, k) => k <= |receipts| && OnDisk(s.files, receipts[..k])
       case Removing(_, receipts) => OnDisk(s.files, receipts)
       case Clearing(_, receipts) => OnDisk(s.files, receipts)
       case _ => true
  }

  ghost predicate StageInv(codec: Codec, s: World, st: Stage) {
    && Grounded(s, st)
    && match st
       case Waiting => true
       case Entered => true
       case Finished => true
       case Ready => s.journals == map[]
       case Writing(_, _, _) => CommitInv(codec, s, st)
       case Removing(_, _) => CommitInv(codec, s, st)
       case Checking(_, _) => CommitInv(codec, s, st)
       case Completing(_, _, _) => CommitInv(codec, s, st)
       case Clearing(_, _) => CommitInv(codec, s, st)
       case Planning(_) => RollbackInv(s, st)
       case RollbackStarting(_, _) => RollbackInv(s, st)
       case RollingBack(_, _, _, _) => RollbackInv(s, st)
       case RollbackMarking(_) => RollbackInv(s, st)
       case Retiring(_) => RollbackInv(s, st)
       case _ => ForwardInv(codec, s, st)
  }

  /** `StageInv` as one fact: compared with `true` it is not taken apart conjunct by conjunct at every use. */
  ghost predicate Fits(codec: Codec, s: World, st: Stage) {
    StageInv(codec, s, st) == true
  }

  /** Only the holder of the lock is past `Waiting`. */
  ghost predicate Exclusive(s: World) {
    forall p <- s.stage :: !s.stage[p].Waiting? ==> s.lock == Some(p)
  }

  /** What one process inside the lock relies on. */
  ghost predicate Local(codec: Codec, s: World, st: Stage) {
    && (forall a, b :: a in s.journals && b in s.journals ==> a == b)
    && (forall j {:trigger JournalInv(codec, s, s.journals[j])} | j in s.journals ::
        JournalInv(codec, s, s.journals[j]))
    && Fits(codec, s, st)
  }

  ghost predicate Inv(codec: Codec, s: World) {
    && Exclusive(s)
    && Local(codec, s, Waiting)
    && (forall p {:trigger Fits(codec, s, s.stage[p])} | p in s.stage :: Fits(codec, s, s.stage[p]))
  }

  /** A step of `p` that leaves everything `p` relies on intact. */
  ghost predicate Keeps(codec: Codec, s: World, s': World, p: Pid) {
    && p in s'.stage && s'.stage == s.stage[p := s'.stage[p]] && s'.lock == s.lock
    && Local(codec, s', s'.stage[p])
  }
}
