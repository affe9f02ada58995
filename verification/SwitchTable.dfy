/**
 The objects a deployment replaces, the file-system calls it uses, and the decision table by which
 recovery judges every object from its actual content.
 */
module SwitchTable {
  import opened Prelude

  type Path = seq<string>

  datatype Kind = Directory | RegularFile

  /** What a path holds. `content` stands for everything the content digest covers. */
  datatype Node = Object(kind: Kind, content: nat) | Symlink

  type Disk = map<Path, Node>

  /** The answer of `object_sha256`; the digest is injective on contents. */
  datatype Digest = Missing | SymlinkMark | TypeMismatch | Sha(content: nat)

  function ObjectSha(disk: Disk, path: Path, kind: Kind): Digest {
    if path !in disk then Missing
    else match disk[path]
      case Symlink => SymlinkMark
      case Object(k, c) => if k == kind then Sha(c) else TypeMismatch
  }

  /** The group of an intent entry fixes the type of its object. */
  datatype Group = Root | Preparer | Document

  /** One intent entry; `old_exists` is `oldContent.Some?`. */
  datatype Entry = Entry(group: Group, name: string, production: Path, candidate: Path, backup: Path,
                         oldContent: Option<nat>, newContent: nat)
  {
    const kind: Kind := if group.Root? then Directory else RegularFile

    function OldNode(): Node
      requires oldContent.Some?
    {
      Object(kind, oldContent.value)
    }

    function NewNode(): Node {
      Object(kind, newContent)
    }

    function Paths(): set<Path> {
      {production, candidate, backup}
    }

    predicate Distinct() {
      production != candidate && production != backup && candidate != backup
    }
  }

  // ----- File-system calls -----

  predicate CanExchange(disk: Disk, a: Path, b: Path) {
    a in disk && b in disk && disk[a].Object? && disk[b].Object? && disk[a].kind == disk[b].kind
  }

  function Exchanged(disk: Disk, a: Path, b: Path): Disk
    requires a in disk && b in disk
  {
    disk[a := disk[b]][b := disk[a]]
  }

  predicate CanMove(disk: Disk, source: Path, target: Path) {
    source in disk && disk[source].Object? && target !in disk
  }

  function Moved(disk: Disk, source: Path, target: Path): Disk
    requires source in disk
  {
    (disk - {source})[target := disk[source]]
  }

  /** The disk a call leaves behind and whether it reported success. */
  datatype Outcome = Outcome(disk: Disk, ok: bool)

  function Call(disk: Disk, allowed: bool, effect: Disk, fault: Fault): Outcome {
    if !allowed then Outcome(disk, false)
    else match fault
      case NoFault => Outcome(effect, true)
      case Refused => Outcome(disk, false)
      case FailedLate => Outcome(effect, false)
  }

  function AtomicExchange(disk: Disk, a: Path, b: Path, fault: Fault): Outcome {
    Call(disk, CanExchange(disk, a, b), if CanExchange(disk, a, b) then Exchanged(disk, a, b) else disk, fault)
  }

  function RenameNoReplace(disk: Disk, source: Path, target: Path, fault: Fault): Outcome {
    var allowed := CanMove(disk, source, target);
    Call(disk, allowed, if allowed then Moved(disk, source, target) else disk, fault)
  }

  // ----- The three slots of an entry -----

  datatype Slots = Slots(production: Option<Node>, candidate: Option<Node>, backup: Option<Node>)

  function At(disk: Disk, path: Path): Option<Node> {
    if path in disk then Some(disk[path]) else None
  }

  function SlotsOf(disk: Disk, e: Entry): Slots {
    Slots(At(disk, e.production), At(disk, e.candidate), At(disk, e.backup))
  }

  function Bag(o: Option<Node>): multiset<Node> {
    if o.Some? then multiset{o.value} else multiset{}
  }

  /** The objects an entry's slots hold, with multiplicity. */
  function Holdings(s: Slots): multiset<Node> {
    Bag(s.production) + Bag(s.candidate) + Bag(s.backup)
  }

  /** The state `intent_entry` records: nothing switched yet. */
  predicate Untouched(e: Entry, s: Slots) {
    s == Slots(if e.oldContent.Some? then Some(e.OldNode()) else None, Some(e.NewNode()), None)
  }

  /** Exchanged, the old object still in the candidate slot. */
  predicate HalfSwitched(e: Entry, s: Slots) {
    e.oldContent.Some? && s == Slots(Some(e.NewNode()), Some(e.OldNode()), None)
  }

  predicate Switched(e: Entry, s: Slots) {
    s == Slots(Some(e.NewNode()), None, if e.oldContent.Some? then Some(e.OldNode()) else None)
  }

  /** Rolled back from the backup: the new object is left in the backup slot. */
  predicate SwappedBack(e: Entry, s: Slots) {
    e.oldContent.Some? && s == Slots(Some(e.OldNode()), None, Some(e.NewNode()))
  }

  /** Every state an entry can be left in, whatever crashed or failed. */
  predicate InFlight(e: Entry, s: Slots) {
    Untouched(e, s) || HalfSwitched(e, s) || Switched(e, s) || SwappedBack(e, s)
  }

  predicate AtOldState(e: Entry, s: Slots) {
    s.production == if e.oldContent.Some? then Some(e.OldNode()) else None
  }

  predicate AtNewState(e: Entry, s: Slots) {
    s.production == Some(e.NewNode())
  }

  // ----- Switching one entry -----

  /** `switch_intent_entry`: `f1` ends the exchange (or the no-overwrite rename), `f2` the rename to backup. */
  function SwitchEntry(disk: Disk, e: Entry, f1: Fault, f2: Fault): Outcome {
    if e.oldContent.None? then RenameNoReplace(disk, e.candidate, e.production, f1)
    else if e.backup in disk then Outcome(disk, false)
    else
      var first := AtomicExchange(disk, e.candidate, e.production, f1);
      if !first.ok then first else RenameToBackup(first.disk, e, f2)
  }

  /** The second half of a switch. A plain rename: the absent target was checked before the exchange. */
  function RenameToBackup(disk: Disk, e: Entry, fault: Fault): Outcome {
    Call(disk, e.candidate in disk, if e.candidate in disk then Moved(disk, e.candidate, e.backup) else disk, fault)
  }

  // ----- Recovery by content -----

  datatype Decision =
    | AtOld
    | Absent
    | ExchangeCandidate
    | ExchangeBackup
    | MoveBack
    | OldCopyMissing
    | CandidateOccupied
    | Undecidable
  {
    predicate Settled() { AtOld? || Absent? }
    predicate Blocked() { OldCopyMissing? || CandidateOccupied? || Undecidable? }
    predicate Acts() { ExchangeCandidate? || ExchangeBackup? || MoveBack? }
  }

  /** `entry_decision`, branch by branch. */
  function Decide(disk: Disk, e: Entry): Decision {
    var actual := ObjectSha(disk, e.production, e.kind);
    if e.oldContent.Some? then
      if actual == Sha(e.oldContent.value) then AtOld
      else if actual == Sha(e.newContent) then
        if ObjectSha(disk, e.candidate, e.kind) == Sha(e.oldContent.value) then ExchangeCandidate
        else if ObjectSha(disk, e.backup, e.kind) == Sha(e.oldContent.value) then ExchangeBackup
        else OldCopyMissing
      else Undecidable
    else if actual == Missing then Absent
    else if actual == Sha(e.newContent) then
      if e.candidate in disk then CandidateOccupied else MoveBack
    else Undecidable
  }

  /** `_apply_recovery_action`. */
  function ApplyAction(disk: Disk, e: Entry, d: Decision, fault: Fault): Outcome {
    match d
    case ExchangeCandidate => AtomicExchange(disk, e.candidate, e.production, fault)
    case ExchangeBackup => AtomicExchange(disk, e.backup, e.production, fault)
    case MoveBack => RenameNoReplace(disk, e.production, e.candidate, fault)
    case _ => Outcome(disk, true)
  }

  predicate SameOutside(before: Disk, after: Disk, paths: set<Path>) {
    && (forall p :: p in before && p !in paths ==> p in after && after[p] == before[p])
    && (forall p :: p in after && p !in paths ==> p in before)
  }

  lemma FrameSlots(before: Disk, after: Disk, paths: set<Path>, e: Entry)
    requires SameOutside(before, after, paths) && e.Paths() !! paths
    ensures SlotsOf(after, e) == SlotsOf(before, e) && Decide(after, e) == Decide(before, e)
  {
    assert e.production in e.Paths() && e.candidate in e.Paths() && e.backup in e.Paths();
  }

  // ----- What each call does to an entry -----

  /** Whatever way the two calls of a switch end, the entry stays in flight; success means switched. */
  lemma SwitchKeepsInFlight(disk: Disk, e: Entry, f1: Fault, f2: Fault)
    requires e.Distinct() && Untouched(e, SlotsOf(disk, e))
    ensures var r := SwitchEntry(disk, e, f1, f2);
            && InFlight(e, SlotsOf(r.disk, e))
            && (r.ok <==> f1.NoFault? && (e.oldContent.None? || f2.NoFault?))
            && (r.ok ==> Switched(e, SlotsOf(r.disk, e)))
            && SameOutside(disk, r.disk, e.Paths())
  {
    assert e.candidate in disk && (e.production in disk <==> e.oldContent.Some?);
  }

  /** No in-flight state is blocked, and a recovery action either changes nothing or settles the entry. */
  lemma CrashClosure(disk: Disk, e: Entry, fault: Fault)
    requires e.Distinct() && InFlight(e, SlotsOf(disk, e))
    ensures var d := Decide(disk, e);
            var r := ApplyAction(disk, e, d, fault);
            && !d.Blocked()
            && (d.Settled() <==> AtOldState(e, SlotsOf(disk, e)))
            && InFlight(e, SlotsOf(r.disk, e))
            && SameOutside(disk, r.disk, e.Paths())
            && (r.disk == disk || Decide(r.disk, e).Settled())
            && (r.ok ==> Decide(r.disk, e).Settled())
            && (fault.NoFault? ==> r.ok)
  {
    var s := SlotsOf(disk, e);
    assert e.production in disk <==> s.production.Some?;
    assert e.candidate in disk <==> s.candidate.Some?;
    assert e.backup in disk <==> s.backup.Some?;
  }

  /** A settled decision means exactly that production holds the pre-transaction object, whatever else is on disk. */
  lemma SettledIsOld(disk: Disk, e: Entry)
    ensures Decide(disk, e).Settled() <==> AtOldState(e, SlotsOf(disk, e))
  {
  }

  /** Recovery without an old copy never starts to act: the decision is blocked exactly when production holds
      neither the old object nor a new object whose way back is open. */
  lemma BlockedExactly(disk: Disk, e: Entry)
    ensures Decide(disk, e).Blocked() <==>
            && !AtOldState(e, SlotsOf(disk, e))
            && !(&& AtNewState(e, SlotsOf(disk, e))
                 && (if e.oldContent.Some?
                     then Some(e.OldNode()) in {At(disk, e.candidate), At(disk, e.backup)}
                     else e.candidate !in disk))
  {
  }

  lemma ExchangeConserves(disk: Disk, e: Entry, other: Path)
    requires e.Distinct() && other in {e.candidate, e.backup} && CanExchange(disk, other, e.production)
    ensures Holdings(SlotsOf(Exchanged(disk, other, e.production), e)) == Holdings(SlotsOf(disk, e))
  {
    var s, t := SlotsOf(disk, e), SlotsOf(Exchanged(disk, other, e.production), e);
    if other == e.candidate {
      assert t == Slots(s.candidate, s.production, s.backup);
    } else {
      assert t == Slots(s.backup, s.candidate, s.production);
    }
  }

  lemma MoveConserves(disk: Disk, e: Entry, source: Path, target: Path)
    requires e.Distinct() && source in disk && target !in disk
    requires (source, target) in {(e.candidate, e.production), (e.production, e.candidate), (e.candidate, e.backup)}
    ensures Holdings(SlotsOf(Moved(disk, source, target), e)) == Holdings(SlotsOf(disk, e))
  {
    var s, t := SlotsOf(disk, e), SlotsOf(Moved(disk, source, target), e);
    if target == e.backup {
      assert t == Slots(s.production, None, s.candidate);
    } else {
      assert t == Slots(s.candidate, s.production, s.backup);
    }
  }

  /** No switch loses, copies or invents an object of its entry, on any disk. */
  lemma SwitchConserves(disk: Disk, e: Entry, f1: Fault, f2: Fault)
    requires e.Distinct()
    ensures Holdings(SlotsOf(SwitchEntry(disk, e, f1, f2).disk, e)) == Holdings(SlotsOf(disk, e))
  {
    if e.oldContent.None? {
      if CanMove(disk, e.candidate, e.production) { MoveConserves(disk, e, e.candidate, e.production); }
    } else if e.backup !in disk && CanExchange(disk, e.candidate, e.production) {
      ExchangeConserves(disk, e, e.candidate);
      var half := Exchanged(disk, e.candidate, e.production);
      MoveConserves(half, e, e.candidate, e.backup);
    }
  }

  /** No recovery action does either. */
  lemma RecoveryConserves(disk: Disk, e: Entry, fault: Fault)
    requires e.Distinct()
    ensures Holdings(SlotsOf(ApplyAction(disk, e, Decide(disk, e), fault).disk, e)) == Holdings(SlotsOf(disk, e))
  {
    var d, r := Decide(disk, e), ApplyAction(disk, e, Decide(disk, e), fault);
    if r.disk != disk {
      if d.ExchangeCandidate? {
        ExchangeConserves(disk, e, e.candidate);
      } else if d.ExchangeBackup? {
        ExchangeConserves(disk, e, e.backup);
      } else {
        MoveConserves(disk, e, e.production, e.candidate);
      }
    }
  }
}
