/**
 The closeout of a plan: a full gate run, a deployment check, the advance of the authoritative branch, a cleanup and
 a push, each behind write-once journal files. Any call may die between two steps or be stopped by a failing check,
 any call may be repeated, and others may move the remote branch at any time.
 */
module Closeout {
  import opened Prelude

  type Commit = nat

  datatype Op = Gates | DeploymentCheck | Integrate | Cleanup | Push | Publication
  datatype Phase = Started | Exited | Finished

  datatype Plan = Plan(base: Commit, candidate: Commit, expectedTip: Commit, cleanupDeferred: bool)

  /** What is checked on the way, each at most once a call: the plan when it is loaded, the preflight and the plan again
      behind the gates; the approvals, the gate evidence, the plan again, the sealed material and the approvals again
      before the branch advances, its files afterwards; the approval and the context of the cleanup; plan and approvals
      before the push; that an action has no result yet, that its result holds, and the receipts of a publication. */
  datatype Check =
    | PlanLoaded
    | Preflight
    | PlanAfterGates
    | Approvals
    | GatesIntact
    | CandidateReread
    | Material
    | ApprovalsAgain
    | ManifestEqual
    | CleanupApproval
    | CleanupContext
    | CleanupUse
    | PlanBeforePush
    | ApprovalsBeforePush
    | Vacant(op: Op)
    | Result(op: Op)
    | Receipts

  /** What happens that cannot be taken back, what was checked, and what is learnt about the remote. `Began` is the
      beginning of a call. */
  datatype Event =
    | Began
    | Passed(check: Check)
    | Wrote(op: Op, phase: Phase)
    | Ran(op: Op)
    | Merged
    | SawRemote(tip: Commit)

  // ----- The order of things -----

  predicate Last(past: seq<Event>, e: Event) {
    past != [] && past[|past| - 1] == e
  }

  /** The steps that are finished only on a result that was checked. */
  predicate NeedsProof(plan: Plan, op: Op) {
    op.Gates? || op.DeploymentCheck? || (op.Cleanup? && !plan.cleanupDeferred)
  }

  /** The checks that have passed since the current call began. */
  function PassedNow(past: seq<Event>): set<Check> {
    if past == [] then {}
    else
      var n := |past| - 1;
      match past[n]
      case Began => {}
      case Passed(check) => PassedNow(past[..n]) + {check}
      case _ => PassedNow(past[..n])
  }

  /** Where the current call last saw the remote. */
  function TipNow(past: seq<Event>): Option<Commit> {
    if past == [] then None
    else
      var n := |past| - 1;
      match past[n]
      case Began => None
      case SawRemote(tip) => Some(tip)
      case _ => TipNow(past[..n])
  }

  predicate Opened(passed: set<Check>) {
    PlanLoaded in passed && Approvals in passed && GatesIntact in passed
  }

  predicate MayAdvance(passed: set<Check>) {
    && Opened(passed) && Result(DeploymentCheck) in passed && CandidateReread in passed && Material in passed
    && ApprovalsAgain in passed
  }

  predicate Advanced(passed: set<Check>) {
    MayAdvance(passed) && ManifestEqual in passed
  }

  predicate MayClean(plan: Plan, passed: set<Check>) {
    Advanced(passed) && (plan.cleanupDeferred || CleanupApproval in passed)
  }

  predicate MayPush(plan: Plan, passed: set<Check>) {
    && MayClean(plan, passed) && PlanBeforePush in passed && ApprovalsBeforePush in passed
    && (plan.cleanupDeferred || (CleanupContext in passed && Result(Cleanup) in passed))
  }

  /** What has to have passed in the same call before a file of `op` is written. */
  predicate Cleared(plan: Plan, op: Op, phase: Phase, passed: set<Check>) {
    match op
    case Gates =>
      && PlanLoaded in passed
      && if phase.Finished? then Result(Gates) in passed && PlanAfterGates in passed else Preflight in passed
    case DeploymentCheck => Opened(passed) && (if phase.Finished? then Result(op) in passed else Vacant(op) in passed)
    case Integrate => if phase.Finished? then Advanced(passed) else MayAdvance(passed)
    case Cleanup =>
      && MayClean(plan, passed)
      && (plan.cleanupDeferred ||
          (CleanupContext in passed &&
           if phase.Finished? then Result(op) in passed else Vacant(op) in passed && CleanupUse in passed))
    case Push => MayPush(plan, passed)
    case Publication => MayPush(plan, passed)
  }

  /** What has been finished before `op` may be started. */
  function Before(op: Op): set<Op> {
    match op
    case Gates => {}
    case DeploymentCheck => {Gates}
    case Integrate => {Gates, DeploymentCheck}
    case Cleanup => {Gates, DeploymentCheck, Integrate}
    case Push => {Gates, DeploymentCheck, Integrate, Cleanup}
    case Publication => {Gates, DeploymentCheck, Integrate, Cleanup, Push}
  }

  predicate FinishedAll(past: seq<Event>, ops: set<Op>) {
    forall op <- ops :: Wrote(op, Finished) in past
  }

  /** Whether `e` may come next. Every file and the advance of the branch come behind their checks, every process is run
      right after its own `Started` file is written, the branch advances while the remote is where it was or will be,
      the push is only announced right after the remote was seen at the expected tip, and only declared done right
      after the remote was seen at the candidate. */
  predicate Allowed(plan: Plan, past: seq<Event>, e: Event) {
    match e
    case Wrote(op, phase) =>
      && e !in past
      && FinishedAll(past, Before(op))
      && Cleared(plan, op, phase, PassedNow(past))
      && (phase.Exited? ==> Last(past, Ran(op)))
      && (phase.Finished? ==>
            Wrote(op, Started) in past || op.Publication? || (op.Cleanup? && plan.cleanupDeferred))
      && (op.Integrate? ==> TipNow(past) in {Some(plan.expectedTip), Some(plan.candidate)})
      && (op.Push? && phase.Started? ==> Last(past, SawRemote(plan.expectedTip)))
      && (op.Push? && phase.Finished? ==> Last(past, SawRemote(plan.candidate)))
    case Ran(op) => Last(past, Wrote(op, Started)) && !op.Integrate? && !(op.Cleanup? && plan.cleanupDeferred)
    case Merged =>
      && Wrote(Integrate, Started) in past && MayAdvance(PassedNow(past))
      && TipNow(past) in {Some(plan.expectedTip), Some(plan.candidate)}
    case _ => true
  }

  predicate Orderly(plan: Plan, log: seq<Event>) {
    forall i {:trigger Allowed(plan, log[..i], log[i])} :: 0 <= i < |log| ==> Allowed(plan, log[..i], log[i])
  }

  lemma OrderlyAppend(plan: Plan, log: seq<Event>, e: Event)
    requires Orderly(plan, log) && Allowed(plan, log, e)
    ensures Orderly(plan, log + [e])
  {
    forall i | 0 <= i <= |log| ensures Allowed(plan, (log + [e])[..i], (log + [e])[i]) {
      assert (log + [e])[..i] == log[..i];
      if i == |log| { assert log[..i] == log; }
    }
  }

  /** Nothing is written twice. */
  lemma WrittenOnce(plan: Plan, log: seq<Event>, op: Op, phase: Phase, i: nat, j: nat)
    requires Orderly(plan, log) && i < j < |log| && log[i] == Wrote(op, phase)
    ensures log[j] != Wrote(op, phase)
  {
    assert Allowed(plan, log[..j], log[j]);
    assert log[..j][i] == Wrote(op, phase);
  }

  lemma StartedJustBefore(plan: Plan, log: seq<Event>, i: nat, op: Op)
    requires Orderly(plan, log) && i < |log| && log[i] == Ran(op)
    ensures i >= 1 && log[i - 1] == Wrote(op, Started)
  {
    assert Allowed(plan, log[..i], log[i]);
  }

  /** No process is started a second time. */
  lemma StartedOnce(plan: Plan, log: seq<Event>, op: Op, i: nat, j: nat)
    requires Orderly(plan, log) && i < |log| && j < |log| && log[i] == Ran(op) && log[j] == Ran(op)
    ensures i == j
  {
    if i < j {
      StartedJustBefore(plan, log, i, op);
      StartedJustBefore(plan, log, j, op);
      WrittenOnce(plan, log, op, Started, i - 1, j - 1);
    } else if j < i {
      StartedOnce(plan, log, op, j, i);
    }
  }

  function At(log: seq<Event>, e: Event): (i: nat)
    requires e in log
    ensures i < |log| && log[i] == e
  {
    var n := |log| - 1;
    if log[n] == e then n
    else
      assert log == log[..n] + [log[n]];
      At(log[..n], e)
  }

  /** When the push starts, the gates, the deployment check, the integration and the cleanup are finished, and the
      remote had just been seen where the plan expects it. */
  lemma PushComesLast(plan: Plan, log: seq<Event>, i: nat)
    requires Orderly(plan, log) && i < |log| && log[i] == Ran(Push)
    ensures i >= 2 && log[i - 1] == Wrote(Push, Started) && log[i - 2] == SawRemote(plan.expectedTip)
    ensures FinishedBefore(log, i - 1, Push)
  {
    StartedJustBefore(plan, log, i, Push);
    AnnouncedWhenSeen(plan, log, i - 1);
    EarlierFinished(plan, log, i - 1, Push);
  }

  lemma AnnouncedWhenSeen(plan: Plan, log: seq<Event>, i: nat)
    requires Orderly(plan, log) && i < |log| && log[i] == Wrote(Push, Started)
    ensures i >= 1 && log[i - 1] == SawRemote(plan.expectedTip) && FinishedAll(log[..i], Before(Push))
  {
    assert Allowed(plan, log[..i], log[i]);
  }

  /** Whatever has to come before a step that is finished was finished earlier: gates, deployment check, integration,
      cleanup, push, publication, in this order. */
  lemma FinishedInOrder(plan: Plan, log: seq<Event>, first: Op, second: Op)
    requires Orderly(plan, log) && first in Before(second) && Wrote(second, Finished) in log
    ensures Wrote(first, Finished) in log && At(log, Wrote(first, Finished)) < At(log, Wrote(second, Finished))
  {
    var j := At(log, Wrote(second, Finished));
    assert Allowed(plan, log[..j], log[j]);
    EarlierFinished(plan, log, j, second);
  }

  /** Everything that has to come before `op` was finished before position `i`. */
  predicate FinishedBefore(log: seq<Event>, i: int, op: Op) {
    forall o <- Before(op) :: Wrote(o, Finished) in log && At(log, Wrote(o, Finished)) < i
  }

  lemma EarlierFinished(plan: Plan, log: seq<Event>, i: nat, op: Op)
    requires Orderly(plan, log) && i < |log| && FinishedAll(log[..i], Before(op))
    ensures FinishedBefore(log, i, op)
  {
    forall o | o in Before(op) ensures Wrote(o, Finished) in log && At(log, Wrote(o, Finished)) < i {
      assert Wrote(o, Finished) in log[..i];
      var k :| 0 <= k < i && log[k] == Wrote(o, Finished);
      FirstAndLast(plan, log, o, k);
    }
  }

  lemma FirstAndLast(plan: Plan, log: seq<Event>, op: Op, k: nat)
    requires Orderly(plan, log) && k < |log| && log[k] == Wrote(op, Finished)
    ensures At(log, Wrote(op, Finished)) == k
  {
    var n := At(log, Wrote(op, Finished));
    if k < n {
      WrittenOnce(plan, log, op, Finished, k, n);
    } else if n < k {
      WrittenOnce(plan, log, op, Finished, n, k);
    }
  }

  /** A finished publication means the remote was seen at the candidate after the push had been announced. */
  lemma PublishedWasSeen(plan: Plan, log: seq<Event>) returns (announced: nat, seen: nat)
    requires Orderly(plan, log) && Wrote(Publication, Finished) in log
    ensures announced < seen < At(log, Wrote(Publication, Finished))
    ensures log[announced] == Wrote(Push, Started) && log[seen] == SawRemote(plan.candidate)
  {
    var k := At(log, Wrote(Publication, Finished));
    assert Allowed(plan, log[..k], log[k]);
    EarlierFinished(plan, log, k, Publication);
    assert Push in Before(Publication);
    var f := At(log, Wrote(Push, Finished));
    assert Allowed(plan, log[..f], log[f]);
    announced :| 0 <= announced < f && log[announced] == Wrote(Push, Started);
    seen := f - 1;
  }

  // ----- Checks come first -----

  /** `e` happened before position `i` and no call began in between. */
  predicate InThisCall(log: seq<Event>, i: nat, e: Event)
    requires i <= |log|
  {
    exists k :: 0 <= k < i && log[k] == e && forall m :: k < m < i ==> !log[m].Began?
  }

  lemma {:induction false} PassedHere(log: seq<Event>, i: nat, check: Check)
    requires i <= |log| && check in PassedNow(log[..i])
    ensures InThisCall(log, i, Passed(check))
  {
    var n := i - 1;
    assert log[..i][..n] == log[..n];
    if log[n] == Passed(check) {
    } else {
      PassedHere(log, n, check);
      var k :| 0 <= k < n && log[k] == Passed(check) && forall m :: k < m < n ==> !log[m].Began?;
      assert forall m :: k < m < i ==> !log[m].Began?;
    }
  }

  /** When a process is run, everything its announcement needed has passed. */
  lemma RunNeeds(plan: Plan, log: seq<Event>, i: nat, op: Op)
    requires Orderly(plan, log) && i < |log| && log[i] == Ran(op)
    ensures Cleared(plan, op, Started, PassedNow(log[..i]))
  {
    StartedJustBefore(plan, log, i, op);
    assert Allowed(plan, log[..i - 1], log[i - 1]);
    assert log[..i][..i - 1] == log[..i - 1];
  }

  /** Whatever acts on the outside - the deployment check, the advance of the branch, the cleanup and the push - does so
      only after this very call has found the plan unchanged, the approvals given and the gates' evidence intact. */
  lemma ApprovedFirst(plan: Plan, log: seq<Event>, i: nat)
    requires Orderly(plan, log) && i < |log|
    requires log[i] == Merged || log[i] == Ran(DeploymentCheck) || log[i] == Ran(Cleanup) || log[i] == Ran(Push)
    ensures InThisCall(log, i, Passed(PlanLoaded)) && InThisCall(log, i, Passed(Approvals))
    ensures InThisCall(log, i, Passed(GatesIntact))
  {
    assert Allowed(plan, log[..i], log[i]);
    if log[i].Ran? { RunNeeds(plan, log, i, log[i].op); }
    PassedHere(log, i, PlanLoaded);
    PassedHere(log, i, Approvals);
    PassedHere(log, i, GatesIntact);
  }

  /** Before the branch advances the same call has also proved the deployment, read the candidate and the material again
      and asked for the approvals a second time. */
  lemma AdvancedOnlyIf(plan: Plan, log: seq<Event>, i: nat)
    requires Orderly(plan, log) && i < |log| && log[i] == Merged
    ensures InThisCall(log, i, Passed(Result(DeploymentCheck))) && InThisCall(log, i, Passed(CandidateReread))
    ensures InThisCall(log, i, Passed(Material)) && InThisCall(log, i, Passed(ApprovalsAgain))
  {
    assert Allowed(plan, log[..i], log[i]);
    PassedHere(log, i, Result(DeploymentCheck));
    PassedHere(log, i, CandidateReread);
    PassedHere(log, i, Material);
    PassedHere(log, i, ApprovalsAgain);
  }

  /** Before the cleanup is run the same call has compared the advanced branch with the candidate, found the cleanup
      approved and its context unchanged, and no result of it there. */
  lemma CleanedOnlyIf(plan: Plan, log: seq<Event>, i: nat)
    requires Orderly(plan, log) && i < |log| && log[i] == Ran(Cleanup)
    ensures !plan.cleanupDeferred
    ensures InThisCall(log, i, Passed(ManifestEqual)) && InThisCall(log, i, Passed(CleanupApproval))
    ensures InThisCall(log, i, Passed(CleanupContext)) && InThisCall(log, i, Passed(Vacant(Cleanup)))
  {
    assert Allowed(plan, log[..i], log[i]);
    RunNeeds(plan, log, i, Cleanup);
    PassedHere(log, i, ManifestEqual);
    PassedHere(log, i, CleanupApproval);
    PassedHere(log, i, CleanupContext);
    PassedHere(log, i, Vacant(Cleanup));
  }

  /** Before the push the same call has also loaded the plan and asked for the approvals once more, and, unless the
      cleanup is deferred, proved its result. */
  lemma PushedOnlyIf(plan: Plan, log: seq<Event>, i: nat)
    requires Orderly(plan, log) && i < |log| && log[i] == Ran(Push)
    ensures InThisCall(log, i, Passed(ManifestEqual))
    ensures InThisCall(log, i, Passed(PlanBeforePush)) && InThisCall(log, i, Passed(ApprovalsBeforePush))
    ensures !plan.cleanupDeferred ==> InThisCall(log, i, Passed(Result(Cleanup)))
  {
    RunNeeds(plan, log, i, Push);
    PassedHere(log, i, ManifestEqual);
    PassedHere(log, i, PlanBeforePush);
    PassedHere(log, i, ApprovalsBeforePush);
    if !plan.cleanupDeferred { PassedHere(log, i, Result(Cleanup)); }
  }

  // ----- The code -----

  /** What one call meets. `steps`: how many steps it takes before it dies. `check`: which checks pass; `doc`: the
      content of the files it writes; `moved(k)`: where others have moved the remote before the k-th contact;
      `exit(op)`: how a process ends; `accepted`: whether the remote takes the push. */
  datatype Env = Env(steps: nat, check: Check -> bool, doc: (Op, Phase) -> int, moved: nat -> Option<Commit>,
                     exit: Op -> int, accepted: bool)

  /** The files of one step, each with its content once it is there. */
  datatype Step = Step(started: Option<int>, exited: Option<int>, finished: Option<int>) {
    function At(phase: Phase): Option<int> {
      match phase
      case Started => started
      case Exited => exited
      case Finished => finished
    }

    function With(phase: Phase, doc: int): Step {
      match phase
      case Started => this.(started := Some(doc))
      case Exited => this.(exited := Some(doc))
      case Finished => this.(finished := Some(doc))
    }
  }

  const UNTOUCHED := Step(None, None, None)

  /** The journal directory. */
  datatype Files = Files(gates: Step, check: Step, integrate: Step, cleanup: Step, push: Step, publication: Step) {
    function Of(op: Op): Step {
      match op
      case Gates => gates
      case DeploymentCheck => check
      case Integrate => integrate
      case Cleanup => cleanup
      case Push => push
      case Publication => publication
    }

    function With(op: Op, step: Step): Files {
      match op
      case Gates => this.(gates := step)
      case DeploymentCheck => this.(check := step)
      case Integrate => this.(integrate := step)
      case Cleanup => this.(cleanup := step)
      case Push => this.(push := step)
      case Publication => this.(publication := step)
    }

    function Written(op: Op, phase: Phase, doc: int): Files {
      With(op, Of(op).With(phase, doc))
    }
  }

  const EMPTY := Files(UNTOUCHED, UNTOUCHED, UNTOUCHED, UNTOUCHED, UNTOUCHED, UNTOUCHED)

  /** A file is there exactly if history says it was written. */
  ghost predicate Filed(files: Files, log: seq<Event>, op: Op, phase: Phase) {
    files.Of(op).At(phase).Some? <==> Wrote(op, phase) in log
  }

  lemma FiledMore(files: Files, log: seq<Event>, op: Op, phase: Phase, doc: int)
    requires forall o, f {:trigger Filed(files, log, o, f)} :: Filed(files, log, o, f)
    ensures var files', log' := files.Written(op, phase, doc), log + [Wrote(op, phase)];
            forall o, f {:trigger Filed(files', log', o, f)} :: Filed(files', log', o, f)
  {
    var files', log' := files.Written(op, phase, doc), log + [Wrote(op, phase)];
    forall o, f ensures Filed(files', log', o, f) {
      assert Filed(files, log, o, f);
    }
  }

  lemma FiledSame(files: Files, log: seq<Event>, e: Event)
    requires !e.Wrote? && forall o, f {:trigger Filed(files, log, o, f)} :: Filed(files, log, o, f)
    ensures forall o, f {:trigger Filed(files, log + [e], o, f)} :: Filed(files, log + [e], o, f)
  {
    forall o, f ensures Filed(files, log + [e], o, f) {
      assert Filed(files, log, o, f);
    }
  }

  /** Nobody else moves the remote. */
  ghost predicate Alone(env: Env) {
    forall k :: env.moved(k).None?
  }

  ghost predicate AllPass(env: Env) {
    forall check :: env.check(check)
  }

  /** Nothing goes wrong, and nobody else moves the remote. */
  ghost predicate Smooth(env: Env) {
    env.accepted && AllPass(env) && Alone(env) && forall op :: env.exit(op) == 0
  }

  predicate Done(files: Files, op: Op) {
    files.Of(op).finished.Some?
  }

  predicate Begun(files: Files, op: Op) {
    files.Of(op).started.Some?
  }

  /** Everything in `Before(op)` is done. */
  predicate Ready(files: Files, op: Op) {
    && (op.Gates? || Done(files, Gates))
    && (op.Gates? || op.DeploymentCheck? || Done(files, DeploymentCheck))
    && (op.Cleanup? || op.Push? || op.Publication? ==> Done(files, Integrate))
    && (op.Push? || op.Publication? ==> Done(files, Cleanup))
    && (op.Publication? ==> Done(files, Push))
  }

  ghost predicate Coherent(plan: Plan, files: Files, head: Commit, log: seq<Event>, passed: set<Check>,
                           tip: Option<Commit>)
  {
    (&& Orderly(plan, log) && passed == PassedNow(log) && tip == TipNow(log)
     && (forall op, phase {:trigger Filed(files, log, op, phase)} :: Filed(files, log, op, phase))
     && (head == plan.base || (head == plan.candidate && Begun(files, Integrate)))
     && (Done(files, Gates) ==> files.gates.exited in {None, Some(0)})) == true
  }

  /** What a call has checked, it found to be so. */
  ghost predicate Trusted(passed: set<Check>, env: Env) {
    forall check <- passed :: env.check(check)
  }

  /** The remote was seen where it was or will be. */
  predicate TipFits(plan: Plan, tip: Option<Commit>) {
    tip in {Some(plan.expectedTip), Some(plan.candidate)}
  }

  /** `Allowed`, by the files that are there. */
  predicate MayWrite(plan: Plan, files: Files, log: seq<Event>, passed: set<Check>, tip: Option<Commit>, op: Op,
                     phase: Phase)
  {
    && Ready(files, op) && Cleared(plan, op, phase, passed)
    && (phase.Exited? ==> Last(log, Ran(op)) && !Done(files, op))
    && (phase.Finished? && op.Gates? ==> files.gates.exited in {None, Some(0)})
    && (phase.Finished? ==> Begun(files, op) || op.Publication? || (op.Cleanup? && plan.cleanupDeferred))
    && (op.Integrate? ==> TipFits(plan, tip))
    && (op.Push? && phase.Started? ==> Last(log, SawRemote(plan.expectedTip)))
    && (op.Push? && phase.Finished? ==> Last(log, SawRemote(plan.candidate)))
  }

  predicate Kept(a: Option<int>, b: Option<int>) {
    a.Some? ==> b == a
  }

  predicate Grown(a: Step, b: Step) {
    Kept(a.started, b.started) && Kept(a.exited, b.exited) && Kept(a.finished, b.finished)
  }

  /** Files are only ever added, and history only grows. */
  predicate Later(files: Files, log: seq<Event>, files': Files, log': seq<Event>) {
    log <= log' && forall op {:trigger files'.Of(op)} :: Grown(files.Of(op), files'.Of(op))
  }

  predicate Untouched(files: Files, op: Op) {
    files.Of(op) == UNTOUCHED
  }

  /** No file of `op` or of a later step is there. */
  predicate AllUntouched(files: Files, op: Op) {
    && Untouched(files, Publication) && Untouched(files, Push)
    && (!op.Push? ==> Untouched(files, Cleanup))
    && (!op.Push? && !op.Cleanup? ==> Untouched(files, Integrate))
    && (!op.Push? && !op.Cleanup? && !op.Integrate? ==> Untouched(files, DeploymentCheck))
  }

  /** The process of `op` has run, and its exit code is on file. */
  predicate Noted(files: Files, op: Op, exit: int) {
    Begun(files, op) && files.Of(op).exited == Some(exit)
  }

  lemma WriteKeeps(plan: Plan, files: Files, head: Commit, log: seq<Event>, passed: set<Check>, tip: Option<Commit>,
                   op: Op, phase: Phase, doc: int)
    requires Coherent(plan, files, head, log, passed, tip) && MayWrite(plan, files, log, passed, tip, op, phase)
    requires files.Of(op).At(phase).None?
    ensures Coherent(plan, files.Written(op, phase, doc), head, log + [Wrote(op, phase)], passed, tip)
  {
    assert Filed(files, log, op, phase) && Filed(files, log, op, Started);
    forall o | o in Before(op) ensures Wrote(o, Finished) in log { assert Filed(files, log, o, Finished); }
    assert Allowed(plan, log, Wrote(op, phase));
    OrderlyAppend(plan, log, Wrote(op, phase));
    FiledMore(files, log, op, phase, doc);
    assert (log + [Wrote(op, phase)])[..|log|] == log;
    assert op.Gates? && phase.Exited? ==> !Done(files, Gates);
  }

  /** Any other event that may come next leaves the files what they are. */
  lemma EventKeeps(plan: Plan, files: Files, head: Commit, log: seq<Event>, passed: set<Check>, tip: Option<Commit>,
                   e: Event)
    requires Coherent(plan, files, head, log, passed, tip) && !e.Wrote? && Allowed(plan, log, e)
    ensures var passed' := if e.Began? then {} else if e.Passed? then passed + {e.check} else passed;
            var tip' := if e.Began? then None else if e.SawRemote? then Some(e.tip) else tip;
            Coherent(plan, files, head, log + [e], passed', tip')
  {
    OrderlyAppend(plan, log, e);
    FiledSame(files, log, e);
    assert (log + [e])[..|log|] == log;
  }

  datatype Command = RunGatesCommand | PublishCommand

  class Site {
    const plan: Plan
    var journal: Files
    var head: Commit
    var remote: Commit
    ghost var log: seq<Event>
    /** What the current call has checked, and where it last saw the remote. */
    ghost var passed: set<Check>
    ghost var tip: Option<Commit>
    /** Steps left to the current call, and how often it has contacted the remote. */
    var left: nat
    var contacts: nat

    ghost predicate Valid()
      reads this
    {
      Coherent(plan, journal, head, log, passed, tip)
    }

    ghost predicate Calling(env: Env)
      reads this
    {
      Valid() && Trusted(passed, env)
    }

    /** A part of a call: files are only added, history and what has been checked only grow, and whatever was checked
        was found to be so. */
    twostate predicate Within(env: Env)
      reads this
    {
      Calling(env) && Later(old(journal), old(log), journal, log) && old(passed) <= passed
    }

    /** Nothing was written, run or merged. */
    twostate predicate Quietly()
      reads this
    {
      && journal == old(journal) && head == old(head) && old(log) <= log
      && forall i :: |old(log)| <= i < |log| ==> log[i].Began? || log[i].Passed? || log[i].SawRemote?
    }

    /** No file of `op` has appeared. */
    twostate predicate Nothing(op: Op)
      reads this
    {
      journal.Of(op) == old(journal).Of(op)
    }

    /** Only files of `op` have appeared. */
    twostate predicate Only(op: Op)
      reads this
    {
      journal == old(journal).With(op, journal.Of(op))
    }

    constructor (plan: Plan, remote: Commit)
      ensures Valid() && this.plan == plan && log == [] && journal == EMPTY && head == plan.base
      ensures this.remote == remote
    {
      this.plan, this.remote, journal, head, log, left, contacts := plan, remote, EMPTY, plan.base, [], 0, 0;
      passed, tip := {}, None;
    }

    /** A call begins: nothing counts as checked. */
    method Begin(env: Env)
      requires Valid()
      modifies `log, `passed, `tip, `left, `contacts
      ensures Valid() && log == old(log) + [Began] && passed == {} && left == env.steps && contacts == 0
    {
      left, contacts := env.steps, 0;
      EventKeeps(plan, journal, head, log, passed, tip, Began);
      log, passed, tip := log + [Began], {}, None;
    }

    method Ask(env: Env, check: Check) returns (ok: bool)
      requires Calling(env)
      modifies `log, `passed
      ensures Within(env) && ok == env.check(check)
      ensures log == if ok then old(log) + [Passed(check)] else old(log)
      ensures passed == old(passed) + if ok then {check} else {}
    {
      ok := env.check(check);
      if ok {
        EventKeeps(plan, journal, head, log, passed, tip, Passed(check));
        log, passed := log + [Passed(check)], passed + {check};
      }
    }

    /** `journal`: creates a file of the step, or accepts one with the same content. */
    method WriteOnce(op: Op, phase: Phase, doc: int) returns (ok: bool)
      requires Valid() && (journal.Of(op).At(phase).Some? || MayWrite(plan, journal, log, passed, tip, op, phase))
      modifies `journal, `log, `left
      ensures Valid() && Later(old(journal), old(log), journal, log) && (ok ==> journal.Of(op).At(phase) == Some(doc))
      ensures ok && old(journal.Of(op).At(phase).None?) ==> Last(log, Wrote(op, phase))
      ensures Only(op) && journal.Of(op) == if ok then old(journal).Of(op).With(phase, doc) else old(journal).Of(op)
      ensures old(journal.Of(op).At(phase).Some?) ==>
                && journal == old(journal) && log == old(log)
                && (ok <==> old(left) > 0 && journal.Of(op).At(phase) == Some(doc))
      ensures left + 1 >= old(left) && (old(journal.Of(op).At(phase).None?) ==> (ok <==> old(left) > 0))
      ensures log == old(log) || (log == old(log) + [Wrote(op, phase)] && ok)
    {
      if left == 0 { return false; }
      left := left - 1;
      if journal.Of(op).At(phase).Some? { return journal.Of(op).At(phase) == Some(doc); }
      WriteKeeps(plan, journal, head, log, passed, tip, op, phase, doc);
      journal := journal.Written(op, phase, doc);
      log := log + [Wrote(op, phase)];
      ok := true;
    }

    /** Starts the process of a step and waits for it; a call that dies meanwhile leaves the process started. */
    method RunProcess(env: Env, op: Op) returns (started: bool, exit: Option<int>)
      requires Valid() && Allowed(plan, log, Ran(op))
      modifies `log, `left
      ensures Valid() && Later(old(journal), old(log), journal, log)
      ensures log == if started then old(log) + [Ran(op)] else old(log)
      ensures exit.Some? ==> started && exit.value == env.exit(op)
      ensures left + 1 >= old(left) && (old(left) > 1 ==> exit.Some?)
    {
      if left == 0 { return false, None; }
      left := left - 1;
      EventKeeps(plan, journal, head, log, passed, tip, Ran(op));
      log := log + [Ran(op)];
      started, exit := true, if left == 0 then None else Some(env.exit(op));
    }

    /** `remote_tip`. */
    method RemoteTip(env: Env) returns (seen: Option<Commit>)
      requires Valid()
      modifies `remote, `log, `tip, `left, `contacts
      ensures Valid() && Later(old(journal), old(log), journal, log)
      ensures seen.Some? ==> log == old(log) + [SawRemote(remote)] && seen.value == remote && tip == seen
      ensures seen.None? ==> log == old(log) && tip == old(tip)
      ensures remote == env.moved(old(contacts)).GetOr(old(remote)) && contacts == old(contacts) + 1
      ensures left + 1 >= old(left) && (old(left) > 0 <==> seen.Some?)
    {
      remote := env.moved(contacts).GetOr(remote);
      contacts := contacts + 1;
      if left == 0 { return None; }
      left := left - 1;
      EventKeeps(plan, journal, head, log, passed, tip, SawRemote(remote));
      log, tip := log + [SawRemote(remote)], Some(remote);
      seen := Some(remote);
    }

    /** `run_gates`. Gates that are finished are only checked; gates that were started are never run again, and finished
        exactly if their evidence holds and no other exit code than zero is on file. */
    method RunGates(env: Env) returns (ok: bool)
      requires Valid()
      modifies this
      ensures Valid() && Later(old(journal), old(log), journal, log) && Only(Gates)
      ensures head == old(head) && remote == old(remote)
      ensures ok ==> Done(journal, Gates) && env.check(PlanLoaded) && env.check(Result(Gates))
      ensures !env.check(PlanLoaded) ==> !ok && Quietly()
      ensures old(!Begun(journal, Gates) && !Done(journal, Gates)) && !env.check(Preflight) ==> !ok && Quietly()
      ensures old(!Done(journal, Gates)) && !(env.check(Result(Gates)) && env.check(PlanAfterGates)) ==>
                !ok && !Done(journal, Gates)
      ensures old(Done(journal, Gates)) ==> Quietly() && (ok <==> env.check(PlanLoaded) && env.check(Result(Gates)))
      ensures old(Begun(journal, Gates) && !Done(journal, Gates)) ==>
                (ok <==>
                 && env.check(PlanLoaded) && env.check(Result(Gates)) && env.check(PlanAfterGates) && env.steps > 0
                 && old(journal.gates.exited in {None, Some(0)}))
      ensures old(Untouched(journal, Gates)) && AllPass(env) && env.steps >= 4 ==>
                Noted(journal, Gates, env.exit(Gates)) && (ok <==> env.exit(Gates) == 0)
    {
      Begin(env);
      var loaded := Ask(env, PlanLoaded);
      if !loaded { return false; }
      if Done(journal, Gates) {
        ok := Ask(env, Result(Gates));
        return;
      }
      if Begun(journal, Gates) {
        if journal.gates.exited !in {None, Some(0)} { return false; }
      } else {
        var ran := StartGates(env);
        if !ran { return false; }
      }
      ok := FinishGates(env);
    }

    method FinishGates(env: Env) returns (ok: bool)
      requires Calling(env) && PlanLoaded in passed && Begun(journal, Gates) && !Done(journal, Gates)
      requires journal.gates.exited in {None, Some(0)}
      modifies `journal, `log, `passed, `left
      ensures Within(env) && Only(Gates) && (ok <==> Done(journal, Gates))
      ensures ok <==> env.check(Result(Gates)) && env.check(PlanAfterGates) && old(left) > 0
      ensures journal.gates.exited == old(journal.gates.exited)
    {
      var complete := Ask(env, Result(Gates));
      if !complete { return false; }
      var sealed := Ask(env, PlanAfterGates);
      if !sealed { return false; }
      ok := WriteOnce(Gates, Finished, env.doc(Gates, Finished));
    }

    /** Announces the process of a step, runs it and files its exit code. */
    method Dispatch(env: Env, op: Op) returns (ok: bool)
      requires Calling(env) && NeedsProof(plan, op) && !Begun(journal, op) && !Done(journal, op)
      requires Ready(journal, op) && Cleared(plan, op, Started, passed)
      modifies `journal, `log, `left
      ensures Within(env) && Only(op) && !Done(journal, op)
      ensures ok ==> Noted(journal, op, 0)
      ensures left + 3 >= old(left)
      ensures old(left) >= 3 && old(Untouched(journal, op)) ==>
                Noted(journal, op, env.exit(op)) && (ok <==> env.exit(op) == 0)
    {
      var begun := WriteOnce(op, Started, env.doc(op, Started));
      if !begun { return false; }
      var started, exit := RunProcess(env, op);
      if exit.None? { return false; }
      var noted := WriteOnce(op, Exited, exit.value);
      ok := noted && exit.value == 0;
    }

    method StartGates(env: Env) returns (ok: bool)
      requires Calling(env) && PlanLoaded in passed && !Begun(journal, Gates) && !Done(journal, Gates)
      modifies `journal, `log, `passed, `left
      ensures Within(env) && Only(Gates) && !Done(journal, Gates)
      ensures ok ==> Noted(journal, Gates, 0)
      ensures !env.check(Preflight) ==> !ok && journal == old(journal) && log == old(log)
      ensures left + 3 >= old(left)
      ensures AllPass(env) && old(left) >= 4 && old(Untouched(journal, Gates)) ==>
                Noted(journal, Gates, env.exit(Gates)) && (ok <==> env.exit(Gates) == 0)
    {
      var ready := Ask(env, Preflight);
      if !ready { return false; }
      ok := Dispatch(env, Gates);
    }

    /** What a call has to have checked before it comes to an action. */
    ghost predicate MayAct(op: Op)
      reads this
    {
      if op.Cleanup? then MayClean(plan, passed) else Opened(passed)
    }

    /** `run_action`, for the deployment check and the cleanup. A finished action is only checked again; a started one
        is finished exactly if its result checks out, whatever exit code is on file; an untouched one is run, and
        finished only on exit code zero. A cleanup whose context changed is not even looked at. */
    method RunAction(env: Env, op: Op) returns (ok: bool)
      requires Calling(env) && (op.DeploymentCheck? || op.Cleanup?) && Ready(journal, op)
      requires Done(journal, op) || MayAct(op)
      modifies `journal, `log, `passed, `left
      ensures Within(env) && Only(op)
      ensures ok ==> Done(journal, op) && (NeedsProof(plan, op) ==> Result(op) in passed)
      ensures ok && op.Cleanup? && !plan.cleanupDeferred ==> CleanupContext in passed
      ensures left + 4 >= old(left)
      ensures old(Done(journal, op)) ==> Quietly()
      ensures op.Cleanup? && !plan.cleanupDeferred && !env.check(CleanupContext) ==> !ok && Quietly()
      ensures NeedsProof(plan, op) && !env.check(Result(op)) ==> !ok && Done(journal, op) == old(Done(journal, op))
      ensures NeedsProof(plan, op) && old(Done(journal, op)) ==>
                (ok <==> (op.Cleanup? ==> env.check(CleanupContext)) && env.check(Result(op)))
      ensures NeedsProof(plan, op) && old(Begun(journal, op) && !Done(journal, op)) ==>
                (ok <==> (op.Cleanup? ==> env.check(CleanupContext)) && env.check(Result(op)) && old(left) > 0)
      ensures NeedsProof(plan, op) && old(Untouched(journal, op)) && !env.check(Vacant(op)) ==> !ok && Quietly()
      ensures NeedsProof(plan, op) && old(Untouched(journal, op)) && AllPass(env) && old(left) >= 4 ==>
                Noted(journal, op, env.exit(op)) && (ok <==> env.exit(op) == 0)
      ensures op.Cleanup? && plan.cleanupDeferred ==>
                && (forall i :: |old(log)| <= i < |log| ==> log[i] == Wrote(Cleanup, Finished))
                && (old(!Done(journal, op)) ==> (ok <==> old(left) > 0))
    {
      if op.Cleanup? && plan.cleanupDeferred {
        ok := WriteOnce(op, Finished, env.doc(op, Finished));
        return;
      }
      if op.Cleanup? {
        var fit := Ask(env, CleanupContext);
        if !fit { return false; }
      }
      if Done(journal, op) {
        ok := Ask(env, Result(op));
        return;
      }
      if !Begun(journal, op) {
        var ran := StartAction(env, op);
        if !ran { return false; }
      }
      ok := FinishAction(env, op);
    }

    method FinishAction(env: Env, op: Op) returns (ok: bool)
      requires Calling(env) && NeedsProof(plan, op) && !op.Gates? && Ready(journal, op) && !Done(journal, op)
      requires Begun(journal, op) && MayAct(op) && (op.Cleanup? ==> CleanupContext in passed)
      modifies `journal, `log, `passed, `left
      ensures Within(env) && Only(op) && (ok <==> Done(journal, op))
      ensures journal.Of(op).exited == old(journal.Of(op).exited)
      ensures ok ==> Result(op) in passed
      ensures left + 1 >= old(left) && (ok <==> env.check(Result(op)) && old(left) > 0)
    {
      var proven := Ask(env, Result(op));
      if !proven { return false; }
      ok := WriteOnce(op, Finished, env.doc(op, Finished));
    }

    method StartAction(env: Env, op: Op) returns (ok: bool)
      requires Calling(env) && (op.DeploymentCheck? || op.Cleanup?) && NeedsProof(plan, op) && Ready(journal, op)
      requires !Begun(journal, op) && !Done(journal, op)
      requires MayAct(op) && (op.Cleanup? ==> CleanupContext in passed)
      modifies `journal, `log, `passed, `left
      ensures Within(env) && Only(op) && !Done(journal, op) && (ok ==> Begun(journal, op))
      ensures left + 3 >= old(left)
      ensures !env.check(Vacant(op)) ==> !ok && journal == old(journal) && log == old(log)
      ensures AllPass(env) && old(left) >= 4 && old(Untouched(journal, op)) ==>
                Noted(journal, op, env.exit(op)) && (ok <==> env.exit(op) == 0)
    {
      var free := Ask(env, Vacant(op));
      if !free { return false; }
      if op.Cleanup? {
        var usable := Ask(env, CleanupUse);
        if !usable { return false; }
      }
      ok := Dispatch(env, op);
    }

    /** The part of `publish` that advances the authoritative branch. */
    method Advance(env: Env) returns (ok: bool)
      requires Calling(env) && Ready(journal, Integrate) && MayAdvance(passed) && TipFits(plan, tip)
      modifies `journal, `log, `passed, `left, `head
      ensures Within(env) && Only(Integrate)
      ensures ok ==> Done(journal, Integrate) && head == plan.candidate && ManifestEqual in passed
      ensures head == old(head) || (old(head) == plan.base && head == plan.candidate)
      ensures old(!Begun(journal, Integrate) && head != plan.base) ==> !ok && Quietly()
      ensures !env.check(ManifestEqual) ==> !ok && Done(journal, Integrate) == old(Done(journal, Integrate))
      ensures left + 3 >= old(left)
      ensures AllPass(env) && old(left) >= 3 && old(Untouched(journal, Integrate) && head == plan.base) ==> ok
    {
      if !Begun(journal, Integrate) {
        if head != plan.base { return false; }
        var begun := WriteOnce(Integrate, Started, env.doc(Integrate, Started));
        if !begun { return false; }
      }
      ok := Merge(env);
      if !ok { return false; }
      var same := Ask(env, ManifestEqual);
      if !same { return false; }
      ok := WriteOnce(Integrate, Finished, env.doc(Integrate, Finished));
    }

    /** The fast-forward merge, if the branch is still where the plan began. */
    method Merge(env: Env) returns (ok: bool)
      requires Calling(env) && Begun(journal, Integrate) && MayAdvance(passed) && TipFits(plan, tip)
      modifies `log, `left, `head
      ensures Within(env) && (ok <==> old(head != plan.base || left > 0))
      ensures head == if ok then plan.candidate else old(head)
      ensures left + 1 >= old(left)
    {
      if head != plan.base { return true; }
      if left == 0 { return false; }
      left := left - 1;
      assert Filed(journal, log, Integrate, Started);
      EventKeeps(plan, journal, head, log, passed, tip, Merged);
      log := log + [Merged];
      head := plan.candidate;
      ok := true;
    }

    /** The part of `publish` that pushes: once announced, a push is never repeated, only confirmed. */
    method PushOnce(env: Env) returns (ok: bool)
      requires Calling(env) && Ready(journal, Push) && MayPush(plan, passed)
      modifies `journal, `log, `passed, `tip, `left, `contacts, `remote
      ensures Within(env) && Only(Push) && (ok ==> Done(journal, Push) && remote == plan.candidate)
      ensures old(Begun(journal, Push)) ==>
                && remote == env.moved(old(contacts)).GetOr(old(remote)) && (remote != plan.candidate ==> !ok)
                && forall i :: |old(log)| <= i < |log| ==> !log[i].Ran?
      ensures old(!Begun(journal, Push)) && env.exit(Push) != 0 ==> !ok && Done(journal, Push) == old(Done(journal, Push))
      ensures left + 5 >= old(left)
      ensures Smooth(env) && old(left) >= 5 && old(Untouched(journal, Push)) && old(remote) == plan.expectedTip ==> ok
    {
      var announced := Begun(journal, Push);
      var seen := RemoteTip(env);
      if seen.None? { return false; }
      if announced {
        if seen.value != plan.candidate { return false; }
      } else {
        if seen.value != plan.expectedTip { return false; }
        var pushed := FirstPush(env);
        if !pushed { return false; }
      }
      ok := WriteOnce(Push, Finished, env.doc(Push, Finished));
    }

    method FirstPush(env: Env) returns (ok: bool)
      requires Calling(env) && Ready(journal, Push) && MayPush(plan, passed)
      requires !Begun(journal, Push) && Last(log, SawRemote(plan.expectedTip))
      modifies `journal, `log, `passed, `tip, `left, `contacts, `remote
      ensures Within(env) && Only(Push) && Done(journal, Push) == old(Done(journal, Push))
      ensures ok ==> Begun(journal, Push) && Last(log, SawRemote(plan.candidate)) && remote == plan.candidate
      ensures ok ==> env.exit(Push) == 0
      ensures left + 3 >= old(left) && (Smooth(env) && old(left) >= 3 ==> ok)
    {
      var begun := WriteOnce(Push, Started, env.doc(Push, Started));
      if !begun { return false; }
      remote := env.moved(contacts).GetOr(remote);
      contacts := contacts + 1;
      var started, exit := RunProcess(env, Push);
      if started && env.accepted { remote := plan.candidate; }
      if exit.None? || exit.value != 0 { return false; }
      var seen := RemoteTip(env);
      ok := seen == Some(plan.candidate);
    }

    /** What a failing check keeps from happening, in the order the checks come. */
    twostate predicate HeldBack(env: Env, ok: bool)
      reads this
    {
      // Without the approvals and the gates, nothing happens at all.
      && (!(env.check(Approvals) && old(Done(journal, Gates)) && env.check(GatesIntact)) ==>
            !ok && Quietly() && remote == old(remote))
      // Without a proved deployment, an unchanged candidate and material, and the approvals again, nothing but the
      // deployment check.
      && (!(env.check(Result(DeploymentCheck)) && env.check(CandidateReread) && env.check(Material)
            && env.check(ApprovalsAgain)) ==>
            !ok && Only(DeploymentCheck) && head == old(head))
      // Without the candidate's very files, the integration is not finished and nothing comes behind it.
      && (!env.check(ManifestEqual) ==>
            && !ok && Done(journal, Integrate) == old(Done(journal, Integrate))
            && Nothing(Cleanup) && Nothing(Push) && Nothing(Publication))
      // Without approval and context of a cleanup that is to be executed, none, and nothing behind it.
      && (!plan.cleanupDeferred && !(env.check(CleanupApproval) && env.check(CleanupContext)) ==>
            !ok && Nothing(Cleanup) && Nothing(Push) && Nothing(Publication))
      // Without the plan and the approvals once more, no push.
      && (!(env.check(PlanBeforePush) && env.check(ApprovalsBeforePush)) ==>
            !ok && Nothing(Push) && Nothing(Publication) && (Alone(env) ==> remote == old(remote)))
    }

    /** `publish`. A plan that is published already is only checked again. */
    method Publish(env: Env) returns (ok: bool)
      requires Valid()
      modifies this
      ensures Valid() && Later(old(journal), old(log), journal, log)
      ensures ok ==> Done(journal, Publication) && head == plan.candidate && remote == plan.candidate
      ensures ok ==> env.check(PlanLoaded) && env.check(GatesIntact) && env.check(Result(DeploymentCheck))
      ensures !env.check(PlanLoaded) ==> Quietly() && remote == old(remote)
      ensures if old(Done(journal, Publication)) then Quietly() else HeldBack(env, ok)
      ensures Smooth(env) && env.steps >= 18 && old(Done(journal, Gates) && Pristine()) ==> ok
      ensures AllPass(env) && env.steps >= 4 && old(Done(journal, Gates) && !Done(journal, Publication))
              && old(Untouched(journal, DeploymentCheck)) ==>
                Noted(journal, DeploymentCheck, env.exit(DeploymentCheck))
      ensures AllPass(env) && env.steps >= 1 && old(Done(journal, Gates) && Begun(journal, DeploymentCheck)) ==>
                Done(journal, DeploymentCheck)
    {
      Begin(env);
      var loaded := Ask(env, PlanLoaded);
      if !loaded { return false; }
      if Done(journal, Publication) {
        AllDone();
        ok := Republish(env);
      } else {
        ok := PublishNow(env);
      }
    }

    /** Nothing behind the gates has begun, and the branch and the remote are where the plan expects them. */
    ghost predicate Pristine()
      reads this
    {
      AllUntouched(journal, DeploymentCheck) && head == plan.base && remote == plan.expectedTip
    }

    method PublishNow(env: Env) returns (ok: bool)
      requires Calling(env) && PlanLoaded in passed && !Done(journal, Publication)
      modifies `journal, `log, `passed, `tip, `left, `contacts, `remote, `head
      ensures Within(env) && HeldBack(env, ok)
      ensures ok ==> Done(journal, Publication) && head == plan.candidate && remote == plan.candidate
      ensures Smooth(env) && old(left) >= 18 && old(Done(journal, Gates) && Pristine()) ==> ok
      ensures AllPass(env) && old(left) >= 4 && old(Done(journal, Gates) && Untouched(journal, DeploymentCheck)) ==>
                Noted(journal, DeploymentCheck, env.exit(DeploymentCheck))
      ensures AllPass(env) && old(left) >= 1 && old(Done(journal, Gates) && Begun(journal, DeploymentCheck)) ==>
                Done(journal, DeploymentCheck)
    {
      ok := Open(env);
      if !ok { return false; }
      ok := CheckAndAdvance(env);
      if !ok { return false; }
      ok := CleanAndPush(env);
    }

    /** What has to hold before `publish` does anything. */
    method Open(env: Env) returns (ok: bool)
      requires Calling(env) && PlanLoaded in passed
      modifies `log, `passed
      ensures Within(env) && Quietly() && (ok ==> Done(journal, Gates) && Opened(passed))
      ensures ok <==> env.check(Approvals) && Done(journal, Gates) && env.check(GatesIntact)
    {
      var approved := Ask(env, Approvals);
      if !approved || !Done(journal, Gates) { return false; }
      ok := Ask(env, GatesIntact);
    }

    method CheckAndAdvance(env: Env) returns (ok: bool)
      requires Calling(env) && Done(journal, Gates) && Opened(passed)
      modifies `journal, `log, `passed, `tip, `left, `contacts, `remote, `head
      ensures Within(env)
      ensures ok ==> Ready(journal, Cleanup) && head == plan.candidate && Advanced(passed)
      ensures !(env.check(Result(DeploymentCheck)) && env.check(CandidateReread) && env.check(Material)
                && env.check(ApprovalsAgain)) ==>
                !ok && Only(DeploymentCheck) && head == old(head)
      ensures !env.check(ManifestEqual) ==> !ok && Done(journal, Integrate) == old(Done(journal, Integrate))
      ensures Alone(env) ==> remote == old(remote)
      ensures Nothing(Cleanup) && Nothing(Push) && Nothing(Publication)
      ensures left + 8 >= old(left) && (Smooth(env) && old(left) >= 8 && old(Pristine()) ==>
                ok && AllUntouched(journal, Cleanup))
      ensures AllPass(env) && old(left) >= 4 && old(Untouched(journal, DeploymentCheck)) ==>
                Noted(journal, DeploymentCheck, env.exit(DeploymentCheck))
      ensures AllPass(env) && old(left) >= 1 && old(Begun(journal, DeploymentCheck)) ==> Done(journal, DeploymentCheck)
    {
      var checked := RunAction(env, DeploymentCheck);
      if !checked { return false; }
      var agreed := LookAgain(env);
      if !agreed { return false; }
      ok := Advance(env);
    }

    /** The last look before the branch advances. */
    method LookAgain(env: Env) returns (ok: bool)
      requires Calling(env)
      modifies `log, `passed, `tip, `left, `contacts, `remote
      ensures Within(env) && left + 1 >= old(left)
      ensures ok ==> CandidateReread in passed && Material in passed && ApprovalsAgain in passed && TipFits(plan, tip)
      ensures Alone(env) ==> remote == old(remote)
      ensures Smooth(env) && old(left) >= 1 && old(remote) == plan.expectedTip ==> ok
    {
      var reread := Ask(env, CandidateReread);
      if !reread { return false; }
      var sealed := Ask(env, Material);
      if !sealed { return false; }
      var seen := RemoteTip(env);
      if seen.None? || seen.value !in {plan.expectedTip, plan.candidate} { return false; }
      ok := Ask(env, ApprovalsAgain);
    }

    method CleanAndPush(env: Env) returns (ok: bool)
      requires Calling(env) && Ready(journal, Cleanup) && Advanced(passed)
      modifies `journal, `log, `passed, `tip, `left, `contacts, `remote
      ensures Within(env)
      ensures ok ==> Done(journal, Publication) && remote == plan.candidate && MayPush(plan, passed)
      ensures Nothing(Integrate)
      ensures !plan.cleanupDeferred && !(env.check(CleanupApproval) && env.check(CleanupContext)) ==>
                !ok && Nothing(Cleanup) && Nothing(Push) && Nothing(Publication)
      ensures !(env.check(PlanBeforePush) && env.check(ApprovalsBeforePush)) ==>
                !ok && Nothing(Push) && Nothing(Publication) && (Alone(env) ==> remote == old(remote))
      ensures Smooth(env) && old(left) >= 10 && old(remote == plan.expectedTip && AllUntouched(journal, Cleanup)) ==> ok
    {
      var cleaned := CleanUp(env);
      if !cleaned { return false; }
      var agreed := LookBeforePush(env);
      if !agreed { return false; }
      var pushed := PushOnce(env);
      if !pushed { return false; }
      ok := WriteOnce(Publication, Finished, env.doc(Publication, Finished));
    }

    /** The last look before the push. */
    method LookBeforePush(env: Env) returns (ok: bool)
      requires Calling(env)
      modifies `log, `passed
      ensures Within(env) && (ok <==> env.check(PlanBeforePush) && env.check(ApprovalsBeforePush))
      ensures ok ==> PlanBeforePush in passed && ApprovalsBeforePush in passed
    {
      var current := Ask(env, PlanBeforePush);
      if !current { return false; }
      ok := Ask(env, ApprovalsBeforePush);
    }

    method CleanUp(env: Env) returns (ok: bool)
      requires Calling(env) && Ready(journal, Cleanup) && Advanced(passed)
      modifies `journal, `log, `passed, `left
      ensures Within(env) && Only(Cleanup) && left + 4 >= old(left)
      ensures ok ==>
                && Done(journal, Cleanup) && MayClean(plan, passed)
                && (plan.cleanupDeferred || (CleanupContext in passed && Result(Cleanup) in passed))
      ensures !plan.cleanupDeferred && !(env.check(CleanupApproval) && env.check(CleanupContext)) ==>
                !ok && Nothing(Cleanup)
      ensures Smooth(env) && old(left) >= 4 && old(Untouched(journal, Cleanup)) ==> ok
    {
      if !plan.cleanupDeferred {
        var approved := Ask(env, CleanupApproval);
        if !approved { return false; }
      }
      ok := RunAction(env, Cleanup);
    }

    lemma AllDone()
      requires Valid() && Done(journal, Publication)
      ensures Ready(journal, Publication)
    {
      assert Filed(journal, log, Publication, Finished);
      var i := At(log, Wrote(Publication, Finished));
      assert Allowed(plan, log[..i], log[i]);
      EarlierFinished(plan, log, i, Publication);
      forall op | op in Before(Publication) ensures Done(journal, op) { assert Filed(journal, log, op, Finished); }
    }

    /** A repeated `publish` re-checks what is finished, and succeeds only if the remote is seen at the candidate. */
    method Republish(env: Env) returns (ok: bool)
      requires Calling(env) && Done(journal, Publication)
      modifies `journal, `log, `passed, `tip, `left, `contacts, `remote
      ensures Within(env) && Quietly()
      ensures ok ==> head == plan.candidate && remote == plan.candidate
      ensures Alone(env) ==> remote == old(remote)
      ensures ok ==> |old(log)| < |log| && log[|old(log)|] == SawRemote(plan.candidate)
      ensures ok ==> env.check(Receipts) && env.check(GatesIntact) && env.check(Result(DeploymentCheck))
      ensures !plan.cleanupDeferred ==>
                (ok <==>
                 && old(left) > 0 && head == plan.candidate
                 && env.moved(old(contacts)).GetOr(old(remote)) == plan.candidate
                 && env.check(Receipts) && env.check(GatesIntact) && env.check(Result(DeploymentCheck))
                 && env.check(CleanupContext) && env.check(Result(Cleanup)))
    {
      AllDone();
      if head != plan.candidate { return false; }
      var seen := RemoteTip(env);
      if seen != Some(plan.candidate) { return false; }
      ok := LookBack(env);
    }

    /** Receipts, gates, deployment check and cleanup of a finished publication still hold. */
    method LookBack(env: Env) returns (ok: bool)
      requires Calling(env) && Ready(journal, Publication)
      modifies `journal, `log, `passed, `left
      ensures Within(env) && Quietly()
      ensures ok ==> env.check(Receipts) && env.check(GatesIntact) && env.check(Result(DeploymentCheck))
      ensures !plan.cleanupDeferred ==>
                (ok <==>
                 && env.check(Receipts) && env.check(GatesIntact) && env.check(Result(DeploymentCheck))
                 && env.check(CleanupContext) && env.check(Result(Cleanup)))
    {
      var kept := Ask(env, Receipts);
      if !kept { return false; }
      var intact := Ask(env, GatesIntact);
      if !intact { return false; }
      ok := RunAction(env, DeploymentCheck);
      if !ok { return; }
      ok := RunAction(env, Cleanup);
    }
  }

  /** Any calls in any order, each dying or being stopped wherever it may, with others moving the remote in between: the
      history stays orderly and no file ever changes. */
  method AnyCalls(site: Site, calls: seq<(Command, Env)>)
    requires site.Valid()
    modifies site
    ensures site.Valid() && old(site.log) <= site.log
    ensures forall op :: Grown(old(site.journal).Of(op), site.journal.Of(op))
  {
    for i := 0 to |calls|
      invariant site.Valid() && old(site.log) <= site.log
      invariant forall op :: Grown(old(site.journal).Of(op), site.journal.Of(op))
    {
      var ok: bool;
      match calls[i].0 {
        case RunGatesCommand => ok := site.RunGates(calls[i].1);
        case PublishCommand => ok := site.Publish(calls[i].1);
      }
    }
  }

  /** The exit code of an action is looked at once: the deployment check fails, and the next call finishes it. */
  method FailedCheckFinishes(plan: Plan, tip: Commit) returns (site: Site)
    ensures fresh(site) && site.Valid() && site.plan == plan
    ensures Noted(site.journal, DeploymentCheck, 1) && Done(site.journal, DeploymentCheck)
  {
    site := new Site(plan, tip);
    var env := Env(4, _ => true, (_, _) => 0, _ => None, _ => 0, true);
    var ok := site.RunGates(env);
    ok := site.Publish(env.(exit := _ => 1));
    ok := site.Publish(env);
  }
}
