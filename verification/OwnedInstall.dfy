/** Owned installation: any number of concurrent installs and rollbacks, each a
    parent process and an activation worker, interleaved step by step and
    crashing anywhere (packages/coding-agent/src/owned-install.ts,
    owned-install-layout.ts and owned-install-worker.ts).

    Generations and version directories carry fresh UUIDs, modelled by counters.
    A rename is one step; the exclusive database lock is released by close and
    by the worker's death. */
module OwnedInstall {

  datatype Option<+T> = None | Some(value: T)

  type Version = nat

  datatype Selection = Selection(generation: nat, active: Version, previous: Option<Version>)

  /** What the installation root holds; `launchers` counts the published ones of
      the loader and the two commands. */
  datatype Disk = Disk(owned: bool, launchers: nat, current: Option<Selection>, prepared: set<Version>)

  const ALL_LAUNCHERS := 3

  datatype Request = Install(expected: Option<Selection>) | Rollback(from: Selection)

  datatype Report =
    | Accepted(selection: Selection)          // returned
    | AcceptedButFailed(selection: Selection) // OwnedInstallActivatedError
    | Refused                                 // an error that says nothing was activated
    | Uncertain                               // "helper result is uncertain"

  datatype Parent = Reading | Initializing | Preparing | Spawning | Waiting | Done(report: Report) | Gone

  /** Where the worker is in `runOwnedActivation`. */
  datatype Worker =
    | Idle
    | Started
    | Locked
    | Publishing(selection: Selection, count: nat)
    | Staged(selection: Selection)
    | Confirmed(selection: Selection)
    | Activated(selection: Selection)
    | Failing
    | Replied(accepted: Option<Selection>, failures: bool)
    | Dead

  /** What the worker is asked to activate. */
  datatype Job = Job(expected: Option<Selection>, version: Version)

  datatype Operation = Operation(request: Request, seen: Option<Selection>, parent: Parent, job: Option<Job>, worker: Worker)

  /** One accepted selection: who renamed it, and what that worker expected. */
  datatype Entry = Entry(op: nat, expected: Option<nat>, selection: Selection, rollback: bool)

  /** `chain` is history: the renames of current.json so far, in order. */
  datatype State = State(
    disk: Disk, lock: Option<nat>, ops: map<nat, Operation>,
    chain: seq<Entry>, nextGeneration: nat, nextVersion: nat)

  const INITIAL := State(Disk(false, 0, None, {}), None, map[], [], 0, 0)

  function GenerationOf(s: Option<Selection>): Option<nat> {
    if s.Some? then Some(s.value.generation) else None
  }

  function ExpectedBy(r: Request): Option<Selection> {
    match r
    case Install(expected) => expected
    case Rollback(from) => Some(from)
  }

  /** One step of one process. `ok` false stands for any exception the step can
      raise; a step that is not possible changes nothing. */
  datatype Event =
    | Submit(op: nat, request: Request)
    | ReadCurrent(op: nat)                // assertSelection in the parent
    | Initialize(op: nat, ok: bool)       // initializeRoot
    | Prepare(op: nat, ok: bool)          // download and checks, or the retained-pair check
    | Spawn(op: nat)
    | Acquire(op: nat)                    // BEGIN EXCLUSIVE with no busy timeout
    | Select(op: nat, ok: bool)           // parent check, assertSelection, fresh generation
    | Publish(op: nat, ok: bool)          // publishFirstLauncher
    | Stage(op: nat, ok: bool)            // write the pending selection
    | Confirm(op: nat)                    // second parent check
    | Rename(op: nat, ok: bool)
    | Close(op: nat, ok: bool)
    | Collect(op: nat, intact: bool, extraFailure: bool)
    | Timeout(op: nat)
    | KillParent(op: nat)
    | KillWorker(op: nat)

  predicate HoldsLock(w: Worker) {
    w.Locked? || w.Publishing? || w.Staged? || w.Confirmed? || w.Activated? || w.Failing?
  }

  function With(s: State, i: nat, o: Operation): State { s.(ops := s.ops[i := o]) }

  function Finish(s: State, i: nat, r: Report): State
    requires i in s.ops
  {
    With(s, i, s.ops[i].(parent := Done(r)))
  }

  function Work(s: State, i: nat, w: Worker): State
    requires i in s.ops
  {
    With(s, i, s.ops[i].(worker := w))
  }

  function Fire(s: State, e: Event): State {
    if e.Submit? then
      if e.op in s.ops then s
      else With(s, e.op, Operation(e.request, None, Reading, None, Idle))
    else if e.op !in s.ops then s
    else if e.ReadCurrent? || e.Initialize? || e.Prepare? || e.Spawn? || e.Collect? || e.Timeout? || e.KillParent?
    then ParentStep(s, e, e.op)
    else WorkerStep(s, e, e.op)
  }

  function ParentStep(s: State, e: Event, i: nat): State
    requires i in s.ops
  {
    var o := s.ops[i];
    match e
    case ReadCurrent(_) =>
      if !o.parent.Reading? then s
      else if GenerationOf(s.disk.current) != GenerationOf(ExpectedBy(o.request)) then Finish(s, i, Refused)
      else With(s, i, o.(seen := s.disk.current, parent := Initializing))
    case Initialize(_, ok) =>
      if !o.parent.Initializing? then s
      else if !ok then Finish(s, i, Refused)
      else With(s, i, o.(parent := Preparing)).(disk := s.disk.(owned := true))
    case Prepare(_, ok) =>
      if !o.parent.Preparing? then s
      else if !ok then Finish(s, i, Refused)
      else if o.request.Install? then
        With(s, i, o.(parent := Spawning, job := Some(Job(o.request.expected, s.nextVersion))))
        .(disk := s.disk.(prepared := s.disk.prepared + {s.nextVersion}), nextVersion := s.nextVersion + 1)
      else if o.seen.None? || o.seen.value.previous.None? || o.seen.value.previous.value !in s.disk.prepared
      then Finish(s, i, Refused)
      else With(s, i, o.(parent := Spawning, job := Some(Job(o.seen, o.seen.value.previous.value))))
    case Spawn(_) =>
      if !o.parent.Spawning? then s else With(s, i, o.(parent := Waiting, worker := Started))
    case Collect(_, intact, extraFailure) =>
      if !o.parent.Waiting? then s
      else if o.worker.Dead? || (o.worker.Replied? && !intact) then Finish(s, i, Uncertain)
      else if !o.worker.Replied? then s
      else if o.worker.accepted.None? then Finish(s, i, Refused)
      else if o.worker.failures || extraFailure then Finish(s, i, AcceptedButFailed(o.worker.accepted.value))
      else Finish(s, i, Accepted(o.worker.accepted.value))
    case Timeout(_) =>
      if !o.parent.Waiting? then s else Finish(Die(s, i), i, Uncertain)
    case KillParent(_) =>
      if o.parent.Done? then s else With(s, i, o.(parent := Gone))
    case _ => s
  }

  /** The worker's process ends; the operating system drops its lock. */
  function Die(s: State, i: nat): State
    requires i in s.ops
  {
    var o := s.ops[i];
    if o.worker.Idle? || o.worker.Replied? || o.worker.Dead? then s
    else Work(s, i, Dead).(lock := if s.lock == Some(i) then None else s.lock)
  }

  function WorkerStep(s: State, e: Event, i: nat): State
    requires i in s.ops
  {
    var o := s.ops[i];
    var w := o.worker;
    match e
    case Acquire(_) =>
      if !w.Started? || o.job.None? then s
      else if s.lock.Some? then Work(s, i, Replied(None, true))
      else Work(s, i, Locked).(lock := Some(i))
    case Select(_, ok) =>
      if !w.Locked? || o.job.None? then s
      else if !ok || o.parent.Gone? || GenerationOf(s.disk.current) != GenerationOf(o.job.value.expected) then
        Work(s, i, Failing)
      else
        var previous := if s.disk.current.Some? then Some(s.disk.current.value.active) else None;
        Work(s, i, Publishing(Selection(s.nextGeneration, o.job.value.version, previous), 0))
        .(nextGeneration := s.nextGeneration + 1)
    case Publish(_, ok) =>
      if !w.Publishing? || w.count >= ALL_LAUNCHERS then s
      else if !ok then Work(s, i, Failing)
      else
        Work(s, i, Publishing(w.selection, w.count + 1))
        .(disk := s.disk.(launchers := if s.disk.launchers > w.count then s.disk.launchers else w.count + 1))
    case Stage(_, ok) =>
      if !w.Publishing? || w.count < ALL_LAUNCHERS then s
      else if !ok then Work(s, i, Failing)
      else Work(s, i, Staged(w.selection))
    case Confirm(_) =>
      if !w.Staged? then s
      else if o.parent.Gone? then Work(s, i, Failing)
      else Work(s, i, Confirmed(w.selection))
    case Rename(_, ok) =>
      if !w.Confirmed? || o.job.None? then s
      else if !ok then Work(s, i, Failing)
      else
        Work(s, i, Activated(w.selection))
        .(disk := s.disk.(current := Some(w.selection)),
          chain := s.chain + [Entry(i, GenerationOf(o.job.value.expected), w.selection, o.request.Rollback?)])
    case Close(_, ok) =>
      if w.Activated? then Work(s, i, Replied(Some(w.selection), !ok)).(lock := None)
      else if w.Failing? then Work(s, i, Replied(None, true)).(lock := None)
      else s
    case KillWorker(_) => Die(s, i)
    case _ => s
  }

  /** Any run: whatever steps the scheduler, the file system and crashes choose. */
  function Execute(events: seq<Event>): State {
    if events == [] then INITIAL else Fire(Execute(events[..|events| - 1]), events[|events| - 1])
  }

  // ---- what every run keeps --------------------------------------------------------

  function LastOf(chain: seq<Entry>): Option<Selection> {
    if chain == [] then None else Some(chain[|chain| - 1].selection)
  }

  /** Entry k replaced exactly the selection before it. */
  predicate Linked(chain: seq<Entry>, k: nat)
    requires k < |chain|
  {
    var before := LastOf(chain[..k]);
    && chain[k].expected == GenerationOf(before)
    && chain[k].selection.previous == (if before.Some? then Some(before.value.active) else None)
    && (chain[k].rollback ==> before.Some? && before.value.previous == Some(chain[k].selection.active))
  }

  predicate ChainOk(s: State) {
    && s.disk.current == LastOf(s.chain)
    && (forall k: nat :: k < |s.chain| ==> Linked(s.chain, k))
    && (forall k: nat :: k < |s.chain| ==> s.chain[k].selection.generation < s.nextGeneration)
    && (forall k: nat, l: nat :: k < l < |s.chain| ==>
          s.chain[k].selection.generation != s.chain[l].selection.generation && s.chain[k].op != s.chain[l].op)
    && (forall k: nat :: k < |s.chain| ==> s.chain[k].selection.active in s.disk.prepared)
    && (forall k: nat :: k < |s.chain| ==> s.chain[k].op in s.ops)
    && (s.chain != [] ==> s.disk.launchers >= ALL_LAUNCHERS)
    && (forall v :: v in s.disk.prepared ==> v < s.nextVersion)
  }

  predicate Recorded(chain: seq<Entry>, i: nat, selection: Selection) {
    exists k: nat :: k < |chain| && chain[k].op == i && chain[k].selection == selection
  }

  predicate Unrecorded(chain: seq<Entry>, i: nat) {
    forall k: nat :: k < |chain| ==> chain[k].op != i
  }

  predicate OnChain(chain: seq<Entry>, selection: Selection) {
    exists k: nat :: k < |chain| && chain[k].selection == selection
  }

  predicate UnusedIn(chain: seq<Entry>, generation: nat) {
    forall k: nat :: k < |chain| ==> chain[k].selection.generation != generation
  }

  /** A worker that has not renamed yet, and what it is about to install. */
  predicate Undecided(w: Worker) {
    w.Idle? || w.Started? || w.Locked? || w.Publishing? || w.Staged? || w.Confirmed? || w.Failing?
  }

  predicate JobOk(s: State, o: Operation) {
    o.job.Some? ==>
      && o.job.value.version in s.disk.prepared
      && (o.request.Rollback? ==>
            && o.job.value.expected.Some? && OnChain(s.chain, o.job.value.expected.value)
            && o.job.value.expected.value.previous == Some(o.job.value.version))
  }

  predicate CandidateOk(s: State, o: Operation, selection: Selection) {
    && o.job.Some?
    && selection.active == o.job.value.version
    && GenerationOf(s.disk.current) == GenerationOf(o.job.value.expected)
    && selection.previous == (if s.disk.current.Some? then Some(s.disk.current.value.active) else None)
    && selection.generation < s.nextGeneration
    && UnusedIn(s.chain, selection.generation)
  }

  predicate WorkerOk(s: State, i: nat, o: Operation) {
    && (HoldsLock(o.worker) <==> s.lock == Some(i))
    && (!o.worker.Idle? ==> o.job.Some?)
    && (Undecided(o.worker) ==> Unrecorded(s.chain, i))
    && match o.worker
       case Publishing(selection, count) => CandidateOk(s, o, selection) && count <= s.disk.launchers && count <= ALL_LAUNCHERS
       case Staged(selection) => CandidateOk(s, o, selection) && s.disk.launchers >= ALL_LAUNCHERS
       case Confirmed(selection) => CandidateOk(s, o, selection) && s.disk.launchers >= ALL_LAUNCHERS
       case Activated(selection) => Recorded(s.chain, i, selection)
       case Replied(accepted, failures) =>
         if accepted.Some? then Recorded(s.chain, i, accepted.value) else Unrecorded(s.chain, i)
       case _ => true
  }

  predicate ParentOk(s: State, i: nat, o: Operation) {
    match o.parent
    case Reading => o.worker.Idle?
    case Initializing => o.worker.Idle? && SeenOk(s, o)
    case Preparing => o.worker.Idle? && SeenOk(s, o)
    case Spawning => o.worker.Idle? && o.job.Some?
    case Waiting => !o.worker.Idle?
    case Done(report) =>
      (match report
       case Accepted(selection) => Recorded(s.chain, i, selection)
       case AcceptedButFailed(selection) => Recorded(s.chain, i, selection)
       case Refused => Unrecorded(s.chain, i) && (o.worker.Idle? || o.worker.Replied?)
       case Uncertain => o.worker.Dead? || o.worker.Replied?)
    case _ => true
  }

  predicate SeenOk(s: State, o: Operation) {
    o.seen.Some? ==> OnChain(s.chain, o.seen.value)
  }

  predicate OperationOk(s: State, i: nat)
    requires i in s.ops
  {
    JobOk(s, s.ops[i]) && WorkerOk(s, i, s.ops[i]) && ParentOk(s, i, s.ops[i])
  }

  predicate Inv(s: State) {
    && ChainOk(s)
    && (s.lock.Some? ==> s.lock.value in s.ops)
    && forall i: nat :: i in s.ops ==> OperationOk(s, i)
  }

  // ---- preservation ------------------------------------------------------------------

  /** What a step of operation `i` may do to the rest of the state. */
  predicate Local(s: State, s': State, i: nat) {
    && i in s'.ops && s.ops.Keys <= s'.ops.Keys && s'.ops.Keys <= s.ops.Keys + {i}
    && (forall j: nat :: j in s.ops && j != i ==> s'.ops[j] == s.ops[j])
    && (s'.lock == s.lock || s.lock == Some(i) || (s.lock.None? && s'.lock == Some(i)))
    && (s.lock == Some(i) ==> s'.lock == s.lock || s'.lock.None?)
    && s.disk.launchers <= s'.disk.launchers
    && s.disk.prepared <= s'.disk.prepared
    && s.nextGeneration <= s'.nextGeneration
    && (|| (s'.chain == s.chain && s'.disk.current == s.disk.current)
        || (s.lock == Some(i) && |s'.chain| == |s.chain| + 1 && s.chain <= s'.chain && s'.chain[|s.chain|].op == i))
  }

  lemma {:induction false} FireIsLocal(s: State, e: Event)
    requires e.op in s.ops && (HoldsLock(s.ops[e.op].worker) <==> s.lock == Some(e.op))
    ensures Local(s, Fire(s, e), e.op)
  {
    hide Local;
    ParentIsLocal(s, e, e.op);
    WorkerIsLocal(s, e, e.op);
    assert Local(s, s, e.op) by { NothingIsLocal(s, e.op); }
  }

  lemma {:induction false} NothingIsLocal(s: State, i: nat)
    requires i in s.ops
    ensures Local(s, s, i)
  {}

  lemma {:induction false} DyingIsLocal(s: State, i: nat)
    requires i in s.ops
    ensures Local(s, Die(s, i), i)
    ensures Die(s, i).chain == s.chain && Die(s, i).disk == s.disk && Die(s, i).nextVersion == s.nextVersion
  {}

  lemma {:induction false} ParentIsLocal(s: State, e: Event, i: nat)
    requires i in s.ops
    ensures Local(s, ParentStep(s, e, i), i)
    ensures ParentStep(s, e, i).chain == s.chain && ParentStep(s, e, i).disk.current == s.disk.current
  {
    hide ParentStep, Local;
    if e.ReadCurrent? || e.Initialize? || e.Prepare? { EarlyStepIsLocal(s, e, i); } else { LateStepIsLocal(s, e, i); }
  }

  lemma {:induction false} EarlyStepIsLocal(s: State, e: Event, i: nat)
    requires i in s.ops && (e.ReadCurrent? || e.Initialize? || e.Prepare?)
    ensures Local(s, ParentStep(s, e, i), i)
    ensures ParentStep(s, e, i).chain == s.chain && ParentStep(s, e, i).disk.current == s.disk.current
  {
    hide Die;
  }

  lemma {:induction false} LateStepIsLocal(s: State, e: Event, i: nat)
    requires i in s.ops && !e.ReadCurrent? && !e.Initialize? && !e.Prepare?
    ensures Local(s, ParentStep(s, e, i), i)
    ensures ParentStep(s, e, i).chain == s.chain && ParentStep(s, e, i).disk.current == s.disk.current
  {
    hide Die;
    DyingIsLocal(s, i);
  }

  lemma {:induction false} WorkerIsLocal(s: State, e: Event, i: nat)
    requires i in s.ops && (HoldsLock(s.ops[i].worker) <==> s.lock == Some(i))
    ensures Local(s, WorkerStep(s, e, i), i)
    ensures WorkerStep(s, e, i).disk.prepared == s.disk.prepared && WorkerStep(s, e, i).nextVersion == s.nextVersion
    ensures !e.Rename? ==>
              WorkerStep(s, e, i).chain == s.chain && WorkerStep(s, e, i).disk.current == s.disk.current
  {
    hide WorkerStep, Local;
    if e.Rename? { RenameIsLocal(s, e, i); }
    else if e.Acquire? || e.Close? || e.KillWorker? { LockStepIsLocal(s, e, i); }
    else { QuietStepIsLocal(s, e, i); }
  }

  lemma {:induction false} RenameIsLocal(s: State, e: Event, i: nat)
    requires i in s.ops && (HoldsLock(s.ops[i].worker) <==> s.lock == Some(i)) && e.Rename?
    ensures Local(s, WorkerStep(s, e, i), i)
    ensures WorkerStep(s, e, i).disk.prepared == s.disk.prepared && WorkerStep(s, e, i).nextVersion == s.nextVersion
  {
    hide Die;
  }

  lemma {:induction false} LockStepIsLocal(s: State, e: Event, i: nat)
    requires i in s.ops && (HoldsLock(s.ops[i].worker) <==> s.lock == Some(i))
    requires e.Acquire? || e.Close? || e.KillWorker?
    ensures Local(s, WorkerStep(s, e, i), i)
    ensures WorkerStep(s, e, i).disk == s.disk && WorkerStep(s, e, i).nextVersion == s.nextVersion
    ensures WorkerStep(s, e, i).chain == s.chain
  {
    hide Die;
    DyingIsLocal(s, i);
  }

  lemma {:induction false} QuietStepIsLocal(s: State, e: Event, i: nat)
    requires i in s.ops && !e.Rename? && !e.Acquire? && !e.Close? && !e.KillWorker?
    ensures Local(s, WorkerStep(s, e, i), i)
    ensures WorkerStep(s, e, i).disk.prepared == s.disk.prepared && WorkerStep(s, e, i).nextVersion == s.nextVersion
    ensures WorkerStep(s, e, i).chain == s.chain && WorkerStep(s, e, i).disk.current == s.disk.current
  {
    hide Die;
  }

  lemma {:induction false} OthersKeep(s: State, s': State, i: nat, j: nat)
    requires Inv(s) && Local(s, s', i) && j in s.ops && j != i
    ensures OperationOk(s', j)
  {
    assert OperationOk(s, j);
    var o := s.ops[j];
    RecordsGrow(s, s', i, j);
    if HoldsLock(o.worker) { assert s'.chain == s.chain; }
  }

  /** History only grows, and another operation's step records nothing for j. */
  lemma {:induction false} RecordsGrow(s: State, s': State, i: nat, j: nat)
    requires Local(s, s', i)
    ensures forall x :: Recorded(s.chain, j, x) ==> Recorded(s'.chain, j, x)
    ensures forall x :: OnChain(s.chain, x) ==> OnChain(s'.chain, x)
    ensures j != i && Unrecorded(s.chain, j) ==> Unrecorded(s'.chain, j)
  {
    forall k: nat | k < |s.chain| ensures s'.chain[k] == s.chain[k] {}
    forall x | Recorded(s.chain, j, x) ensures Recorded(s'.chain, j, x) {
      var k: nat :| k < |s.chain| && s.chain[k].op == j && s.chain[k].selection == x;
      assert s'.chain[k] == s.chain[k];
    }
    forall x | OnChain(s.chain, x) ensures OnChain(s'.chain, x) {
      var k: nat :| k < |s.chain| && s.chain[k].selection == x;
      assert s'.chain[k] == s.chain[k];
    }
  }

  /** A step that renames nothing keeps the chain in order. */
  lemma {:induction false} ChainKept(s: State, s': State)
    requires ChainOk(s) && s'.chain == s.chain && s'.disk.current == s.disk.current
    requires s.ops.Keys <= s'.ops.Keys
    requires s.disk.launchers <= s'.disk.launchers && s.disk.prepared <= s'.disk.prepared
    requires s.nextGeneration <= s'.nextGeneration
    requires forall v :: v in s'.disk.prepared ==> v < s'.nextVersion
    ensures ChainOk(s')
  {
    hide Linked;
  }

  lemma {:induction false} ParentKeepsChain(s: State, e: Event, i: nat)
    requires ChainOk(s) && i in s.ops
    ensures ChainOk(ParentStep(s, e, i))
  {
    hide Linked, ChainOk, ParentStep;
    ParentIsLocal(s, e, i);
    PreparedAreNumbered(s, e, i);
    ChainKept(s, ParentStep(s, e, i));
  }

  lemma {:induction false} ParentKeepsOwn(s: State, e: Event, i: nat)
    requires Inv(s) && i in s.ops
    ensures OperationOk(ParentStep(s, e, i), i)
  {
    hide OperationOk, ParentStep, ChainOk;
    if e.ReadCurrent? || e.Initialize? || e.Prepare? { EarlyKeepsOwn(s, e, i); } else { LateKeepsOwn(s, e, i); }
  }

  lemma {:induction false} EarlyKeepsOwn(s: State, e: Event, i: nat)
    requires Inv(s) && i in s.ops && (e.ReadCurrent? || e.Initialize? || e.Prepare?)
    ensures OperationOk(ParentStep(s, e, i), i)
  {
    hide Inv, ParentStep, OperationOk;
    if e.Prepare? { PrepareKeepsOwn(s, e, i); } else { ReadingKeepsOwn(s, e, i); }
  }

  lemma {:induction false} ReadingKeepsOwn(s: State, e: Event, i: nat)
    requires Inv(s) && i in s.ops && (e.ReadCurrent? || e.Initialize?)
    ensures OperationOk(ParentStep(s, e, i), i)
  {
    hide Linked, Die, Recorded, Unrecorded, OnChain, UnusedIn, ChainOk, CandidateOk;
    assert OperationOk(s, i);
    CurrentIsOnChain(s);
    CandidatesKept(s, e, i);
  }

  lemma {:induction false} PrepareKeepsOwn(s: State, e: Event, i: nat)
    requires Inv(s) && i in s.ops && e.Prepare?
    ensures OperationOk(ParentStep(s, e, i), i)
  {
    hide Linked, Die, Recorded, Unrecorded, OnChain, UnusedIn, ChainOk, CandidateOk;
    assert OperationOk(s, i);
    CurrentIsOnChain(s);
    CandidatesKept(s, e, i);
  }

  lemma {:induction false} LateKeepsOwn(s: State, e: Event, i: nat)
    requires Inv(s) && i in s.ops && !e.ReadCurrent? && !e.Initialize? && !e.Prepare?
    ensures OperationOk(ParentStep(s, e, i), i)
  {
    hide Linked, Die, Recorded, Unrecorded, OnChain, UnusedIn, ChainOk, CandidateOk;
    assert OperationOk(s, i);
    CandidatesKept(s, e, i);
    if e.Timeout? { DeathFacts(s, i); }
  }

  lemma {:induction false} CandidatesKept(s: State, e: Event, i: nat)
    requires i in s.ops
    requires s.ops[i].parent.Preparing? || s.ops[i].parent.Spawning? ==> s.ops[i].worker.Idle?
    ensures var s' := ParentStep(s, e, i);
            && (s'.ops[i].worker == s.ops[i].worker || s'.ops[i].worker.Started? || s'.ops[i].worker.Dead?)
            && forall x :: CandidateOk(s, s.ops[i], x) && !s.ops[i].worker.Idle? ==> CandidateOk(s', s'.ops[i], x)
  {
    hide UnusedIn;
  }

  lemma {:induction false} CurrentIsOnChain(s: State)
    requires ChainOk(s)
    ensures s.disk.current.Some? ==> OnChain(s.chain, s.disk.current.value)
  {
    if s.chain != [] { assert s.chain[|s.chain| - 1].selection == s.disk.current.value; }
  }

  lemma {:induction false} NextIsUnused(s: State)
    requires ChainOk(s)
    ensures UnusedIn(s.chain, s.nextGeneration)
  {}

  lemma {:induction false} NumberedPrepared(s: State)
    requires ChainOk(s)
    ensures forall v :: v in s.disk.prepared ==> v < s.nextVersion
  {}

  lemma {:induction false} PreparedAreNumbered(s: State, e: Event, i: nat)
    requires i in s.ops && ChainOk(s)
    ensures var s' := ParentStep(s, e, i); forall v :: v in s'.disk.prepared ==> v < s'.nextVersion
  {}

  lemma {:induction false} DeathFacts(s: State, i: nat)
    requires i in s.ops && (HoldsLock(s.ops[i].worker) <==> s.lock == Some(i))
    ensures var s' := Die(s, i);
            && s'.disk == s.disk && s'.chain == s.chain && i in s'.ops
            && s'.ops[i] == s.ops[i].(worker := s'.ops[i].worker)
            && (s.ops[i].worker.Idle? || s.ops[i].worker.Replied? || s.ops[i].worker.Dead? ==> s' == s)
            && (!s.ops[i].worker.Idle? && !s.ops[i].worker.Replied? ==> s'.ops[i].worker.Dead?)
            && (HoldsLock(s'.ops[i].worker) <==> s'.lock == Some(i))
  {}

  lemma {:induction false} WorkerKeepsChain(s: State, e: Event, i: nat)
    requires Inv(s) && i in s.ops && !(e.Rename? && s.ops[i].worker.Confirmed?)
    ensures ChainOk(WorkerStep(s, e, i))
  {
    hide Linked, ChainOk, OperationOk, Die;
    assert OperationOk(s, i);
    HolderOf(s, i);
    WorkerIsLocal(s, e, i);
    NumberedPrepared(s);
    ChainKept(s, WorkerStep(s, e, i));
  }

  lemma {:induction false} HolderOf(s: State, i: nat)
    requires i in s.ops && OperationOk(s, i)
    ensures HoldsLock(s.ops[i].worker) <==> s.lock == Some(i)
  {}

  lemma {:induction false} WorkerKeepsOwn(s: State, e: Event, i: nat)
    requires Inv(s) && i in s.ops && !(e.Rename? && s.ops[i].worker.Confirmed?)
    ensures OperationOk(WorkerStep(s, e, i), i)
  {
    hide Inv, WorkerStep, OperationOk;
    if e.Acquire? || e.Select? { SelectKeepsOwn(s, e, i); } else { PublishKeepsOwn(s, e, i); }
  }

  lemma {:induction false} SelectKeepsOwn(s: State, e: Event, i: nat)
    requires Inv(s) && i in s.ops && (e.Acquire? || e.Select?)
    ensures OperationOk(WorkerStep(s, e, i), i)
  {
    hide Linked, Die, Recorded, Unrecorded, OnChain, UnusedIn, ChainOk;
    assert OperationOk(s, i);
    NextIsUnused(s);
  }

  lemma {:induction false} PublishKeepsOwn(s: State, e: Event, i: nat)
    requires Inv(s) && i in s.ops && !e.Acquire? && !e.Select? && !(e.Rename? && s.ops[i].worker.Confirmed?)
    ensures OperationOk(WorkerStep(s, e, i), i)
  {
    hide Linked, Die, Recorded, Unrecorded, OnChain, UnusedIn, ChainOk, CandidateOk;
    assert OperationOk(s, i);
    CandidateStays(s, WorkerStep(s, e, i), i);
    if e.KillWorker? { DeathFacts(s, i); }
  }

  /** A candidate stays one while selections and the job are as they were. */
  lemma {:induction false} CandidateStays(s: State, s': State, i: nat)
    requires i in s.ops
    ensures i in s'.ops && s'.ops[i].job == s.ops[i].job && s'.disk.current == s.disk.current && s'.chain == s.chain
            && s'.nextGeneration == s.nextGeneration ==>
              forall selection :: CandidateOk(s', s'.ops[i], selection) <==> CandidateOk(s, s.ops[i], selection)
  {}

  /** The rename itself: the lock holder's candidate becomes the next entry. */
  lemma {:induction false} RenameKeeps(s: State, i: nat)
    requires Inv(s) && i in s.ops && s.ops[i].worker.Confirmed?
    ensures var s' := WorkerStep(s, Rename(i, true), i); ChainOk(s') && OperationOk(s', i)
  {
    hide ChainOk, OperationOk, WorkerStep;
    RenameExtends(s, i);
    RenameIsRecorded(s, i);
  }

  lemma {:induction false} RenameExtends(s: State, i: nat)
    requires Inv(s) && i in s.ops && s.ops[i].worker.Confirmed?
    ensures ChainOk(WorkerStep(s, Rename(i, true), i))
  {
    hide Linked, Recorded;
    assert OperationOk(s, i);
    var s' := WorkerStep(s, Rename(i, true), i);
    var n := |s.chain|;
    forall k: nat | k <= n ensures Linked(s'.chain, k) {
      if k < n {
        LinkedInPrefix(s.chain, s'.chain, k);
      } else {
        NewLink(s, s'.chain[n], s.ops[i]);
      }
    }
  }

  lemma {:induction false} RenameIsRecorded(s: State, i: nat)
    requires Inv(s) && i in s.ops && s.ops[i].worker.Confirmed?
    ensures OperationOk(WorkerStep(s, Rename(i, true), i), i)
  {
    hide Linked;
    assert OperationOk(s, i);
    var s' := WorkerStep(s, Rename(i, true), i);
    assert s'.chain[|s.chain|].op == i && s'.chain[|s.chain|].selection == s.ops[i].worker.selection;
    WorkerIsLocal(s, Rename(i, true), i);
    RecordsGrow(s, s', i, i);
  }

  lemma {:induction false} LinkedInPrefix(chain: seq<Entry>, chain': seq<Entry>, k: nat)
    requires k < |chain| && chain <= chain' && Linked(chain, k)
    ensures Linked(chain', k)
  {
    assert chain'[..k] == chain[..k];
  }

  lemma {:induction false} NewLink(s: State, e: Entry, o: Operation)
    requires ChainOk(s) && JobOk(s, o) && o.job.Some? && CandidateOk(s, o, e.selection)
    requires e.expected == GenerationOf(o.job.value.expected) && e.rollback == o.request.Rollback?
    ensures Linked(s.chain + [e], |s.chain|)
  {
    var n := |s.chain|;
    assert (s.chain + [e])[..n] == s.chain;
    if e.rollback {
      var x := o.job.value.expected.value;
      var k: nat :| k < n && s.chain[k].selection == x;
      assert s.chain[n - 1].selection.generation == x.generation;
      assert k == n - 1;
    }
  }

  lemma {:induction false} FireKeeps(s: State, e: Event)
    requires Inv(s)
    ensures Inv(Fire(s, e))
    ensures s.chain <= Fire(s, e).chain
  {
    hide ChainOk, OperationOk, Local;
    var s', i := Fire(s, e), e.op;
    if e.Submit? {
      if i !in s.ops { SubmitKeeps(s, i, e.request); }
    } else if i in s.ops {
      OwnStepKeeps(s, e, i);
      forall j: nat | j in s'.ops
        ensures OperationOk(s', j)
      {
        LocalKeys(s, s', i);
        if j != i { OthersKeep(s, s', i, j); }
      }
    }
  }

  lemma {:induction false} LocalKeys(s: State, s': State, i: nat)
    requires Local(s, s', i) && i in s.ops
    ensures s'.ops.Keys == s.ops.Keys && (s.lock.Some? ==> s.lock.value in s.ops ==> s'.lock.Some? ==> s'.lock.value in s'.ops)
  {}

  /** What the operation's own step leaves behind. */
  predicate StepOk(s: State, s': State, i: nat) {
    && i in s'.ops && ChainOk(s') && OperationOk(s', i) && Local(s, s', i)
    && s.chain <= s'.chain && (s'.lock.Some? ==> s'.lock.value in s'.ops)
  }

  lemma {:induction false} OwnStepKeeps(s: State, e: Event, i: nat)
    requires Inv(s) && i in s.ops && !e.Submit? && e.op == i
    ensures StepOk(s, Fire(s, e), i)
  {
    hide ChainOk, OperationOk, ParentStep, WorkerStep, Local;
    assert OperationOk(s, i);
    HolderOf(s, i);
    FireIsLocal(s, e);
    ParentKeepsChain(s, e, i);
    ParentKeepsOwn(s, e, i);
    if e.Rename? && s.ops[i].worker.Confirmed? {
      if e.ok { RenameKeeps(s, i); } else { FailedRenameKeeps(s, i); }
    } else {
      WorkerKeepsChain(s, e, i);
      WorkerKeepsOwn(s, e, i);
    }
    LocalGrows(s, Fire(s, e), i);
    LocalKeys(s, Fire(s, e), i);
  }

  lemma {:induction false} LocalGrows(s: State, s': State, i: nat)
    requires Local(s, s', i) && (s.lock.Some? ==> s.lock.value in s.ops)
    ensures s.chain <= s'.chain && (s'.lock.Some? ==> s'.lock.value in s'.ops)
  {}

  lemma {:induction false} FailedRenameKeeps(s: State, i: nat)
    requires Inv(s) && i in s.ops && s.ops[i].worker.Confirmed?
    ensures var s' := WorkerStep(s, Rename(i, false), i); ChainOk(s') && OperationOk(s', i)
  {
    hide Linked, Recorded, Unrecorded, OnChain, UnusedIn, ChainOk;
    assert OperationOk(s, i);
    NumberedPrepared(s);
    ChainKept(s, WorkerStep(s, Rename(i, false), i));
  }

  lemma {:induction false} SubmitKeeps(s: State, i: nat, request: Request)
    requires Inv(s) && i !in s.ops
    ensures Inv(Fire(s, Submit(i, request)))
    ensures Fire(s, Submit(i, request)).chain == s.chain
  {
    hide Linked, Recorded, OnChain, UnusedIn, ChainOk;
    var s' := Fire(s, Submit(i, request));
    NumberedPrepared(s);
    ChainKept(s, s');
    NotYetRecorded(s, i);
    forall j: nat | j in s'.ops
      ensures OperationOk(s', j)
    {
      if j != i { assert OperationOk(s, j); }
    }
  }

  lemma {:induction false} NotYetRecorded(s: State, i: nat)
    requires ChainOk(s) && i !in s.ops
    ensures Unrecorded(s.chain, i)
  {}

  lemma {:induction false} InvAlways(events: seq<Event>)
    ensures Inv(Execute(events))
    decreases |events|
  {
    hide Inv, Fire;
    if events == [] {
      InvAtFirst();
    } else {
      InvAlways(events[..|events| - 1]);
      FireKeeps(Execute(events[..|events| - 1]), events[|events| - 1]);
    }
  }

  lemma {:induction false} InvAtFirst()
    ensures Inv(INITIAL)
  {}

  // ---- main results: every run ---------------------------------------------------------

  /** Accepted selections form one chain: each replaced exactly the generation
      its worker expected, with the replaced version as its previous one, and
      current.json is its end. */
  lemma {:induction false} AcceptancesAreLinear(events: seq<Event>)
    ensures var s := Execute(events);
            && s.disk.current == LastOf(s.chain)
            && forall k: nat :: k < |s.chain| ==> Linked(s.chain, k)
  {
    hide Linked;
    InvAlways(events);
  }

  /** Of all contenders that expected the same generation at most one wins, and
      no operation is accepted twice. */
  lemma {:induction false} OneWinner(events: seq<Event>, k: nat, l: nat)
    requires k < |Execute(events).chain| && l < |Execute(events).chain|
    requires Execute(events).chain[k].expected == Execute(events).chain[l].expected
             || Execute(events).chain[k].op == Execute(events).chain[l].op
    ensures k == l
  {
    var s := Execute(events);
    InvAlways(events);
    assert Linked(s.chain, k) && Linked(s.chain, l);
  }

  /** current.json exists only with its launchers, and names a version that
      passed the preparation checks. */
  lemma {:induction false} CurrentIsUsable(events: seq<Event>)
    ensures var d := Execute(events).disk;
            d.current.Some? ==> d.launchers >= ALL_LAUNCHERS && d.current.value.active in d.prepared
  {
    hide Linked;
    InvAlways(events);
  }

  /** Two rollbacks accepted one right after the other restore the pair of
      versions that was selected before them. */
  lemma {:induction false} RollbackTwiceRestores(events: seq<Event>, k: nat)
    requires k + 2 < |Execute(events).chain|
    requires Execute(events).chain[k + 1].rollback && Execute(events).chain[k + 2].rollback
    ensures var chain := Execute(events).chain;
            && chain[k + 2].selection.active == chain[k].selection.active
            && chain[k + 2].selection.previous == chain[k].selection.previous
  {
    hide Execute, OperationOk, Linked;
    InvAlways(events);
    LinkedTwice(Execute(events).chain, k);
  }

  lemma {:induction false} LinkedTwice(chain: seq<Entry>, k: nat)
    requires k + 2 < |chain| && Linked(chain, k + 1) && Linked(chain, k + 2)
    requires chain[k + 1].rollback && chain[k + 2].rollback
    ensures chain[k + 2].selection.active == chain[k].selection.active
    ensures chain[k + 2].selection.previous == chain[k].selection.previous
  {
    assert chain[..k + 1][k] == chain[k] && chain[..k + 2][k + 1] == chain[k + 1];
  }

  /** What a parent reports is true, now and for good: a reported acceptance was
      renamed into place by that operation, and a refusal means it never was and
      never will be, whatever happens next. */
  lemma {:induction false} ReportsAreTrue(events: seq<Event>, later: seq<Event>, i: nat)
    requires i in Execute(events).ops && Execute(events).ops[i].parent.Done?
    ensures match Execute(events).ops[i].parent.report
            case Accepted(selection) => Recorded(Execute(events + later).chain, i, selection)
            case AcceptedButFailed(selection) => Recorded(Execute(events + later).chain, i, selection)
            case Refused => Unrecorded(Execute(events + later).chain, i)
            case Uncertain => true
    decreases |later|
  {
    hide Inv, Fire, Execute, Recorded, Unrecorded;
    var s := Execute(events + later);
    InvAlways(events + later);
    ReportStays(events, later, i);
    ReportTrueNow(s, i);
  }

  lemma {:induction false} ReportTrueNow(s: State, i: nat)
    requires Inv(s) && i in s.ops && s.ops[i].parent.Done?
    ensures match s.ops[i].parent.report
            case Accepted(selection) => Recorded(s.chain, i, selection)
            case AcceptedButFailed(selection) => Recorded(s.chain, i, selection)
            case Refused => Unrecorded(s.chain, i)
            case Uncertain => true
  {
    hide ChainOk, Recorded, Unrecorded;
    assert OperationOk(s, i);
  }

  lemma {:induction false} ReportStays(events: seq<Event>, later: seq<Event>, i: nat)
    requires i in Execute(events).ops && Execute(events).ops[i].parent.Done?
    ensures i in Execute(events + later).ops
    ensures Execute(events + later).ops[i].parent == Execute(events).ops[i].parent
    decreases |later|
  {
    hide Fire;
    if later == [] {
      assert events + later == events;
    } else {
      var front := later[..|later| - 1];
      ReportStays(events, front, i);
      assert (events + later)[..|events + later| - 1] == events + front;
      DoneStays(Execute(events + front), (events + later)[|events + later| - 1], i);
    }
  }

  lemma {:induction false} DoneStays(s: State, e: Event, i: nat)
    requires i in s.ops && s.ops[i].parent.Done?
    ensures i in Fire(s, e).ops && Fire(s, e).ops[i].parent == s.ops[i].parent
  {}
}
