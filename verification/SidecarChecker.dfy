/** The sidecar checker (benchmarks/python-realworld-30/benchlib.py,
    apply_instrumented_accounting): one pass over the log that collects reasons
    to withhold the totals. Main result: it finds no reason exactly for the
    logs SidecarLog calls ordered and finished. */
module SidecarChecking {
  import opened SidecarLog

  datatype Process = Process(
    header: bool, footer: bool, apis: set<string>,
    operations: set<string>, attempts: set<string>, connections: set<string>)

  const FRESH := Process(false, false, {}, {}, {}, {})

  datatype OperationState = OperationState(record: Record, attempts: set<string>, closed: bool, declared: Declared)

  datatype Book = Book(
    reasons: set<string>,
    requests: map<string, Record>,
    admissions: set<string>,
    connections: map<string, Record>,
    processes: map<int, Process>,
    operations: map<string, OperationState>)

  const EMPTY := Book({}, map[], {}, map[], map[], map[])

  // ---- one record: what it is blamed for ------------------------------------------

  function Flag(fault: bool, reason: string): (r: set<string>)
    ensures r == {} <==> !fault
  {
    if fault then {reason} else {}
  }

  function Both(a: set<string>, b: set<string>): (r: set<string>)
    ensures r == {} <==> a == {} && b == {}
  {
    a + b
  }

  function ProcessOf(b: Book, pid: int): Process {
    if pid in b.processes then b.processes[pid] else FRESH
  }

  function Faults(b: Book, r: Record): set<string> {
    var p := ProcessOf(b, r.pid);
    Both(Flag(p.footer, "record_after_footer"), Both(BodyFaults(b, p, r), HeaderFaults(p, r)))
  }

  function BodyFaults(b: Book, p: Process, r: Record): set<string> {
    match r.body
    case Opened(patchQualified, _) => Flag(p.header || !patchQualified, "unqualified_patch_scope")
    case Closed(writeFailures, openIdsEmpty) =>
      Both(Flag(writeFailures != 0, "sidecar_write_failures"), Flag(!openIdsEmpty, "open_footer_scopes"))
    case UnknownKind => Flag(true, "unsupported_sidecar_record")
    case _ =>
      if r.operation.None? then Flag(true, "missing_operation_id")
      else Both(ScopeFaults(b.operations, p, r, r.operation.value),
                KindFaults(b.requests, b.admissions, p, r, r.operation.value))
  }

  /** The checks all records that name an operation share. */
  function ScopeFaults(operations: map<string, OperationState>, p: Process, r: Record, op: string): set<string> {
    var purpose, api := r.scope.purpose, r.scope.contract.api;
    Both(Flag(purpose.None? || purpose.value !in PURPOSES, "unknown_or_unqualified_purpose"),
         Both(Flag(api.None? || api.value !in p.apis, "uncovered_api"),
              if r.body.OperationStarted? then Flag(op in operations, "duplicate_operation")
              else if op !in operations || operations[op].record.pid != r.pid then Flag(true, "unscoped_operation")
              else Flag(operations[op].record.scope != r.scope, "inconsistent_operation_scope")))
  }

  function KindFaults(
    requests: map<string, Record>, admissions: set<string>, p: Process, r: Record, op: string): set<string>
  {
    match r.body
    case AttemptAdmitted(attempt) =>
      if attempt.None? then Flag(true, "missing_attempt_id")
      else Flag(attempt.value in admissions, "duplicate_admission")
    case AttemptSettled(attempt, receiptFor) =>
      if attempt.None? then Flag(true, "missing_attempt_id")
      else if receiptFor != attempt then Flag(true, "malformed_settlement")
      else
        Both(Flag(attempt.value !in admissions, "settlement_without_admission"),
             Flag(attempt.value in requests && requests[attempt.value].operation != Some(op),
                  "inconsistent_attempt_scope"))
    case ConnectionStarted(connection) => Flag(connection.None?, "missing_connection_id")
    case ConnectionSettled(connection) =>
      if connection.None? then Flag(true, "missing_connection_id")
      else Flag(connection.value !in p.connections, "connection_without_start")
    case _ => {}
  }

  /** Records that end in `continue` skip the header test; each of them has
      already been given a reason. */
  predicate Skips(r: Record) {
    r.body.Scoped() &&
    (|| r.operation.None?
     || (r.body.OfAttempt() && r.body.attempt.None?)
     || (r.body.AttemptSettled? && r.body.receiptFor != r.body.attempt)
     || (r.body.ConnectionStarted? && r.body.connection.None?)
     || (r.body.ConnectionSettled? && r.body.connection.None?))
  }

  function HeaderFaults(p: Process, r: Record): set<string> {
    Flag(!Skips(r) && !p.header && !r.body.Opened?, "missing_sidecar_header")
  }

  // ---- one record: what it changes -------------------------------------------------

  function ProcessAfter(p: Process, r: Record): Process {
    match r.body
    case Opened(_, coveredApis) => p.(header := true, apis := coveredApis * SUPPORTED)
    case Closed(_, _) => p.(footer := true)
    case UnknownKind => p
    case _ => if r.operation.None? then p else ScopesAfter(p, r, r.operation.value)
  }

  function ScopesAfter(p: Process, r: Record, op: string): Process {
    match r.body
    case OperationStarted => p.(operations := p.operations + {op})
    case OperationSettled(_) => p.(operations := p.operations - {op})
    case AttemptAdmitted(a) => if a.None? then p else p.(attempts := p.attempts + {a.value})
    case AttemptSettled(a, receiptFor) =>
      if a.None? || receiptFor != a then p else p.(attempts := p.attempts - {a.value})
    case ConnectionStarted(c) => if c.None? then p else p.(connections := p.connections + {c.value})
    case ConnectionSettled(c) => if c.None? then p else p.(connections := p.connections - {c.value})
    case _ => p
  }

  function OperationsAfter(operations: map<string, OperationState>, r: Record): map<string, OperationState> {
    if !r.body.Scoped() || r.operation.None? then operations
    else
      var op := r.operation.value;
      if r.body.OperationStarted? then operations[op := OperationState(r, {}, false, Absent)]
      else if op !in operations then operations
      else
        match r.body
        case OperationSettled(declared) => operations[op := operations[op].(closed := true, declared := declared)]
        case AttemptAdmitted(a) =>
          if a.None? then operations
          else operations[op := operations[op].(attempts := operations[op].attempts + {a.value})]
        case AttemptSettled(a, _) =>
          if a.None? then operations
          else operations[op := operations[op].(attempts := operations[op].attempts + {a.value})]
        case _ => operations
  }

  function RequestsAfter(requests: map<string, Record>, r: Record): map<string, Record> {
    if r.operation.None? then requests
    else
      match r.body
      case AttemptAdmitted(a) =>
        if a.None? || a.value in requests then requests else requests[a.value := r]
      case AttemptSettled(a, receiptFor) =>
        if a.None? || receiptFor != a then requests else requests[a.value := r]
      case _ => requests
  }

  function AdmissionsAfter(admissions: set<string>, r: Record): set<string> {
    if r.operation.Some? && r.body.AttemptAdmitted? && r.body.attempt.Some?
    then admissions + {r.body.attempt.value} else admissions
  }

  function ConnectionsAfter(connections: map<string, Record>, r: Record): map<string, Record> {
    if r.operation.None? then connections
    else
      match r.body
      case ConnectionStarted(c) => if c.None? then connections else connections[c.value := r]
      case ConnectionSettled(c) => if c.None? then connections else connections[c.value := r]
      case _ => connections
  }

  function Apply(b: Book, r: Record): Book {
    Book(b.reasons + Faults(b, r),
         RequestsAfter(b.requests, r),
         AdmissionsAfter(b.admissions, r),
         ConnectionsAfter(b.connections, r),
         b.processes[r.pid := ProcessAfter(ProcessOf(b, r.pid), r)],
         OperationsAfter(b.operations, r))
  }

  // ---- how the log's properties grow -------------------------------------------

  lemma {:induction false} SeenGrows(log: seq<Record>, r: Record, pid: int)
    ensures Seen(log + [r], pid) <==> Seen(log, pid) || r.pid == pid
    ensures SeenClosed(log + [r], pid) <==> SeenClosed(log, pid) || (r.pid == pid && r.body.Closed?)
  {
    var log' := log + [r];
    assert log'[|log|] == r;
    if j :| 0 <= j < |log| && log[j].pid == pid {
      assert log'[j].pid == pid;
    }
    if j :| 0 <= j < |log| && log[j].pid == pid && log[j].body.Closed? {
      assert log'[j].pid == pid;
    }
  }

  lemma {:induction false} CoveredGrows(log: seq<Record>, r: Record, pid: int, api: string)
    ensures Covered(log + [r], pid, Some(api)) <==>
            Covered(log, pid, Some(api))
            || (r.pid == pid && r.body.Opened? && api in r.body.coveredApis && api in SUPPORTED)
  {
    var log' := log + [r];
    assert log'[|log|] == r;
    if j :| 0 <= j < |log| && log[j].pid == pid && log[j].body.Opened? && api in log[j].body.coveredApis
            && api in SUPPORTED {
      assert log'[j].pid == pid;
    }
  }

  lemma {:induction false} StartedGrows(log: seq<Record>, r: Record, op: string, pid: int, scope: Scope)
    ensures Started(log + [r], op) <==> Started(log, op) || Opens(r, Operation(op))
    ensures StartedLike(log + [r], op, pid, scope) <==>
            StartedLike(log, op, pid, scope) || (Opens(r, Operation(op)) && r.pid == pid && r.scope == scope)
  {
    var log' := log + [r];
    assert log'[|log|] == r;
    if j :| 0 <= j < |log| && Opens(log[j], Operation(op)) {
      assert Opens(log'[j], Operation(op));
    }
    if j :| 0 <= j < |log| && Opens(log[j], Operation(op)) && log[j].pid == pid && log[j].scope == scope {
      assert Opens(log'[j], Operation(op));
    }
  }

  lemma {:induction false} AdmittedGrows(log: seq<Record>, r: Record, a: string, op: string)
    ensures Admitted(log + [r], a) <==> Admitted(log, a) || Opens(r, Attempt(a))
    ensures AdmittedUnder(log + [r], a, op) <==>
            AdmittedUnder(log, a, op) || (Opens(r, Attempt(a)) && r.operation == Some(op))
  {
    var log' := log + [r];
    assert log'[|log|] == r;
    if j :| 0 <= j < |log| && Opens(log[j], Attempt(a)) {
      assert Opens(log'[j], Attempt(a));
    }
    if j :| 0 <= j < |log| && Opens(log[j], Attempt(a)) && log[j].operation == Some(op) {
      assert Opens(log'[j], Attempt(a));
    }
  }

  lemma {:induction false} OpenGrows(log: seq<Record>, r: Record, pid: int, h: Handle)
    ensures Open(log + [r], pid, h) <==>
            (r.pid == pid && Opens(r, h)) || (Open(log, pid, h) && !(r.pid == pid && Closes(r, h)))
  {
    var log' := log + [r];
    assert log'[|log|] == r;
    if Open(log, pid, h) && !(r.pid == pid && Closes(r, h)) {
      var j :| 0 <= j < |log| && log[j].pid == pid && Opens(log[j], h) && !ClosedAfter(log, pid, h, j);
      StillNotClosed(log, r, pid, h, j);
      assert log'[j] == log[j];
    }
    if r.pid == pid && Opens(r, h) {
      assert !ClosedAfter(log', pid, h, |log|);
    }
    if Open(log', pid, h) && !(r.pid == pid && Opens(r, h)) {
      var j :| 0 <= j < |log'| && log'[j].pid == pid && Opens(log'[j], h) && !ClosedAfter(log', pid, h, j);
      StillNotClosed(log, r, pid, h, j);
      assert log'[j] == log[j];
    }
  }

  lemma {:induction false} StillNotClosed(log: seq<Record>, r: Record, pid: int, h: Handle, j: int)
    requires 0 <= j < |log|
    ensures ClosedAfter(log + [r], pid, h, j) <==> ClosedAfter(log, pid, h, j) || (r.pid == pid && Closes(r, h))
  {
    var log' := log + [r];
    assert log'[|log|] == r;
    if k :| j < k < |log| && 0 <= k && log[k].pid == pid && Closes(log[k], h) {
      assert Closes(log'[k], h);
    }
  }

  lemma {:induction false} AttemptsGrow(log: seq<Record>, r: Record, op: string)
    ensures AttemptsOf(log + [r], op) ==
            AttemptsOf(log, op) + if NamesAttempt(r, op) then {r.body.attempt.value} else {}
    ensures DeclaredBy(log + [r], op) == if Closes(r, Operation(op)) then r.body.declared else DeclaredBy(log, op)
  {
    var log' := log + [r];
    assert log'[|log|] == r && log'[..|log|] == log;
    forall a | a in AttemptsOf(log, op)
      ensures a in AttemptsOf(log', op)
    {
      var j :| 0 <= j < |log| && NamesAttempt(log[j], op) && log[j].body.attempt.value == a;
      assert NamesAttempt(log'[j], op) && log'[j].body.attempt.value == a;
    }
    if NamesAttempt(r, op) {
      assert log'[|log|].body.attempt.value in AttemptsOf(log', op);
    }
  }

  // ---- the checker's book against the log ---------------------------------------

  predicate Holds(p: Process, h: Handle) {
    match h
    case Operation(id) => id in p.operations
    case Attempt(id) => id in p.attempts
    case Connection(id) => id in p.connections
  }

  ghost predicate ProcessTracks(p: Process, log: seq<Record>, pid: int) {
    && p.header && Seen(log, pid)
    && p.footer == SeenClosed(log, pid)
    && (forall api :: api in p.apis <==> Covered(log, pid, Some(api)))
    && (forall h :: Holds(p, h) <==> Open(log, pid, h))
  }

  ghost predicate OperationTracks(o: OperationState, log: seq<Record>, op: string) {
    && Started(log, op)
    && StartedLike(log, op, o.record.pid, o.record.scope)
    && (forall pid, scope :: StartedLike(log, op, pid, scope) ==> pid == o.record.pid && scope == o.record.scope)
    && o.attempts == AttemptsOf(log, op)
    && o.closed == !Open(log, o.record.pid, Operation(op))
    && o.declared == DeclaredBy(log, op)
  }

  ghost predicate RequestTracks(q: Record, log: seq<Record>, a: string) {
    && Admitted(log, a)
    && q.operation.Some? && (forall op :: AdmittedUnder(log, a, op) <==> q.operation == Some(op))
    && StartedLike(log, q.operation.value, q.pid, q.scope)
    && (q.body.AttemptSettled? <==> !Open(log, q.pid, Attempt(a)))
  }

  /** No record names an operation before it is started. */
  ghost predicate Unnamed(log: seq<Record>, op: string) {
    !Started(log, op) ==> AttemptsOf(log, op) == {} && DeclaredBy(log, op) == Absent
  }

  ghost predicate Tracks(b: Book, log: seq<Record>) {
    && (forall op :: Unnamed(log, op))
    && (forall pid :: pid in b.processes <==> Seen(log, pid))
    && (forall pid :: pid in b.processes ==> ProcessTracks(b.processes[pid], log, pid))
    && (forall op :: op in b.operations <==> Started(log, op))
    && (forall op :: op in b.operations ==> OperationTracks(b.operations[op], log, op))
    && (forall a :: a in b.admissions <==> Admitted(log, a))
    && b.requests.Keys == b.admissions
    && (forall a :: a in b.requests ==> RequestTracks(b.requests[a], log, a))
  }

  /** With an exact book, a record is blamed exactly when it may not follow. */
  lemma {:induction false} BlamedIffOutOfPlace(b: Book, log: seq<Record>, r: Record)
    requires Tracks(b, log)
    ensures Faults(b, r) == {} <==> MayFollow(log, r)
  {
    hide Open, StartedLike, Started, Admitted, AdmittedUnder, Covered, Seen, SeenClosed, ScopeFaults, KindFaults,
         ScopedMayFollow;
    UnseenIsOpen(log, r);
    if Seen(log, r.pid) {
      assert ProcessTracks(b.processes[r.pid], log, r.pid);
      if r.body.Scoped() && r.operation.Some? {
        ScopedPlace(b, log, r, r.operation.value);
      }
    } else if r.body.Scoped() && r.operation.Some? {
      NothingCovered(b.operations, r, r.operation.value);
    }
    if ScopedMayFollow(log, r) { ScopedHasIds(log, r); }
  }

  lemma {:induction false} NothingCovered(operations: map<string, OperationState>, r: Record, op: string)
    ensures ScopeFaults(operations, FRESH, r, op) != {}
  {}

  lemma {:induction false} UnseenIsOpen(log: seq<Record>, r: Record)
    ensures !Seen(log, r.pid) ==> !SeenClosed(log, r.pid)
  {
    if j :| 0 <= j < |log| && log[j].pid == r.pid && log[j].body.Closed? {
      assert log[j].pid == r.pid;
    }
  }

  lemma {:induction false} ScopedPlace(b: Book, log: seq<Record>, r: Record, op: string)
    requires Tracks(b, log) && r.pid in b.processes && r.body.Scoped() && r.operation == Some(op)
    ensures Both(ScopeFaults(b.operations, b.processes[r.pid], r, op),
                 KindFaults(b.requests, b.admissions, b.processes[r.pid], r, op)) == {}
            <==> ScopedMayFollow(log, r)
  {
    hide ScopeFaults, KindFaults, ScopeMayFollow, KindMayFollow, Tracks;
    ScopePlace(b, log, r, op);
    KindPlace(b, log, r, op);
  }

  lemma {:induction false} ScopePlace(b: Book, log: seq<Record>, r: Record, op: string)
    requires Tracks(b, log) && r.pid in b.processes
    ensures ScopeFaults(b.operations, b.processes[r.pid], r, op) == {} <==> ScopeMayFollow(log, r, op)
  {
    hide Open, StartedLike, Started, Admitted, AdmittedUnder, Covered, Seen, SeenClosed, AttemptsOf, DeclaredBy;
    var p := b.processes[r.pid];
    var api := r.scope.contract.api;
    assert ProcessTracks(p, log, r.pid);
    if api.None? { NoneIsUncovered(log, r.pid); }
    if op in b.operations {
      assert OperationTracks(b.operations[op], log, op);
    } else {
      LikeIsStarted(log, op, r.pid, r.scope);
    }
  }

  lemma {:induction false} KindPlace(b: Book, log: seq<Record>, r: Record, op: string)
    requires Tracks(b, log) && r.pid in b.processes
    ensures KindFaults(b.requests, b.admissions, b.processes[r.pid], r, op) == {} <==> KindMayFollow(log, r, op)
  {
    hide Open, StartedLike, Started, Admitted, AdmittedUnder, Covered, Seen, SeenClosed, AttemptsOf, DeclaredBy;
    var p := b.processes[r.pid];
    assert ProcessTracks(p, log, r.pid);
    match r.body
    case AttemptSettled(attempt, _) =>
      if attempt.Some? {
        if attempt.value in b.requests {
          assert RequestTracks(b.requests[attempt.value], log, attempt.value);
        } else {
          UnderIsAdmitted(log, attempt.value, op);
        }
      }
    case ConnectionSettled(connection) =>
      if connection.Some? {
        assert Holds(p, Connection(connection.value)) <==> Open(log, r.pid, Connection(connection.value));
      }
    case _ =>
  }

  lemma {:induction false} NoneIsUncovered(log: seq<Record>, pid: int)
    ensures !Covered(log, pid, None)
  {}

  lemma {:induction false} LikeIsStarted(log: seq<Record>, op: string, pid: int, scope: Scope)
    ensures StartedLike(log, op, pid, scope) ==> Started(log, op)
  {}

  lemma {:induction false} UnderIsAdmitted(log: seq<Record>, a: string, op: string)
    ensures AdmittedUnder(log, a, op) ==> Admitted(log, a)
  {}

  /** A record that may follow keeps the book exact. */
  lemma {:induction false} TracksGrows(b: Book, log: seq<Record>, r: Record)
    requires Tracks(b, log) && MayFollow(log, r)
    ensures Tracks(Apply(b, r), log + [r])
  {
    hide Open, StartedLike, Started, Admitted, AdmittedUnder, Covered, Seen, SeenClosed, AttemptsOf, DeclaredBy,
         ProcessTracks, OperationTracks, RequestTracks, Unnamed, ProcessAfter, OperationsAfter, RequestsAfter, Faults,
         ScopedMayFollow;
    var log', b' := log + [r], Apply(b, r);
    forall pid: int
      ensures pid in b'.processes <==> Seen(log', pid)
      ensures pid in b'.processes ==> ProcessTracks(b'.processes[pid], log', pid)
    {
      SeenGrows(log, r, pid);
      if pid == r.pid {
        OwnProcessTracks(ProcessOf(b, pid), log, r);
      } else if pid in b.processes {
        OtherProcessTracks(b.processes[pid], log, r, pid);
      }
    }
    OperationsTrack(b.operations, log, r);
    RequestsTrack(b, log, r);
  }

  lemma {:induction false} OtherProcessTracks(p: Process, log: seq<Record>, r: Record, pid: int)
    requires ProcessTracks(p, log, pid) && r.pid != pid
    ensures ProcessTracks(p, log + [r], pid)
  {
    hide Open, Covered, Seen, SeenClosed;
    SeenGrows(log, r, pid);
    forall api ensures Covered(log + [r], pid, Some(api)) <==> Covered(log, pid, Some(api)) {
      CoveredGrows(log, r, pid, api);
    }
    forall h ensures Open(log + [r], pid, h) <==> Open(log, pid, h) {
      OpenGrows(log, r, pid, h);
    }
  }

  lemma {:induction false} OwnProcessTracks(p: Process, log: seq<Record>, r: Record)
    requires if Seen(log, r.pid) then ProcessTracks(p, log, r.pid) else p == FRESH
    requires MayFollow(log, r)
    ensures ProcessTracks(ProcessAfter(p, r), log + [r], r.pid)
  {
    hide Open, Covered, Seen, SeenClosed, ScopedMayFollow;
    var pid, p' := r.pid, ProcessAfter(p, r);
    SeenGrows(log, r, pid);
    if !Seen(log, pid) { NothingBeforeFirst(log, pid); }
    if r.body.Scoped() { ScopedHasIds(log, r); }
    forall api ensures api in p'.apis <==> Covered(log + [r], pid, Some(api)) {
      CoveredGrows(log, r, pid, api);
    }
    forall h ensures Holds(p', h) <==> Open(log + [r], pid, h) {
      OpenGrows(log, r, pid, h);
      assert Holds(p, h) <==> Open(log, pid, h);
    }
  }

  lemma {:induction false} NothingBeforeFirst(log: seq<Record>, pid: int)
    requires !Seen(log, pid)
    ensures !SeenClosed(log, pid)
    ensures forall api :: !Covered(log, pid, Some(api))
    ensures forall h :: !Open(log, pid, h)
  {}

  lemma {:induction false} ScopedHasIds(log: seq<Record>, r: Record)
    requires ScopedMayFollow(log, r)
    ensures r.operation.Some?
    ensures r.body.OfAttempt() ==> r.body.attempt.Some?
    ensures r.body.AttemptSettled? ==> r.body.receiptFor == r.body.attempt
    ensures r.body.ConnectionStarted? ==> r.body.connection.Some?
    ensures r.body.ConnectionSettled? ==> r.body.connection.Some?
  {}

  lemma {:induction false} OperationsTrack(operations: map<string, OperationState>, log: seq<Record>, r: Record)
    requires forall op :: op in operations <==> Started(log, op)
    requires forall op :: op in operations ==> OperationTracks(operations[op], log, op)
    requires forall op :: Unnamed(log, op)
    requires MayFollow(log, r)
    ensures forall op :: Unnamed(log + [r], op)
    ensures var after := OperationsAfter(operations, r);
            && (forall op :: op in after <==> Started(log + [r], op))
            && (forall op :: op in after ==> OperationTracks(after[op], log + [r], op))
  {
    hide Open, Covered, Seen, SeenClosed, Started, StartedLike, ScopedMayFollow, OperationTracks, AttemptsOf,
         DeclaredBy, Admitted, AdmittedUnder;
    var after := OperationsAfter(operations, r);
    if r.body.Scoped() {
      ScopedHasIds(log, r);
      OperationIsKnown(log, r);
    }
    forall op: string
      ensures op in after <==> Started(log + [r], op)
      ensures op in after ==> OperationTracks(after[op], log + [r], op)
      ensures Unnamed(log + [r], op)
    {
      assert Unnamed(log, op);
      AttemptsGrow(log, r, op);
      StartedGrows(log, r, op, r.pid, r.scope);
      if r.body.Scoped() && r.operation == Some(op) {
        if r.body.OperationStarted? {
          NewOperationTracks(log, r, op);
        } else {
          assert op in operations;
          SameOperationTracks(operations[op], after[op], log, r, op);
        }
      } else if op in operations {
        OtherOperationTracks(operations[op], log, r, op);
      }
    }
  }

  lemma {:induction false} OperationIsKnown(log: seq<Record>, r: Record)
    requires ScopedMayFollow(log, r)
    ensures r.operation.Some?
    ensures if r.body.OperationStarted? then !Started(log, r.operation.value)
            else Started(log, r.operation.value) && StartedLike(log, r.operation.value, r.pid, r.scope)
  {
    if !r.body.OperationStarted? { LikeIsStarted(log, r.operation.value, r.pid, r.scope); }
  }

  lemma {:induction false} OtherOperationTracks(o: OperationState, log: seq<Record>, r: Record, op: string)
    requires OperationTracks(o, log, op) && !(r.body.Scoped() && r.operation == Some(op))
    ensures OperationTracks(o, log + [r], op)
  {
    hide Open, Started, StartedLike, AttemptsOf, DeclaredBy;
    forall pid, scope
      ensures StartedLike(log + [r], op, pid, scope) <==> StartedLike(log, op, pid, scope)
      ensures Started(log + [r], op) <==> Started(log, op)
    {
      StartedGrows(log, r, op, pid, scope);
    }
    StartedGrows(log, r, op, o.record.pid, o.record.scope);
    AttemptsGrow(log, r, op);
    OpenGrows(log, r, o.record.pid, Operation(op));
  }

  lemma {:induction false} NewOperationTracks(log: seq<Record>, r: Record, op: string)
    requires Opens(r, Operation(op)) && !Started(log, op) && Unnamed(log, op)
    ensures OperationTracks(OperationState(r, {}, false, Absent), log + [r], op)
  {
    hide Open, Started, StartedLike, AttemptsOf, DeclaredBy;
    forall pid, scope
      ensures StartedLike(log + [r], op, pid, scope) <==> r.pid == pid && r.scope == scope
    {
      StartedGrows(log, r, op, pid, scope);
      LikeIsStarted(log, op, pid, scope);
    }
    StartedGrows(log, r, op, r.pid, r.scope);
    AttemptsGrow(log, r, op);
    OpenGrows(log, r, r.pid, Operation(op));
  }

  lemma {:induction false} SameOperationTracks(o: OperationState, o': OperationState, log: seq<Record>, r: Record, op: string)
    requires OperationTracks(o, log, op) && r.operation == Some(op) && !r.body.OperationStarted? && r.body.Scoped()
    requires StartedLike(log, op, r.pid, r.scope)
    requires r.body.OfAttempt() ==> r.body.attempt.Some?
    requires o' == match r.body
                   case OperationSettled(declared) => o.(closed := true, declared := declared)
                   case AttemptAdmitted(a) => o.(attempts := o.attempts + {a.value})
                   case AttemptSettled(a, _) => o.(attempts := o.attempts + {a.value})
                   case _ => o
    ensures OperationTracks(o', log + [r], op)
  {
    hide Open, Started, StartedLike, AttemptsOf, DeclaredBy;
    forall pid, scope
      ensures StartedLike(log + [r], op, pid, scope) <==> StartedLike(log, op, pid, scope)
    {
      StartedGrows(log, r, op, pid, scope);
    }
    StartedGrows(log, r, op, o.record.pid, o.record.scope);
    AttemptsGrow(log, r, op);
    OpenGrows(log, r, o.record.pid, Operation(op));
  }

  lemma {:induction false} RequestsTrack(b: Book, log: seq<Record>, r: Record)
    requires forall a :: a in b.admissions <==> Admitted(log, a)
    requires b.requests.Keys == b.admissions
    requires forall a :: a in b.requests ==> RequestTracks(b.requests[a], log, a)
    requires MayFollow(log, r)
    ensures var requests, admissions := RequestsAfter(b.requests, r), AdmissionsAfter(b.admissions, r);
            && (forall a :: a in admissions <==> Admitted(log + [r], a))
            && requests.Keys == admissions
            && (forall a :: a in requests ==> RequestTracks(requests[a], log + [r], a))
  {
    hide Open, Admitted, AdmittedUnder, RequestTracks, Covered, Seen, SeenClosed, Started, StartedLike, ScopedMayFollow;
    var requests, admissions := RequestsAfter(b.requests, r), AdmissionsAfter(b.admissions, r);
    if r.body.Scoped() {
      ScopedHasIds(log, r);
      AttemptIsKnown(log, r);
    }
    forall a: string
      ensures a in admissions <==> Admitted(log + [r], a)
      ensures a in requests ==> RequestTracks(requests[a], log + [r], a)
    {
      AdmittedGrows(log, r, a, "");
      if r.body.OfAttempt() && r.body.attempt == Some(a) {
        if r.body.AttemptAdmitted? {
          NewRequestTracks(log, r, a);
        } else {
          assert RequestTracks(b.requests[a], log, a);
          SettledRequestTracks(b.requests[a], log, r, a);
        }
      } else if a in b.requests {
        OtherRequestTracks(b.requests[a], log, r, a);
      }
    }
  }

  lemma {:induction false} AttemptIsKnown(log: seq<Record>, r: Record)
    requires ScopedMayFollow(log, r)
    ensures r.operation.Some?
    ensures r.body.OfAttempt() ==> r.body.attempt.Some? && StartedLike(log, r.operation.value, r.pid, r.scope)
    ensures r.body.AttemptAdmitted? ==> !Admitted(log, r.body.attempt.value)
    ensures r.body.AttemptSettled? ==>
              Admitted(log, r.body.attempt.value) && AdmittedUnder(log, r.body.attempt.value, r.operation.value)
  {
    if r.body.AttemptSettled? { UnderIsAdmitted(log, r.body.attempt.value, r.operation.value); }
  }

  lemma {:induction false} NewRequestTracks(log: seq<Record>, r: Record, a: string)
    requires Opens(r, Attempt(a)) && !Admitted(log, a)
    requires r.operation.Some? && StartedLike(log, r.operation.value, r.pid, r.scope)
    ensures RequestTracks(r, log + [r], a)
  {
    hide Open, Admitted, AdmittedUnder, Started, StartedLike;
    StartedGrows(log, r, r.operation.value, r.pid, r.scope);
    forall op
      ensures Admitted(log + [r], a)
      ensures AdmittedUnder(log + [r], a, op) <==> r.operation == Some(op)
    {
      AdmittedGrows(log, r, a, op);
      UnderIsAdmitted(log, a, op);
    }
    AdmittedGrows(log, r, a, "");
    OpenGrows(log, r, r.pid, Attempt(a));
  }

  lemma {:induction false} SettledRequestTracks(q: Record, log: seq<Record>, r: Record, a: string)
    requires RequestTracks(q, log, a) && Closes(r, Attempt(a))
    requires r.operation.Some? && AdmittedUnder(log, a, r.operation.value)
    requires StartedLike(log, r.operation.value, r.pid, r.scope)
    ensures RequestTracks(r, log + [r], a)
  {
    hide Open, Admitted, AdmittedUnder, Started, StartedLike;
    StartedGrows(log, r, r.operation.value, r.pid, r.scope);
    assert q.operation == r.operation;
    forall op
      ensures AdmittedUnder(log + [r], a, op) <==> r.operation == Some(op)
    {
      AdmittedGrows(log, r, a, op);
    }
    AdmittedGrows(log, r, a, "");
    OpenGrows(log, r, r.pid, Attempt(a));
  }

  lemma {:induction false} OtherRequestTracks(q: Record, log: seq<Record>, r: Record, a: string)
    requires RequestTracks(q, log, a) && !(r.body.OfAttempt() && r.body.attempt == Some(a))
    ensures RequestTracks(q, log + [r], a)
  {
    hide Open, Admitted, AdmittedUnder, Started, StartedLike;
    StartedGrows(log, r, q.operation.value, q.pid, q.scope);
    forall op
      ensures AdmittedUnder(log + [r], a, op) <==> AdmittedUnder(log, a, op)
    {
      AdmittedGrows(log, r, a, op);
    }
    AdmittedGrows(log, r, a, "");
    OpenGrows(log, r, q.pid, Attempt(a));
  }
}
