/** The whole pass over the sidecar file and the report it yields
    (benchmarks/python-realworld-30/benchlib.py, apply_instrumented_accounting
    and the reasons of _apply_physical_accounting). */
module SidecarReporting {
  import opened SidecarLog
  import opened SidecarChecking

  class SidecarChecker {
    var reasons: set<string>
    var requests: map<string, Record>
    var admissions: set<string>
    var connections: map<string, Record>
    var processes: map<int, Process>
    var operations: map<string, OperationState>

    function Contents(): Book
      reads this
    {
      Book(reasons, requests, admissions, connections, processes, operations)
    }

    constructor ()
      ensures Contents() == EMPTY
    {
      reasons, requests, admissions, connections := {}, map[], {}, map[];
      processes, operations := map[], map[];
    }

    method Blame(reason: string)
      modifies this`reasons
      ensures reasons == old(reasons) + {reason}
    {
      reasons := reasons + {reason};
    }

    /** One parsed line. */
    method Note(r: Record)
      modifies this
      ensures Contents() == Apply(old(Contents()), r)
    {
      hide ScopeFaults, KindFaults, OperationsAfter, RequestsAfter, AdmissionsAfter, ConnectionsAfter, ScopesAfter,
           BodyFaults, ProcessAfter;
      var pid := r.pid;
      if pid !in processes { processes := processes[pid := FRESH]; }
      if processes[pid].footer { Blame("record_after_footer"); }
      SameBodyFaults(old(Contents()), Contents(), processes[pid], r);
      var skip := NoteBody(r);
      if !skip && !processes[pid].header { Blame("missing_sidecar_header"); }
      HeaderKept(old(ProcessOf(Contents(), pid)), r);
    }

    lemma {:induction false} SameBodyFaults(b: Book, b': Book, p: Process, r: Record)
      requires b'.operations == b.operations && b'.requests == b.requests && b'.admissions == b.admissions
      ensures BodyFaults(b', p, r) == BodyFaults(b, p, r)
    {}

    lemma {:induction false} HeaderKept(p: Process, r: Record)
      ensures ProcessAfter(p, r).header == (p.header || r.body.Opened?)
    {}

    /** The branch on the record's kind; `skip` is its `continue`. */
    method NoteBody(r: Record) returns (skip: bool)
      requires r.pid in processes
      modifies this
      ensures skip == Skips(r)
      ensures var b, p := old(Contents()), old(processes)[r.pid];
              && reasons == b.reasons + BodyFaults(b, p, r)
              && processes == b.processes[r.pid := ProcessAfter(p, r)]
              && operations == OperationsAfter(b.operations, r)
              && requests == RequestsAfter(b.requests, r)
              && admissions == AdmissionsAfter(b.admissions, r)
              && connections == ConnectionsAfter(b.connections, r)
    {
      hide ScopeFaults, KindFaults, OperationsAfter, RequestsAfter, AdmissionsAfter, ConnectionsAfter, ScopesAfter;
      if r.body.Scoped() && r.operation.Some? {
        NoteScoped(r, r.operation.value);
        return Skips(r);
      }
      UntouchedBy(r, operations, requests, admissions, connections);
      var pid, state := r.pid, processes[r.pid];
      match r.body {
        case Opened(patchQualified, coveredApis) =>
          if state.header || !patchQualified { Blame("unqualified_patch_scope"); }
          processes := processes[pid := state.(header := true, apis := coveredApis * SUPPORTED)];
        case Closed(writeFailures, openIdsEmpty) =>
          processes := processes[pid := state.(footer := true)];
          if writeFailures != 0 { Blame("sidecar_write_failures"); }
          if !openIdsEmpty { Blame("open_footer_scopes"); }
        case UnknownKind =>
          Blame("unsupported_sidecar_record");
        case _ =>
          Blame("missing_operation_id");
      }
      skip := Skips(r);
    }

    lemma {:induction false} UntouchedBy(
      r: Record, operations: map<string, OperationState>, requests: map<string, Record>,
      admissions: set<string>, connections: map<string, Record>)
      requires !r.body.Scoped() || r.operation.None?
      ensures OperationsAfter(operations, r) == operations && RequestsAfter(requests, r) == requests
      ensures AdmissionsAfter(admissions, r) == admissions && ConnectionsAfter(connections, r) == connections
    {}

    /** A record that names an operation: the shared checks, then its own. */
    method NoteScoped(r: Record, op: string)
      requires r.body.Scoped() && r.operation == Some(op) && r.pid in processes
      modifies this
      ensures var b, p := old(Contents()), old(processes)[r.pid];
              && reasons == b.reasons + ScopeFaults(b.operations, p, r, op) + KindFaults(b.requests, b.admissions, p, r, op)
              && processes == b.processes[r.pid := ScopesAfter(p, r, op)]
              && operations == OperationsAfter(b.operations, r)
              && requests == RequestsAfter(b.requests, r)
              && admissions == AdmissionsAfter(b.admissions, r)
              && connections == ConnectionsAfter(b.connections, r)
    {
      var pid, state := r.pid, processes[r.pid];
      NoteScope(r, op);
      if r.body.OperationStarted? {
        operations := operations[op := OperationState(r, {}, false, Absent)];
        processes := processes[pid := state.(operations := state.operations + {op})];
      } else if r.body.OperationSettled? {
        if op in operations {
          operations := operations[op := operations[op].(closed := true, declared := r.body.declared)];
        }
        processes := processes[pid := state.(operations := state.operations - {op})];
      } else if r.body.OfAttempt() {
        NoteAttempt(r, op);
      } else {
        NoteConnection(r, op);
      }
    }

    method NoteScope(r: Record, op: string)
      requires r.pid in processes
      modifies this`reasons
      ensures reasons == old(reasons) + ScopeFaults(operations, processes[r.pid], r, op)
    {
      if r.scope.purpose.None? || r.scope.purpose.value !in PURPOSES { Blame("unknown_or_unqualified_purpose"); }
      var api := r.scope.contract.api;
      if api.None? || api.value !in processes[r.pid].apis { Blame("uncovered_api"); }
      if r.body.OperationStarted? {
        if op in operations { Blame("duplicate_operation"); }
      } else if op !in operations || operations[op].record.pid != r.pid {
        Blame("unscoped_operation");
      } else if r.scope != operations[op].record.scope {
        Blame("inconsistent_operation_scope");
      }
    }

    method NoteAttempt(r: Record, op: string)
      requires r.body.OfAttempt() && r.operation == Some(op) && r.pid in processes
      modifies this
      ensures var b, p := old(Contents()), old(processes)[r.pid];
              && reasons == b.reasons + KindFaults(b.requests, b.admissions, p, r, op)
              && processes == b.processes[r.pid := ScopesAfter(p, r, op)]
              && operations == OperationsAfter(b.operations, r)
              && requests == RequestsAfter(b.requests, r)
              && admissions == AdmissionsAfter(b.admissions, r)
              && connections == b.connections
    {
      if r.body.attempt.None? {
        Blame("missing_attempt_id");
        return;
      }
      var a := r.body.attempt.value;
      if op in operations {
        operations := operations[op := operations[op].(attempts := operations[op].attempts + {a})];
      }
      if r.body.AttemptAdmitted? {
        Admit(r, op, a);
      } else {
        Settle(r, op, a);
      }
    }

    method Admit(r: Record, op: string, a: string)
      requires r.body == AttemptAdmitted(Some(a)) && r.operation == Some(op) && r.pid in processes
      modifies this`reasons, this`admissions, this`processes, this`requests
      ensures reasons == old(reasons) + KindFaults(old(requests), old(admissions), old(processes)[r.pid], r, op)
      ensures processes == old(processes)[r.pid := ScopesAfter(old(processes)[r.pid], r, op)]
      ensures requests == RequestsAfter(old(requests), r) && admissions == AdmissionsAfter(old(admissions), r)
    {
      var pid, state := r.pid, processes[r.pid];
      if a in admissions { Blame("duplicate_admission"); }
      admissions := admissions + {a};
      processes := processes[pid := state.(attempts := state.attempts + {a})];
      if a !in requests { requests := requests[a := r]; }
    }

    method Settle(r: Record, op: string, a: string)
      requires r.body.AttemptSettled? && r.body.attempt == Some(a) && r.operation == Some(op) && r.pid in processes
      modifies this`reasons, this`processes, this`requests
      ensures reasons == old(reasons) + KindFaults(old(requests), admissions, old(processes)[r.pid], r, op)
      ensures processes == old(processes)[r.pid := ScopesAfter(old(processes)[r.pid], r, op)]
      ensures requests == RequestsAfter(old(requests), r)
    {
      var pid, state := r.pid, processes[r.pid];
      if r.body.receiptFor != r.body.attempt {
        Blame("malformed_settlement");
        return;
      }
      if a !in admissions { Blame("settlement_without_admission"); }
      if a in requests && requests[a].operation != Some(op) { Blame("inconsistent_attempt_scope"); }
      processes := processes[pid := state.(attempts := state.attempts - {a})];
      requests := requests[a := r];
    }

    method NoteConnection(r: Record, op: string)
      requires (r.body.ConnectionStarted? || r.body.ConnectionSettled?) && r.operation == Some(op) && r.pid in processes
      modifies this
      ensures var b, p := old(Contents()), old(processes)[r.pid];
              && reasons == b.reasons + KindFaults(b.requests, b.admissions, p, r, op)
              && processes == b.processes[r.pid := ScopesAfter(p, r, op)]
              && operations == b.operations && requests == b.requests && admissions == b.admissions
              && connections == ConnectionsAfter(b.connections, r)
    {
      var pid, state := r.pid, processes[r.pid];
      if r.body.connection.None? {
        Blame("missing_connection_id");
        return;
      }
      var c := r.body.connection.value;
      if r.body.ConnectionStarted? {
        processes := processes[pid := state.(connections := state.connections + {c})];
      } else {
        if c !in state.connections { Blame("connection_without_start"); }
        processes := processes[pid := state.(connections := state.connections - {c})];
      }
      connections := connections[c := r];
    }
  }

  // ---- the whole pass ----------------------------------------------------------

  /** What the merge reports. The totals are withheld unless the capture is
      complete; the observed number of attempts is always shown. */
  datatype Report = Report(
    captureComplete: bool,
    reasons: set<string>,
    observedAttempts: nat,
    allModelCalls: Option<nat>,
    mainModelCalls: Option<nat>,
    auxiliaryModelCalls: Option<nat>,
    adapterInvocations: Option<nat>)
  {
    predicate Withheld() {
      allModelCalls.None? && mainModelCalls.None? && auxiliaryModelCalls.None? && adapterInvocations.None?
    }
  }

  predicate AllParsed(lines: seq<Line>) { forall i :: 0 <= i < |lines| ==> lines[i].Parsed? }

  function Records(lines: seq<Line>): seq<Record> {
    if lines == [] then []
    else
      var last := lines[|lines| - 1];
      Records(lines[..|lines| - 1]) + if last.Parsed? then [last.record] else []
  }

  /** The sidecar of a finished invocation with nothing wrong in it. */
  ghost predicate Faultless(lines: seq<Line>) {
    && AllParsed(lines)
    && InOrder(Records(lines)) && Finished(Records(lines))
    && AllAttempts(Records(lines)) != {}
  }

  lemma {:induction false} InOrderGrows(log: seq<Record>, r: Record)
    ensures InOrder(log + [r]) <==> InOrder(log) && MayFollow(log, r)
  {
    hide MayFollow;
    var log' := log + [r];
    assert log'[..|log|] == log && log'[|log|] == r;
    forall i | 0 <= i < |log|
      ensures log'[..i] == log[..i] && log'[i] == log[i]
    {}
    if InOrder(log') {
      forall i | 0 <= i < |log|
        ensures MayFollow(log[..i], log[i])
      {
        assert MayFollow(log'[..i], log'[i]);
      }
      assert MayFollow(log'[..|log|], log'[|log|]);
    }
  }

  /** What must hold of the book once every line is read. */
  ghost predicate Settled(b: Book) {
    && (forall pid :: pid in b.processes ==> ProcessDone(b.processes[pid]))
    && (forall op :: op in b.operations ==> Captured(b.operations[op]))
    && b.requests != map[]
    && (forall a :: a in b.requests ==> b.requests[a].body.AttemptSettled?)
  }

  predicate Balanced(p: Process) { p.operations == {} && p.attempts == {} && p.connections == {} }

  predicate Captured(o: OperationState) { o.closed && EqualsCount(o.declared, |o.attempts|) }

  lemma {:induction false} BalancedHoldsNothing(p: Process)
    ensures Balanced(p) <==> forall h :: !Holds(p, h)
  {
    if !Balanced(p) {
      if id :| id in p.operations { assert Holds(p, Operation(id)); }
      if id :| id in p.attempts { assert Holds(p, Attempt(id)); }
      if id :| id in p.connections { assert Holds(p, Connection(id)); }
    }
  }

  lemma {:induction false} OpenIsSeen(log: seq<Record>, pid: int, h: Handle)
    requires Open(log, pid, h)
    ensures Seen(log, pid)
  {}

  lemma {:induction false} AttemptsAreAdmitted(log: seq<Record>, a: string)
    ensures a in AllAttempts(log) <==> Admitted(log, a)
  {
    if j :| 0 <= j < |log| && Opens(log[j], Attempt(a)) {
      assert log[j].body.attempt.value in AllAttempts(log);
    }
    if a in AllAttempts(log) {
      var j :| 0 <= j < |log| && log[j].body.AttemptAdmitted? && log[j].body.attempt == Some(a);
      assert Opens(log[j], Attempt(a));
    }
  }

  lemma {:induction false} RequestsAreAttempts(b: Book, log: seq<Record>)
    requires Tracks(b, log)
    ensures b.requests.Keys == AllAttempts(log)
    ensures |b.requests| == |AllAttempts(log)|
    ensures b.requests == map[] <==> AllAttempts(log) == {}
  {
    hide Open, StartedLike, Started, Admitted, AdmittedUnder, AllAttempts, ProcessTracks, OperationTracks,
         RequestTracks;
    forall a: string ensures a in b.requests.Keys <==> a in AllAttempts(log) {
      AttemptsAreAdmitted(log, a);
    }
    assert b.requests.Keys == AllAttempts(log);
    assert |b.requests| == |b.requests.Keys|;
    assert b.requests == map[] <==> b.requests.Keys == {};
  }

  /** The operation the attempt was admitted under was started for the main purpose. */
  ghost predicate IsMain(log: seq<Record>, a: string) {
    exists op, pid, scope ::
      AdmittedUnder(log, a, op) && StartedLike(log, op, pid, scope) && scope.purpose == Some("main")
  }

  ghost function MainAttempts(log: seq<Record>): set<string> { set a | a in AllAttempts(log) && IsMain(log, a) }

  ghost function AllOperations(log: seq<Record>): set<string> {
    set j | 0 <= j < |log| && log[j].body.OperationStarted? && log[j].operation.Some? :: log[j].operation.value
  }

  function MainRequests(requests: map<string, Record>): set<string> {
    set a | a in requests && requests[a].scope.purpose == Some("main")
  }

  /** With an exact book, a request is of the main purpose when its operation is. */
  lemma {:induction false} MainAreMain(b: Book, log: seq<Record>)
    requires Tracks(b, log)
    ensures MainRequests(b.requests) == MainAttempts(log)
  {
    hide Open, StartedLike, Started, Admitted, AdmittedUnder, AllAttempts, ProcessTracks, Unnamed;
    RequestsAreAttempts(b, log);
    forall a | a in b.requests
      ensures b.requests[a].scope.purpose == Some("main") <==> IsMain(log, a)
    {
      var q := b.requests[a];
      assert RequestTracks(q, log, a);
      var op := q.operation.value;
      assert AdmittedUnder(log, a, op);
      StartedLikeIsStarted(log, op, q.pid, q.scope);
      assert OperationTracks(b.operations[op], log, op);
    }
  }

  lemma {:induction false} StartedLikeIsStarted(log: seq<Record>, op: string, pid: int, scope: Scope)
    requires StartedLike(log, op, pid, scope)
    ensures Started(log, op)
  {}

  lemma {:induction false} OperationsAreStarted(b: Book, log: seq<Record>)
    requires Tracks(b, log)
    ensures b.operations.Keys == AllOperations(log)
    ensures |b.operations| == |AllOperations(log)|
  {
    hide Open, StartedLike, Started, Admitted, AdmittedUnder, ProcessTracks, OperationTracks, RequestTracks, Unnamed,
         AllOperations;
    forall op: string ensures op in b.operations.Keys <==> op in AllOperations(log) {
      OperationIsStarted(log, op);
    }
    assert b.operations.Keys == AllOperations(log);
    assert |b.operations| == |b.operations.Keys|;
  }

  lemma {:induction false} OperationIsStarted(log: seq<Record>, op: string)
    ensures op in AllOperations(log) <==> Started(log, op)
  {
    if j :| 0 <= j < |log| && Opens(log[j], Operation(op)) {
      assert log[j].operation.value in AllOperations(log);
    }
    if op in AllOperations(log) {
      var j :| 0 <= j < |log| && log[j].body.OperationStarted? && log[j].operation == Some(op);
      assert Opens(log[j], Operation(op));
    }
  }

  /** With an exact book, nothing is missed at the end. */
  lemma {:induction false} SettledIffFinished(b: Book, log: seq<Record>)
    requires Tracks(b, log)
    ensures Settled(b) <==> Finished(log) && AllAttempts(log) != {}
  {
    hide Open, StartedLike, Started, Admitted, AdmittedUnder, Covered, Seen, SeenClosed, AttemptsOf, DeclaredBy,
         AllAttempts, Unnamed, Holds, Balanced;
    RequestsAreAttempts(b, log);
    forall pid | pid in b.processes
      ensures b.processes[pid].header && b.processes[pid].footer == SeenClosed(log, pid)
      ensures Balanced(b.processes[pid]) <==> forall h :: !Open(log, pid, h)
    {
      assert ProcessTracks(b.processes[pid], log, pid);
      BalancedHoldsNothing(b.processes[pid]);
    }
    forall pid, h ensures Open(log, pid, h) ==> pid in b.processes {
      if Open(log, pid, h) { OpenIsSeen(log, pid, h); }
    }
    forall op | op in b.operations
      ensures b.operations[op].closed == !Open(log, b.operations[op].record.pid, Operation(op))
      ensures b.operations[op].attempts == AttemptsOf(log, op) && b.operations[op].declared == DeclaredBy(log, op)
    {
      assert OperationTracks(b.operations[op], log, op);
    }
    forall a | a in b.requests
      ensures b.requests[a].body.AttemptSettled? <==> !Open(log, b.requests[a].pid, Attempt(a))
    {
      assert RequestTracks(b.requests[a], log, a);
    }
  }

  lemma {:induction false} SomeElement(s: set<int>)
    requires s != {}
    ensures exists x :: x in s
  {
    assert (forall x: int :: x !in s) ==> s == {};
  }

  predicate ProcessDone(p: Process) { p.header && p.footer && Balanced(p) }

  /** The tests after the last line. */
  method CloseBook(c: SidecarChecker)
    modifies c`reasons
    ensures c.reasons == {} <==> old(c.reasons) == {} && Settled(old(c.Contents()))
  {
    CloseProcesses(c);
    CloseOperations(c);
    ghost var b := c.Contents();
    if c.requests == map[] { c.Blame("no_physical_attempts"); }
    if exists a :: a in c.requests && !c.requests[a].body.AttemptSettled? { c.Blame("unsettled_attempts"); }
  }

  method CloseProcesses(c: SidecarChecker)
    modifies c`reasons
    ensures c.reasons == {} <==>
            old(c.reasons) == {} && forall pid :: pid in c.processes ==> ProcessDone(c.processes[pid])
  {
    var pids := c.processes.Keys;
    while pids != {}
      invariant pids <= c.processes.Keys
      invariant c.reasons == {} <==>
                old(c.reasons) == {} && forall pid :: pid in c.processes && pid !in pids ==> ProcessDone(c.processes[pid])
      decreases |pids|
    {
      SomeElement(pids);
      var pid :| pid in pids;
      var state := c.processes[pid];
      if !state.header || !state.footer { c.Blame("missing_sidecar_header_or_footer"); }
      if !Balanced(state) { c.Blame("unclosed_sidecar_scopes"); }
      pids := pids - {pid};
    }
  }

  method CloseOperations(c: SidecarChecker)
    modifies c`reasons
    ensures c.reasons == {} <==>
            old(c.reasons) == {} && forall op :: op in c.operations ==> Captured(c.operations[op])
  {
    var ops := c.operations.Keys;
    while ops != {}
      invariant ops <= c.operations.Keys
      invariant c.reasons == {} <==>
                old(c.reasons) == {} && forall op :: op in c.operations && op !in ops ==> Captured(c.operations[op])
      decreases |ops|
    {
      var op :| op in ops;
      if !Captured(c.operations[op]) { c.Blame("incomplete_operation_capture"); }
      ops := ops - {op};
    }
  }

  /** The merge: the capture is complete exactly for the faultless sidecar of a
      finished invocation without child sessions; then the calls it counts are
      the attempts admitted and the sum of what the operations declared, and
      otherwise every total is withheld. */
  method ApplyInstrumented(lines: Option<seq<Line>>, invocationFinished: bool, childSessions: Option<int>)
    returns (report: Report)
    ensures report.captureComplete <==>
            invocationFinished && childSessions == Some(0) && lines.Some? && Faultless(lines.value)
    ensures report.captureComplete <==> report.reasons == {}
    ensures !report.captureComplete ==> report.Withheld()
    ensures report.captureComplete ==>
              && report.allModelCalls == Some(|AllAttempts(Records(lines.value))|)
              && report.allModelCalls.value as real == DeclaredSum(Records(lines.value), |Records(lines.value)|)
              && report.mainModelCalls == Some(|MainAttempts(Records(lines.value))|) && report.auxiliaryModelCalls.Some?
              && report.mainModelCalls.value + report.auxiliaryModelCalls.value == report.allModelCalls.value
              && report.adapterInvocations == Some(|AllOperations(Records(lines.value))|)
  {
    hide MainAttempts, AllOperations, MainRequests, Tracks, Settled, InOrder, Finished, AllAttempts, AllParsed, Records,
         DeclaredSum;
    var c := new SidecarChecker();
    if !invocationFinished { c.Blame("invocation_not_finished"); }
    if childSessions != Some(0) { c.Blame("child_scope_unqualified"); }
    if lines.None? {
      c.Blame("sidecar_missing");
    } else {
      ReadLines(c, lines.value);
    }
    ghost var b := c.Contents();
    CloseBook(c);
    if lines.Some? && b.reasons == {} {
      var log := Records(lines.value);
      SettledIffFinished(b, log);
      RequestsAreAttempts(b, log);
      MainAreMain(b, log);
      OperationsAreStarted(b, log);
      if Finished(log) { CallsAreDeclared(log); }
    }
    var covered := c.reasons == {};
    var main := |MainRequests(c.requests)|;
    MainAreRequests(c.requests);
    report := Report(covered, c.reasons, |c.requests|,
                     if covered then Some(|c.requests|) else None,
                     if covered then Some(main) else None,
                     if covered then Some(|c.requests| - main) else None,
                     if covered then Some(|c.operations|) else None);
  }

  lemma {:induction false} MainAreRequests(requests: map<string, Record>)
    ensures |MainRequests(requests)| <= |requests|
  {
    var main := MainRequests(requests);
    assert main <= requests.Keys;
    SubsetSize(main, requests.Keys);
  }

  lemma {:induction false} SubsetSize(a: set<string>, b: set<string>)
    requires a <= b
    ensures |a| <= |b|
  {
    assert b == a + (b - a);
  }

  /** The line loop, which a partial last line ends. */
  method ReadLines(c: SidecarChecker, lines: seq<Line>)
    requires c.Contents() == EMPTY.(reasons := c.reasons)
    modifies c
    ensures c.reasons == {} <==> old(c.reasons) == {} && AllParsed(lines) && InOrder(Records(lines))
    ensures c.reasons == {} ==> Tracks(c.Contents(), Records(lines))
  {
    hide Tracks, InOrder, Faults, MayFollow, Records;
    EmptyTracks(c.Contents());
    var i := 0;
    assert lines[..0] == [];
    while i < |lines|
      invariant 0 <= i <= |lines|
      invariant c.reasons == {} <==> old(c.reasons) == {} && AllParsed(lines[..i]) && InOrder(Records(lines[..i]))
      invariant c.reasons == {} ==> Tracks(c.Contents(), Records(lines[..i]))
    {
      ghost var log := Records(lines[..i]);
      PrefixGrows(lines, i);
      match lines[i] {
        case Partial =>
          c.Blame("partial_sidecar_tail");
          return;
        case Malformed => c.Blame("malformed_sidecar");
        case Unsupported => c.Blame("unsupported_sidecar_record");
        case Parsed(r) =>
          InOrderGrows(log, r);
          if c.reasons == {} {
            BlamedIffOutOfPlace(c.Contents(), log, r);
            if MayFollow(log, r) { TracksGrows(c.Contents(), log, r); }
          }
          c.Note(r);
      }
      i := i + 1;
    }
    assert lines[..i] == lines;
  }

  lemma {:induction false} PrefixGrows(lines: seq<Line>, i: nat)
    requires i < |lines|
    ensures AllParsed(lines[..i + 1]) <==> AllParsed(lines[..i]) && lines[i].Parsed?
    ensures Records(lines[..i + 1]) == Records(lines[..i]) + if lines[i].Parsed? then [lines[i].record] else []
    ensures AllParsed(lines) ==> lines[i].Parsed?
  {
    assert lines[..i + 1][..i] == lines[..i];
  }

  lemma {:induction false} EmptyTracks(b: Book)
    requires b == EMPTY.(reasons := b.reasons)
    ensures Tracks(b, Records([])) && InOrder(Records([])) && AllParsed([])
  {}
}
