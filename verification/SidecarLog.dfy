/** The accounting sidecar's records and what a fault-free log of them is
    (benchmarks/python-realworld-30/benchlib.py). The checker itself is in
    SidecarChecker.dfy. */
module SidecarLog {

  datatype Option<+T> = None | Some(value: T)

  /** `physicalAttempts` as decoded from JSON. Python compares booleans and
      floats with integers by value. */
  datatype Declared = Absent | Flag(b: bool) | Number(r: real) | OtherJson

  predicate EqualsCount(d: Declared, n: nat) {
    match d
    case Flag(b) => n == if b then 1 else 0
    case Number(r) => r == n as real
    case _ => false
  }

  function NumericValue(d: Declared): real {
    match d
    case Flag(b) => if b then 1.0 else 0.0
    case Number(r) => r
    case _ => 0.0
  }

  /** None stands for an identifier that is missing, empty or not a string. */
  type Id = Option<string>

  datatype Contract = Contract(api: Option<string>, terms: string)

  datatype Scope = Scope(purpose: Option<string>, detail: Option<string>, contract: Contract)

  datatype Body =
    | Opened(patchQualified: bool, coveredApis: set<string>)
    | Closed(writeFailures: int, openIdsEmpty: bool)
    | OperationStarted
    | OperationSettled(declared: Declared)
    | AttemptAdmitted(attempt: Id)
    | AttemptSettled(attempt: Id, receiptFor: Id)
    | ConnectionStarted(connection: Id)
    | ConnectionSettled(connection: Id)
    | UnknownKind
  {
    predicate Scoped() { !Opened? && !Closed? && !UnknownKind? }
    predicate OfAttempt() { AttemptAdmitted? || AttemptSettled? }
  }

  datatype Record = Record(pid: int, operation: Id, scope: Scope, body: Body)

  /** One line of the file: the last may lack its newline. */
  datatype Line = Partial | Malformed | Unsupported | Parsed(record: Record)

  const SUPPORTED := {"openai-codex-responses", "openai-completions"}
  const PURPOSES := {"main", "compaction", "branch-summary", "refinement", "auto-refine-review"}

  // ---- the three kinds of scope a process opens and must close ----------------

  datatype Handle = Operation(id: string) | Attempt(id: string) | Connection(id: string)

  predicate Opens(r: Record, h: Handle) {
    match h
    case Operation(id) => r.body.OperationStarted? && r.operation == Some(id)
    case Attempt(id) => r.body.AttemptAdmitted? && r.body.attempt == Some(id)
    case Connection(id) => r.body.ConnectionStarted? && r.body.connection == Some(id)
  }

  predicate Closes(r: Record, h: Handle) {
    match h
    case Operation(id) => r.body.OperationSettled? && r.operation == Some(id)
    case Attempt(id) => r.body.AttemptSettled? && r.body.attempt == Some(id)
    case Connection(id) => r.body.ConnectionSettled? && r.body.connection == Some(id)
  }

  /** Opened by this process and not closed by it since. */
  ghost predicate Open(log: seq<Record>, pid: int, h: Handle) {
    exists j :: 0 <= j < |log| && log[j].pid == pid && Opens(log[j], h) && !ClosedAfter(log, pid, h, j)
  }

  ghost predicate ClosedAfter(log: seq<Record>, pid: int, h: Handle, j: int) {
    exists k :: j < k < |log| && 0 <= k && log[k].pid == pid && Closes(log[k], h)
  }

  ghost predicate Seen(log: seq<Record>, pid: int) {
    exists j :: 0 <= j < |log| && log[j].pid == pid
  }

  ghost predicate SeenClosed(log: seq<Record>, pid: int) {
    exists j :: 0 <= j < |log| && log[j].pid == pid && log[j].body.Closed?
  }

  ghost predicate Covered(log: seq<Record>, pid: int, api: Option<string>) {
    api.Some? && exists j :: 0 <= j < |log| && log[j].pid == pid && log[j].body.Opened?
                          && api.value in log[j].body.coveredApis && api.value in SUPPORTED
  }

  ghost predicate Started(log: seq<Record>, op: string) {
    exists j :: 0 <= j < |log| && Opens(log[j], Operation(op))
  }

  ghost predicate StartedLike(log: seq<Record>, op: string, pid: int, scope: Scope) {
    exists j :: 0 <= j < |log| && Opens(log[j], Operation(op)) && log[j].pid == pid && log[j].scope == scope
  }

  ghost predicate Admitted(log: seq<Record>, attempt: string) {
    exists j :: 0 <= j < |log| && Opens(log[j], Attempt(attempt))
  }

  ghost predicate AdmittedUnder(log: seq<Record>, attempt: string, op: string) {
    exists j :: 0 <= j < |log| && Opens(log[j], Attempt(attempt)) && log[j].operation == Some(op)
  }

  /** The attempts an operation's records name. */
  ghost function AttemptsOf(log: seq<Record>, op: string): set<string> {
    set j | 0 <= j < |log| && NamesAttempt(log[j], op) :: log[j].body.attempt.value
  }

  predicate NamesAttempt(r: Record, op: string) {
    r.operation == Some(op) && r.body.OfAttempt() && r.body.attempt.Some?
  }

  /** What the operation's last settlement declared, Absent before any. */
  function DeclaredBy(log: seq<Record>, op: string): Declared {
    if log == [] then Absent
    else
      var r := log[|log| - 1];
      if Closes(r, Operation(op)) then r.body.declared else DeclaredBy(log[..|log| - 1], op)
  }

  // ---- a fault-free log ----------------------------------------------------------

  /** Record `r` may follow the records in `log`. */
  ghost predicate MayFollow(log: seq<Record>, r: Record) {
    && (r.body.Opened? <==> !Seen(log, r.pid))
    && !SeenClosed(log, r.pid)
    && (r.body.Opened? ==> r.body.patchQualified)
    && (r.body.Closed? ==> r.body.writeFailures == 0 && r.body.openIdsEmpty)
    && !r.body.UnknownKind?
    && (r.body.Scoped() ==> ScopedMayFollow(log, r))
  }

  ghost predicate ScopedMayFollow(log: seq<Record>, r: Record) {
    && r.operation.Some?
    && ScopeMayFollow(log, r, r.operation.value)
    && KindMayFollow(log, r, r.operation.value)
  }

  ghost predicate ScopeMayFollow(log: seq<Record>, r: Record, op: string) {
    && r.scope.purpose.Some? && r.scope.purpose.value in PURPOSES
    && Covered(log, r.pid, r.scope.contract.api)
    && if r.body.OperationStarted? then !Started(log, op) else StartedLike(log, op, r.pid, r.scope)
  }

  ghost predicate KindMayFollow(log: seq<Record>, r: Record, op: string) {
    match r.body
    case AttemptAdmitted(attempt) => attempt.Some? && !Admitted(log, attempt.value)
    case AttemptSettled(attempt, receiptFor) =>
      attempt.Some? && receiptFor == attempt && AdmittedUnder(log, attempt.value, op)
    case ConnectionStarted(connection) => connection.Some?
    case ConnectionSettled(connection) =>
      connection.Some? && Open(log, r.pid, Connection(connection.value))
    case _ => true
  }

  ghost predicate InOrder(log: seq<Record>) {
    forall i :: 0 <= i < |log| ==> MayFollow(log[..i], log[i])
  }

  /** Nothing is left open, and every operation declared what its records show. */
  ghost predicate Finished(log: seq<Record>) {
    && (forall pid :: Seen(log, pid) ==> SeenClosed(log, pid))
    && (forall pid, h :: !Open(log, pid, h))
    && (forall op :: Started(log, op) ==> EqualsCount(DeclaredBy(log, op), |AttemptsOf(log, op)|))
  }

  // ---- what an ordered, finished log gives its reader -----------------------------

  /** Each process's records are bracketed: the first and only opening record,
      the last and only closing record. */
  lemma {:induction false} ProcessesAreBracketed(log: seq<Record>, i: nat, j: nat)
    requires InOrder(log) && i < |log| && j < |log| && log[i].pid == log[j].pid
    ensures log[i].body.Opened? && log[j].body.Opened? ==> i == j
    ensures log[i].body.Opened? ==> i <= j
    ensures log[i].body.Closed? ==> j <= i
  {
    if i < j {
      assert MayFollow(log[..j], log[j]);
      assert log[..j][i] == log[i];
    } else if j < i {
      assert MayFollow(log[..i], log[i]);
      assert log[..i][j] == log[j];
    }
  }

  /** Every scope a process opens it closes later. */
  lemma {:induction false} OpenedIsClosedLater(log: seq<Record>, i: nat, h: Handle)
    requires Finished(log) && i < |log| && Opens(log[i], h)
    ensures ClosedAfter(log, log[i].pid, h, i)
  {
    assert !Open(log, log[i].pid, h);
  }

  /** Operations are started once, attempts admitted once. */
  lemma {:induction false} OpenedOnce(log: seq<Record>, i: nat, j: nat, h: Handle)
    requires InOrder(log) && i < j < |log| && Opens(log[j], h) && !h.Connection?
    ensures !Opens(log[i], h)
  {
    assert MayFollow(log[..j], log[j]);
    assert log[..j][i] == log[i];
    match h
    case Operation(op) => assert !Started(log[..j], op);
    case Attempt(a) => assert !Admitted(log[..j], a);
  }

  /** Every record that names an operation belongs to the one that was started
      under that name, in the same process and with the same scope. */
  lemma {:induction false} OneOperationPerName(log: seq<Record>, i: nat, j: nat, op: string)
    requires InOrder(log) && i < |log| && j < |log|
    requires Opens(log[i], Operation(op)) && log[j].operation == Some(op) && log[j].body.Scoped()
    ensures i <= j && log[i].pid == log[j].pid && log[i].scope == log[j].scope
    ensures Opens(log[j], Operation(op)) ==> i == j
  {
    hide InOrder;
    var k := StarterOf(log, j, op);
    if i < k { OpenedOnce(log, i, k, Operation(op)); }
    if k < i { OpenedOnce(log, k, i, Operation(op)); }
  }

  /** The start of the operation a record names. */
  lemma {:induction false} StarterOf(log: seq<Record>, j: nat, op: string) returns (k: nat)
    requires InOrder(log) && j < |log| && log[j].operation == Some(op) && log[j].body.Scoped()
    ensures k <= j && Opens(log[k], Operation(op)) && log[k].pid == log[j].pid && log[k].scope == log[j].scope
    ensures log[j].body.OperationStarted? ==> k == j
  {
    k := j;
    if !log[j].body.OperationStarted? {
      assert MayFollow(log[..j], log[j]);
      k :| 0 <= k < |log[..j]| && Opens(log[..j][k], Operation(op))
           && log[..j][k].pid == log[j].pid && log[..j][k].scope == log[j].scope;
    }
  }

  /** All records that name an attempt name the same operation. */
  lemma {:induction false} OneOperationPerAttempt(log: seq<Record>, i: nat, j: nat, op: string, op': string)
    requires InOrder(log) && i < |log| && j < |log|
    requires NamesAttempt(log[i], op) && NamesAttempt(log[j], op')
    requires log[i].body.attempt == log[j].body.attempt
    ensures op == op'
  {
    hide InOrder, Opens;
    var h := Attempt(log[i].body.attempt.value);
    var a := AdmissionOf(log, i, op);
    var b := AdmissionOf(log, j, op');
    if a < b { OpenedOnce(log, a, b, h); }
    if b < a { OpenedOnce(log, b, a, h); }
  }

  lemma {:induction false} AdmissionOf(log: seq<Record>, i: nat, op: string) returns (a: nat)
    requires InOrder(log) && i < |log| && NamesAttempt(log[i], op)
    ensures a <= i && Opens(log[a], Attempt(log[i].body.attempt.value)) && log[a].operation == Some(op)
  {
    assert MayFollow(log[..i], log[i]);
    if log[i].body.AttemptAdmitted? {
      a := i;
    } else {
      a :| 0 <= a < |log[..i]| && Opens(log[..i][a], Attempt(log[i].body.attempt.value))
           && log[..i][a].operation == Some(op);
    }
  }

  // ---- the call count ---------------------------------------------------------------

  /** The declared attempts summed over the operations started in the first n records. */
  function DeclaredSum(log: seq<Record>, n: nat): real
    requires n <= |log|
  {
    if n == 0 then 0.0
    else
      var r := log[n - 1];
      DeclaredSum(log, n - 1) +
      if r.body.OperationStarted? && r.operation.Some?
      then NumericValue(DeclaredBy(log, r.operation.value)) else 0.0
  }

  ghost function AttemptsUpTo(log: seq<Record>, n: nat): set<string>
    requires n <= |log|
  {
    if n == 0 then {}
    else
      var r := log[n - 1];
      AttemptsUpTo(log, n - 1) +
      if r.body.OperationStarted? && r.operation.Some? then AttemptsOf(log, r.operation.value) else {}
  }

  ghost function AllAttempts(log: seq<Record>): set<string> {
    set j | 0 <= j < |log| && log[j].body.AttemptAdmitted? && log[j].body.attempt.Some? :: log[j].body.attempt.value
  }

  lemma {:induction false} UpToNamesAnOperation(log: seq<Record>, n: nat, a: string) returns (i: nat, op: string)
    requires n <= |log| && a in AttemptsUpTo(log, n)
    ensures i < n && Opens(log[i], Operation(op)) && a in AttemptsOf(log, op)
  {
    var r := log[n - 1];
    if r.body.OperationStarted? && r.operation.Some? && a in AttemptsOf(log, r.operation.value) {
      i, op := n - 1, r.operation.value;
    } else {
      i, op := UpToNamesAnOperation(log, n - 1, a);
    }
  }

  lemma {:induction false} UpToContains(log: seq<Record>, n: nat, i: nat, op: string)
    requires i < n <= |log| && Opens(log[i], Operation(op))
    ensures AttemptsOf(log, op) <= AttemptsUpTo(log, n)
  {
    if i < n - 1 { UpToContains(log, n - 1, i, op); }
  }

  /** An operation's attempts belong to none of the operations started before it. */
  lemma {:induction false} AttemptsAreSeparate(log: seq<Record>, n: nat, op: string, a: string)
    requires InOrder(log) && n < |log| && Opens(log[n], Operation(op))
    requires a in AttemptsUpTo(log, n)
    ensures a !in AttemptsOf(log, op)
  {
    hide InOrder;
    var i, op' := UpToNamesAnOperation(log, n, a);
    if op' == op { OneOperationPerName(log, i, n, op); }
    if a in AttemptsOf(log, op) {
      var x :| 0 <= x < |log| && NamesAttempt(log[x], op) && log[x].body.attempt.value == a;
      var y :| 0 <= y < |log| && NamesAttempt(log[y], op') && log[y].body.attempt.value == a;
      OneOperationPerAttempt(log, x, y, op, op');
    }
  }

  /** Attempts are counted under one operation each, so the counts add up. */
  lemma {:induction false} CountsAddUp(log: seq<Record>, n: nat)
    requires InOrder(log) && Finished(log) && n <= |log|
    ensures |AttemptsUpTo(log, n)| as real == DeclaredSum(log, n)
  {
    hide InOrder, AttemptsOf, Finished;
    if n > 0 {
      var r := log[n - 1];
      CountsAddUp(log, n - 1);
      if r.body.OperationStarted? && r.operation.Some? {
        var op := r.operation.value;
        var before, own := AttemptsUpTo(log, n - 1), AttemptsOf(log, op);
        forall a | a in before ensures a !in own {
          AttemptsAreSeparate(log, n - 1, op, a);
        }
        assert |before + own| == |before| + |own|;
        DeclaredIsCount(log, n - 1, op);
      }
    }
  }

  lemma {:induction false} DeclaredIsCount(log: seq<Record>, i: nat, op: string)
    requires Finished(log) && i < |log| && Opens(log[i], Operation(op))
    ensures NumericValue(DeclaredBy(log, op)) == |AttemptsOf(log, op)| as real
  {
    hide AttemptsOf, DeclaredBy;
    assert Started(log, op);
  }

  /** The number of admitted attempts is the sum of what the operations declared. */
  lemma {:induction false} CallsAreDeclared(log: seq<Record>)
    requires InOrder(log) && Finished(log)
    ensures |AllAttempts(log)| as real == DeclaredSum(log, |log|)
  {
    hide InOrder, Finished, AllAttempts, AttemptsUpTo, DeclaredSum;
    CountsAddUp(log, |log|);
    forall a: string
      ensures a in AllAttempts(log) <==> a in AttemptsUpTo(log, |log|)
    {
      if a in AllAttempts(log) { AttemptIsUpTo(log, a); }
      if a in AttemptsUpTo(log, |log|) { UpToIsAttempt(log, a); }
    }
    assert AllAttempts(log) == AttemptsUpTo(log, |log|);
  }

  lemma {:induction false} AttemptIsUpTo(log: seq<Record>, a: string)
    requires InOrder(log) && a in AllAttempts(log)
    ensures a in AttemptsUpTo(log, |log|)
  {
    hide AttemptsUpTo;
    var j :| 0 <= j < |log| && log[j].body.AttemptAdmitted? && log[j].body.attempt == Some(a);
    assert MayFollow(log[..j], log[j]);
    var op := log[j].operation.value;
    assert NamesAttempt(log[j], op);
    assert log[j].body.attempt.value in AttemptsOf(log, op);
    var i :| 0 <= i < |log[..j]| && Opens(log[..j][i], Operation(op));
    UpToContains(log, |log|, i, op);
  }

  lemma {:induction false} UpToIsAttempt(log: seq<Record>, a: string)
    requires InOrder(log) && a in AttemptsUpTo(log, |log|)
    ensures a in AllAttempts(log)
  {
    hide AttemptsUpTo, InOrder;
    var i, op := UpToNamesAnOperation(log, |log|, a);
    var j :| 0 <= j < |log| && NamesAttempt(log[j], op) && log[j].body.attempt.value == a;
    var k := AdmissionOf(log, j, op);
    assert log[k].body.attempt.value in AllAttempts(log);
  }
}
