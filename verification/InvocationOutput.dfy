/** The byte-bounded result of one invocation
    (packages/agent/src/invocation-output.ts). Every stored value pays for its
    bytes and its separator, and a subject captured more than once has one slot
    for each of its values. */
module InvocationOutputs {
  import opened AgentMessages

  const MAX_SAFE_INTEGER := 9007199254740991

  datatype Limit = MessageLimit | SourceBytes | ValueEncoding

  /** A policy's copy of a message within a byte budget. */
  datatype Snap = Fits(message: Message, bytes: nat) | TooBig | Unencodable

  function RefusalOf(value: Snap): Option<Limit> {
    if value.Fits? then None else Some(if value.TooBig? then SourceBytes else ValueEncoding)
  }

  type Policy = (Message, nat) -> Snap

  /** The policy's side of the bargain: a copy fits the budget it was given. */
  ghost predicate WithinBudget(policy: Policy) {
    forall m: Message, budget: nat :: policy(m, budget).Fits? ==> policy(m, budget).bytes <= budget
  }

  /** A copy is what was copied. */
  ghost predicate Faithful(policy: Policy) {
    forall m: Message, budget: nat :: policy(m, budget).Fits? ==> policy(m, budget).message == m
  }

  datatype Slot = Slot(index: nat, bytes: nat)

  function Sum(sizes: seq<nat>): nat {
    if sizes == [] then 0 else Sum(sizes[..|sizes| - 1]) + sizes[|sizes| - 1]
  }

  function Separators(n: nat): nat { if n == 0 then 0 else n - 1 }

  /** The slots a subject should have: one for each value captured from it. */
  function SlotsOf(owners: seq<nat>, sizes: seq<nat>, subject: nat): seq<Slot>
    requires |owners| == |sizes|
  {
    if owners == [] then []
    else
      var n := |owners| - 1;
      var before := SlotsOf(owners[..n], sizes[..n], subject);
      if owners[n] == subject then before + [Slot(n, sizes[n])] else before
  }

  function SlotBytes(slots: seq<Slot>): nat {
    if slots == [] then 0 else SlotBytes(slots[..|slots| - 1]) + slots[|slots| - 1].bytes
  }

  /** The sizes after every value of `subject` was replaced by one of `bytes`. */
  function Resized(owners: seq<nat>, sizes: seq<nat>, subject: nat, bytes: nat): seq<nat>
    requires |owners| == |sizes|
  {
    seq(|sizes|, i requires 0 <= i < |sizes| => if owners[i] == subject then bytes else sizes[i])
  }

  function Replaced(messages: seq<Message>, owners: seq<nat>, subject: nat, m: Message): seq<Message>
    requires |owners| == |messages|
  {
    seq(|messages|, i requires 0 <= i < |messages| => if owners[i] == subject then m else messages[i])
  }

  /** `m` written at the index of every slot. */
  function Written(messages: seq<Message>, slots: seq<Slot>, m: Message): seq<Message>
    requires forall s :: s in slots ==> s.index < |messages|
    ensures |Written(messages, slots, m)| == |messages|
  {
    if slots == [] then messages
    else
      var last := slots[|slots| - 1];
      assert last in slots;
      Written(messages, slots[..|slots| - 1], m)[last.index := m]
  }

  function Recharged(slots: seq<Slot>, bytes: nat): seq<Slot> {
    seq(|slots|, k requires 0 <= k < |slots| => slots[k].(bytes := bytes))
  }

  // ---- the slots partition the values -----------------------------------------------------

  /** Exactly the slots of the subject's values, with their sizes, in the order of
      capture. */
  predicate Partitions(owners: seq<nat>, sizes: seq<nat>, subject: nat, slots: seq<Slot>) {
    && |owners| == |sizes|
    && (forall k :: 0 <= k < |slots| ==> SlotFits(owners, sizes, subject, slots[k]))
    && (forall j, k :: 0 <= j < k < |slots| ==> slots[j].index < slots[k].index)
    && (forall i :: 0 <= i < |owners| && owners[i] == subject ==> Slot(i, sizes[i]) in slots)
  }

  predicate SlotFits(owners: seq<nat>, sizes: seq<nat>, subject: nat, s: Slot)
    requires |owners| == |sizes|
  {
    s.index < |owners| && owners[s.index] == subject && s.bytes == sizes[s.index]
  }

  lemma {:induction false} PartitionsNext(owners: seq<nat>, sizes: seq<nat>, subject: nat, slots: seq<Slot>, owner: nat, size: nat)
    requires Partitions(owners, sizes, subject, slots)
    ensures Partitions(owners + [owner], sizes + [size], subject,
                       if owner == subject then slots + [Slot(|owners|, size)] else slots)
  {
    var owners', sizes' := owners + [owner], sizes + [size];
    forall k | 0 <= k < |slots|
      ensures SlotFits(owners', sizes', subject, slots[k])
    {
      assert SlotFits(owners, sizes, subject, slots[k]);
    }
    forall i | 0 <= i < |owners| && owners'[i] == subject
      ensures Slot(i, sizes'[i]) in slots
    {
      assert owners[i] == subject && sizes'[i] == sizes[i];
    }
  }

  lemma {:induction false} SlotsFollow(owners: seq<nat>, sizes: seq<nat>, subject: nat)
    requires |owners| == |sizes|
    ensures Partitions(owners, sizes, subject, SlotsOf(owners, sizes, subject))
    decreases |owners|
  {
    hide Partitions;
    if owners == [] {
      NothingPartitions(subject);
    } else {
      var n := |owners| - 1;
      SlotsFollow(owners[..n], sizes[..n], subject);
      PartitionsNext(owners[..n], sizes[..n], subject, SlotsOf(owners[..n], sizes[..n], subject), owners[n], sizes[n]);
      assert owners == owners[..n] + [owners[n]] && sizes == sizes[..n] + [sizes[n]];
    }
  }

  lemma {:induction false} NothingPartitions(subject: nat)
    ensures Partitions([], [], subject, [])
  {}

  /** Every value has exactly one slot, it belongs to the value's subject, and it
      carries the value's size; a subject's slots are in the order of capture. */
  lemma {:induction false} SlotsPartition(owners: seq<nat>, sizes: seq<nat>, subject: nat)
    requires |owners| == |sizes|
    ensures var slots := SlotsOf(owners, sizes, subject);
            && (forall s :: s in slots ==> s.index < |owners| && owners[s.index] == subject && s.bytes == sizes[s.index])
            && (forall j, k :: 0 <= j < k < |slots| ==> slots[j].index < slots[k].index)
            && (forall i :: 0 <= i < |owners| && owners[i] == subject ==> Slot(i, sizes[i]) in slots)
            && (slots == [] <==> subject !in owners)
  {
    hide SlotsOf;
    SlotsFollow(owners, sizes, subject);
    var slots := SlotsOf(owners, sizes, subject);
    forall s | s in slots
      ensures SlotFits(owners, sizes, subject, s)
    {
      var k :| 0 <= k < |slots| && slots[k] == s;
    }
    if slots != [] { assert SlotFits(owners, sizes, subject, slots[0]) && owners[slots[0].index] in owners; }
  }

  lemma {:induction false} ResizedFront(owners: seq<nat>, sizes: seq<nat>, subject: nat, bytes: nat)
    requires |owners| == |sizes| > 0
    ensures var n := |owners| - 1;
            var after := Resized(owners, sizes, subject, bytes);
            && |after| == n + 1 && after[..n] == Resized(owners[..n], sizes[..n], subject, bytes)
            && after[n] == if owners[n] == subject then bytes else sizes[n]
  {}

  lemma {:induction false} SlotsFront(owners: seq<nat>, sizes: seq<nat>, subject: nat, bytes: nat)
    requires |owners| == |sizes| > 0
    ensures var n := |owners| - 1;
            var slots := SlotsOf(owners, sizes, subject);
            var before := SlotsOf(owners[..n], sizes[..n], subject);
            if owners[n] == subject then
              |slots| == |before| + 1 && SlotBytes(slots) == SlotBytes(before) + sizes[n]
              && bytes * |slots| == bytes * |before| + bytes
            else slots == before
  {
    var n := |owners| - 1;
    var before := SlotsOf(owners[..n], sizes[..n], subject);
    assert (before + [Slot(n, sizes[n])])[..|before|] == before;
  }

  /** Recharging a subject's slots moves the sum by exactly the difference. */
  lemma {:induction false} SumResized(owners: seq<nat>, sizes: seq<nat>, subject: nat, bytes: nat)
    requires |owners| == |sizes|
    ensures var slots := SlotsOf(owners, sizes, subject);
            Sum(Resized(owners, sizes, subject, bytes)) + SlotBytes(slots) == Sum(sizes) + bytes * |slots|
    decreases |owners|
  {
    if owners != [] {
      hide SlotsOf, SlotBytes, Resized;
      var n := |owners| - 1;
      SumResized(owners[..n], sizes[..n], subject, bytes);
      ResizedFront(owners, sizes, subject, bytes);
      SlotsFront(owners, sizes, subject, bytes);
    }
  }

  lemma {:induction false} SlotsResized(owners: seq<nat>, sizes: seq<nat>, subject: nat, bytes: nat, other: nat)
    requires |owners| == |sizes|
    ensures SlotsOf(owners, Resized(owners, sizes, subject, bytes), other)
            == if other == subject then Recharged(SlotsOf(owners, sizes, subject), bytes) else SlotsOf(owners, sizes, other)
    decreases |owners|
  {
    if owners != [] {
      var n := |owners| - 1;
      SlotsResized(owners[..n], sizes[..n], subject, bytes, other);
      assert Resized(owners, sizes, subject, bytes)[..n] == Resized(owners[..n], sizes[..n], subject, bytes);
      if other == subject && owners[n] == subject {
        var before := SlotsOf(owners[..n], sizes[..n], subject);
        assert Recharged(before + [Slot(n, sizes[n])], bytes) == Recharged(before, bytes) + [Slot(n, bytes)];
      }
    }
  }

  lemma {:induction false} WrittenIsReplaced(messages: seq<Message>, owners: seq<nat>, sizes: seq<nat>, subject: nat, m: Message)
    requires |owners| == |messages| == |sizes|
    requires forall s :: s in SlotsOf(owners, sizes, subject) ==> s.index < |messages|
    ensures Written(messages, SlotsOf(owners, sizes, subject), m) == Replaced(messages, owners, subject, m)
    ensures |Replaced(messages, owners, subject, m)| == |messages|
    decreases |owners|
  {
    var slots := SlotsOf(owners, sizes, subject);
    SlotsPartition(owners, sizes, subject);
    WrittenAt(messages, slots, m);
    var w, r := Written(messages, slots, m), Replaced(messages, owners, subject, m);
    forall i | 0 <= i < |messages|
      ensures w[i] == r[i]
    {
      if owners[i] == subject { assert Slot(i, sizes[i]) in slots; }
    }
  }

  lemma {:induction false} WrittenAt(messages: seq<Message>, slots: seq<Slot>, m: Message)
    requires forall s :: s in slots ==> s.index < |messages|
    ensures var w := Written(messages, slots, m);
            && (forall s :: s in slots ==> w[s.index] == m)
            && (forall i :: 0 <= i < |messages| && (forall s :: s in slots ==> s.index != i) ==> w[i] == messages[i])
    decreases |slots|
  {
    if slots != [] {
      var n := |slots| - 1;
      WrittenAt(messages, slots[..n], m);
      assert slots == slots[..n] + [slots[n]];
    }
  }

  /** The floored budget for one of `n` slots never lets them all overrun. */
  lemma {:induction false} FlooredBudget(remaining: nat, n: nat, bytes: nat)
    requires n > 0 && bytes <= remaining / n
    ensures bytes * n <= remaining
  {
    assert remaining / n * n <= remaining;
    Monotone(bytes, remaining / n, n);
  }

  lemma {:induction false} Monotone(a: nat, b: nat, n: nat)
    requires a <= b
    ensures a * n <= b * n
  {
    assert b * n == a * n + (b - a) * n;
  }

  lemma {:induction false} SlotBytesBound(owners: seq<nat>, sizes: seq<nat>, subject: nat)
    requires |owners| == |sizes|
    ensures SlotBytes(SlotsOf(owners, sizes, subject)) <= Sum(sizes)
  {
    SumResized(owners, sizes, subject, 0);
  }

  /** The byte ledger is exact, the slots are those of the captured subjects, and
      no limit is exceeded except a byte limit too small for the brackets, which
      was refused at construction. */
  ghost predicate Balanced(messages: seq<Message>, owners: seq<nat>, sizes: seq<nat>, slots: map<nat, seq<Slot>>,
                           sourceBytes: nat, refusal: Option<Limit>, maxMessages: nat, maxSourceBytes: nat)
  {
    && |messages| == |owners| == |sizes|
    && sourceBytes == 2 + Sum(sizes) + Separators(|sizes|)
    && (forall id :: id in slots <==> id in owners)
    && (forall id :: id in slots ==> slots[id] == SlotsOf(owners, sizes, id))
    && |messages| <= maxMessages
    && (sourceBytes <= maxSourceBytes || (maxSourceBytes == 1 && messages == [] && refusal == Some(SourceBytes)))
  }

  /** What a refresh may rely on. */
  lemma {:induction false} SlotsReady(messages: seq<Message>, owners: seq<nat>, sizes: seq<nat>, slots: map<nat, seq<Slot>>,
                                      sourceBytes: nat, maxMessages: nat, maxSourceBytes: nat, subject: nat)
    requires Balanced(messages, owners, sizes, slots, sourceBytes, None, maxMessages, maxSourceBytes) && subject in slots
    ensures |messages| == |owners| == |sizes| && slots[subject] == SlotsOf(owners, sizes, subject) != []
    ensures forall s :: s in slots[subject] ==> s.index < |messages|
    ensures SlotBytes(slots[subject]) <= Sum(sizes) <= sourceBytes <= maxSourceBytes
  {
    hide SlotsOf, SlotBytes, Sum;
    SlotsPartition(owners, sizes, subject);
    SlotBytesBound(owners, sizes, subject);
  }

  lemma {:induction false} RefusedBalances(messages: seq<Message>, owners: seq<nat>, sizes: seq<nat>, slots: map<nat, seq<Slot>>,
                                           sourceBytes: nat, maxMessages: nat, maxSourceBytes: nat, refusal: Option<Limit>)
    requires Balanced(messages, owners, sizes, slots, sourceBytes, None, maxMessages, maxSourceBytes)
    ensures Balanced(messages, owners, sizes, slots, sourceBytes, refusal, maxMessages, maxSourceBytes)
  {}

  lemma {:induction false} CaptureBalances(messages: seq<Message>, owners: seq<nat>, sizes: seq<nat>, slots: map<nat, seq<Slot>>,
                                           sourceBytes: nat, maxMessages: nat, maxSourceBytes: nat, subject: nat,
                                           m: Message, bytes: nat)
    requires Balanced(messages, owners, sizes, slots, sourceBytes, None, maxMessages, maxSourceBytes)
    requires |messages| != maxMessages && sourceBytes + bytes + (if messages == [] then 0 else 1) <= maxSourceBytes
    ensures var known := if subject in slots then slots[subject] else [];
            Balanced(messages + [m], owners + [subject], sizes + [bytes],
                     slots[subject := known + [Slot(|messages|, bytes)]],
                     sourceBytes + bytes + (if messages == [] then 0 else 1), None, maxMessages, maxSourceBytes)
  {
    hide SlotsOf, Sum;
    CaptureKeeps(owners, sizes, subject, bytes, slots);
  }

  lemma {:induction false} RefreshBalances(messages: seq<Message>, owners: seq<nat>, sizes: seq<nat>, slots: map<nat, seq<Slot>>,
                                           sourceBytes: nat, maxMessages: nat, maxSourceBytes: nat, subject: nat,
                                           m: Message, bytes: nat, charge: nat)
    requires Balanced(messages, owners, sizes, slots, sourceBytes, None, maxMessages, maxSourceBytes) && subject in slots
    requires var mine := slots[subject];
             && SlotBytes(mine) <= sourceBytes <= maxSourceBytes && mine != [] && charge == bytes * |mine|
             && bytes <= (maxSourceBytes - sourceBytes + SlotBytes(mine)) / |mine|
    ensures var mine := slots[subject];
            && |Resized(owners, sizes, subject, bytes)| == |sizes|
            && Balanced(Replaced(messages, owners, subject, m), owners, Resized(owners, sizes, subject, bytes),
                        slots[subject := Recharged(mine, bytes)], sourceBytes + charge - SlotBytes(mine),
                        None, maxMessages, maxSourceBytes)
  {
    hide SlotsOf, SlotBytes, Sum, Recharged;
    var mine := slots[subject];
    SlotsReady(messages, owners, sizes, slots, sourceBytes, maxMessages, maxSourceBytes, subject);
    FlooredBudget(maxSourceBytes - sourceBytes + SlotBytes(mine), |mine|, bytes);
    SumResized(owners, sizes, subject, bytes);
    RefreshKeeps(owners, sizes, subject, bytes, slots);
  }

  predicate ValidLimits(maxMessages: int, maxSourceBytes: int) {
    1 <= maxMessages <= MAX_SAFE_INTEGER && 1 <= maxSourceBytes <= MAX_SAFE_INTEGER
  }

  class InvocationOutput {
    const maxMessages: nat
    const maxSourceBytes: nat
    var sourceBytes: nat
    var messages: seq<Message>
    var slots: map<nat, seq<Slot>>
    var refusal: Option<Limit>
    var closed: bool
    ghost var owners: seq<nat>  // the subject of each stored value
    ghost var sizes: seq<nat>   // and its bytes

    ghost predicate Valid()
      reads this
    {
      && 1 <= maxMessages && 1 <= maxSourceBytes
      && (closed || Balanced(messages, owners, sizes, slots, sourceBytes, refusal, maxMessages, maxSourceBytes))
    }

    constructor (maxMessages: nat, maxSourceBytes: nat)
      requires ValidLimits(maxMessages, maxSourceBytes)
      ensures Valid() && !closed && messages == [] && owners == []
      ensures this.maxMessages == maxMessages && this.maxSourceBytes == maxSourceBytes
      ensures refusal == if maxSourceBytes == 1 then Some(SourceBytes) else None
    {
      this.maxMessages, this.maxSourceBytes := maxMessages, maxSourceBytes;
      sourceBytes, messages, slots, closed, owners, sizes := 2, [], map[], false, [], [];
      refusal := None;
      new;
      if maxSourceBytes < sourceBytes { Refuse(SourceBytes); }
    }

    /** Limits that are not safe integers of at least one are an error. */
    static method Create(maxMessages: int, maxSourceBytes: int) returns (output: InvocationOutput?)
      ensures output == null <==> !ValidLimits(maxMessages, maxSourceBytes)
      ensures output != null ==>
                && fresh(output) && output.Valid() && !output.closed && output.messages == []
                && output.maxMessages == maxMessages && output.maxSourceBytes == maxSourceBytes
    {
      if !(1 <= maxMessages <= MAX_SAFE_INTEGER) || !(1 <= maxSourceBytes <= MAX_SAFE_INTEGER) { return null; }
      output := new InvocationOutput(maxMessages, maxSourceBytes);
    }

    /** Only the first refusal is kept. */
    method Refuse(limit: Limit)
      modifies this`refusal
      ensures refusal == if old(refusal).Some? then old(refusal) else Some(limit)
    {
      if refusal.Some? { return; }
      refusal := Some(limit);
    }

    method Snapshot(policy: Policy, message: Message, budget: nat) returns (value: Snap)
      modifies this`refusal
      ensures value == policy(message, budget)
      ensures old(refusal).Some? || value.Fits? ==> refusal == old(refusal)
      ensures old(refusal).None? && value.TooBig? ==> refusal == Some(SourceBytes)
      ensures old(refusal).None? && value.Unencodable? ==> refusal == Some(ValueEncoding)
    {
      value := policy(message, budget);
      if value.TooBig? { Refuse(SourceBytes); }
      if value.Unencodable? { Refuse(ValueEncoding); }
    }

    /** False is the limit error thrown. */
    method CheckRoom(count: nat) returns (ok: bool)
      requires Valid()
      modifies this`refusal
      ensures Valid()
      ensures refusal == if old(refusal).Some? then old(refusal)
                         else if |messages| + count > maxMessages then Some(MessageLimit) else None
      ensures ok <==> refusal.None?
    {
      if count > maxMessages as int - |messages| { Refuse(MessageLimit); }
      ok := refusal.None?;
    }

    /** Store a copy of `message`, or refuse; a refused output is left as it is. */
    method Capture(policy: Policy, message: Message)
      requires Valid() && WithinBudget(policy)
      modifies this
      ensures Valid() && closed == old(closed)
      ensures old(refusal).Some? ==> unchanged(this)
      ensures refusal.Some? ==>
                messages == old(messages) && sourceBytes == old(sourceBytes) && slots == old(slots)
                && owners == old(owners) && sizes == old(sizes)
      ensures old(refusal).None? ==>
                var remaining := maxSourceBytes - old(sourceBytes) - (if old(messages) == [] then 0 else 1);
                && refusal == (if |old(messages)| == maxMessages then Some(MessageLimit)
                               else if remaining < 0 then Some(SourceBytes) else RefusalOf(policy(message, remaining)))
                && (refusal.None? ==>
                      && messages == old(messages) + [policy(message, remaining).message]
                      && owners == old(owners) + [message.identity] && sizes == old(sizes) + [policy(message, remaining).bytes])
    {
      hide Balanced, SlotsOf, Sum;
      if refusal.Some? { return; }
      if |messages| == maxMessages {
        Refuse(MessageLimit);
        if !closed { RefusedBalances(messages, owners, sizes, slots, sourceBytes, maxMessages, maxSourceBytes, refusal); }
        return;
      }
      var separator := if |messages| == 0 then 0 else 1;
      var remaining := maxSourceBytes as int - sourceBytes - separator;
      if remaining < 0 {
        Refuse(SourceBytes);
        if !closed { RefusedBalances(messages, owners, sizes, slots, sourceBytes, maxMessages, maxSourceBytes, refusal); }
        return;
      }
      var value := Snapshot(policy, message, remaining);
      if !value.Fits? {
        if !closed { RefusedBalances(messages, owners, sizes, slots, sourceBytes, maxMessages, maxSourceBytes, refusal); }
        return;
      }
      assert policy(message, remaining).Fits?;
      if !closed {
        CaptureBalances(messages, owners, sizes, slots, sourceBytes, maxMessages, maxSourceBytes, message.identity,
                        value.message, value.bytes);
      }
      sourceBytes := sourceBytes + value.bytes + separator;
      var known := if message.identity in slots then slots[message.identity] else [];
      slots := slots[message.identity := known + [Slot(|messages|, value.bytes)]];
      messages := messages + [value.message];
      owners, sizes := owners + [message.identity], sizes + [value.bytes];
    }

    /** Copy the subject again into every value captured from it. */
    method Refresh(policy: Policy, message: Message) returns (ok: bool)
      requires Valid() && WithinBudget(policy)
      modifies this
      ensures Valid() && closed == old(closed) && owners == old(owners)
      ensures old(closed) ==> ok && unchanged(this)
      ensures !old(closed) ==> (ok <==> refusal.None?)
      ensures old(refusal).Some? ==> unchanged(this)
      ensures refusal.Some? || message.identity !in old(slots) ==>
                messages == old(messages) && sourceBytes == old(sourceBytes) && slots == old(slots) && sizes == old(sizes)
      ensures message.identity !in old(slots) ==> refusal == old(refusal)
      ensures !closed && old(refusal).None? && message.identity in old(slots) ==>
                var mine := old(slots)[message.identity];
                && mine != [] && old(sourceBytes) <= maxSourceBytes
                && (var value := policy(message, (maxSourceBytes - old(sourceBytes) + SlotBytes(mine)) / |mine|);
                    && refusal == RefusalOf(value)
                    && (value.Fits? ==>
                          && messages == Replaced(old(messages), owners, message.identity, value.message)
                          && sizes == Resized(owners, old(sizes), message.identity, value.bytes)))
    {
      hide Balanced, SlotsOf, SlotBytes, Sum, Resized, Replaced, Recharged, Written;
      if closed { return true; }
      if refusal.Some? { return false; }
      if message.identity !in slots { return true; }
      var mine := slots[message.identity];
      SlotsReady(messages, owners, sizes, slots, sourceBytes, maxMessages, maxSourceBytes, message.identity);
      var previous := Reduce(mine);
      var remaining := maxSourceBytes - sourceBytes + previous;
      var value := Snapshot(policy, message, remaining / |mine|);
      if !value.Fits? {
        RefusedBalances(messages, owners, sizes, slots, sourceBytes, maxMessages, maxSourceBytes, refusal);
        return false;
      }
      assert policy(message, remaining / |mine|).Fits?;
      WrittenIsReplaced(messages, owners, sizes, message.identity, value.message);
      RefreshBalances(messages, owners, sizes, slots, sourceBytes, maxMessages, maxSourceBytes, message.identity,
                      value.message, value.bytes, value.bytes * |mine|);
      sourceBytes := sourceBytes + value.bytes * |mine| - previous;
      var updated := WriteSlots(mine, value.message, value.bytes);
      slots := slots[message.identity := updated];
      sizes := Resized(owners, sizes, message.identity, value.bytes);
      return true;
    }

    /** The bytes the slots pay for. */
    static method Reduce(mine: seq<Slot>) returns (previous: nat)
      ensures previous == SlotBytes(mine)
    {
      previous := 0;
      for k := 0 to |mine|
        invariant previous == SlotBytes(mine[..k])
      {
        previous := previous + mine[k].bytes;
        assert mine[..k + 1][..k] == mine[..k];
      }
      assert mine[..|mine|] == mine;
    }

    /** One value into every slot, and its bytes onto every slot. */
    method WriteSlots(mine: seq<Slot>, m: Message, bytes: nat) returns (updated: seq<Slot>)
      requires forall s :: s in mine ==> s.index < |messages|
      modifies this`messages
      ensures messages == Written(old(messages), mine, m) && updated == Recharged(mine, bytes)
    {
      updated := mine;
      for k := 0 to |mine|
        invariant |messages| == |old(messages)| && |updated| == |mine|
        invariant messages == Written(old(messages), mine[..k], m)
        invariant forall j :: 0 <= j < |mine| ==> updated[j] == if j < k then mine[j].(bytes := bytes) else mine[j]
      {
        messages := messages[updated[k].index := m];
        updated := updated[k := updated[k].(bytes := bytes)];
        assert mine[..k + 1][..k] == mine[..k];
      }
      assert mine[..|mine|] == mine;
    }

    /** None is the limit error thrown. */
    method Copy() returns (copy: Option<seq<Message>>)
      ensures copy == if refusal.Some? then None else Some(messages)
    {
      copy := if refusal.Some? then None else Some(messages);
    }

    method Dispose()
      requires Valid()
      modifies this
      ensures Valid() && closed && messages == [] && slots == map[] && refusal == old(refusal)
    {
      closed := true;
      slots := map[];
      messages := [];
    }
  }

  lemma {:induction false} RefreshKeeps(owners: seq<nat>, sizes: seq<nat>, subject: nat, bytes: nat, slots: map<nat, seq<Slot>>)
    requires |owners| == |sizes| && subject in slots
    requires forall id :: id in slots ==> slots[id] == SlotsOf(owners, sizes, id)
    ensures var slots' := slots[subject := Recharged(slots[subject], bytes)];
            forall id :: id in slots' ==> slots'[id] == SlotsOf(owners, Resized(owners, sizes, subject, bytes), id)
    ensures |Resized(owners, sizes, subject, bytes)| == |sizes|
  {
    hide SlotsOf;
    var slots' := slots[subject := Recharged(slots[subject], bytes)];
    forall id | id in slots'
      ensures slots'[id] == SlotsOf(owners, Resized(owners, sizes, subject, bytes), id)
    {
      SlotsResized(owners, sizes, subject, bytes, id);
    }
  }

  lemma {:induction false} CaptureKeeps(owners: seq<nat>, sizes: seq<nat>, subject: nat, bytes: nat, slots: map<nat, seq<Slot>>)
    requires |owners| == |sizes|
    requires (forall id :: id in slots <==> id in owners) && forall id :: id in slots ==> slots[id] == SlotsOf(owners, sizes, id)
    ensures var owners', sizes' := owners + [subject], sizes + [bytes];
            var known := if subject in slots then slots[subject] else [];
            var slots' := slots[subject := known + [Slot(|owners|, bytes)]];
            && (forall id :: id in slots' <==> id in owners')
            && (forall id :: id in slots' ==> slots'[id] == SlotsOf(owners', sizes', id))
            && Sum(sizes') == Sum(sizes) + bytes
  {
    var owners', sizes' := owners + [subject], sizes + [bytes];
    assert owners'[..|owners|] == owners && sizes'[..|sizes|] == sizes;
    SlotsPartition(owners, sizes, subject);
  }
}
