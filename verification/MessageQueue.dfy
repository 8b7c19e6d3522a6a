/** The queues behind steer() and followUp()
    (packages/agent/src/agent.ts, PendingMessageQueue). */
module MessageQueues {
  import opened AgentMessages

  datatype QueueMode = All | OneAtATime

  function Flatten(batches: seq<seq<Message>>): seq<Message> {
    if batches == [] then [] else batches[0] + Flatten(batches[1..])
  }

  predicate NoneEmpty(batches: seq<seq<Message>>) { forall i :: 0 <= i < |batches| ==> batches[i] != [] }

  lemma {:induction false} FlattenNonEmpty(batches: seq<seq<Message>>)
    requires NoneEmpty(batches)
    ensures Flatten(batches) == [] <==> batches == []
  {
    if batches != [] { assert batches[0] != []; }
  }

  lemma {:induction false} FlattenAppend(a: seq<seq<Message>>, b: seq<seq<Message>>)
    ensures Flatten(a + b) == Flatten(a) + Flatten(b)
    decreases |a|
  {
    if a == [] {
      assert a + b == b;
    } else {
      assert (a + b)[1..] == a[1..] + b;
      FlattenAppend(a[1..], b);
    }
  }

  /** The batches none of whose messages `withdraw` picks. */
  function Retained(batches: seq<seq<Message>>, withdraw: Message -> bool): seq<seq<Message>> {
    if batches == [] then []
    else
      var before := Retained(batches[..|batches| - 1], withdraw);
      var last := batches[|batches| - 1];
      if exists m :: m in last && withdraw(m) then before else before + [last]
  }

  function Withdrawn(batches: seq<seq<Message>>, withdraw: Message -> bool): seq<Message> {
    if batches == [] then []
    else
      var before := Withdrawn(batches[..|batches| - 1], withdraw);
      var last := batches[|batches| - 1];
      if exists m :: m in last && withdraw(m) then before + last else before
  }

  lemma {:induction false} RetainedNonEmpty(batches: seq<seq<Message>>, withdraw: Message -> bool)
    requires NoneEmpty(batches)
    ensures NoneEmpty(Retained(batches, withdraw))
    decreases |batches|
  {
    if batches != [] {
      RetainedNonEmpty(batches[..|batches| - 1], withdraw);
    }
  }

  lemma {:induction false} RemovalStep(batches: seq<seq<Message>>, withdraw: Message -> bool)
    requires batches != []
    ensures var front, last := batches[..|batches| - 1], batches[|batches| - 1];
            || (Retained(batches, withdraw) == Retained(front, withdraw)
                && Withdrawn(batches, withdraw) == Withdrawn(front, withdraw) + last)
            || (Retained(batches, withdraw) == Retained(front, withdraw) + [last]
                && Withdrawn(batches, withdraw) == Withdrawn(front, withdraw))
  {}

  /** Nothing is lost by a removal: what is taken out and what is left are
      together what was queued. */
  lemma {:induction false} RemovalConserves(batches: seq<seq<Message>>, withdraw: Message -> bool)
    ensures multiset(Flatten(batches)) == multiset(Flatten(Retained(batches, withdraw))) + multiset(Withdrawn(batches, withdraw))
    decreases |batches|
  {
    if batches != [] {
      hide Flatten, Retained, Withdrawn;
      var front, last := batches[..|batches| - 1], batches[|batches| - 1];
      RemovalConserves(front, withdraw);
      assert batches == front + [last];
      FlattenLast(front, last);
      FlattenLast(Retained(front, withdraw), last);
      RemovalStep(batches, withdraw);
    }
  }

  lemma {:induction false} FlattenLast(front: seq<seq<Message>>, last: seq<Message>)
    ensures Flatten(front + [last]) == Flatten(front) + last
  {
    FlattenAppend(front, [last]);
    assert [last][1..] == [];
    assert Flatten([last]) == last + Flatten([]);
  }

  /** A batch is kept exactly when nothing in it is picked. */
  lemma {:induction false} RetainedExactly(batches: seq<seq<Message>>, withdraw: Message -> bool, b: seq<Message>)
    ensures b in Retained(batches, withdraw) <==> b in batches && forall m :: m in b ==> !withdraw(m)
    decreases |batches|
  {
    if batches != [] {
      var front := batches[..|batches| - 1];
      RetainedExactly(front, withdraw, b);
      assert batches == front + [batches[|batches| - 1]];
    }
  }

  class PendingMessageQueue {
    var mode: QueueMode
    var batches: seq<seq<Message>>
    ghost var accepted: seq<seq<Message>>   // every batch taken in and not withdrawn
    ghost var delivered: seq<seq<Message>>  // every batch drained

    /** First in, first out: what was accepted is what was delivered, then what
        still waits. */
    ghost predicate Valid()
      reads this
    {
      accepted == delivered + batches && NoneEmpty(batches)
    }

    constructor (mode: QueueMode)
      ensures Valid() && this.mode == mode && accepted == delivered == batches == []
    {
      this.mode, batches, accepted, delivered := mode, [], [], [];
    }

    method Enqueue(batch: seq<Message>)
      requires Valid()
      modifies this
      ensures Valid() && mode == old(mode) && delivered == old(delivered)
      ensures accepted == if batch == [] then old(accepted) else old(accepted) + [batch]
    {
      if |batch| > 0 {
        batches := batches + [batch];
        accepted := accepted + [batch];
      }
    }

    method HasItems() returns (r: bool)
      requires Valid()
      ensures r <==> |delivered| < |accepted|
    {
      r := |batches| > 0;
    }

    /** The oldest batch, or all of them, whole and in order; empty exactly when
        nothing was queued. */
    method Drain() returns (messages: seq<Message>, ghost drained: seq<seq<Message>>)
      requires Valid()
      modifies this
      ensures Valid() && mode == old(mode) && accepted == old(accepted)
      ensures delivered == old(delivered) + drained && messages == Flatten(drained)
      ensures messages == [] <==> old(batches) == []
      ensures messages == [] <==> drained == []
      ensures old(batches) != [] ==> if mode.All? then batches == [] else |drained| == 1
    {
      if mode == All {
        messages := FlattenAll(batches);
        drained := batches;
        FlattenNonEmpty(batches);
        assert accepted == delivered + batches + [];
        delivered := delivered + batches;
        batches := [];
        return;
      }
      if |batches| == 0 { return [], []; }
      messages, drained := batches[0], [batches[0]];
      assert batches[0] != [] && Flatten(drained) == batches[0] + Flatten([]);
      assert batches == drained + batches[1..] && accepted == delivered + drained + batches[1..];
      delivered := delivered + drained;
      batches := batches[1..];
    }

    static method FlattenAll(batches: seq<seq<Message>>) returns (messages: seq<Message>)
      ensures messages == Flatten(batches)
    {
      messages := [];
      for k := 0 to |batches|
        invariant messages + Flatten(batches[k..]) == Flatten(batches)
      {
        assert batches[k..][1..] == batches[k + 1..];
        messages := messages + batches[k];
      }
    }

    method Clear()
      requires Valid()
      modifies this
      ensures Valid() && mode == old(mode) && delivered == old(delivered) == accepted && batches == []
    {
      batches := [];
      accepted := delivered;
    }

    /** A batch is withdrawn whole. */
    method RemoveWhere(withdraw: Message -> bool) returns (removed: seq<Message>)
      requires Valid()
      modifies this
      ensures Valid() && mode == old(mode) && delivered == old(delivered)
      ensures batches == Retained(old(batches), withdraw) && removed == Withdrawn(old(batches), withdraw)
    {
      removed := [];
      var retained: seq<seq<Message>> := [];
      for k := 0 to |batches|
        invariant batches == old(batches)
        invariant removed == Withdrawn(batches[..k], withdraw) && retained == Retained(batches[..k], withdraw)
      {
        var batch := batches[k];
        assert batches[..k + 1][..k] == batches[..k];
        if exists m :: m in batch && withdraw(m) {
          removed := removed + batch;
        } else {
          retained := retained + [batch];
        }
      }
      assert batches[..|batches|] == batches;
      RetainedNonEmpty(batches, withdraw);
      batches := retained;
      accepted := delivered + batches;
    }
  }
}
