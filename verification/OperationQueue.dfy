/**
 The manager's per-node operation queue: a map from node to the promise at the tail of a chain.

 Every call chains its task behind the promise it found under the node's key, puts its own
 promise there, and removes the key afterwards if it is still its own.
 */
module OperationQueue {
  import opened Wrappers

  datatype Status = Queued | Running | Settled(ok: bool) | Returned(ok: bool)

  /** One `runExclusive` call: its node, the promise it chained behind, and how far it got. */
  datatype Operation = Operation(node: string, after: Option<nat>, status: Status)

  datatype State = State(ops: seq<Operation>, tails: map<string, nat>)

  datatype Event = Submit(node: string) | Start(op: nat) | Settle(op: nat, ok: bool) | Return(op: nat)

  const EMPTY := State([], map[])

  predicate Done(o: Operation) {
    o.status.Settled? || o.status.Returned?
  }

  /** The promise chained behind has settled; `catch` makes a rejection count like a result. */
  predicate CanStart(s: State, p: nat) {
    && p < |s.ops| && s.ops[p].status.Queued?
    && (s.ops[p].after.Some? ==> s.ops[p].after.value < |s.ops| && Done(s.ops[s.ops[p].after.value]))
  }

  function WithStatus(s: State, p: nat, status: Status): State
    requires p < |s.ops|
  {
    s.(ops := s.ops[p := s.ops[p].(status := status)])
  }

  function Step(s: State, e: Event): State {
    match e
    case Submit(n) =>
      State(s.ops + [Operation(n, if n in s.tails then Some(s.tails[n]) else None, Queued)], s.tails[n := |s.ops|])
    case Start(p) => if CanStart(s, p) then WithStatus(s, p, Running) else s
    case Settle(p, ok) => if p < |s.ops| && s.ops[p].status.Running? then WithStatus(s, p, Settled(ok)) else s
    case Return(p) =>
      if p < |s.ops| && s.ops[p].status.Settled? then
        var n := s.ops[p].node;
        var s1 := WithStatus(s, p, Returned(s.ops[p].status.ok));
        if n in s.tails && s.tails[n] == p then s1.(tails := s.tails - {n}) else s1
      else s
  }

  function Run(s: State, es: seq<Event>): State
    decreases |es|
  {
    if es == [] then s else Run(Step(s, es[0]), es[1..])
  }

  // ── The invariant ──────────────────────────────────────────────────────────

  ghost predicate EarlierDone(s: State, p: nat)
    requires p < |s.ops|
  {
    forall r :: 0 <= r < p && s.ops[r].node == s.ops[p].node ==> Done(s.ops[r])
  }

  /** An operation hangs behind the operation submitted just before it, or everything before it is done. */
  ghost predicate Chained(s: State, p: nat)
    requires p < |s.ops|
  {
    match s.ops[p].after
    case None => EarlierDone(s, p)
    case Some(q) =>
      && q < p && s.ops[q].node == s.ops[p].node
      && forall r :: 0 <= r < p && s.ops[r].node == s.ops[p].node ==> r <= q
  }

  /** The key holds the last operation submitted, or is absent with nothing left to do. */
  ghost predicate TailRight(s: State, n: string) {
    if n in s.tails then
      var t := s.tails[n];
      && t < |s.ops| && s.ops[t].node == n && !s.ops[t].status.Returned?
      && forall r :: t < r < |s.ops| ==> s.ops[r].node != n
    else forall r :: 0 <= r < |s.ops| && s.ops[r].node == n ==> Done(s.ops[r])
  }

  ghost predicate Valid(s: State) {
    && (forall p :: 0 <= p < |s.ops| ==> Chained(s, p) && (!s.ops[p].status.Queued? ==> EarlierDone(s, p)))
    && (forall n :: TailRight(s, n))
  }

  lemma StartableIsNext(s: State, p: nat)
    requires Valid(s) && CanStart(s, p)
    ensures EarlierDone(s, p)
  {
  }

  lemma StatusKeepsValid(s: State, p: nat, status: Status)
    requires Valid(s) && p < |s.ops| && EarlierDone(s, p)
    requires !status.Queued? && (Done(s.ops[p]) ==> status.Settled? || status.Returned?)
    requires status.Returned? ==> s.ops[p].node !in s.tails || s.tails[s.ops[p].node] != p
    ensures Valid(WithStatus(s, p, status))
  {
    var r := WithStatus(s, p, status);
    forall k | 0 <= k < |r.ops| ensures Chained(r, k) && (!r.ops[k].status.Queued? ==> EarlierDone(r, k)) {
      assert Chained(s, k);
      assert k != p && !s.ops[k].status.Queued? ==> EarlierDone(s, k);
    }
    forall n ensures TailRight(r, n) {
      assert TailRight(s, n);
    }
  }

  lemma SubmitKeepsValid(s: State, n: string)
    requires Valid(s)
    ensures Valid(Step(s, Submit(n)))
  {
    var r := Step(s, Submit(n));
    var k := |s.ops|;
    assert TailRight(s, n);
    forall p | 0 <= p < |r.ops| ensures Chained(r, p) && (!r.ops[p].status.Queued? ==> EarlierDone(r, p)) {
      if p < k {
        assert Chained(s, p);
        assert !s.ops[p].status.Queued? ==> EarlierDone(s, p);
      }
    }
    forall m ensures TailRight(r, m) {
      assert TailRight(s, m);
    }
  }

  lemma ReturnKeepsValid(s: State, p: nat)
    requires Valid(s) && p < |s.ops| && s.ops[p].status.Settled?
    ensures Valid(Step(s, Return(p)))
  {
    var n := s.ops[p].node;
    assert EarlierDone(s, p);
    if n in s.tails && s.tails[n] == p {
      var s1 := s.(tails := s.tails - {n});
      assert Valid(s1) by {
        forall m ensures TailRight(s1, m) {
          assert TailRight(s, m);
        }
        forall k | 0 <= k < |s1.ops| ensures Chained(s1, k) && (!s1.ops[k].status.Queued? ==> EarlierDone(s1, k)) {
          assert Chained(s, k);
          assert !s.ops[k].status.Queued? ==> EarlierDone(s, k);
        }
      }
      StatusKeepsValid(s1, p, Returned(s.ops[p].status.ok));
    } else {
      StatusKeepsValid(s, p, Returned(s.ops[p].status.ok));
    }
  }

  lemma StepKeepsValid(s: State, e: Event)
    requires Valid(s)
    ensures Valid(Step(s, e))
  {
    match e
    case Submit(n) => SubmitKeepsValid(s, n);
    case Start(p) =>
      if CanStart(s, p) {
        StartableIsNext(s, p);
        StatusKeepsValid(s, p, Running);
      }
    case Settle(p, ok) =>
      if p < |s.ops| && s.ops[p].status.Running? { StatusKeepsValid(s, p, Settled(ok)); }
    case Return(p) => if p < |s.ops| && s.ops[p].status.Settled? { ReturnKeepsValid(s, p); }
  }

  lemma {:induction false} RunKeepsValid(s: State, es: seq<Event>)
    requires Valid(s)
    ensures Valid(Run(s, es))
    decreases |es|
  {
    if es != [] {
      StepKeepsValid(s, es[0]);
      RunKeepsValid(Step(s, es[0]), es[1..]);
    }
  }

  // ── The queue it implements ────────────────────────────────────────────────

  /** The node's operations that are not done, in the order they were submitted. */
  function Pending(ops: seq<Operation>, n: string): seq<nat> {
    if ops == [] then []
    else
      var k := |ops| - 1;
      Pending(ops[..k], n) + if ops[k].node == n && !Done(ops[k]) then [k] else []
  }

  lemma {:induction false} PendingIsComplete(ops: seq<Operation>, n: string, p: nat)
    ensures p in Pending(ops, n) <==> p < |ops| && ops[p].node == n && !Done(ops[p])
    decreases |ops|
  {
    if ops != [] {
      PendingIsComplete(ops[..|ops| - 1], n, p);
    }
  }

  lemma {:induction false} PendingInOrder(ops: seq<Operation>, n: string)
    ensures forall i, j :: 0 <= i < j < |Pending(ops, n)| ==> Pending(ops, n)[i] < Pending(ops, n)[j]
    decreases |ops|
  {
    if ops != [] {
      var k := |ops| - 1;
      var rest := Pending(ops[..k], n);
      PendingInOrder(ops[..k], n);
      forall i | 0 <= i < |rest| ensures rest[i] < k {
        PendingIsComplete(ops[..k], n, rest[i]);
        assert rest[i] in rest;
      }
    }
  }

  /** A change that neither finishes nor revives an operation of the node. */
  lemma {:induction false} SamePending(ops: seq<Operation>, p: nat, o: Operation, n: string)
    requires p < |ops| && o.node == ops[p].node && (o.node == n ==> (Done(o) <==> Done(ops[p])))
    ensures Pending(ops[p := o], n) == Pending(ops, n)
    decreases |ops|
  {
    var k := |ops| - 1;
    if p < k {
      SamePending(ops[..k], p, o, n);
      assert ops[p := o][..k] == ops[..k][p := o];
    } else {
      assert ops[p := o][..k] == ops[..k];
    }
  }

  lemma {:induction false} NothingPending(ops: seq<Operation>, n: string)
    requires forall r :: 0 <= r < |ops| && ops[r].node == n ==> Done(ops[r])
    ensures Pending(ops, n) == []
    decreases |ops|
  {
    if ops != [] {
      NothingPending(ops[..|ops| - 1], n);
    }
  }

  /** When everything before it is done, an operation that becomes done leaves the front of the queue. */
  lemma {:induction false} PopPending(ops: seq<Operation>, p: nat, o: Operation)
    requires p < |ops| && o.node == ops[p].node && Done(o) && !Done(ops[p])
    requires forall r :: 0 <= r < p && ops[r].node == o.node ==> Done(ops[r])
    ensures Pending(ops, o.node) == [p] + Pending(ops[p := o], o.node)
    decreases |ops|
  {
    var k := |ops| - 1;
    if p < k {
      PopPending(ops[..k], p, o);
      assert ops[p := o][..k] == ops[..k][p := o];
    } else {
      assert ops[p := o][..k] == ops[..k];
      NothingPending(ops[..k], o.node);
    }
  }

  /** The queue's view of one step: join at the back, leave from the front, or no change. */
  ghost predicate QueueStep(s: State, e: Event, n: string) {
    var before, after := Pending(s.ops, n), Pending(Step(s, e).ops, n);
    match e
    case Submit(m) => after == if m == n then before + [|s.ops|] else before
    case Start(p) =>
      && after == before
      && (CanStart(s, p) && s.ops[p].node == n ==> before != [] && before[0] == p)
    case Settle(p, _) =>
      if p < |s.ops| && s.ops[p].status.Running? && s.ops[p].node == n
      then before == [p] + after
      else after == before
    case Return(_) => after == before
  }

  /**
   The tail map is a FIFO queue per node: a call joins at the back, only the front may start,
   it leaves from the front when it settles, successfully or not, and other nodes see nothing.
   */
  lemma TailMapIsFifo(s: State, e: Event, n: string)
    requires Valid(s)
    ensures QueueStep(s, e, n)
  {
    match e
    case Submit(m) => assert Step(s, e).ops[..|s.ops|] == s.ops;
    case Start(p) =>
      if CanStart(s, p) {
        SamePending(s.ops, p, s.ops[p].(status := Running), n);
        if s.ops[p].node == n {
          StartableIsNext(s, p);
          PopPending(s.ops, p, s.ops[p].(status := Settled(true)));
        }
      }
    case Settle(p, ok) =>
      if p < |s.ops| && s.ops[p].status.Running? {
        assert EarlierDone(s, p);
        var o := s.ops[p].(status := Settled(ok));
        if o.node == n {
          PopPending(s.ops, p, o);
        } else {
          SamePending(s.ops, p, o, n);
        }
      }
    case Return(p) =>
      if p < |s.ops| && s.ops[p].status.Settled? {
        SamePending(s.ops, p, s.ops[p].(status := Returned(s.ops[p].status.ok)), n);
      }
  }

  /** In every reachable state at most one operation of a node runs. */
  lemma AtMostOneRuns(es: seq<Event>, p: nat, q: nat)
    requires var s := Run(EMPTY, es);
             p < |s.ops| && q < |s.ops| && s.ops[p].node == s.ops[q].node
             && s.ops[p].status.Running? && s.ops[q].status.Running?
    ensures p == q
  {
    RunKeepsValid(EMPTY, es);
    var s := Run(EMPTY, es);
    assert EarlierDone(s, p) && EarlierDone(s, q);
  }

  /** Whatever became of the operations before it, the front of an idle queue can start. */
  lemma FrontCanStart(es: seq<Event>, n: string, p: nat)
    requires p < |Run(EMPTY, es).ops| && Run(EMPTY, es).ops[p].status.Queued?
    requires Pending(Run(EMPTY, es).ops, n) != [] && Pending(Run(EMPTY, es).ops, n)[0] == p
    ensures CanStart(Run(EMPTY, es), p)
  {
    RunKeepsValid(EMPTY, es);
    var s := Run(EMPTY, es);
    var front := Pending(s.ops, n);
    assert p in front;
    PendingIsComplete(s.ops, n, p);
    PendingInOrder(s.ops, n);
    assert Chained(s, p);
    if s.ops[p].after.Some? {
      var q := s.ops[p].after.value;
      PendingIsComplete(s.ops, n, q);
      assert q !in front;
    }
  }

  /** Started, that front runs; and it takes the outcome it then settles with to its caller. */
  lemma FrontRunsToItsOutcome(es: seq<Event>, n: string, p: nat, ok: bool)
    requires p < |Run(EMPTY, es).ops| && Run(EMPTY, es).ops[p].status.Queued?
    requires Pending(Run(EMPTY, es).ops, n) != [] && Pending(Run(EMPTY, es).ops, n)[0] == p
    ensures var s1 := Step(Run(EMPTY, es), Start(p));
            var s2 := Step(s1, Settle(p, ok));
            var s3 := Step(s2, Return(p));
            && s1.ops[p].status == Running && s2.ops[p].status == Settled(ok) && s3.ops[p].status == Returned(ok)
            && (Pending(Run(EMPTY, es).ops, n) == [p] ==> n !in s3.tails)
  {
    FrontCanStart(es, n, p);
    RunKeepsValid(EMPTY, es);
    var s := Run(EMPTY, es);
    assert p in Pending(s.ops, n);
    PendingIsComplete(s.ops, n, p);
    if Pending(s.ops, n) == [p] {
      assert TailRight(s, n);
      if n in s.tails && s.tails[n] != p {
        LastCallPending(s, n, p);
      }
    }
  }

  /** If anything of the node is pending, the call whose promise the key holds is. */
  lemma LastCallPending(s: State, n: string, p: nat)
    requires Valid(s) && n in s.tails && p < |s.ops| && s.ops[p].node == n && !Done(s.ops[p])
    ensures s.tails[n] in Pending(s.ops, n)
  {
    assert TailRight(s, n);
    var t := s.tails[n];
    assert Chained(s, t) && (!s.ops[t].status.Queued? ==> EarlierDone(s, t));
    PendingIsComplete(s.ops, n, t);
  }

  /** A call that has settled or returned did so as its own `Settle` said. */
  lemma {:induction false} OutcomeIsItsOwn(s: State, es: seq<Event>, p: nat)
    requires p < |Run(s, es).ops| && Done(Run(s, es).ops[p]) && (p < |s.ops| ==> !Done(s.ops[p]))
    ensures Settle(p, Run(s, es).ops[p].status.ok) in es
    decreases |es|
  {
    if es != [] {
      var r := Step(s, es[0]);
      if p < |r.ops| && Done(r.ops[p]) {
        OutcomeStays(r, es[1..], p);
      } else {
        OutcomeIsItsOwn(r, es[1..], p);
      }
    }
  }

  lemma {:induction false} OutcomeStays(s: State, es: seq<Event>, p: nat)
    requires p < |s.ops| && Done(s.ops[p])
    ensures p < |Run(s, es).ops| && Done(Run(s, es).ops[p]) && Run(s, es).ops[p].status.ok == s.ops[p].status.ok
    decreases |es|
  {
    if es != [] {
      OutcomeStays(Step(s, es[0]), es[1..], p);
    }
  }

  ghost predicate ReturnedUpTo(s: State, k: nat) {
    k <= |s.ops| && forall p :: 0 <= p < k ==> s.ops[p].status.Returned?
  }

  /** The oldest call that has not returned can always be brought to its end. */
  lemma OldestReturns(s: State, k: nat) returns (es: seq<Event>)
    requires Valid(s) && ReturnedUpTo(s, k) && k < |s.ops|
    ensures Valid(Run(s, es)) && ReturnedUpTo(Run(s, es), k + 1) && |Run(s, es).ops| == |s.ops|
  {
    assert Chained(s, k);
    es := [Start(k), Settle(k, true), Return(k)];
    var s1 := Step(s, es[0]);
    var s2 := Step(s1, es[1]);
    var s3 := Step(s2, es[2]);
    StepKeepsValid(s, es[0]);
    StepKeepsValid(s1, es[1]);
    StepKeepsValid(s2, es[2]);
    assert es[1..][1..] == [es[2]];
    assert Run(s2, [es[2]]) == s3;
    assert Run(s1, es[1..]) == s3;
  }

  lemma {:induction false} RunSplit(s: State, first: seq<Event>, second: seq<Event>)
    ensures Run(s, first + second) == Run(Run(s, first), second)
    decreases |first|
  {
    if first == [] {
      assert first + second == second;
    } else {
      assert (first + second)[1..] == first[1..] + second;
      RunSplit(Step(s, first[0]), first[1..], second);
    }
  }

  lemma {:induction false} RestReturns(s: State, k: nat) returns (es: seq<Event>)
    requires Valid(s) && ReturnedUpTo(s, k)
    ensures Valid(Run(s, es)) && ReturnedUpTo(Run(s, es), |s.ops|) && |Run(s, es).ops| == |s.ops|
    decreases |s.ops| - k
  {
    if k == |s.ops| {
      es := [];
    } else {
      var first := OldestReturns(s, k);
      var second := RestReturns(Run(s, first), k + 1);
      RunSplit(s, first, second);
      es := first + second;
    }
  }

  /** From every reachable state the calls made so far can all be brought to return, and then no key is left. */
  lemma EveryCallCanReturn(es: seq<Event>) returns (more: seq<Event>)
    ensures var r := Run(EMPTY, es + more);
            && |r.ops| == |Run(EMPTY, es).ops| && r.tails == map[]
            && forall p :: 0 <= p < |r.ops| ==> r.ops[p].status.Returned?
  {
    RunKeepsValid(EMPTY, es);
    more := RestReturns(Run(EMPTY, es), 0);
    RunSplit(EMPTY, es, more);
    var r := Run(EMPTY, es + more);
    forall n ensures n !in r.tails {
      assert TailRight(r, n);
    }
    assert r.tails.Keys == {};
  }

  /** Without a key nothing of the node is queued or running; and no key outlives the calls. */
  lemma KeysMatchWork(es: seq<Event>, n: string)
    ensures n !in Run(EMPTY, es).tails ==> Pending(Run(EMPTY, es).ops, n) == []
    ensures (forall p :: 0 <= p < |Run(EMPTY, es).ops| ==> Run(EMPTY, es).ops[p].status.Returned?) ==>
              n !in Run(EMPTY, es).tails
  {
    RunKeepsValid(EMPTY, es);
    var s := Run(EMPTY, es);
    assert TailRight(s, n);
    if n !in s.tails {
      NothingPending(s.ops, n);
    }
  }

  // ── The queue as the manager holds it ──────────────────────────────────────

  class Operations {
    var operations: map<string, nat>
    var promises: seq<Operation>

    ghost function Model(): State
      reads this
    {
      State(promises, operations)
    }

    constructor ()
      ensures Model() == EMPTY
    {
      operations := map[];
      promises := [];
    }

    /** `runExclusive` up to its await. */
    method RunExclusive(nodeId: string) returns (current: nat)
      modifies this
      ensures current == |old(promises)|
      ensures Model() == Step(old(Model()), Submit(nodeId))
    {
      var previous := None;
      if nodeId in operations {
        previous := Some(operations[nodeId]);
      }
      current := |promises|;
      promises := promises + [Operation(nodeId, previous, Queued)];
      operations := operations[nodeId := current];
    }

    /** The chained `then`: runs once the previous promise has settled either way. */
    method BeginTask(current: nat) returns (begun: bool)
      modifies this`promises
      ensures begun == old(CanStart(Model(), current))
      ensures Model() == Step(old(Model()), Start(current))
    {
      begun := false;
      if current < |promises| && promises[current].status.Queued? {
        var free := true;
        if promises[current].after.Some? {
          var q := promises[current].after.value;
          free := q < |promises| && Done(promises[q]);
        }
        if free {
          promises := promises[current := promises[current].(status := Running)];
          begun := true;
        }
      }
    }

    method SettleTask(current: nat, ok: bool)
      requires current < |promises| && promises[current].status.Running?
      modifies this`promises
      ensures Model() == Step(old(Model()), Settle(current, ok))
    {
      promises := promises[current := promises[current].(status := Settled(ok))];
    }

    /** The `finally` block of the call. */
    method Finish(current: nat)
      requires current < |promises| && promises[current].status.Settled?
      modifies this
      ensures Model() == Step(old(Model()), Return(current))
    {
      var nodeId := promises[current].node;
      if nodeId in operations && operations[nodeId] == current {
        operations := operations - {nodeId};
      }
      promises := promises[current := promises[current].(status := Returned(promises[current].status.ok))];
    }
  }
}
