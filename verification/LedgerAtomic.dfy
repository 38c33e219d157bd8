/**
 The ledger with handlers that run to completion, for any number of workers and any responses at
 all, stale and duplicate ones included. Each operation is a run of the fine-grained system, so
 its accounting carries over; exclusivity and no loss hold here for any number of workers.
 */
module LedgerAtomic {
  import opened Ledger
  import opened LedgerRuns
  import opened LedgerSingle

  datatype Op =
    | PushOp(task: Task)
    | AssignOp
    | ResponseOp(id: string, accept: bool)
    | WorkerOp(worker: string)

  function Do(c: Core, op: Op): Core {
    match op
    case PushOp(t) => AfterPush(c, t)
    case AssignOp => AfterAssign(c)
    case ResponseOp(id, accept) => AfterResponse(c, id, accept)
    case WorkerOp(w) => AfterWorkerUp(c, w)
  }

  function RunOps(c: Core, ops: seq<Op>): Core
    decreases |ops|
  {
    if |ops| == 0 then c else RunOps(Do(c, ops[0]), ops[1..])
  }

  // ---------------------------------------------------------------- exclusivity

  ghost predicate FromPushed(c: Core) {
    && (forall t :: t in c.queue ==> t in c.pushed)
    && (forall id :: id in c.pending ==> c.pending[id] in c.pushed && c.pending[id].id == id)
  }

  /** A task is queued at most once, and not at all while it is pending. */
  ghost predicate Exclusive(c: Core, t: Task) {
    multiset(c.queue)[t] + If(t.id in c.pending) <= 1
  }

  ghost predicate AllExclusive(c: Core) {
    FromPushed(c) && DistinctIds(c.pushed) && forall t :: t in c.pushed ==> Exclusive(c, t)
  }

  lemma PushExclusive(c: Core, task: Task)
    requires AllExclusive(c) && DistinctIds(AfterPush(c, task).pushed)
    ensures AllExclusive(AfterPush(c, task))
  {
    if HasRoom(c) {
      FreshId(c.pushed, task);
      assert task !in c.pushed;
      forall t | t in c.pushed + [task]
        ensures Exclusive(AfterPush(c, task), t)
      {
        if t in c.pushed {
          assert Exclusive(c, t);
        }
      }
    }
  }

  lemma AssignExclusive(c: Core)
    requires AllExclusive(c)
    ensures AllExclusive(AfterAssign(c))
  {
    if c.queue != [] {
      var task := c.queue[0];
      assert c.queue == [task] + c.queue[1..];
      forall t | t in c.pushed
        ensures Exclusive(AfterAssign(c), t)
      {
        assert Exclusive(c, t);
        if t.id == task.id {
          DistinctById(c.pushed, t, task);
        }
      }
    }
  }

  lemma ResponseExclusive(c: Core, id: string, accept: bool)
    requires AllExclusive(c)
    ensures AllExclusive(AfterResponse(c, id, accept))
  {
    forall t | t in c.pushed
      ensures Exclusive(AfterResponse(c, id, accept), t)
    {
      assert Exclusive(c, t);
      if id in c.pending && c.pending[id] == t {
        assert t.id == id;
      }
    }
  }

  lemma DoExclusive(c: Core, op: Op)
    requires AllExclusive(c) && DistinctIds(Do(c, op).pushed)
    ensures AllExclusive(Do(c, op))
  {
    match op
    case PushOp(t) => PushExclusive(c, t);
    case AssignOp => AssignExclusive(c);
    case ResponseOp(id, accept) => ResponseExclusive(c, id, accept);
    case WorkerOp(w) =>
      assert forall t :: Exclusive(c, t) ==> Exclusive(Do(c, op), t);
  }

  lemma {:induction false} OpsGrow(c: Core, ops: seq<Op>)
    ensures c.pushed <= RunOps(c, ops).pushed && c.capacity == RunOps(c, ops).capacity
    decreases |ops|
  {
    if |ops| > 0 {
      OpsGrow(Do(c, ops[0]), ops[1..]);
    }
  }

  lemma {:induction false} RunExclusive(c: Core, ops: seq<Op>)
    requires AllExclusive(c) && DistinctIds(RunOps(c, ops).pushed)
    ensures AllExclusive(RunOps(c, ops))
    decreases |ops|
  {
    if |ops| > 0 {
      OpsGrow(Do(c, ops[0]), ops[1..]);
      PrefixDistinct(Do(c, ops[0]).pushed, RunOps(c, ops).pushed);
      DoExclusive(c, ops[0]);
      RunExclusive(Do(c, ops[0]), ops[1..]);
    }
  }

  /** Whatever responses come, a task with an id of its own is never queued twice and never both
      queued and pending. */
  lemma Exclusivity(capacity: nat, ops: seq<Op>, t: Task)
    requires DistinctIds(RunOps(Empty(capacity), ops).pushed)
    ensures multiset(RunOps(Empty(capacity), ops).queue)[t]
            + If(t.id in RunOps(Empty(capacity), ops).pending
                 && RunOps(Empty(capacity), ops).pending[t.id] == t) <= 1
  {
    RunExclusive(Empty(capacity), ops);
    var c := RunOps(Empty(capacity), ops);
    if t in c.pushed {
      assert Exclusive(c, t);
    }
  }

  // ---------------------------------------------------------------- no loss

  /** A worker is connected whenever AssignTask is called. */
  ghost predicate WorkerBeforeAssign(c: Core, ops: seq<Op>)
    decreases |ops|
  {
    |ops| == 0
    || ((ops[0] == AssignOp ==> c.workers != {}) && WorkerBeforeAssign(Do(c, ops[0]), ops[1..]))
  }

  /** A pending task that is rejected finds room in the channel. */
  lemma RoomForPending(c: Core, id: string)
    requires AllExclusive(c) && |c.pushed| <= c.capacity && id in c.pending
    ensures HasRoom(c)
  {
    var task := c.pending[id];
    assert Exclusive(c, task);
    assert task in c.queue ==> multiset(c.queue)[task] >= 1;
    forall u | u in c.queue
      ensures u in c.pushed && multiset(c.queue)[u] <= 1
    {
      assert Exclusive(c, u);
    }
    Pigeonhole(c.queue, c.pushed, task);
  }

  lemma DoLossless(c: Core, op: Op)
    requires AllExclusive(c) && |c.pushed| <= c.capacity
    requires op == AssignOp ==> c.workers != {}
    ensures Do(c, op).lost == c.lost
  {
    if op.ResponseOp? && op.id in c.pending {
      RoomForPending(c, op.id);
    }
  }

  lemma {:induction false} RunOpsLossless(c: Core, ops: seq<Op>)
    requires AllExclusive(c) && DistinctIds(RunOps(c, ops).pushed)
    requires WorkerBeforeAssign(c, ops) && |RunOps(c, ops).pushed| <= c.capacity
    ensures RunOps(c, ops).lost == c.lost
    decreases |ops|
  {
    if |ops| > 0 {
      var c' := Do(c, ops[0]);
      OpsGrow(c', ops[1..]);
      PrefixDistinct(c'.pushed, RunOps(c, ops).pushed);
      DoExclusive(c, ops[0]);
      DoLossless(c, ops[0]);
      RunOpsLossless(c', ops[1..]);
    }
  }

  /**
   No loss with any number of workers: with distinct ids, at most as many pushes as the channel
   holds, and a worker connected before the first assignment, no sequence of operations and
   responses loses a task, and each pushed task is queued, pending or accepted.
   */
  lemma NoLossAnyWorkers(capacity: nat, ops: seq<Op>)
    requires DistinctIds(RunOps(Empty(capacity), ops).pushed)
    requires |RunOps(Empty(capacity), ops).pushed| <= capacity
    requires WorkerBeforeAssign(Empty(capacity), ops)
    ensures var c := RunOps(Empty(capacity), ops);
            && c.lost == []
            && (forall id :: id in c.pending ==> HasRoom(c))
            && forall t :: t in c.pushed ==> Has(c.queue, t.id) || t.id in c.pending || t.id in c.accepted
  {
    RunOpsLossless(Empty(capacity), ops);
    RunExclusive(Empty(capacity), ops);
    var c := RunOps(Empty(capacity), ops);
    OpsGrow(Empty(capacity), ops);
    forall id | id in c.pending
      ensures HasRoom(c)
    {
      RoomForPending(c, id);
    }
    AtomicAccounting(capacity, ops);
    forall t | t in c.pushed
      ensures Has(c.queue, t.id) || t.id in c.pending || t.id in c.accepted
    {
      assert Has(c.pushed, t.id);
    }
  }

  // ---------------------------------------------------------------- atomic handlers are fine runs

  ghost predicate Quiet(s: State, c: Core) {
    s.held == Held(c, Idle, multiset{})
  }

  lemma AssignIsRun(s: State, c: Core) returns (steps: seq<Step>)
    requires Quiet(s, c)
    ensures Quiet(Run(s, steps), AfterAssign(c))
  {
    if c.queue == [] {
      steps := [];
    } else {
      steps := Round(s);
    }
  }

  lemma ResponseArrives(s: State, c: Core, r: Response) returns (steps: seq<Step>)
    requires Quiet(s, c)
    ensures Run(s, steps).held == if r.accept then Accept(s.held, r.id) else Load(s.held, r.id)
  {
    RunOne(s, Spurious(r));
    RunSnoc(s, [Spurious(r)], Receive(r));
    steps := [Spurious(r)] + [Receive(r)];
  }

  lemma HandBack(s: State, t: Task) returns (steps: seq<Step>)
    requires Loaded(t) in s.held.rejecting
    ensures Run(s, steps).held == PushBack(Delete(s.held, t), t)
  {
    RunOne(s, DeleteStep(t));
    RunSnoc(s, [DeleteStep(t)], PushBackStep(t));
    steps := [DeleteStep(t)] + [PushBackStep(t)];
  }

  lemma ResponseIsRun(s: State, c: Core, r: Response) returns (steps: seq<Step>)
    requires Quiet(s, c) && Genuine(s.held)
    ensures Quiet(Run(s, steps), AfterResponse(c, r.id, r.accept))
  {
    steps := ResponseArrives(s, c, r);
    if !r.accept && r.id in c.pending {
      var t := c.pending[r.id];
      var s' := Run(s, steps);
      assert Loaded(t) in s'.held.rejecting;
      var back := HandBack(s', t);
      RunAppend(s, steps, back);
      assert Run(s', back).held.rejecting == multiset{};
      steps := steps + back;
    }
  }

  /** Every operation of the atomic ledger is a run of the fine-grained one. */
  lemma OpIsRun(s: State, c: Core, op: Op) returns (steps: seq<Step>)
    requires Quiet(s, c) && Genuine(s.held)
    ensures Quiet(Run(s, steps), Do(c, op))
  {
    match op
    case PushOp(t) =>
      RunOne(s, PushStep(t));
      steps := [PushStep(t)];
    case AssignOp => steps := AssignIsRun(s, c);
    case ResponseOp(id, accept) => steps := ResponseIsRun(s, c, Response(id, accept));
    case WorkerOp(w) =>
      RunOne(s, ConnectStep(w));
      steps := [ConnectStep(w)];
  }

  lemma {:induction false} OpsAreRuns(s: State, c: Core, ops: seq<Op>) returns (steps: seq<Step>)
    requires Quiet(s, c) && Sound(s.held)
    ensures Quiet(Run(s, steps), RunOps(c, ops))
    decreases |ops|
  {
    if |ops| == 0 {
      steps := [];
    } else {
      var first := OpIsRun(s, c, ops[0]);
      RunKeeps(s, first);
      var rest := OpsAreRuns(Run(s, first), Do(c, ops[0]), ops[1..]);
      RunAppend(s, first, rest);
      steps := first + rest;
    }
  }

  /** So the atomic ledger accounts for every pushed task: queued, pending, accepted or lost. */
  lemma AtomicAccounting(capacity: nat, ops: seq<Op>)
    ensures var c := RunOps(Empty(capacity), ops);
            forall id :: Has(c.pushed, id) ==>
              Has(c.queue, id) || id in c.pending || id in c.accepted || Has(c.lost, id)
  {
    var steps := OpsAreRuns(Start(capacity), Empty(capacity), ops);
    RunKeeps(Start(capacity), steps);
    var c := RunOps(Empty(capacity), ops);
    forall id | Has(c.pushed, id)
      ensures Has(c.queue, id) || id in c.pending || id in c.accepted || Has(c.lost, id)
    {
      assert Accounted(Held(c, Idle, multiset{}), id);
    }
  }
}
