/**
 One worker, distinct task ids and a transport that may drop but does not invent or duplicate
 messages: then every pushed task is in exactly one place under every interleaving and is accepted
 at most once.
 */
module LedgerSingle {
  import opened Ledger
  import opened LedgerRuns

  function If(b: bool): nat {
    if b then 1 else 0
  }

  /** In how many places a task is: queued, in the loop's hand, handed back, pending, accepted, lost. */
  ghost function Places(h: Held, t: Task): nat {
    multiset(h.core.queue)[t]
    + If(Unstored(h.hand) && h.hand.task == t)
    + h.rejecting[Deleted(t)]
    + If(t.id in h.core.pending)
    + multiset(h.core.accepted)[t.id]
    + multiset(h.core.lost)[t]
  }

  /** Assign requests, responses and loaded rejections under way for a task. */
  ghost function Tokens(s: State, t: Task): nat {
    s.requests[t.id] + s.responses[Response(t.id, true)] + s.responses[Response(t.id, false)]
    + s.held.rejecting[Loaded(t)]
  }

  /** The task is in one place, and something is under way for it only while it is pending. */
  ghost predicate Once(s: State, t: Task) {
    Places(s.held, t) == 1 && Tokens(s, t) <= If(t.id in s.held.core.pending)
  }

  /** Whatever is in flight or has been accepted concerns one of these tasks. */
  ghost predicate Concerns(s: State, tasks: seq<Task>) {
    && (forall id :: id in s.requests ==> Has(tasks, id))
    && (forall r :: r in s.responses ==> Has(tasks, r.id))
    && (forall id :: id in s.held.core.accepted ==> Has(tasks, id))
  }

  ghost predicate Known(s: State) {
    Concerns(s, s.held.core.pushed)
  }

  ghost predicate AllOnce(s: State) {
    forall t :: t in s.held.core.pushed ==> Once(s, t)
  }

  ghost predicate OneWorker(s: State, w: string) {
    && DistinctIds(s.held.core.pushed)
    && s.held.core.workers <= {w}
    && (s.held.hand.Holding? ==> s.held.hand.served <= s.held.core.workers)
    && s.notFound == 0
  }

  ghost predicate Single(s: State, w: string) {
    Genuine(s.held) && Known(s) && OneWorker(s, w) && AllOnce(s)
  }

  // ---------------------------------------------------------------- one task through each step

  lemma PushNew(s: State, task: Task)
    requires HasRoom(s.held.core) && Places(s.held, task) == 0 && Tokens(s, task) == 0
    ensures Once(Apply(s, PushStep(task)), task)
  {
  }

  lemma PushOther(s: State, task: Task, t: Task)
    requires Once(s, t) && t != task
    ensures Once(Apply(s, PushStep(task)), t)
  {
  }

  lemma TakeOnce(s: State, t: Task)
    requires Once(s, t) && Enabled(s, TakeStep)
    ensures Once(Apply(s, TakeStep), t)
  {
    assert s.held.core.queue == [s.held.core.queue[0]] + s.held.core.queue[1..];
  }

  lemma ServeOnce(s: State, worker: string, t: Task)
    requires Once(s, t) && Enabled(s, ServeStep(worker)) && Unstored(s.held.hand)
    requires t.id == s.held.hand.task.id ==> t == s.held.hand.task
    ensures Once(Apply(s, ServeStep(worker)), t)
  {
  }

  lemma FinishOnce(s: State, t: Task)
    requires Once(s, t) && Enabled(s, FinishStep)
    ensures Once(Apply(s, FinishStep), t)
  {
  }

  lemma AcceptOnce(s: State, r: Response, t: Task)
    requires Once(s, t) && Enabled(s, Receive(r)) && r.accept
    ensures Once(Apply(s, Receive(r)), t)
  {
    assert t.id == r.id ==> Tokens(s, t) == 1;
  }

  lemma LoadOnce(s: State, r: Response, t: Task)
    requires Once(s, t) && Enabled(s, Receive(r)) && !r.accept
    requires r.id in s.held.core.pending && (t.id == r.id <==> s.held.core.pending[r.id] == t)
    ensures Once(Apply(s, Receive(r)), t)
  {
    assert t.id == r.id ==> Tokens(s, t) == 1;
  }

  lemma DeleteOnce(s: State, task: Task, t: Task)
    requires Once(s, t) && Enabled(s, DeleteStep(task))
    requires t.id == task.id ==> t == task
    ensures Once(Apply(s, DeleteStep(task)), t)
  {
    assert t == task ==> Tokens(s, t) == 1;
  }

  lemma PushBackOnce(s: State, task: Task, t: Task)
    requires Once(s, t) && Enabled(s, PushBackStep(task))
    ensures Once(Apply(s, PushBackStep(task)), t)
  {
  }

  lemma NetworkOnce(s: State, step: Step, t: Task)
    requires Once(s, t) && Enabled(s, step)
    requires step.Answer? || step.DropRequest? || step.DropResponse? || step.ConnectStep?
    ensures Once(Apply(s, step), t)
  {
    if step.Answer? {
      assert step.response == Response(step.response.id, step.response.accept);
    }
  }

  // ---------------------------------------------------------------- the state through each step

  /** A response in flight is for a pending task. */
  lemma ResponseIsForPending(s: State, w: string, r: Response)
    requires Single(s, w) && r in s.responses
    ensures r.id in s.held.core.pending && s.held.core.pending[r.id] in s.held.core.pushed
    ensures s.held.core.pending[r.id].id == r.id
  {
    var t :| t in s.held.core.pushed && t.id == r.id;
    assert Once(s, t);
    assert r == Response(t.id, r.accept);
    assert Tokens(s, t) >= 1;
  }

  lemma NowhereBefore(s: State, task: Task)
    requires Genuine(s.held) && Known(s) && !Has(s.held.core.pushed, task.id)
    ensures Places(s.held, task) == 0 && Tokens(s, task) == 0
  {
    var h := s.held;
    assert task !in h.core.pushed;
    assert Deleted(task) !in h.rejecting && Loaded(task) !in h.rejecting;
    assert Response(task.id, true) !in s.responses && Response(task.id, false) !in s.responses;
  }

  lemma FreshId(before: seq<Task>, task: Task)
    requires DistinctIds(before + [task])
    ensures !Has(before, task.id)
  {
    var after := before + [task];
    forall t | t in before
      ensures t.id != task.id
    {
      var i :| 0 <= i < |before| && before[i] == t;
      assert after[i] == t && after[|before|] == task;
    }
  }

  lemma ReceiveConcerns(s: State, r: Response, tasks: seq<Task>)
    requires Concerns(s, tasks) && r in s.responses
    ensures Concerns(Apply(s, Receive(r)), tasks)
  {
  }

  lemma NetworkConcerns(s: State, step: Step, tasks: seq<Task>)
    requires Concerns(s, tasks) && Enabled(s, step)
    requires step.Answer? || step.DropRequest? || step.DropResponse?
    ensures Concerns(Apply(s, step), tasks)
  {
  }

  lemma LoopConcerns(s: State, step: Step, tasks: seq<Task>)
    requires Concerns(s, tasks) && Enabled(s, step)
    requires step.TakeStep? || step.ServeStep? || step.FinishStep?
    requires s.held.hand.Holding? ==> Has(tasks, s.held.hand.task.id)
    ensures Concerns(Apply(s, step), tasks)
  {
  }

  /** The other steps leave alone what is in flight and what has been accepted. */
  lemma OthersConcern(s: State, step: Step, tasks: seq<Task>)
    requires Concerns(s, tasks)
    requires step.PushStep? || step.ConnectStep? || step.DeleteStep? || step.PushBackStep?
    ensures Concerns(Apply(s, step), tasks)
  {
  }

  lemma StepConcerns(s: State, step: Step, tasks: seq<Task>)
    requires Concerns(s, tasks) && !step.Spurious? && Enabled(s, step)
    requires s.held.hand.Holding? ==> Has(tasks, s.held.hand.task.id)
    ensures Concerns(Apply(s, step), tasks)
  {
    if step.Receive? {
      ReceiveConcerns(s, step.response, tasks);
    } else if step.Answer? || step.DropRequest? || step.DropResponse? {
      NetworkConcerns(s, step, tasks);
    } else if step.TakeStep? || step.ServeStep? || step.FinishStep? {
      LoopConcerns(s, step, tasks);
    } else {
      OthersConcern(s, step, tasks);
    }
  }

  lemma ConcernsMore(s: State, tasks: seq<Task>, more: seq<Task>)
    requires Concerns(s, tasks) && tasks <= more
    ensures Concerns(s, more)
  {
    forall id | Has(tasks, id)
      ensures Has(more, id)
    {
      var t :| t in tasks && t.id == id;
      assert t in more;
    }
  }

  lemma StepOneWorker(s: State, w: string, step: Step)
    requires OneWorker(s, w) && Enabled(s, step)
    requires DistinctIds(Apply(s, step).held.core.pushed) && Apply(s, step).held.core.workers <= {w}
    requires step.Receive? ==> step.response.id in s.held.core.pending
    ensures OneWorker(Apply(s, step), w)
  {
  }

  lemma ReceiveOnce(s: State, w: string, r: Response, t: Task)
    requires Single(s, w) && r in s.responses && t in s.held.core.pushed
    ensures Once(Apply(s, Receive(r)), t)
  {
    assert Once(s, t);
    if r.accept {
      AcceptOnce(s, r, t);
    } else {
      ResponseIsForPending(s, w, r);
      if t.id == r.id {
        DistinctById(s.held.core.pushed, t, s.held.core.pending[r.id]);
      }
      LoadOnce(s, r, t);
    }
  }

  lemma TaskOnce(s: State, w: string, step: Step, t: Task)
    requires Single(s, w) && !step.Spurious? && Enabled(s, step)
    requires t in s.held.core.pushed
    requires step.PushStep? ==> !HasRoom(s.held.core) || !Has(s.held.core.pushed, step.task.id)
    ensures Once(Apply(s, step), t)
  {
    var pushed := s.held.core.pushed;
    assert Once(s, t);
    match step
    case PushStep(task) => if HasRoom(s.held.core) { PushOther(s, task, t); }
    case TakeStep => TakeOnce(s, t);
    case ServeStep(worker) =>
      if t.id == s.held.hand.task.id {
        DistinctById(pushed, t, s.held.hand.task);
      }
      ServeOnce(s, worker, t);
    case FinishStep => FinishOnce(s, t);
    case Receive(r) => ReceiveOnce(s, w, r, t);
    case DeleteStep(task) =>
      assert Loaded(task) in s.held.rejecting;
      if t.id == task.id {
        DistinctById(pushed, t, task);
      }
      DeleteOnce(s, task, t);
    case PushBackStep(task) => PushBackOnce(s, task, t);
    case _ => NetworkOnce(s, step, t);
  }

  lemma PushAllOnce(s: State, w: string, task: Task)
    requires Single(s, w) && HasRoom(s.held.core)
    requires DistinctIds(s.held.core.pushed + [task])
    ensures AllOnce(Apply(s, PushStep(task)))
  {
    FreshId(s.held.core.pushed, task);
    NowhereBefore(s, task);
    PushNew(s, task);
    forall t | t in s.held.core.pushed
      ensures Once(Apply(s, PushStep(task)), t)
    {
      TaskOnce(s, w, PushStep(task), t);
    }
  }

  lemma StepAllOnce(s: State, w: string, step: Step)
    requires Single(s, w) && !step.Spurious? && Enabled(s, step)
    requires DistinctIds(Apply(s, step).held.core.pushed)
    ensures AllOnce(Apply(s, step))
  {
    if step.PushStep? && HasRoom(s.held.core) {
      PushAllOnce(s, w, step.task);
    } else {
      SamePushed(s, step);
      forall t | t in s.held.core.pushed
        ensures Once(Apply(s, step), t)
      {
        TaskOnce(s, w, step, t);
      }
    }
  }

  lemma SamePushed(s: State, step: Step)
    requires !step.PushStep? || !HasRoom(s.held.core)
    ensures Apply(s, step).held.core.pushed == s.held.core.pushed
  {
  }

  lemma StepOnce(s: State, w: string, step: Step)
    requires Sound(s.held) && Single(s, w) && !step.Spurious?
    requires DistinctIds(Apply(s, step).held.core.pushed)
    requires Apply(s, step).held.core.workers <= {w}
    ensures Sound(Apply(s, step).held) && Single(Apply(s, step), w)
  {
    StepKeeps(s, step);
    if Enabled(s, step) {
      var s' := Apply(s, step);
      StepConcerns(s, step, s.held.core.pushed);
      ConcernsMore(s', s.held.core.pushed, s'.held.core.pushed);
      if step.Receive? {
        ResponseIsForPending(s, w, step.response);
      }
      StepOneWorker(s, w, step);
      StepAllOnce(s, w, step);
    }
  }

  // ---------------------------------------------------------------- over whole runs

  /** No message is invented or duplicated. */
  ghost predicate NoSpurious(steps: seq<Step>) {
    forall i :: 0 <= i < |steps| ==> !steps[i].Spurious?
  }

  /** The run ends with distinct ids pushed and no worker but w, hence never had otherwise. */
  ghost predicate OneWorkerRun(s: State, steps: seq<Step>, w: string) {
    NoSpurious(steps)
    && DistinctIds(Run(s, steps).held.core.pushed)
    && Run(s, steps).held.core.workers <= {w}
  }

  lemma PrefixDistinct(before: seq<Task>, after: seq<Task>)
    requires before <= after && DistinctIds(after)
    ensures DistinctIds(before)
  {
    assert forall i :: 0 <= i < |before| ==> before[i] == after[i];
  }

  lemma {:induction false} RunOnce(s: State, steps: seq<Step>, w: string)
    requires Sound(s.held) && Single(s, w) && OneWorkerRun(s, steps, w)
    ensures Single(Run(s, steps), w)
    decreases |steps|
  {
    if |steps| > 0 {
      var s' := Apply(s, steps[0]);
      StepKeeps(s, steps[0]);
      RunKeeps(s', steps[1..]);
      PrefixDistinct(s'.held.core.pushed, Run(s', steps[1..]).held.core.pushed);
      assert !steps[0].Spurious?;
      StepOnce(s, w, steps[0]);
      RunOnce(s', steps[1..], w);
    }
  }

  /**
   Conservation with one worker: every pushed task is in exactly one of the queue, the loop's
   hand, a push back, the pending table, the accepted and the lost; the number of requests,
   responses and loaded rejections under way for it is at most one, and none unless it is pending;
   and no rejection is ever for a task that is not found.
   */
  lemma ExactlyOnePlace(capacity: nat, steps: seq<Step>, w: string, t: Task)
    requires OneWorkerRun(Start(capacity), steps, w)
    requires t in Run(Start(capacity), steps).held.core.pushed
    ensures var s := Run(Start(capacity), steps);
            && Places(s.held, t) == 1
            && Tokens(s, t) <= If(t.id in s.held.core.pending)
            && s.notFound == 0
  {
    RunOnce(Start(capacity), steps, w);
    assert Once(Run(Start(capacity), steps), t);
  }

  /** A task that has been accepted is accepted once, and from then on it is nowhere from where it
      could be assigned again, in whatever way the run goes on. */
  lemma AcceptedAtMostOnce(capacity: nat, steps: seq<Step>, more: seq<Step>, w: string, t: Task)
    requires OneWorkerRun(Start(capacity), steps + more, w)
    requires t in Run(Start(capacity), steps).held.core.pushed
    requires t.id in Run(Start(capacity), steps).held.core.accepted
    ensures var s := Run(Start(capacity), steps + more);
            && multiset(s.held.core.accepted)[t.id] == 1
            && t !in s.held.core.queue && t.id !in s.held.core.pending
            && !(Unstored(s.held.hand) && s.held.hand.task == t)
            && t.id !in s.requests
  {
    RunAppend(Start(capacity), steps, more);
    var s := Run(Start(capacity), steps);
    RunKeeps(Start(capacity), steps);
    RunKeeps(s, more);
    ExactlyOnePlace(capacity, steps + more, w, t);
    var s' := Run(Start(capacity), steps + more);
    assert t.id in s'.held.core.accepted;
    assert multiset(s'.held.core.accepted)[t.id] >= 1;
    assert t in s'.held.core.queue ==> multiset(s'.held.core.queue)[t] >= 1;
  }

  // ---------------------------------------------------------------- counting

  /** Distinct tasks out of `all`, one of which is left over: fewer than `all`. */
  lemma Pigeonhole(tasks: seq<Task>, all: seq<Task>, leftOver: Task)
    requires forall t :: t in tasks ==> t in all && multiset(tasks)[t] <= 1
    requires leftOver in all && leftOver !in tasks
    ensures |tasks| < |all|
  {
    var small := multiset(tasks) + multiset{leftOver};
    forall t | t in small
      ensures small[t] <= multiset(all)[t]
    {
      assert t == leftOver || t in tasks;
    }
    assert small <= multiset(all);
    assert multiset(all) == small + (multiset(all) - small);
    assert |small| == |tasks| + 1;
  }
}
