/**
 When the interleaved ledger loses nothing: one worker, and no two rejections of one task that are
 both between Load and Delete. That cannot happen as long as rejections are answers to requests,
 nor when rejections are handled one after another; any other message may be stale, duplicated or
 invented.
 */
module LedgerSafety {
  import opened Ledger
  import opened LedgerRuns
  import opened LedgerSingle

  /** How far rejection handlers overlap: not at all, as on one event loop; never between Load and
      Delete of one task; or in any way. */
  datatype Handlers = Serialised | Apart | Concurrent

  /** What a run may do: which workers connect, whether rejections arrive that no worker has sent
      for a request of its own, and how rejection handlers overlap. Acceptances may always be stale
      or invented. */
  datatype Rules = Rules(workers: set<string>, staleRejections: bool, handlers: Handlers)

  /** A handler is between its Load and its Delete for this task. */
  ghost predicate BeingDeleted(h: Held, id: string) {
    exists t :: Loaded(t) in h.rejecting && t.id == id
  }

  /** A worker is connected whenever the loop pops. */
  ghost predicate Allowed(s: State, step: Step, rules: Rules) {
    match step
    case ConnectStep(w) => w in rules.workers
    case TakeStep => s.held.core.workers != {}
    case Spurious(r) => r.accept || rules.staleRejections
    case Receive(r) =>
      r.accept
      || (match rules.handlers
          case Serialised => s.held.rejecting == multiset{}
          case Apart => !BeingDeleted(s.held, r.id)
          case Concurrent => true)
    case _ => true
  }

  ghost predicate Fair(s: State, steps: seq<Step>, rules: Rules)
    decreases |steps|
  {
    |steps| == 0 || (Allowed(s, steps[0], rules) && Fair(Apply(s, steps[0]), steps[1..], rules))
  }

  /** Distinct ids, and no more pushes than the channel holds. */
  ghost predicate Modest(s: State) {
    DistinctIds(s.held.core.pushed) && |s.held.core.pushed| <= s.held.core.capacity
  }

  // ---------------------------------------------------------------- one task through each step

  /** Copies of a task that are queued or on their way to be queued or stored. */
  ghost function Copies(h: Held, t: Task): nat {
    multiset(h.core.queue)[t] + If(Unstored(h.hand) && h.hand.task == t) + h.rejecting[Deleted(t)]
  }

  /** What can still take a task out of the pending table to queue it again. */
  ghost function Rejections(s: State, t: Task, honest: bool): nat {
    s.held.rejecting[Loaded(t)]
    + (if honest then s.requests[t.id] + s.responses[Response(t.id, false)] else 0)
  }

  ghost predicate Lone(s: State, t: Task, honest: bool) {
    Copies(s.held, t) + If(t.id in s.held.core.pending) <= 1
    && Copies(s.held, t) + Rejections(s, t, honest) <= 1
  }

  lemma TakeLone(s: State, t: Task, honest: bool)
    requires Lone(s, t, honest) && Enabled(s, TakeStep)
    ensures Lone(Apply(s, TakeStep), t, honest)
  {
    assert s.held.core.queue == [s.held.core.queue[0]] + s.held.core.queue[1..];
  }

  lemma ServeLone(s: State, w: string, t: Task, honest: bool)
    requires Lone(s, t, honest) && Enabled(s, ServeStep(w)) && Unstored(s.held.hand)
    requires t.id == s.held.hand.task.id ==> t == s.held.hand.task
    ensures Lone(Apply(s, ServeStep(w)), t, honest)
  {
  }

  lemma FinishLone(s: State, t: Task, honest: bool)
    requires Lone(s, t, honest) && Enabled(s, FinishStep)
    ensures Lone(Apply(s, FinishStep), t, honest)
  {
  }

  lemma AcceptLone(s: State, r: Response, t: Task, honest: bool)
    requires Lone(s, t, honest) && r.accept
    ensures Lone(Apply(s, Receive(r)), t, honest)
  {
  }

  lemma LoadLone(s: State, r: Response, t: Task, honest: bool)
    requires Lone(s, t, honest) && Enabled(s, Receive(r)) && !r.accept
    requires r.id in s.held.core.pending ==> (t.id == r.id <==> s.held.core.pending[r.id] == t)
    requires !honest && t.id == r.id ==> s.held.rejecting[Loaded(t)] == 0
    ensures Lone(Apply(s, Receive(r)), t, honest)
  {
    assert r == Response(r.id, false);
  }

  lemma DeleteLone(s: State, u: Task, t: Task, honest: bool)
    requires Lone(s, t, honest) && Enabled(s, DeleteStep(u))
    requires t.id == u.id ==> t == u
    ensures Lone(Apply(s, DeleteStep(u)), t, honest)
  {
  }

  lemma PushBackLone(s: State, u: Task, t: Task, honest: bool)
    requires Lone(s, t, honest) && Enabled(s, PushBackStep(u))
    ensures Lone(Apply(s, PushBackStep(u)), t, honest)
  {
  }

  lemma NetworkLone(s: State, step: Step, t: Task, honest: bool)
    requires Lone(s, t, honest) && Enabled(s, step)
    requires step.Answer? || step.DropRequest? || step.DropResponse? || step.ConnectStep? || step.Spurious?
    requires honest && step.Spurious? ==> step.response.accept
    ensures Lone(Apply(s, step), t, honest)
  {
    if step.Answer? {
      assert step.response == Response(step.response.id, step.response.accept);
    }
  }

  lemma PushOtherLone(s: State, u: Task, t: Task, honest: bool)
    requires Lone(s, t, honest) && t != u
    ensures Lone(Apply(s, PushStep(u)), t, honest)
  {
  }

  lemma PushNewLone(s: State, t: Task, honest: bool)
    requires Copies(s.held, t) == 0 && Rejections(s, t, honest) == 0 && t.id !in s.held.core.pending
    ensures Lone(Apply(s, PushStep(t)), t, honest)
  {
  }

  // ---------------------------------------------------------------- the state through each step

  /** Requests and rejections in flight are for these tasks. */
  ghost predicate AboutTasks(s: State, tasks: seq<Task>) {
    && (forall id :: id in s.requests ==> Has(tasks, id))
    && (forall r :: r in s.responses && !r.accept ==> Has(tasks, r.id))
  }

  ghost predicate AllLone(s: State, honest: bool) {
    forall t :: t in s.held.core.pushed ==> Lone(s, t, honest)
  }

  ghost predicate Lossless(s: State) {
    s.held.core.lost == [] && (s.held.hand.Holding? ==> s.held.hand.due != {})
  }

  ghost predicate Safe(s: State, w: string, honest: bool) {
    && Sound(s.held)
    && DistinctIds(s.held.core.pushed)
    && s.held.core.workers <= {w}
    && (s.held.hand.Holding? ==> s.held.hand.served <= s.held.core.workers)
    && (honest ==> AboutTasks(s, s.held.core.pushed))
    && AllLone(s, honest)
    && Lossless(s)
  }

  /** A rejection about to be handled meets no handler that is about to delete the same entry. */
  lemma NoneBeingDeleted(s: State, w: string, r: Response, rules: Rules, t: Task)
    requires Safe(s, w, !rules.staleRejections) && Enabled(s, Receive(r)) && Allowed(s, Receive(r), rules)
    requires !r.accept && (rules.staleRejections ==> rules.handlers != Concurrent)
    requires t in s.held.core.pushed && t.id == r.id
    ensures s.held.rejecting[Loaded(t)] == 0
  {
    assert Lone(s, t, !rules.staleRejections);
    if rules.staleRejections {
      assert Loaded(t) in s.held.rejecting ==> BeingDeleted(s.held, r.id);
    } else {
      assert r == Response(t.id, false);
    }
  }

  lemma ReceiveLone(s: State, w: string, r: Response, rules: Rules, t: Task)
    requires Safe(s, w, !rules.staleRejections) && Enabled(s, Receive(r)) && Allowed(s, Receive(r), rules)
    requires rules.staleRejections ==> rules.handlers != Concurrent
    requires t in s.held.core.pushed
    ensures Lone(Apply(s, Receive(r)), t, !rules.staleRejections)
  {
    assert Lone(s, t, !rules.staleRejections);
    if r.accept {
      AcceptLone(s, r, t, !rules.staleRejections);
    } else {
      if t.id == r.id {
        NoneBeingDeleted(s, w, r, rules, t);
        if r.id in s.held.core.pending {
          DistinctById(s.held.core.pushed, t, s.held.core.pending[r.id]);
        }
      }
      LoadLone(s, r, t, !rules.staleRejections);
    }
  }

  lemma StepLone(s: State, w: string, step: Step, rules: Rules, t: Task)
    requires Safe(s, w, !rules.staleRejections) && Enabled(s, step) && Allowed(s, step, rules)
    requires rules.staleRejections ==> rules.handlers != Concurrent
    requires t in s.held.core.pushed
    requires step.PushStep? ==> !HasRoom(s.held.core) || !Has(s.held.core.pushed, step.task.id)
    ensures Lone(Apply(s, step), t, !rules.staleRejections)
  {
    var honest := !rules.staleRejections;
    assert Lone(s, t, honest);
    match step
    case PushStep(u) => if HasRoom(s.held.core) { PushOtherLone(s, u, t, honest); }
    case TakeStep => TakeLone(s, t, honest);
    case ServeStep(v) =>
      if t.id == s.held.hand.task.id {
        DistinctById(s.held.core.pushed, t, s.held.hand.task);
      }
      ServeLone(s, v, t, honest);
    case FinishStep => FinishLone(s, t, honest);
    case Receive(r) => ReceiveLone(s, w, r, rules, t);
    case DeleteStep(u) =>
      assert Loaded(u) in s.held.rejecting;
      if t.id == u.id {
        DistinctById(s.held.core.pushed, t, u);
      }
      DeleteLone(s, u, t, honest);
    case PushBackStep(u) => PushBackLone(s, u, t, honest);
    case _ => NetworkLone(s, step, t, honest);
  }

  lemma NowhereYet(s: State, t: Task, honest: bool)
    requires Genuine(s.held) && (honest ==> AboutTasks(s, s.held.core.pushed))
    requires !Has(s.held.core.pushed, t.id)
    ensures Copies(s.held, t) == 0 && Rejections(s, t, honest) == 0 && t.id !in s.held.core.pending
  {
    assert t !in s.held.core.pushed;
    assert Deleted(t) !in s.held.rejecting && Loaded(t) !in s.held.rejecting;
    assert honest ==> Response(t.id, false) !in s.responses;
  }

  lemma PushAllLone(s: State, w: string, t: Task, rules: Rules)
    requires Safe(s, w, !rules.staleRejections) && HasRoom(s.held.core)
    requires rules.staleRejections ==> rules.handlers != Concurrent
    requires DistinctIds(s.held.core.pushed + [t])
    ensures AllLone(Apply(s, PushStep(t)), !rules.staleRejections)
  {
    FreshId(s.held.core.pushed, t);
    NowhereYet(s, t, !rules.staleRejections);
    PushNewLone(s, t, !rules.staleRejections);
    forall u | u in s.held.core.pushed
      ensures Lone(Apply(s, PushStep(t)), u, !rules.staleRejections)
    {
      StepLone(s, w, PushStep(t), rules, u);
    }
  }

  lemma StepAllLone(s: State, w: string, step: Step, rules: Rules)
    requires Safe(s, w, !rules.staleRejections) && Enabled(s, step) && Allowed(s, step, rules)
    requires rules.staleRejections ==> rules.handlers != Concurrent
    requires DistinctIds(Apply(s, step).held.core.pushed)
    ensures AllLone(Apply(s, step), !rules.staleRejections)
  {
    if step.PushStep? && HasRoom(s.held.core) {
      PushAllLone(s, w, step.task, rules);
    } else {
      SamePushed(s, step);
      forall t | t in s.held.core.pushed
        ensures Lone(Apply(s, step), t, !rules.staleRejections)
      {
        StepLone(s, w, step, rules, t);
      }
    }
  }

  lemma NetworkAbout(s: State, step: Step, tasks: seq<Task>)
    requires AboutTasks(s, tasks) && Enabled(s, step)
    requires step.Answer? || step.DropRequest? || step.DropResponse? || step.Receive?
             || (step.Spurious? && step.response.accept)
    ensures AboutTasks(Apply(s, step), tasks)
  {
  }

  lemma StepAbout(s: State, step: Step, tasks: seq<Task>)
    requires AboutTasks(s, tasks) && Enabled(s, step)
    requires step.Spurious? ==> step.response.accept
    requires s.held.hand.Holding? ==> Has(tasks, s.held.hand.task.id)
    ensures AboutTasks(Apply(s, step), tasks)
  {
    if step.Answer? || step.DropRequest? || step.DropResponse? || step.Receive? || step.Spurious? {
      NetworkAbout(s, step, tasks);
    } else if step.ServeStep? {
      assert Apply(s, step).responses == s.responses;
    } else {
      assert Apply(s, step).requests == s.requests && Apply(s, step).responses == s.responses;
    }
  }

  lemma AboutMore(s: State, tasks: seq<Task>, more: seq<Task>)
    requires AboutTasks(s, tasks) && tasks <= more
    ensures AboutTasks(s, more)
  {
    forall id | Has(tasks, id)
      ensures Has(more, id)
    {
      var t :| t in tasks && t.id == id;
      assert t in more;
    }
  }

  // ---------------------------------------------------------------- no loss

  /** A task on its way back finds room. */
  lemma RoomForPushBack(s: State, w: string, honest: bool, t: Task)
    requires Safe(s, w, honest) && Modest(s) && Deleted(t) in s.held.rejecting
    ensures HasRoom(s.held.core)
  {
    assert t in s.held.core.pushed by {
      assert Deleted(t) in s.held.rejecting;
    }
    assert Lone(s, t, honest);
    assert t in s.held.core.queue ==> multiset(s.held.core.queue)[t] >= 1;
    forall u | u in s.held.core.queue
      ensures u in s.held.core.pushed && multiset(s.held.core.queue)[u] <= 1
    {
      assert Lone(s, u, honest);
    }
    Pigeonhole(s.held.core.queue, s.held.core.pushed, t);
  }

  lemma StepLossless(s: State, step: Step)
    requires Lossless(s)
    requires step == TakeStep ==> s.held.core.workers != {}
    requires step.PushBackStep? && Enabled(s, step) ==> HasRoom(s.held.core)
    ensures Lossless(Apply(s, step))
  {
    LossPoints(s, step);
  }

  lemma StepStaysLossless(s: State, w: string, step: Step, rules: Rules)
    requires Safe(s, w, !rules.staleRejections) && Modest(s) && Enabled(s, step) && Allowed(s, step, rules)
    ensures Lossless(Apply(s, step))
  {
    if step.PushBackStep? {
      RoomForPushBack(s, w, !rules.staleRejections, step.task);
    }
    StepLossless(s, step);
  }

  lemma StepAboutPushed(s: State, step: Step, rules: Rules)
    requires Sound(s.held) && AboutTasks(s, s.held.core.pushed) && Enabled(s, step)
    requires Allowed(s, step, rules) && !rules.staleRejections
    ensures AboutTasks(Apply(s, step), Apply(s, step).held.core.pushed)
  {
    StepKeeps(s, step);
    StepAbout(s, step, s.held.core.pushed);
    AboutMore(Apply(s, step), s.held.core.pushed, Apply(s, step).held.core.pushed);
  }

  lemma StepServed(s: State, w: string, step: Step)
    requires Enabled(s, step) && Apply(s, step).held.core.workers <= {w}
    requires s.held.hand.Holding? ==> s.held.hand.served <= s.held.core.workers
    ensures Apply(s, step).held.hand.Holding? ==>
              Apply(s, step).held.hand.served <= Apply(s, step).held.core.workers
  {
  }

  lemma StepWorkers(s: State, w: string, step: Step, rules: Rules)
    requires s.held.core.workers <= {w} && Allowed(s, step, rules) && rules.workers <= {w}
    ensures Apply(s, step).held.core.workers <= {w}
  {
  }

  lemma StepSafe(s: State, w: string, step: Step, rules: Rules)
    requires Safe(s, w, !rules.staleRejections) && Modest(s) && Allowed(s, step, rules)
    requires rules.staleRejections ==> rules.handlers != Concurrent
    requires DistinctIds(Apply(s, step).held.core.pushed) && rules.workers <= {w}
    ensures Safe(Apply(s, step), w, !rules.staleRejections)
  {
    if Enabled(s, step) {
      StepKeeps(s, step);
      StepWorkers(s, w, step, rules);
      StepAllLone(s, w, step, rules);
      StepServed(s, w, step);
      if !rules.staleRejections {
        StepAboutPushed(s, step, rules);
      }
      StepStaysLossless(s, w, step, rules);
    }
  }

  lemma {:induction false} RunSafe(s: State, steps: seq<Step>, w: string, rules: Rules)
    requires Safe(s, w, !rules.staleRejections) && Fair(s, steps, rules)
    requires rules.staleRejections ==> rules.handlers != Concurrent
    requires Modest(Run(s, steps)) && rules.workers <= {w}
    ensures Safe(Run(s, steps), w, !rules.staleRejections)
    decreases |steps|
  {
    if |steps| > 0 {
      var s' := Apply(s, steps[0]);
      StepKeeps(s, steps[0]);
      RunKeeps(s', steps[1..]);
      PrefixDistinct(s'.held.core.pushed, Run(s', steps[1..]).held.core.pushed);
      StepSafe(s, w, steps[0], rules);
      RunSafe(s', steps[1..], w, rules);
    }
  }

  /** The task has not gone astray. */
  ghost predicate Kept(h: Held, t: Task) {
    || t in h.core.queue
    || (Unstored(h.hand) && h.hand.task == t)
    || Deleted(t) in h.rejecting
    || t.id in h.core.pending
    || t.id in h.core.accepted
  }

  lemma AccountedIsKept(h: Held, t: Task)
    requires AllAccounted(h) && DistinctIds(h.core.pushed) && t in h.core.pushed && h.core.lost == []
    ensures Kept(h, t)
  {
    assert Has(h.core.pushed, t.id);
    assert Accounted(h, t.id);
    if Has(h.core.queue, t.id) {
      var u :| u in h.core.queue && u.id == t.id;
      DistinctById(h.core.pushed, t, u);
    } else if Unstored(h.hand) && h.hand.task.id == t.id {
      DistinctById(h.core.pushed, t, h.hand.task);
    } else if HandedBack(h, t.id) {
      var u :| Deleted(u) in h.rejecting && u.id == t.id;
      DistinctById(h.core.pushed, t, u);
    }
  }

  /**
   No loss with one worker, under every interleaving: if at most as many tasks are pushed as the
   channel holds and a worker is connected whenever the loop pops, every rejected task finds room
   on its way back, nothing is ever lost, and every pushed task is queued, in a hand, pending or
   accepted. Any acceptance may be stale or invented; rejections may be too, unless two of them for
   one task are ever between Load and Delete together.
   */
  lemma NoLoss(capacity: nat, steps: seq<Step>, w: string, rules: Rules)
    requires Fair(Start(capacity), steps, rules) && Modest(Run(Start(capacity), steps))
    requires rules.workers <= {w} && (rules.staleRejections ==> rules.handlers != Concurrent)
    ensures var h := Run(Start(capacity), steps).held;
            && h.core.lost == []
            && (forall t :: Deleted(t) in h.rejecting ==> HasRoom(h.core))
            && (forall t :: t in h.core.pushed ==> Kept(h, t))
  {
    var s := Run(Start(capacity), steps);
    RunSafe(Start(capacity), steps, w, rules);
    forall t | Deleted(t) in s.held.rejecting
      ensures HasRoom(s.held.core)
    {
      RoomForPushBack(s, w, !rules.staleRejections, t);
    }
    forall t | t in s.held.core.pushed
      ensures Kept(s.held, t)
    {
      AccountedIsKept(s.held, t);
    }
  }
}
