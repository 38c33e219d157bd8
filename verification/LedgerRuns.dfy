/**
 The ledger at the granularity at which the scheduler's goroutines interleave: the assign loop
 holds a popped task while it stores and sends it to one worker after another, and a rejection
 handler holds a task between Load, Delete and the push back.

 A step that is not enabled leaves the state alone, so `Run` over an arbitrary list of steps
 ranges over all the reachable states.
 */
module LedgerRuns {
  import opened Ledger

  datatype Response = Response(id: string, accept: bool)

  /** The assign loop: `due` are the workers connected when the task was popped, `served` those
      that have been sent it. Workers that connect meanwhile may or may not be visited. */
  datatype Hand = Idle | Holding(task: Task, due: set<string>, served: set<string>)

  /** A rejection handler, after its Load and after its Delete. */
  datatype Rejecting = Loaded(task: Task) | Deleted(task: Task)

  /** The ledger and the hands of its goroutines. */
  datatype Held = Held(core: Core, hand: Hand, rejecting: multiset<Rejecting>)

  datatype State = State(
    held: Held,
    requests: multiset<string>,      // assign requests in flight, by the id they carry
    responses: multiset<Response>,   // responses in flight
    notFound: nat)                   // rejections of tasks that were not pending

  function Start(capacity: nat): State {
    State(Held(Empty(capacity), Idle, multiset{}), multiset{}, multiset{}, 0)
  }

  /** The loop holds a task it has not stored for anyone yet. */
  predicate Unstored(h: Hand) {
    h.Holding? && h.served == {}
  }

  // ---------------------------------------------------------------- moves of tasks

  function Take(h: Held): Held
    requires h.hand.Idle? && h.core.queue != []
  {
    var t := h.core.queue[0];
    h.(core := h.core.(queue := h.core.queue[1..], taken := h.core.taken + [t]),
       hand := Holding(t, h.core.workers, {}))
  }

  /** Store, then the send to one worker. */
  function Serve(h: Held, worker: string): Held
    requires h.hand.Holding?
  {
    var t := h.hand.task;
    h.(core := h.core.(pending := h.core.pending[t.id := t]),
       hand := h.hand.(served := h.hand.served + {worker}))
  }

  /** End of the broadcast loop. */
  function Finish(h: Held): Held
    requires h.hand.Holding?
  {
    h.(core := if Unstored(h.hand) then h.core.(lost := h.core.lost + [h.hand.task]) else h.core,
       hand := Idle)
  }

  function Accept(h: Held, id: string): Held {
    h.(core := h.core.(pending := h.core.pending - {id}, accepted := h.core.accepted + [id]))
  }

  function Load(h: Held, id: string): Held {
    h.(core := h.core.(rejections := h.core.rejections + 1),
       rejecting := if id in h.core.pending then h.rejecting + multiset{Loaded(h.core.pending[id])}
                    else h.rejecting)
  }

  function Delete(h: Held, t: Task): Held {
    h.(core := h.core.(pending := h.core.pending - {t.id}),
       rejecting := h.rejecting - multiset{Loaded(t)} + multiset{Deleted(t)})
  }

  function PushBack(h: Held, t: Task): Held {
    h.(core := AfterRequeue(h.core, t), rejecting := h.rejecting - multiset{Deleted(t)})
  }

  // ---------------------------------------------------------------- steps and runs

  datatype Step =
    | PushStep(task: Task)
    | ConnectStep(worker: string)
    | TakeStep
    | ServeStep(worker: string)
    | FinishStep
    | Answer(response: Response)     // a worker takes a request and answers it
    | DropRequest(id: string)
    | DropResponse(response: Response)
    | Spurious(response: Response)   // a stale or duplicate response
    | Receive(response: Response)
    | DeleteStep(task: Task)
    | PushBackStep(task: Task)

  predicate Enabled(s: State, step: Step) {
    var h := s.held;
    match step
    case PushStep(_) => true
    case ConnectStep(_) => true
    case TakeStep => h.hand.Idle? && h.core.queue != []
    case ServeStep(w) => h.hand.Holding? && w in h.core.workers - h.hand.served
    case FinishStep => h.hand.Holding? && h.hand.due <= h.hand.served
    case Answer(r) => r.id in s.requests
    case DropRequest(id) => id in s.requests
    case DropResponse(r) => r in s.responses
    case Spurious(_) => true
    case Receive(r) => r in s.responses
    case DeleteStep(t) => Loaded(t) in h.rejecting
    case PushBackStep(t) => Deleted(t) in h.rejecting
  }

  function Apply(s: State, step: Step): State {
    if !Enabled(s, step) then s
    else
      var h := s.held;
      match step
      case PushStep(t) => s.(held := h.(core := AfterPush(h.core, t)))
      case ConnectStep(w) => s.(held := h.(core := AfterWorkerUp(h.core, w)))
      case TakeStep => s.(held := Take(h))
      case ServeStep(w) => s.(held := Serve(h, w), requests := s.requests + multiset{RequestFor(h.hand.task).taskId})
      case FinishStep => s.(held := Finish(h))
      case Answer(r) => s.(requests := s.requests - multiset{r.id}, responses := s.responses + multiset{r})
      case DropRequest(id) => s.(requests := s.requests - multiset{id})
      case DropResponse(r) => s.(responses := s.responses - multiset{r})
      case Spurious(r) => s.(responses := s.responses + multiset{r})
      case Receive(r) =>
        s.(held := if r.accept then Accept(h, r.id) else Load(h, r.id),
           responses := s.responses - multiset{r},
           notFound := if r.accept || r.id in h.core.pending then s.notFound else s.notFound + 1)
      case DeleteStep(t) => s.(held := Delete(h, t))
      case PushBackStep(t) => s.(held := PushBack(h, t))
  }

  function Run(s: State, steps: seq<Step>): State
    decreases |steps|
  {
    if |steps| == 0 then s else Run(Apply(s, steps[0]), steps[1..])
  }

  lemma {:induction false} RunAppend(s: State, first: seq<Step>, second: seq<Step>)
    ensures Run(s, first + second) == Run(Run(s, first), second)
    decreases |first|
  {
    if |first| == 0 {
      assert first + second == second;
    } else {
      assert (first + second)[0] == first[0] && (first + second)[1..] == first[1..] + second;
      RunAppend(Apply(s, first[0]), first[1..], second);
    }
  }

  lemma RunOne(s: State, step: Step)
    ensures Run(s, [step]) == Apply(s, step)
  {
    assert [step][1..] == [];
    assert Run(Apply(s, step), []) == Apply(s, step);
  }

  lemma RunSnoc(s: State, steps: seq<Step>, last: Step)
    ensures Run(s, steps + [last]) == Apply(Run(s, steps), last)
  {
    RunAppend(s, steps, [last]);
    var t := Run(s, steps);
    assert Run(t, [last]) == Run(Apply(t, last), []);
  }

  // ---------------------------------------------------------------- where a task can be

  ghost predicate Has(tasks: seq<Task>, id: string) {
    exists t :: t in tasks && t.id == id
  }

  lemma HasAppend(tasks: seq<Task>, t: Task, id: string)
    ensures Has(tasks + [t], id) <==> Has(tasks, id) || t.id == id
  {
    assert t in tasks + [t];
    assert forall u :: u in tasks ==> u in tasks + [t];
  }

  lemma HasTail(tasks: seq<Task>, id: string)
    requires tasks != []
    ensures Has(tasks, id) <==> tasks[0].id == id || Has(tasks[1..], id)
  {
    assert tasks == [tasks[0]] + tasks[1..];
  }

  ghost predicate DistinctIds(tasks: seq<Task>) {
    forall i, j :: 0 <= i < j < |tasks| ==> tasks[i].id != tasks[j].id
  }

  lemma DistinctById(tasks: seq<Task>, t: Task, u: Task)
    requires DistinctIds(tasks) && t in tasks && u in tasks && t.id == u.id
    ensures t == u
  {
    var i :| 0 <= i < |tasks| && tasks[i] == t;
    var j :| 0 <= j < |tasks| && tasks[j] == u;
    assert i == j;
  }

  /** A push back is under way for this task. */
  ghost predicate HandedBack(h: Held, id: string) {
    exists t :: Deleted(t) in h.rejecting && t.id == id
  }

  ghost predicate Accounted(h: Held, id: string) {
    || Has(h.core.queue, id)
    || (Unstored(h.hand) && h.hand.task.id == id)
    || id in h.core.pending
    || HandedBack(h, id)
    || id in h.core.accepted
    || Has(h.core.lost, id)
  }

  /** Everything held anywhere is a task that was pushed, under its own id. */
  ghost predicate Genuine(h: Held) {
    && (forall t :: t in h.core.queue ==> t in h.core.pushed)
    && (forall t :: t in h.core.lost ==> t in h.core.pushed)
    && (forall id :: id in h.core.pending ==> h.core.pending[id] in h.core.pushed && h.core.pending[id].id == id)
    && (h.hand.Holding? ==> h.hand.task in h.core.pushed)
    && (forall r :: r in h.rejecting ==> r.task in h.core.pushed)
  }

  ghost predicate AllAccounted(h: Held) {
    Genuine(h) && forall id :: Has(h.core.pushed, id) ==> Accounted(h, id)
  }

  /** The channel is first in first out over its whole life, within its capacity, and every entry
      is an external push or answers a rejection of its own. */
  ghost predicate Fifo(h: Held) {
    && h.core.entered == h.core.taken + h.core.queue
    && |h.core.queue| <= h.core.capacity
    && |h.core.entered| + |h.rejecting| <= |h.core.pushed| + h.core.rejections
  }

  ghost predicate Sound(h: Held) {
    AllAccounted(h) && Fifo(h)
  }

  /** The pushes, the acceptances and the worker set only grow. */
  ghost predicate Grows(h: Held, h': Held) {
    && h.core.pushed <= h'.core.pushed
    && h.core.workers <= h'.core.workers
    && h.core.accepted <= h'.core.accepted
    && h.core.capacity == h'.core.capacity
  }

  // Each move keeps the account and the order.

  lemma PushKeeps(h: Held, t: Task)
    requires Sound(h)
    ensures Sound(h.(core := AfterPush(h.core, t))) && Grows(h, h.(core := AfterPush(h.core, t)))
  {
    var h' := h.(core := AfterPush(h.core, t));
    forall id | Has(h'.core.pushed, id)
      ensures Accounted(h', id)
    {
      HasAppend(h.core.pushed, t, id);
      HasAppend(h.core.queue, t, id);
    }
  }

  lemma TakeKeeps(h: Held)
    requires Sound(h) && h.hand.Idle? && h.core.queue != []
    ensures Sound(Take(h)) && Grows(h, Take(h))
  {
    forall id | Has(h.core.pushed, id)
      ensures Accounted(Take(h), id)
    {
      HasTail(h.core.queue, id);
    }
  }

  lemma ServeKeeps(h: Held, w: string)
    requires Sound(h) && h.hand.Holding?
    ensures Sound(Serve(h, w)) && Grows(h, Serve(h, w))
  {
    forall id | Has(h.core.pushed, id)
      ensures Accounted(Serve(h, w), id)
    {
      assert Accounted(h, id);
    }
  }

  lemma FinishKeeps(h: Held)
    requires Sound(h) && h.hand.Holding?
    ensures Sound(Finish(h)) && Grows(h, Finish(h))
  {
    forall id | Has(h.core.pushed, id)
      ensures Accounted(Finish(h), id)
    {
      HasAppend(h.core.lost, h.hand.task, id);
    }
  }

  lemma AcceptKeeps(h: Held, id: string)
    requires Sound(h)
    ensures Sound(Accept(h, id)) && Grows(h, Accept(h, id))
  {
    var h' := Accept(h, id);
    assert id in h'.core.accepted;
    forall other | Has(h.core.pushed, other)
      ensures Accounted(h', other)
    {
      assert Accounted(h, other);
    }
  }

  lemma LoadKeeps(h: Held, id: string)
    requires Sound(h)
    ensures Sound(Load(h, id)) && Grows(h, Load(h, id))
  {
    var h' := Load(h, id);
    forall other | Has(h.core.pushed, other)
      ensures Accounted(h', other)
    {
      if HandedBack(h, other) {
        var t :| Deleted(t) in h.rejecting && t.id == other;
        assert Deleted(t) in h'.rejecting;
      }
    }
  }

  lemma DeleteKeeps(h: Held, t: Task)
    requires Sound(h) && Loaded(t) in h.rejecting
    ensures Sound(Delete(h, t)) && Grows(h, Delete(h, t))
  {
    var h' := Delete(h, t);
    assert Deleted(t) in h'.rejecting;
    forall id | Has(h.core.pushed, id)
      ensures Accounted(h', id)
    {
      if HandedBack(h, id) {
        var u :| Deleted(u) in h.rejecting && u.id == id;
        assert Deleted(u) in h'.rejecting;
      }
    }
  }

  lemma PushBackKeeps(h: Held, t: Task)
    requires Sound(h) && Deleted(t) in h.rejecting
    ensures Sound(PushBack(h, t)) && Grows(h, PushBack(h, t))
  {
    var h' := PushBack(h, t);
    forall id | Has(h.core.pushed, id)
      ensures Accounted(h', id)
    {
      HasAppend(h.core.queue, t, id);
      HasAppend(h.core.lost, t, id);
      if HandedBack(h, id) && t.id != id {
        var u :| Deleted(u) in h.rejecting && u.id == id;
        assert Deleted(u) in h'.rejecting;
      }
    }
  }

  lemma StepKeeps(s: State, step: Step)
    requires Sound(s.held)
    ensures Sound(Apply(s, step).held) && Grows(s.held, Apply(s, step).held)
  {
    if Enabled(s, step) {
      match step
      case PushStep(t) => PushKeeps(s.held, t);
      case ConnectStep(w) =>
        var h' := s.held.(core := AfterWorkerUp(s.held.core, w));
        assert forall id :: Accounted(s.held, id) ==> Accounted(h', id);
      case TakeStep => TakeKeeps(s.held);
      case ServeStep(w) => ServeKeeps(s.held, w);
      case FinishStep => FinishKeeps(s.held);
      case Receive(r) => if r.accept { AcceptKeeps(s.held, r.id); } else { LoadKeeps(s.held, r.id); }
      case DeleteStep(t) => DeleteKeeps(s.held, t);
      case PushBackStep(t) => PushBackKeeps(s.held, t);
      case _ => assert Apply(s, step).held == s.held;
    }
  }

  lemma {:induction false} RunKeeps(s: State, steps: seq<Step>)
    requires Sound(s.held)
    ensures Sound(Run(s, steps).held) && Grows(s.held, Run(s, steps).held)
    decreases |steps|
  {
    if |steps| > 0 {
      StepKeeps(s, steps[0]);
      RunKeeps(Apply(s, steps[0]), steps[1..]);
    }
  }

  /**
   Full accounting: under every interleaving, with any number of workers and any stale, duplicate
   or dropped messages, each pushed task is queued, in the loop's hand, pending, being handed
   back, accepted or recorded lost; and whatever is held is a pushed task.
   */
  lemma FullAccounting(capacity: nat, steps: seq<Step>)
    ensures AllAccounted(Run(Start(capacity), steps).held)
  {
    RunKeeps(Start(capacity), steps);
  }

  /** With distinct ids a pending entry is exactly the task that was pushed under that id. */
  lemma PendingIsPushed(capacity: nat, steps: seq<Step>, task: Task)
    requires var c := Run(Start(capacity), steps).held.core;
             DistinctIds(c.pushed) && task in c.pushed && task.id in c.pending
    ensures Run(Start(capacity), steps).held.core.pending[task.id] == task
  {
    FullAccounting(capacity, steps);
    var c := Run(Start(capacity), steps).held.core;
    DistinctById(c.pushed, c.pending[task.id], task);
  }

  /** Tasks are lost in two places only, and there always: when the loop ends without having found
      a worker, and when a rejected task comes back to a full channel. */
  lemma LossPoints(s: State, step: Step)
    ensures Apply(s, step).held.core.lost != s.held.core.lost <==>
              || (step == FinishStep && Unstored(s.held.hand) && s.held.hand.due == {})
              || (step.PushBackStep? && Enabled(s, step) && !HasRoom(s.held.core))
  {
    if step == FinishStep && Unstored(s.held.hand) && s.held.hand.due == {} {
      assert |Apply(s, step).held.core.lost| == |s.held.core.lost| + 1;
    }
    if step.PushBackStep? && Enabled(s, step) && !HasRoom(s.held.core) {
      assert |Apply(s, step).held.core.lost| == |s.held.core.lost| + 1;
    }
  }

  /** The work of the assign loop is bounded by what was pushed and what was rejected. */
  lemma FifoAndBoundedWork(capacity: nat, steps: seq<Step>)
    ensures var c := Run(Start(capacity), steps).held.core;
            && c.entered == c.taken + c.queue
            && |c.queue| <= capacity
            && |c.taken| <= |c.pushed| + c.rejections
  {
    RunKeeps(Start(capacity), steps);
  }

  // ---------------------------------------------------------------- the queue drains

  /** How many tasks the loop takes in a run. */
  function Takes(s: State, steps: seq<Step>): nat
    decreases |steps|
  {
    if |steps| == 0 then 0
    else (if steps[0] == TakeStep && Enabled(s, TakeStep) then 1 else 0) + Takes(Apply(s, steps[0]), steps[1..])
  }

  /** Nothing is pushed from outside, and no rejected task is pushed back. */
  ghost predicate NothingEnters(steps: seq<Step>) {
    forall i :: 0 <= i < |steps| ==> !steps[i].PushStep? && !steps[i].PushBackStep?
  }

  ghost predicate LoopOnly(steps: seq<Step>) {
    forall i :: 0 <= i < |steps| ==> steps[i].TakeStep? || steps[i].ServeStep? || steps[i].FinishStep?
  }

  lemma StepTakes(s: State, step: Step)
    ensures |Apply(s, step).held.core.taken| == |s.held.core.taken| + Takes(s, [step])
  {
    assert [step][1..] == [];
  }

  lemma StepShortens(s: State, step: Step)
    requires !step.PushStep? && !step.PushBackStep?
    ensures |s.held.core.queue| == |Apply(s, step).held.core.queue| + Takes(s, [step])
  {
    assert [step][1..] == [];
  }

  lemma {:induction false} RunTakes(s: State, steps: seq<Step>)
    ensures |Run(s, steps).held.core.taken| == |s.held.core.taken| + Takes(s, steps)
    ensures NothingEnters(steps) ==> |s.held.core.queue| == |Run(s, steps).held.core.queue| + Takes(s, steps)
    decreases |steps|
  {
    if |steps| > 0 {
      StepTakes(s, steps[0]);
      if NothingEnters(steps) {
        StepShortens(s, steps[0]);
      }
      RunTakes(Apply(s, steps[0]), steps[1..]);
      assert [steps[0]][1..] == [];
    }
  }

  /** No run has more takes than pushes and rejections; and once nothing enters the channel any
      more, as many takes as there are tasks in it, and only they, leave it empty. */
  lemma TakesEmptyTheQueue(capacity: nat, before: seq<Step>, steps: seq<Step>)
    ensures var s := Run(Start(capacity), before);
            && Takes(Start(capacity), before) <= |s.held.core.pushed| + s.held.core.rejections
            && (NothingEnters(steps) ==>
                  Takes(s, steps) <= |s.held.core.queue|
                  && (Run(s, steps).held.core.queue == [] <==> Takes(s, steps) == |s.held.core.queue|))
  {
    FifoAndBoundedWork(capacity, before);
    RunTakes(Start(capacity), before);
    RunTakes(Run(Start(capacity), before), steps);
  }

  /** The broadcast loop over the workers still to be served. */
  lemma {:induction false} ServeAll(s: State, todo: set<string>) returns (steps: seq<Step>)
    requires s.held.hand.Holding? && s.held.hand.served !! todo
    requires s.held.core.workers == s.held.hand.served + todo
    ensures LoopOnly(steps) && Takes(s, steps) == 0
    ensures var h, h' := s.held, Run(s, steps).held;
            && h'.hand == h.hand.(served := h.core.workers)
            && h'.rejecting == h.rejecting
            && h'.core == if todo == {} then h.core
                          else h.core.(pending := h.core.pending[h.hand.task.id := h.hand.task])
    decreases todo
  {
    if todo == {} {
      steps := [];
      assert s.held.hand.served == s.held.core.workers;
    } else {
      var w :| w in todo;
      var s' := Apply(s, ServeStep(w));
      var rest := ServeAll(s', todo - {w});
      steps := [ServeStep(w)] + rest;
      var pending := s.held.core.pending[s.held.hand.task.id := s.held.hand.task];
      assert pending[s.held.hand.task.id := s.held.hand.task] == pending;
    }
  }

  /** One round of the loop, from its pop to the end of the broadcast. */
  lemma Round(s: State) returns (steps: seq<Step>)
    requires s.held.hand.Idle? && s.held.core.queue != []
    ensures LoopOnly(steps)
    ensures Run(s, steps).held == s.held.(core := AfterAssign(s.held.core))
  {
    var s' := Apply(s, TakeStep);
    var sends := ServeAll(s', s.held.core.workers);
    var s'' := Run(s', sends);
    RunSnoc(s', sends, FinishStep);
    assert s''.held.hand.served == s.held.core.workers;
    steps := [TakeStep] + (sends + [FinishStep]);
    assert Run(s, steps) == Apply(s'', FinishStep);
  }

  /** Progress: the loop alone can always empty the queue, and with a worker connected every task
      that was in it is pending then and none is lost on the way. */
  lemma {:induction false} QueueDrains(s: State) returns (steps: seq<Step>)
    requires s.held.hand.Idle?
    ensures LoopOnly(steps) && Takes(s, steps) == |s.held.core.queue|
    ensures var c, c' := s.held.core, Run(s, steps).held.core;
            && Run(s, steps).held.hand.Idle? && c'.queue == []
            && c'.workers == c.workers
            && (c.workers != {} ==>
                  && c'.lost == c.lost
                  && c.pending.Keys <= c'.pending.Keys
                  && forall t :: t in c.queue ==> t.id in c'.pending)
    decreases |s.held.core.queue|
  {
    if s.held.core.queue == [] {
      steps := [];
    } else {
      var first := Round(s);
      var rest := QueueDrains(Run(s, first));
      RunAppend(s, first, rest);
      steps := first + rest;
      RunTakes(s, steps);
      assert s.held.core.queue == [s.held.core.queue[0]] + s.held.core.queue[1..];
    }
  }
}
