/**
 The exact limits of what the interleaved ledger guarantees, for every capacity: which rules admit a
 run that drops a task from the channel, and which admit one after which a task is nowhere at all.
 */
module LedgerLimits {
  import opened Ledger
  import opened LedgerRuns
  import opened LedgerSingle
  import opened LedgerSafety

  // ---------------------------------------------------------------- reachable states

  ghost predicate Reachable(capacity: nat, rules: Rules, s: State) {
    exists steps :: Fair(Start(capacity), steps, rules) && Run(Start(capacity), steps) == s
  }

  lemma {:induction false} FairSnoc(s: State, steps: seq<Step>, last: Step, rules: Rules)
    requires Fair(s, steps, rules) && Allowed(Run(s, steps), last, rules)
    ensures Fair(s, steps + [last], rules)
    decreases |steps|
  {
    if |steps| == 0 {
      assert (steps + [last])[1..] == [];
    } else {
      assert (steps + [last])[1..] == steps[1..] + [last];
      FairSnoc(Apply(s, steps[0]), steps[1..], last, rules);
    }
  }

  lemma StartIsReachable(capacity: nat, rules: Rules)
    ensures Reachable(capacity, rules, Start(capacity))
  {
    assert Fair(Start(capacity), [], rules) && Run(Start(capacity), []) == Start(capacity);
  }

  lemma Go(capacity: nat, rules: Rules, s: State, step: Step) returns (s': State)
    requires Reachable(capacity, rules, s) && Allowed(s, step, rules)
    ensures s' == Apply(s, step) && Reachable(capacity, rules, s')
  {
    var steps :| Fair(Start(capacity), steps, rules) && Run(Start(capacity), steps) == s;
    FairSnoc(Start(capacity), steps, step, rules);
    RunSnoc(Start(capacity), steps, step);
    s' := Apply(s, step);
  }

  // ---------------------------------------------------------------- a full channel

  function NthTask(n: nat): Task {
    Task(seq(n, i => 'x'), "addTowInt", [], [], [])
  }

  function Tasks(n: nat): (tasks: seq<Task>)
    ensures |tasks| == n
  {
    seq(n, i requires 0 <= i => NthTask(i))
  }

  lemma TasksDistinct(n: nat)
    ensures DistinctIds(Tasks(n))
  {
    forall i, j | 0 <= i < j < n
      ensures Tasks(n)[i].id != Tasks(n)[j].id
    {
      assert |Tasks(n)[i].id| == i && |Tasks(n)[j].id| == j;
    }
  }

  /** The loop is idle; the rest is what the runs below look at. */
  ghost predicate Stage(s: State, capacity: nat, workers: set<string>, pushed: seq<Task>, queue: seq<Task>,
                        pending: map<string, Task>, lost: seq<Task>) {
    var c := s.held.core;
    && c.capacity == capacity && c.workers == workers && c.pushed == pushed
    && c.queue == queue && c.pending == pending && c.lost == lost
    && c.accepted == [] && s.held.hand == Idle
  }

  lemma WorkersUp(capacity: nat, rules: Rules, a: string, b: string) returns (s: State)
    requires a in rules.workers && b in rules.workers
    ensures Reachable(capacity, rules, s) && Stage(s, capacity, {a, b}, [], [], map[], [])
    ensures s.held.rejecting == multiset{} && s.responses == multiset{}
  {
    StartIsReachable(capacity, rules);
    s := Go(capacity, rules, Start(capacity), ConnectStep(a));
    s := Go(capacity, rules, s, ConnectStep(b));
  }

  /** As many tasks as the channel holds have been pushed. */
  lemma {:induction false} Filled(capacity: nat, rules: Rules, a: string, b: string, n: nat) returns (s: State)
    requires a in rules.workers && b in rules.workers && n <= capacity
    ensures Reachable(capacity, rules, s) && Stage(s, capacity, {a, b}, Tasks(n), Tasks(n), map[], [])
    ensures s.held.rejecting == multiset{} && s.responses == multiset{}
    decreases n
  {
    if n == 0 {
      s := WorkersUp(capacity, rules, a, b);
    } else {
      s := Filled(capacity, rules, a, b, n - 1);
      s := Go(capacity, rules, s, PushStep(NthTask(n - 1)));
      assert Tasks(n) == Tasks(n - 1) + [NthTask(n - 1)];
    }
  }

  // ---------------------------------------------------------------- moves in these runs

  /** One worker's round of the loop with an idle hand. */
  lemma Assigned(capacity: nat, rules: Rules, s: State, w: string) returns (s': State)
    requires Reachable(capacity, rules, s)
    requires s.held.hand.Idle? && s.held.core.workers == {w} && s.held.core.queue != []
    ensures Reachable(capacity, rules, s') && s'.held == s.held.(core := AfterAssign(s.held.core))
    ensures s'.requests == s.requests + multiset{s.held.core.queue[0].id} && s'.responses == s.responses
  {
    s' := Go(capacity, rules, s, TakeStep);
    s' := Go(capacity, rules, s', ServeStep(w));
    s' := Go(capacity, rules, s', FinishStep);
  }

  lemma RoundOfTwo(h: Held, a: string, b: string)
    requires h.hand.Idle? && h.core.queue != [] && h.core.workers == {a, b}
    ensures Finish(Serve(Serve(Take(h), a), b)) == h.(core := AfterAssign(h.core))
  {
    var task := h.core.queue[0];
    assert h.core.pending[task.id := task][task.id := task] == h.core.pending[task.id := task];
  }

  lemma AssignedToBoth(capacity: nat, rules: Rules, s: State, a: string, b: string) returns (s': State)
    requires Reachable(capacity, rules, s) && a != b
    requires s.held.hand.Idle? && s.held.core.workers == {a, b} && s.held.core.queue != []
    ensures Reachable(capacity, rules, s') && s'.held == s.held.(core := AfterAssign(s.held.core))
    ensures s.requests + multiset{s.held.core.queue[0].id} <= s'.requests
  {
    s' := Go(capacity, rules, s, TakeStep);
    assert s'.held == Take(s.held);
    s' := Go(capacity, rules, s', ServeStep(a));
    assert s'.held == Serve(Take(s.held), a);
    s' := Go(capacity, rules, s', ServeStep(b));
    assert s'.held == Serve(Serve(Take(s.held), a), b);
    s' := Go(capacity, rules, s', FinishStep);
    RoundOfTwo(s.held, a, b);
  }

  lemma RefusalLoaded(capacity: nat, rules: Rules, s: State, t: Task) returns (s': State)
    requires Reachable(capacity, rules, s) && s.held.rejecting == multiset{}
    requires t.id in s.requests && t.id in s.held.core.pending && s.held.core.pending[t.id] == t
    ensures Reachable(capacity, rules, s')
    ensures s'.held == Load(s.held, t.id) && s'.held.rejecting == multiset{Loaded(t)}
    ensures s'.requests == s.requests - multiset{t.id}
  {
    var r := Response(t.id, false);
    s' := Go(capacity, rules, s, Answer(r));
    s' := Go(capacity, rules, s', Receive(r));
  }

  /** A worker refuses a pending task and the handler runs to its end. */
  lemma Refused(capacity: nat, rules: Rules, s: State, t: Task) returns (s': State)
    requires Reachable(capacity, rules, s) && s.held.rejecting == multiset{}
    requires t.id in s.requests && t.id in s.held.core.pending && s.held.core.pending[t.id] == t
    ensures Reachable(capacity, rules, s')
    ensures s'.held == s.held.(core := AfterResponse(s.held.core, t.id, false))
    ensures s'.requests == s.requests - multiset{t.id}
  {
    s' := RefusalLoaded(capacity, rules, s, t);
    s' := Go(capacity, rules, s', DeleteStep(t));
    assert s'.held.rejecting == multiset{Deleted(t)};
    s' := Go(capacity, rules, s', PushBackStep(t));
    assert s'.held.rejecting == multiset{};
  }

  // ---------------------------------------------------------------- two workers

  /** One worker refuses the first task before the loop has sent it to the other. */
  lemma RefusedInMidBroadcast(capacity: nat, rules: Rules, a: string, b: string) returns (s: State)
    requires a in rules.workers && b in rules.workers && a != b && capacity >= 1
    ensures Reachable(capacity, rules, s)
    ensures var tasks, c := Tasks(capacity), s.held.core;
            && s.held.hand == Holding(tasks[0], {a, b}, {a}) && s.held.rejecting == multiset{}
            && c.capacity == capacity && c.workers == {a, b} && c.pushed == tasks && c.accepted == []
            && c.queue == tasks[1..] + [tasks[0]] && c.pending == map[] && c.lost == []
  {
    s := Filled(capacity, rules, a, b, capacity);
    s := Go(capacity, rules, s, TakeStep);
    s := Go(capacity, rules, s, ServeStep(a));
    s := Refused(capacity, rules, s, Tasks(capacity)[0]);
    assert s.held.core.pending == map[];
  }

  /** Then the task is queued again and pending as well, and the channel is full. */
  lemma QueuedAndPending(capacity: nat, rules: Rules, a: string, b: string) returns (s: State)
    requires a in rules.workers && b in rules.workers && a != b && capacity >= 1
    ensures Reachable(capacity, rules, s)
    ensures var tasks := Tasks(capacity);
            Stage(s, capacity, {a, b}, tasks, tasks[1..] + [tasks[0]], map[tasks[0].id := tasks[0]], [])
            && tasks[0].id in s.requests
    ensures s.held.rejecting == multiset{}
  {
    s := RefusedInMidBroadcast(capacity, rules, a, b);
    s := Go(capacity, rules, s, ServeStep(b));
    s := Go(capacity, rules, s, FinishStep);
  }

  // ---------------------------------------------------------------- one worker, a refusal that comes twice

  /** Both copies of the refusal are loaded before either deletes the entry, so the task is on its
      way back twice. */
  lemma BackTwice(capacity: nat, rules: Rules, w: string) returns (s: State)
    requires w in rules.workers && rules.staleRejections && rules.handlers == Concurrent && capacity >= 1
    ensures Reachable(capacity, rules, s)
    ensures var tasks := Tasks(capacity);
            Stage(s, capacity, {w}, tasks, tasks[1..], map[], [])
            && s.held.rejecting == multiset{Deleted(tasks[0]), Deleted(tasks[0])}
  {
    var t := Tasks(capacity)[0];
    s := Filled(capacity, rules, w, w, capacity);
    s := Assigned(capacity, rules, s, w);
    s := LoadedTwice(capacity, rules, s, t);
    s := DeletedTwice(capacity, rules, s, t);
    assert map[t.id := t] - {t.id} == map[];
  }

  lemma DeletedTwice(capacity: nat, rules: Rules, s: State, t: Task) returns (s': State)
    requires Reachable(capacity, rules, s) && s.held.rejecting == multiset{Loaded(t), Loaded(t)}
    ensures Reachable(capacity, rules, s') && s'.held.hand == s.held.hand
    ensures s'.held.rejecting == multiset{Deleted(t), Deleted(t)}
    ensures s'.held.core == s.held.core.(pending := s.held.core.pending - {t.id})
  {
    s' := Go(capacity, rules, s, DeleteStep(t));
    assert s'.held.rejecting == multiset{Loaded(t), Deleted(t)};
    s' := Go(capacity, rules, s', DeleteStep(t));
    assert s'.held.rejecting == multiset{Deleted(t), Deleted(t)};
    assert s.held.core.pending - {t.id} - {t.id} == s.held.core.pending - {t.id};
  }

  lemma LoadedTwice(capacity: nat, rules: Rules, s: State, t: Task) returns (s': State)
    requires Reachable(capacity, rules, s) && rules.staleRejections && rules.handlers == Concurrent
    requires t.id in s.requests && t.id in s.held.core.pending && s.held.core.pending[t.id] == t
    requires s.held.rejecting == multiset{} && s.responses == multiset{}
    ensures Reachable(capacity, rules, s') && s'.held.hand == s.held.hand
    ensures s'.held.rejecting == multiset{Loaded(t), Loaded(t)}
    ensures s'.held.core == s.held.core.(rejections := s.held.core.rejections + 2)
  {
    var r := Response(t.id, false);
    s' := Go(capacity, rules, s, Answer(r));
    s' := Go(capacity, rules, s', Spurious(r));
    s' := Go(capacity, rules, s', Receive(r));
    assert s'.held.rejecting == multiset{Loaded(t)};
    s' := Go(capacity, rules, s', Receive(r));
    assert s'.held.rejecting == multiset{Loaded(t), Loaded(t)};
  }

  // ---------------------------------------------------------------- a task is dropped

  ghost predicate Drops(s: State) {
    Modest(s) && s.held.core.lost != []
  }

  lemma TwoWorkersDrop(capacity: nat, rules: Rules, a: string, b: string) returns (s: State)
    requires a in rules.workers && b in rules.workers && a != b && capacity >= 1
    ensures Reachable(capacity, rules, s) && Drops(s)
  {
    TasksDistinct(capacity);
    s := QueuedAndPending(capacity, rules, a, b);
    s := Refused(capacity, rules, s, Tasks(capacity)[0]);
  }

  lemma TwiceRefusedDrops(capacity: nat, rules: Rules, w: string) returns (s: State)
    requires w in rules.workers && rules.staleRejections && rules.handlers == Concurrent && capacity >= 1
    ensures Reachable(capacity, rules, s) && Drops(s)
  {
    TasksDistinct(capacity);
    var t := Tasks(capacity)[0];
    s := BackTwice(capacity, rules, w);
    s := Go(capacity, rules, s, PushBackStep(t));
    s := Go(capacity, rules, s, PushBackStep(t));
  }

  // ---------------------------------------------------------------- a task is nowhere

  ghost predicate Strays(s: State) {
    Modest(s) && exists t :: t in s.held.core.pushed && !Kept(s.held, t)
  }

  lemma NowhereIfNotQueued(s: State, capacity: nat, workers: set<string>, queue: seq<Task>, lost: seq<Task>)
    requires capacity >= 2 && Stage(s, capacity, workers, Tasks(capacity), queue, map[], lost)
    requires s.held.rejecting == multiset{} && Tasks(capacity)[1] !in queue
    ensures Strays(s)
  {
    TasksDistinct(capacity);
    assert Tasks(capacity)[1] in s.held.core.pushed && !Kept(s.held, Tasks(capacity)[1]);
  }

  /** What is left in the channel while two copies of the first task crowd out the second. */
  lemma Crowded(capacity: nat)
    requires capacity >= 2
    ensures var tasks := Tasks(capacity);
            && tasks[1] !in tasks[2..] + [tasks[0]] + [tasks[0]]
            && tasks[1].id != tasks[0].id
            && tasks[1..][0] == tasks[1] && tasks[1..][1..] == tasks[2..]
            && (tasks[1..] + [tasks[0]])[0] == tasks[1]
            && (tasks[1..] + [tasks[0]])[1..] == tasks[2..] + [tasks[0]]
  {
    TasksDistinct(capacity);
  }

  lemma TwoWorkersStray(capacity: nat, rules: Rules, a: string, b: string) returns (s: State)
    requires a in rules.workers && b in rules.workers && a != b && capacity >= 2
    ensures Reachable(capacity, rules, s) && Strays(s)
  {
    var tasks := Tasks(capacity);
    var t, u := tasks[0], tasks[1];
    Crowded(capacity);
    s := QueuedAndPending(capacity, rules, a, b);
    s := AssignedToBoth(capacity, rules, s, a, b);
    assert Stage(s, capacity, {a, b}, tasks, tasks[2..] + [t], map[t.id := t, u.id := u], []);
    assert t.id in s.requests && u.id in s.requests;
    s := Refused(capacity, rules, s, t);
    assert map[t.id := t, u.id := u] - {t.id} == map[u.id := u];
    assert Stage(s, capacity, {a, b}, tasks, tasks[2..] + [t] + [t], map[u.id := u], []);
    s := Refused(capacity, rules, s, u);
    assert map[u.id := u] - {u.id} == map[];
    NowhereIfNotQueued(s, capacity, {a, b}, tasks[2..] + [t] + [t], [u]);
  }

  lemma PushedBackTwice(capacity: nat, rules: Rules, s: State, t: Task) returns (s': State)
    requires Reachable(capacity, rules, s) && s.held.rejecting == multiset{Deleted(t), Deleted(t)}
    requires |s.held.core.queue| + 2 <= s.held.core.capacity
    ensures Reachable(capacity, rules, s') && s'.held.rejecting == multiset{} && s'.requests == s.requests
    ensures s'.held.hand == s.held.hand
    ensures var c, c' := s.held.core, s'.held.core;
            && c'.capacity == c.capacity && c'.workers == c.workers && c'.pushed == c.pushed
            && c'.queue == c.queue + [t] + [t]
            && c'.pending == c.pending && c'.lost == c.lost && c'.accepted == c.accepted
  {
    s' := Go(capacity, rules, s, PushBackStep(t));
    assert s'.held.rejecting == multiset{Deleted(t)};
    s' := Go(capacity, rules, s', PushBackStep(t));
    assert s'.held.rejecting == multiset{};
  }

  lemma TwiceRefusedStrays(capacity: nat, rules: Rules, w: string) returns (s: State)
    requires w in rules.workers && rules.staleRejections && rules.handlers == Concurrent && capacity >= 2
    ensures Reachable(capacity, rules, s) && Strays(s)
  {
    var tasks := Tasks(capacity);
    var t, u := tasks[0], tasks[1];
    Crowded(capacity);
    s := BackTwice(capacity, rules, w);
    s := Assigned(capacity, rules, s, w);
    assert Stage(s, capacity, {w}, tasks, tasks[2..], map[u.id := u], []) && u.id in s.requests;
    s := PushedBackTwice(capacity, rules, s, t);
    s := Refused(capacity, rules, s, u);
    assert map[u.id := u] - {u.id} == map[];
    NowhereIfNotQueued(s, capacity, {w}, tasks[2..] + [t] + [t], [u]);
  }

  // ---------------------------------------------------------------- no worker, no assignment

  ghost predicate Unassigned(s: State) {
    s.held.core.workers == {} && s.held.hand == Idle && s.held.core.pending == map[]
    && s.held.rejecting == multiset{} && s.held.core.lost == []
  }

  lemma StepUnassigned(s: State, step: Step, rules: Rules)
    requires Unassigned(s) && Allowed(s, step, rules) && rules.workers == {}
    ensures Unassigned(Apply(s, step))
  {
  }

  lemma {:induction false} RunUnassigned(s: State, steps: seq<Step>, rules: Rules)
    requires Unassigned(s) && Fair(s, steps, rules) && rules.workers == {}
    ensures Run(s, steps).held.core.lost == []
    decreases |steps|
  {
    if |steps| > 0 {
      StepUnassigned(s, steps[0], rules);
      RunUnassigned(Apply(s, steps[0]), steps[1..], rules);
    }
  }

  // ---------------------------------------------------------------- one place in the channel

  lemma LoopKept(s: State, step: Step, t: Task)
    requires Kept(s.held, t) && (s.held.hand.Holding? ==> s.held.hand.due != {})
    requires step.TakeStep? || step.ServeStep? || step.FinishStep?
    ensures Kept(Apply(s, step).held, t)
  {
    if Enabled(s, step) && step.TakeStep? {
      assert s.held.core.queue == [s.held.core.queue[0]] + s.held.core.queue[1..];
    }
  }

  lemma RejectionKept(s: State, step: Step, t: Task)
    requires Kept(s.held, t) && Enabled(s, step) && (step.DeleteStep? || step.PushBackStep?)
    requires step == PushBackStep(t) && !HasRoom(s.held.core) ==> t in s.held.core.queue
    requires step.DeleteStep? && step.task.id == t.id ==> step.task == t
    ensures Kept(Apply(s, step).held, t)
  {
  }

  lemma OthersKept(s: State, step: Step, t: Task)
    requires Kept(s.held, t)
    requires !step.TakeStep? && !step.ServeStep? && !step.FinishStep? && !step.DeleteStep? && !step.PushBackStep?
    ensures Kept(Apply(s, step).held, t)
  {
  }

  /** A task goes astray only when it is pushed back into a full channel that does not hold it. */
  lemma StepKept(s: State, step: Step, t: Task)
    requires Kept(s.held, t) && (s.held.hand.Holding? ==> s.held.hand.due != {})
    requires step == PushBackStep(t) && !HasRoom(s.held.core) ==> t in s.held.core.queue
    requires step.DeleteStep? && Enabled(s, step) && step.task.id == t.id ==> step.task == t
    ensures Kept(Apply(s, step).held, t)
  {
    if Enabled(s, step) {
      match step
      case TakeStep => LoopKept(s, step, t);
      case ServeStep(_) => LoopKept(s, step, t);
      case FinishStep => LoopKept(s, step, t);
      case DeleteStep(_) => RejectionKept(s, step, t);
      case PushBackStep(_) => RejectionKept(s, step, t);
      case _ => OthersKept(s, step, t);
    }
  }

  ghost predicate AllKept(s: State) {
    && Sound(s.held)
    && (s.held.hand.Holding? ==> s.held.hand.due != {})
    && forall t :: t in s.held.core.pushed ==> Kept(s.held, t)
  }

  lemma OnlyOne(s: State, t: Task)
    requires Sound(s.held) && |s.held.core.pushed| <= 1 && t in s.held.core.pushed && !HasRoom(s.held.core)
    requires s.held.core.capacity >= 1
    ensures t in s.held.core.queue
  {
    assert s.held.core.queue[0] in s.held.core.queue;
  }

  lemma OldKept(s: State, step: Step, t: Task)
    requires AllKept(s) && |s.held.core.pushed| <= s.held.core.capacity <= 1 && t in s.held.core.pushed
    ensures Kept(Apply(s, step).held, t)
  {
    if step == PushBackStep(t) && !HasRoom(s.held.core) {
      OnlyOne(s, t);
    }
    if step.DeleteStep? && Enabled(s, step) {
      assert Loaded(step.task) in s.held.rejecting;
    }
    StepKept(s, step, t);
  }

  lemma PushedIsKept(s: State, t: Task)
    requires t in Apply(s, PushStep(t)).held.core.pushed && t !in s.held.core.pushed
    ensures Kept(Apply(s, PushStep(t)).held, t)
  {
  }

  lemma NewlyPushed(s: State, step: Step, t: Task)
    requires t in Apply(s, step).held.core.pushed && t !in s.held.core.pushed
    ensures step == PushStep(t)
  {
  }

  lemma DueStays(s: State, step: Step, rules: Rules)
    requires Allowed(s, step, rules) && (s.held.hand.Holding? ==> s.held.hand.due != {})
    ensures Apply(s, step).held.hand.Holding? ==> Apply(s, step).held.hand.due != {}
  {
  }

  lemma StepAllKept(s: State, step: Step, rules: Rules)
    requires AllKept(s) && Allowed(s, step, rules) && |s.held.core.pushed| <= s.held.core.capacity <= 1
    ensures AllKept(Apply(s, step))
  {
    StepKeeps(s, step);
    DueStays(s, step, rules);
    forall t | t in Apply(s, step).held.core.pushed
      ensures Kept(Apply(s, step).held, t)
    {
      if t in s.held.core.pushed {
        OldKept(s, step, t);
      } else {
        NewlyPushed(s, step, t);
        PushedIsKept(s, t);
      }
    }
  }

  lemma {:induction false} RunAllKept(s: State, steps: seq<Step>, rules: Rules)
    requires AllKept(s) && Fair(s, steps, rules) && s.held.core.capacity <= 1
    requires |Run(s, steps).held.core.pushed| <= s.held.core.capacity
    ensures AllKept(Run(s, steps))
    decreases |steps|
  {
    if |steps| > 0 {
      StepKeeps(s, steps[0]);
      RunKeeps(Apply(s, steps[0]), steps[1..]);
      StepAllKept(s, steps[0], rules);
      RunAllKept(Apply(s, steps[0]), steps[1..], rules);
    }
  }

  // ---------------------------------------------------------------- the exact conditions

  ghost predicate AtMostOne(workers: set<string>) {
    forall a, b :: a in workers && b in workers ==> a == b
  }

  /** There cannot be two workers, and if there can be one, either every rejection answers a request
      or no two of them for one task are both between Load and Delete. */
  ghost predicate SafeRules(rules: Rules) {
    AtMostOne(rules.workers) && (rules.staleRejections && rules.handlers == Concurrent ==> rules.workers == {})
  }

  ghost predicate NeverDrops(capacity: nat, rules: Rules) {
    forall s :: Reachable(capacity, rules, s) ==> !Drops(s)
  }

  ghost predicate NeverStrays(capacity: nat, rules: Rules) {
    forall s :: Reachable(capacity, rules, s) ==> !Strays(s)
  }

  lemma SafeRulesSuffice(capacity: nat, rules: Rules, s: State)
    requires SafeRules(rules) && Reachable(capacity, rules, s)
    ensures !Drops(s) && !Strays(s)
  {
    var steps :| Fair(Start(capacity), steps, rules) && Run(Start(capacity), steps) == s;
    if Modest(s) {
      if rules.workers == {} {
        RunUnassigned(Start(capacity), steps, rules);
        FullAccounting(capacity, steps);
        forall t | t in s.held.core.pushed
          ensures Kept(s.held, t)
        {
          AccountedIsKept(s.held, t);
        }
      } else {
        var w :| w in rules.workers;
        assert rules.workers <= {w};
        NoLoss(capacity, steps, w, rules);
      }
    }
  }

  /** For every channel that can hold a task: no push back ever finds it full if and only if the
      rules are safe. */
  lemma NeverDropsIff(capacity: nat, rules: Rules)
    requires capacity >= 1
    ensures NeverDrops(capacity, rules) <==> SafeRules(rules)
  {
    if SafeRules(rules) {
      forall s | Reachable(capacity, rules, s)
        ensures !Drops(s)
      {
        SafeRulesSuffice(capacity, rules, s);
      }
    } else if !AtMostOne(rules.workers) {
      var a, b :| a in rules.workers && b in rules.workers && a != b;
      var s := TwoWorkersDrop(capacity, rules, a, b);
    } else {
      var w :| w in rules.workers;
      var s := TwiceRefusedDrops(capacity, rules, w);
    }
  }

  /** And for every channel: no task is ever nowhere if and only if the rules are safe or the channel
      has only one place, since a task that finds that one taken has found itself. */
  lemma NeverStraysIff(capacity: nat, rules: Rules)
    ensures NeverStrays(capacity, rules) <==> SafeRules(rules) || capacity <= 1
  {
    if SafeRules(rules) {
      forall s | Reachable(capacity, rules, s)
        ensures !Strays(s)
      {
        SafeRulesSuffice(capacity, rules, s);
      }
    } else if capacity <= 1 {
      forall s | Reachable(capacity, rules, s)
        ensures !Strays(s)
      {
        var steps :| Fair(Start(capacity), steps, rules) && Run(Start(capacity), steps) == s;
        RunKeeps(Start(capacity), steps);
        if Modest(s) {
          RunAllKept(Start(capacity), steps, rules);
        }
      }
    } else if !AtMostOne(rules.workers) {
      var a, b :| a in rules.workers && b in rules.workers && a != b;
      var s := TwoWorkersStray(capacity, rules, a, b);
    } else {
      var w :| w in rules.workers;
      var s := TwiceRefusedStrays(capacity, rules, w);
    }
  }
}
