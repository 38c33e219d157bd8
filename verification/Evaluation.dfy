/**
 What a worker computes over a whole run of tasks. Every addTowInt task has a dependency tree: its
 arguments are literals or objects that earlier tasks left in the store. The store holds wrapped
 64-bit results at every step; the claim is about the exact sum of the leaves.
 */
module Evaluation {
  import opened Bytes
  import opened Wrappers
  import opened Ledger
  import opened Worker

  datatype Job = Job(req: AssignTaskRequest, stamp: string)

  /** The jobs one after another, up to the first that makes the worker panic. */
  function RunJobs(w: Local, jobs: seq<Job>): Local
    decreases |jobs|
  {
    if |jobs| == 0 || OutcomeOf(w, jobs[0].req) == Panicked then w
    else RunJobs(AfterAssignTask(w, jobs[0].req, jobs[0].stamp), jobs[1..])
  }

  // ---------------------------------------------------------------- dependency trees

  /** A failed task leaves a zero behind, on which later tasks may well depend. */
  datatype Tree = Literal(value: nat) | Failed | Sum(left: Tree, right: Tree)

  function LeafSum(t: Tree): nat {
    match t
    case Literal(v) => v
    case Failed => 0
    case Sum(l, r) => LeafSum(l) + LeafSum(r)
  }

  predicate IsObject(req: AssignTaskRequest, i: nat)
    requires i < |req.args|
  {
    i < |req.argsType| && req.argsType[i] == OBJECT_TYPE
  }

  /** An argument that can be added: an object, or a literal of at least eight bytes. */
  predicate Usable(req: AssignTaskRequest, i: nat)
    requires i < |req.args|
  {
    IsObject(req, i) || |req.args[i]| >= 8
  }

  function TreeOfArg(trees: map<string, Tree>, req: AssignTaskRequest, i: nat): Tree
    requires i < |req.args| && Usable(req, i)
  {
    if !IsObject(req, i) then Literal(FromBE(req.args[i][..8]))
    else
      var id := DecodeString(req.args[i]);
      if id in trees then trees[id] else Failed
  }

  function TreeOf(trees: map<string, Tree>, req: AssignTaskRequest): Tree {
    if |req.args| == 2 && Usable(req, 0) && Usable(req, 1) then
      Sum(TreeOfArg(trees, req, 0), TreeOfArg(trees, req, 1))
    else Failed
  }

  predicate KnowsDependencies(ids: set<string>, req: AssignTaskRequest) {
    |req.args| <= |req.argsType|
    && forall i :: 0 <= i < |req.args| && req.argsType[i] == OBJECT_TYPE ==> DecodeString(req.args[i]) in ids
  }

  /** The tree of every object after the jobs, from the requests alone. */
  function TreesOf(trees: map<string, Tree>, jobs: seq<Job>): map<string, Tree>
    decreases |jobs|
  {
    if |jobs| == 0 || !KnowsDependencies(trees.Keys, jobs[0].req) then trees
    else
      var Job(req, stamp) := jobs[0];
      TreesOf(if req.funcName == ADD_TOW_INT then trees[ObjectIdOf(req, stamp) := TreeOf(trees, req)] else trees,
              jobs[1..])
  }

  // ---------------------------------------------------------------- the store evaluates the trees

  /** The stored data stands for the exact sum of the tree's leaves, modulo 2^64. */
  ghost predicate Evaluates(obj: Object, tree: Tree) {
    |obj.data| == 8 && FromBE(obj.data) == LeafSum(tree) % TWO_64
  }

  ghost predicate StoreEvaluates(objects: map<string, Object>, trees: map<string, Tree>) {
    objects.Keys == trees.Keys && forall id :: id in objects ==> Evaluates(objects[id], trees[id])
  }

  lemma SumModulo(x: nat, y: nat)
    ensures (x % TWO_64 + y % TWO_64) % TWO_64 == (x + y) % TWO_64
  {
    var qx, qy := x / TWO_64, y / TWO_64;
    assert x + y == TWO_64 * (qx + qy) + (x % TWO_64 + y % TWO_64);
  }

  lemma ArgEvaluates(objects: map<string, Object>, trees: map<string, Tree>, req: AssignTaskRequest, i: nat)
    requires StoreEvaluates(objects, trees) && Resolvable(objects, req)
    requires i < |req.args| && Usable(req, i)
    ensures var data := ArgData(objects, req, i);
            |data| >= 8 && FromBE(data[..8]) == LeafSum(TreeOfArg(trees, req, i)) % TWO_64
  {
    var data := ArgData(objects, req, i);
    if IsObject(req, i) {
      assert data[..8] == data;
    } else {
      FromBound(data[..8]);
      Widths();
    }
  }

  lemma SumEvaluates(objects: map<string, Object>, trees: map<string, Tree>, req: AssignTaskRequest)
    requires StoreEvaluates(objects, trees) && Resolvable(objects, req) && TreeOf(trees, req).Sum?
    ensures var result := AddResult(ResolvedArgs(objects, req));
            result.Some? && FromBE(IntBytes(result.value)) == LeafSum(TreeOf(trees, req)) % TWO_64
  {
    ArgEvaluates(objects, trees, req, 0);
    ArgEvaluates(objects, trees, req, 1);
    ByteAddition(ResolvedArgs(objects, req));
    SumModulo(LeafSum(TreeOf(trees, req).left), LeafSum(TreeOf(trees, req).right));
  }

  /** A task succeeds exactly when its arguments are two and usable, and then what it stores
      evaluates its tree. */
  lemma ResultEvaluates(objects: map<string, Object>, trees: map<string, Tree>, req: AssignTaskRequest)
    requires StoreEvaluates(objects, trees) && Resolvable(objects, req)
    ensures var result := AddResult(ResolvedArgs(objects, req));
            && (result.Some? <==> TreeOf(trees, req).Sum?)
            && Evaluates(Object(INT_TYPE, IntBytes(OrZero(result))), TreeOf(trees, req))
  {
    if TreeOf(trees, req).Sum? {
      SumEvaluates(objects, trees, req);
    } else {
      FailsWithoutTree(objects, trees, req);
      Widths();
      FromToFits(0, 8);
    }
  }

  lemma FailsWithoutTree(objects: map<string, Object>, trees: map<string, Tree>, req: AssignTaskRequest)
    requires StoreEvaluates(objects, trees) && Resolvable(objects, req) && TreeOf(trees, req).Failed?
    ensures AddResult(ResolvedArgs(objects, req)).None?
  {
    if |req.args| == 2 {
      var i := if Usable(req, 0) then 1 else 0;
      assert !Usable(req, i);
      assert ResolvedArgs(objects, req)[i] == req.args[i];
    }
  }

  lemma SameDependencies(objects: map<string, Object>, trees: map<string, Tree>, req: AssignTaskRequest)
    requires objects.Keys == trees.Keys
    ensures Resolvable(objects, req) <==> KnowsDependencies(trees.Keys, req)
  {
  }

  lemma {:induction false} RunEvaluates(w: Local, trees: map<string, Tree>, jobs: seq<Job>)
    requires StoreEvaluates(w.objects, trees)
    ensures StoreEvaluates(RunJobs(w, jobs).objects, TreesOf(trees, jobs))
    decreases |jobs|
  {
    if |jobs| > 0 {
      var Job(req, stamp) := jobs[0];
      SameDependencies(w.objects, trees, req);
      if Resolvable(w.objects, req) {
        if req.funcName == ADD_TOW_INT {
          ResultEvaluates(w.objects, trees, req);
          var id := ObjectIdOf(req, stamp);
          RunEvaluates(AfterAssignTask(w, req, stamp), trees[id := TreeOf(trees, req)], jobs[1..]);
        } else {
          RunEvaluates(w, trees, jobs[1..]);
        }
      }
    }
  }

  /**
   Evaluation is correct on dependency trees: after any run of tasks on an empty worker, every
   object has exactly eight bytes and decodes to the sum of all literal leaves of its dependency
   tree, taken modulo 2^64 and read as a signed integer.
   */
  lemma EvaluationCorrect(jobs: seq<Job>, id: string)
    requires id in RunJobs(Local(map[], []), jobs).objects
    ensures var obj := RunJobs(Local(map[], []), jobs).objects[id];
            var trees := TreesOf(map[], jobs);
            && |obj.data| == 8
            && id in trees
            && DecodeInt(obj.data) == Some(Signed(LeafSum(trees[id]) % TWO_64))
  {
    RunEvaluates(Local(map[], []), map[], jobs);
    var obj := RunJobs(Local(map[], []), jobs).objects[id];
    assert obj.data[..8] == obj.data;
    FromBound(obj.data);
    Widths();
  }

  /** The answer to an addition says whether its object is the sum of a tree or the zero of a failure;
      a function the worker does not know is accepted. There is no answer exactly when an argument has
      no type or names an object of no earlier task. */
  lemma AnswerTellsSuccess(jobs: seq<Job>, next: Job)
    ensures var outcome, trees := OutcomeOf(RunJobs(Local(map[], []), jobs), next.req), TreesOf(map[], jobs);
            outcome == if !KnowsDependencies(trees.Keys, next.req) then Panicked
                       else Answered(next.req.funcName == ADD_TOW_INT ==> TreeOf(trees, next.req).Sum?)
  {
    var w, trees := RunJobs(Local(map[], []), jobs), TreesOf(map[], jobs);
    RunEvaluates(Local(map[], []), map[], jobs);
    SameDependencies(w.objects, trees, next.req);
    if Resolvable(w.objects, next.req) {
      ResultEvaluates(w.objects, trees, next.req);
    }
  }

  // ---------------------------------------------------------------- later tasks

  lemma {:induction false} RunAppendJobs(w: Local, first: seq<Job>, second: seq<Job>)
    ensures RunJobs(w, first + second) == RunJobs(w, first)
            || RunJobs(w, first + second) == RunJobs(RunJobs(w, first), second)
    decreases |first|
  {
    if |first| == 0 {
      assert first + second == second;
    } else if OutcomeOf(w, first[0].req) != Panicked {
      assert (first + second)[1..] == first[1..] + second;
      RunAppendJobs(AfterAssignTask(w, first[0].req, first[0].stamp), first[1..], second);
    }
  }

  lemma {:induction false} RunKeepsObject(w: Local, jobs: seq<Job>, id: string)
    requires id in w.objects
    requires forall i :: 0 <= i < |jobs| ==> ObjectIdOf(jobs[i].req, jobs[i].stamp) != id
    ensures id in RunJobs(w, jobs).objects && RunJobs(w, jobs).objects[id] == w.objects[id]
    decreases |jobs|
  {
    if |jobs| > 0 && OutcomeOf(w, jobs[0].req) != Panicked {
      RunKeepsObject(AfterAssignTask(w, jobs[0].req, jobs[0].stamp), jobs[1..], id);
    }
  }

  /** Later tasks with other object ids never change an object. */
  lemma LaterTasksKeep(jobs: seq<Job>, later: seq<Job>, id: string)
    requires id in RunJobs(Local(map[], []), jobs).objects
    requires forall i :: 0 <= i < |later| ==> ObjectIdOf(later[i].req, later[i].stamp) != id
    ensures var w, w' := RunJobs(Local(map[], []), jobs), RunJobs(Local(map[], []), jobs + later);
            id in w'.objects && w'.objects[id] == w.objects[id]
  {
    RunAppendJobs(Local(map[], []), jobs, later);
    RunKeepsObject(RunJobs(Local(map[], []), jobs), later, id);
  }
}
