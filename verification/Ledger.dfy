/**
 The scheduler's task ledger: a bounded channel of queued tasks, a table of tasks that have been
 handed to workers and not answered yet, and the connected workers.

 `Core` is the abstract ledger with its history; the functions on it are the effect of each
 handler run to completion. The class is the scheduler itself.
 */
module Ledger {
  import opened Bytes

  datatype Task = Task(id: string, funcName: string, args: seq<seq<byte>>,
                       argsType: seq<string>, dependencies: seq<string>)

  datatype AssignTaskRequest =
    AssignTaskRequest(taskId: string, funcName: string, args: seq<seq<byte>>,
                      argsType: seq<string>, dependencies: seq<string>)

  /** The request for a task carries neither its argument types nor its dependencies. */
  function RequestFor(task: Task): AssignTaskRequest {
    AssignTaskRequest(task.id, task.funcName, task.args, [], [])
  }

  /** The request asks for a task in the table: its id, its function and its arguments. */
  predicate AsksFor(req: AssignTaskRequest, pending: map<string, Task>) {
    && req.taskId in pending
    && pending[req.taskId].id == req.taskId
    && pending[req.taskId].funcName == req.funcName
    && pending[req.taskId].args == req.args
  }

  datatype Core = Core(
    capacity: nat,
    queue: seq<Task>,
    pending: map<string, Task>,
    workers: set<string>,
    // history
    pushed: seq<Task>,      // tasks accepted by PushTask from outside
    entered: seq<Task>,     // everything that went into the channel, requeued tasks included
    taken: seq<Task>,       // everything that came out of the channel
    accepted: seq<string>,  // ids of the acceptances received
    rejections: nat,        // rejections received
    lost: seq<Task>)        // tasks dropped

  function Empty(capacity: nat): Core {
    Core(capacity, [], map[], {}, [], [], [], [], 0, [])
  }

  predicate HasRoom(c: Core) {
    |c.queue| < c.capacity
  }

  function AfterPush(c: Core, task: Task): Core {
    if HasRoom(c) then
      c.(queue := c.queue + [task], pushed := c.pushed + [task], entered := c.entered + [task])
    else c
  }

  /** PushTask called by the rejection handler, which ignores its error. */
  function AfterRequeue(c: Core, task: Task): Core {
    if HasRoom(c) then c.(queue := c.queue + [task], entered := c.entered + [task])
    else c.(lost := c.lost + [task])
  }

  function AfterAssign(c: Core): Core {
    if c.queue == [] then c
    else
      var task := c.queue[0];
      var popped := c.(queue := c.queue[1..], taken := c.taken + [task]);
      if c.workers == {} then popped.(lost := c.lost + [task])
      else popped.(pending := c.pending[task.id := task])
  }

  function AfterResponse(c: Core, id: string, accepted: bool): Core {
    if accepted then c.(pending := c.pending - {id}, accepted := c.accepted + [id])
    else
      var noted := c.(rejections := c.rejections + 1);
      if id in c.pending then AfterRequeue(noted.(pending := c.pending - {id}), c.pending[id]) else noted
  }

  function AfterWorkerUp(c: Core, worker: string): Core {
    c.(workers := c.workers + {worker})
  }

  // ---------------------------------------------------------------- the scheduler

  datatype Sent = Sent(worker: string, req: AssignTaskRequest)

  function Broadcast(workers: set<string>, req: AssignTaskRequest): set<Sent> {
    set w | w in workers :: Sent(w, req)
  }

  /** Sending to one more worker of those still to do, after the broadcast to the others. */
  lemma BroadcastOneMore(sent: multiset<Sent>, workers: set<string>, todo: set<string>, w: string,
                         req: AssignTaskRequest)
    requires w in todo && todo <= workers
    ensures sent + multiset(Broadcast(workers - todo, req)) + multiset{Sent(w, req)}
            == sent + multiset(Broadcast(workers - (todo - {w}), req))
  {
    assert Broadcast(workers - (todo - {w}), req) == Broadcast(workers - todo, req) + {Sent(w, req)};
    assert Sent(w, req) !in Broadcast(workers - todo, req);
  }

  /** Every connected worker is asked, and each for the task that is pending now. */
  lemma BroadcastAsksForTask(c: Core, w: string)
    requires c.queue != []
    ensures w in c.workers <==> exists x :: x in Broadcast(c.workers, RequestFor(c.queue[0])) && x.worker == w
    ensures forall x :: x in Broadcast(c.workers, RequestFor(c.queue[0])) ==>
              AsksFor(x.req, AfterAssign(c).pending) && AfterAssign(c).pending[x.req.taskId] == c.queue[0]
  {
    if w in c.workers {
      assert Sent(w, RequestFor(c.queue[0])) in Broadcast(c.workers, RequestFor(c.queue[0]));
    }
  }

  const MODE_WORKER := 1
  const MODE_GCS := 4

  class Scheduler {
    const capacity: nat
    var taskChan: seq<Task>
    var pendingTasks: map<string, Task>
    var workerConns: map<string, nat>   // endpoint -> connection id
    var gcsConns: map<string, nat>
    var sent: seq<Sent>                 // requests handed to worker connections
    var established: set<nat>           // connections marked as established

    ghost var pushed: seq<Task>
    ghost var entered: seq<Task>
    ghost var taken: seq<Task>
    ghost var accepted: seq<string>
    ghost var rejections: nat
    ghost var lost: seq<Task>

    ghost function Abs(): Core
      reads this
    {
      Core(capacity, taskChan, pendingTasks, workerConns.Keys,
           pushed, entered, taken, accepted, rejections, lost)
    }

    constructor (taskChanSize: nat)
      ensures Abs() == Empty(taskChanSize) && sent == [] && gcsConns == map[] && established == {}
    {
      capacity := taskChanSize;
      taskChan, pendingTasks, workerConns, gcsConns, sent := [], map[], map[], map[], [];
      established := {};
      pushed, entered, taken, accepted, rejections, lost := [], [], [], [], 0, [];
    }

    /** The channel send both callers of PushTask make; only the history tells them apart. */
    method TrySend(task: Task) returns (ok: bool)
      modifies this`taskChan, this`entered
      ensures ok == HasRoom(old(Abs()))
      ensures taskChan == if ok then old(taskChan) + [task] else old(taskChan)
      ensures entered == if ok then old(entered) + [task] else old(entered)
    {
      ok := |taskChan| < capacity;
      if ok {
        taskChan := taskChan + [task];
        entered := entered + [task];
      }
    }

    method PushTask(task: Task) returns (ok: bool)
      modifies this
      ensures Abs() == AfterPush(old(Abs()), task)
      ensures ok == HasRoom(old(Abs()))
      ensures sent == old(sent) && gcsConns == old(gcsConns) && established == old(established)
    {
      ok := TrySend(task);
      if ok {
        pushed := pushed + [task];
      }
    }

    /** The body of the broadcast loop: each worker gets a request, in the map's arbitrary order. */
    method SendToAll(task: Task)
      modifies this`pendingTasks, this`sent
      ensures pendingTasks == if workerConns == map[] then old(pendingTasks)
                              else old(pendingTasks)[task.id := task]
      ensures multiset(sent) == multiset(old(sent))
                                + multiset(Broadcast(workerConns.Keys, RequestFor(task)))
    {
      var workers := workerConns.Keys;
      var todo := workers;
      var req := AssignTaskRequest(task.id, task.funcName, task.args, [], []);
      ghost var unsent, stored := multiset(sent), pendingTasks[task.id := task];
      while todo != {}
        invariant todo <= workers
        invariant pendingTasks == if todo == workers then old(pendingTasks) else stored
        invariant multiset(sent) == unsent + multiset(Broadcast(workers - todo, req))
        decreases todo
      {
        var w :| w in todo;
        BroadcastOneMore(unsent, workers, todo, w, req);
        pendingTasks := pendingTasks[task.id := task];
        sent := sent + [Sent(w, req)];
        todo := todo - {w};
      }
      assert workers - todo == workers;
    }

    method AssignTask() returns (ok: bool)
      modifies this
      ensures Abs() == AfterAssign(old(Abs()))
      ensures ok <==> old(taskChan) != []
      ensures ok ==> multiset(sent) == multiset(old(sent))
                       + multiset(Broadcast(old(workerConns.Keys), RequestFor(old(taskChan)[0])))
      ensures !ok ==> sent == old(sent)
      ensures gcsConns == old(gcsConns) && established == old(established)
    {
      if taskChan == [] {
        return false;
      }
      var task := taskChan[0];
      taskChan := taskChan[1..];
      taken := taken + [task];
      if workerConns == map[] {
        lost := lost + [task];
      }
      SendToAll(task);
      return true;
    }

    /** ok is false for a rejection of a task that is not pending, which closes the connection. */
    method OnAssignTaskResp(id: string, accept: bool) returns (ok: bool)
      modifies this
      ensures Abs() == AfterResponse(old(Abs()), id, accept)
      ensures ok <==> accept || id in old(pendingTasks)
      ensures sent == old(sent) && gcsConns == old(gcsConns) && established == old(established)
    {
      if accept {
        pendingTasks := pendingTasks - {id};
        accepted := accepted + [id];
      } else {
        rejections := rejections + 1;
        if id !in pendingTasks {
          return false;
        }
        var task := pendingTasks[id];
        pendingTasks := pendingTasks - {id};
        var pushedBack := TrySend(task);
        if !pushedBack {
          lost := lost + [task];
        }
      }
      return true;
    }

    method OnEstablishAck(remote: string, connId: nat, mode: int)
      modifies this
      ensures Abs() == if mode == MODE_WORKER then AfterWorkerUp(old(Abs()), remote) else old(Abs())
      ensures mode == MODE_WORKER ==> workerConns[remote] == connId
      ensures gcsConns == if mode == MODE_GCS then old(gcsConns)[remote := connId] else old(gcsConns)
      ensures established == old(established) + {connId}
      ensures sent == old(sent)
    {
      if mode == MODE_WORKER {
        workerConns := workerConns[remote := connId];
      } else if mode == MODE_GCS {
        gcsConns := gcsConns[remote := connId];
      }
      established := established + {connId};
    }
  }
}
