/**
 The worker: 64-bit integers on the wire, the addTowInt task, local argument resolution, the
 object store and the channel of objects to be registered with the GCS.
 */
module Worker {
  import opened Bytes
  import opened Wrappers
  import opened Ledger

  // ---------------------------------------------------------------- integers

  const TWO_63: int := 0x8000_0000_0000_0000
  const TWO_64: int := 0x1_0000_0000_0000_0000

  type int64 = x: int | -0x8000_0000_0000_0000 <= x < 0x8000_0000_0000_0000

  /** Go's conversions between uint64 and int, and its addition of ints. */
  function Signed(u: nat): int64
    requires u < TWO_64
  {
    if u < TWO_63 then u else u - TWO_64
  }

  function Unsigned(v: int64): (u: nat)
    ensures u < TWO_64
  {
    if v >= 0 then v else v + TWO_64
  }

  function WrapAdd(a: int64, b: int64): int64 {
    var sum := a + b;
    if sum >= TWO_63 then sum - TWO_64 else if sum < -TWO_63 then sum + TWO_64 else sum
  }

  /** Longer data is fine: only the first eight bytes count. */
  function DecodeInt(data: seq<byte>): Option<int64> {
    if |data| < 8 then None
    else
      FromBound(data[..8]);
      Widths();
      Some(Signed(FromBE(data[..8])))
  }

  function IntBytes(v: int64): (data: seq<byte>)
    ensures |data| == 8
  {
    ToBE(Unsigned(v), 8)
  }

  /** Congruent to the unsigned value modulo 2^64, which leaves no choice among 64-bit integers. */
  lemma SignedCongruent(u: nat)
    requires u < TWO_64
    ensures (Signed(u) - u) % TWO_64 == 0 && Unsigned(Signed(u)) == u
  {
  }

  method EncodeInt(v: int64) returns (b: array<byte>)
    ensures fresh(b) && b[..] == IntBytes(v)
  {
    b := new byte[8];
    PutUint(b, 0, 8, Unsigned(v));
  }

  lemma DecodeEncode(v: int64)
    ensures DecodeInt(IntBytes(v)) == Some(v)
  {
    Widths();
    FromToFits(Unsigned(v), 8);
    assert IntBytes(v)[..8] == IntBytes(v);
  }

  lemma EncodeDecode(data: seq<byte>)
    requires |data| == 8
    ensures DecodeInt(data).Some? && IntBytes(DecodeInt(data).value) == data
  {
    assert data[..8] == data;
    FromBound(data);
    Widths();
    ToFrom(data);
  }

  // ---------------------------------------------------------------- the task function

  const ADD_TOW_INT := "addTowInt"

  predicate TwoInts(args: seq<seq<byte>>) {
    |args| == 2 && |args[0]| >= 8 && |args[1]| >= 8
  }

  /** The result, or none where the code reports an error. */
  function AddResult(args: seq<seq<byte>>): Option<int64> {
    if TwoInts(args) then Some(WrapAdd(DecodeInt(args[0]).value, DecodeInt(args[1]).value)) else None
  }

  method AddTowIntFunc(args: seq<seq<byte>>) returns (result: int64, ok: bool)
    ensures ok <==> TwoInts(args)
    ensures AddResult(args) == if ok then Some(result) else None
    ensures !ok ==> result == 0
  {
    var argNum := 0;
    var intArgs: seq<int64> := [];
    for i := 0 to |args|
      invariant argNum == |intArgs| == i
      invariant forall k :: 0 <= k < i ==> DecodeInt(args[k]) == Some(intArgs[k])
    {
      var val := DecodeInt(args[i]);
      if val.None? {
        return 0, false;
      }
      intArgs := intArgs + [val.value];
      argNum := argNum + 1;
    }
    if argNum != 2 {
      return 0, false;
    }
    return WrapAdd(intArgs[0], intArgs[1]), true;
  }

  lemma UnsignedWrapAdd(x: nat, y: nat)
    requires x < TWO_64 && y < TWO_64
    ensures Unsigned(WrapAdd(Signed(x), Signed(y))) == if x + y < TWO_64 then x + y else x + y - TWO_64
  {
  }

  /** On bytes, the task adds the unsigned values of the two prefixes modulo 2^64; it succeeds
      exactly for two arguments of at least eight bytes. */
  lemma ByteAddition(args: seq<seq<byte>>)
    ensures AddResult(args).Some? <==> TwoInts(args)
    ensures TwoInts(args) ==>
              FromBE(IntBytes(AddResult(args).value))
              == (FromBE(args[0][..8]) + FromBE(args[1][..8])) % TWO_64
  {
    if TwoInts(args) {
      var x, y := FromBE(args[0][..8]), FromBE(args[1][..8]);
      FromBound(args[0][..8]);
      FromBound(args[1][..8]);
      Widths();
      UnsignedWrapAdd(x, y);
      FromToFits(Unsigned(AddResult(args).value), 8);
    }
  }

  // ---------------------------------------------------------------- the handler on values

  const OBJECT_TYPE := "object"
  const INT_TYPE := "int"

  datatype Object = Object(kind: string, data: seq<byte>)

  /** A Go string holds bytes. */
  function DecodeString(data: seq<byte>): string {
    seq(|data|, i requires 0 <= i < |data| => data[i] as char)
  }

  /** The only characters of a Go string are its bytes. */
  predicate GoString(s: string) {
    forall c :: c in s ==> c as int < 256
  }

  function ByteOf(c: char): byte {
    c as int % 256
  }

  /** As an object id is written into an argument. */
  function EncodeString(s: string): seq<byte> {
    seq(|s|, i requires 0 <= i < |s| => ByteOf(s[i]))
  }

  lemma DecodeEncodeString(s: string)
    requires GoString(s)
    ensures DecodeString(EncodeString(s)) == s
  {
    forall i | 0 <= i < |s|
      ensures DecodeString(EncodeString(s))[i] == s[i]
    {
      assert s[i] in s;
    }
  }

  /** Every argument has a type, and every object argument is in the local store. */
  predicate Resolvable(objects: map<string, Object>, req: AssignTaskRequest) {
    |req.args| <= |req.argsType|
    && forall i :: 0 <= i < |req.args| && req.argsType[i] == OBJECT_TYPE ==>
         DecodeString(req.args[i]) in objects
  }

  function ArgData(objects: map<string, Object>, req: AssignTaskRequest, i: nat): seq<byte>
    requires Resolvable(objects, req) && i < |req.args|
  {
    if req.argsType[i] == OBJECT_TYPE then objects[DecodeString(req.args[i])].data else req.args[i]
  }

  function ResolvedArgs(objects: map<string, Object>, req: AssignTaskRequest): (args: seq<seq<byte>>)
    requires Resolvable(objects, req)
    ensures |args| == |req.args|
  {
    seq(|req.args|, i requires 0 <= i < |req.args| => ArgData(objects, req, i))
  }

  /** Task id, function name and the time of the call. */
  function ObjectIdOf(req: AssignTaskRequest, stamp: string): string {
    req.taskId + req.funcName + stamp
  }

  /** An argument made from the id of a stored object stands for the data of that object. */
  lemma ObjectArgument(objects: map<string, Object>, req: AssignTaskRequest, i: nat, id: string)
    requires GoString(id)
    requires Resolvable(objects, req) && i < |req.args|
    requires req.argsType[i] == OBJECT_TYPE && req.args[i] == EncodeString(id)
    ensures id in objects && ResolvedArgs(objects, req)[i] == objects[id].data
  {
    DecodeEncodeString(id);
  }

  /** Time stamps of one length, as nanoseconds have from 2001 to 2286, keep the ids of different tasks
      with one function, and of different calls, apart. */
  lemma ObjectIdsDiffer(req: AssignTaskRequest, stamp: string, req': AssignTaskRequest, stamp': string)
    requires |stamp| == |stamp'| && req.funcName == req'.funcName
    ensures ObjectIdOf(req, stamp) == ObjectIdOf(req', stamp') <==> req.taskId == req'.taskId && stamp == stamp'
  {
    var id, id' := ObjectIdOf(req, stamp), ObjectIdOf(req', stamp');
    if id == id' {
      var n := |req.taskId|;
      assert stamp == id[|id| - |stamp|..] && stamp' == id'[|id'| - |stamp'|..];
      assert |req'.taskId| == n;
      assert req.taskId == id[..n] && req'.taskId == id'[..n];
    }
  }

  /** A panic ends the worker: an index past ArgsType, or the type assertion that a lookup for an
      object which is not in the local store runs into before it asks anyone. */
  datatype Outcome = Answered(accepted: bool) | Panicked

  datatype Local = Local(objects: map<string, Object>, registering: seq<string>)

  function OrZero(result: Option<int64>): int64 {
    match result
    case Some(v) => v
    case None => 0
  }

  function AfterAssignTask(w: Local, req: AssignTaskRequest, stamp: string): Local {
    if !Resolvable(w.objects, req) || req.funcName != ADD_TOW_INT then w
    else
      var id := ObjectIdOf(req, stamp);
      var result := AddResult(ResolvedArgs(w.objects, req));
      Local(w.objects[id := Object(INT_TYPE, IntBytes(OrZero(result)))], w.registering + [id])
  }

  function OutcomeOf(w: Local, req: AssignTaskRequest): Outcome {
    if !Resolvable(w.objects, req) then Panicked
    else if req.funcName != ADD_TOW_INT then Answered(true)
    else Answered(AddResult(ResolvedArgs(w.objects, req)).Some?)
  }

  // ---------------------------------------------------------------- the code

  /** The response sent for a request. */
  function AnswerTo(w: Local, req: AssignTaskRequest): Response
    requires OutcomeOf(w, req).Answered?
  {
    Response(req.taskId, OutcomeOf(w, req).accepted)
  }

  class ObjectStorage {
    var objects: map<string, Object>

    constructor ()
      ensures objects == map[]
    {
      objects := map[];
    }

    method GetObject(id: string) returns (found: Option<Object>)
      ensures found == if id in objects then Some(objects[id]) else None
    {
      found := if id in objects then Some(objects[id]) else None;
    }

    method SetObject(id: string, obj: Object)
      modifies this
      ensures objects == old(objects)[id := obj]
    {
      objects := objects[id := obj];
    }
  }

  datatype Response = Response(taskId: string, accepted: bool)
  datatype FetchReply = Found(data: seq<byte>) | NotFound
  datatype Report = Report(objectId: string, connection: string)

  function ReportsFor(objectIds: seq<string>, conn: string): seq<Report> {
    if |objectIds| == 0 then [] else [Report(objectIds[0], conn)] + ReportsFor(objectIds[1..], conn)
  }

  /** One report for each id, in this order. */
  lemma {:induction false} ReportsForAt(objectIds: seq<string>, conn: string)
    ensures |ReportsFor(objectIds, conn)| == |objectIds|
    ensures forall i :: 0 <= i < |objectIds| ==> ReportsFor(objectIds, conn)[i] == Report(objectIds[i], conn)
    decreases |objectIds|
  {
    if |objectIds| > 0 {
      ReportsForAt(objectIds[1..], conn);
    }
  }

  class WorkerNode {
    const objectStorage: ObjectStorage
    var registerObjectChan: seq<string>
    var gcsConn: Option<string>   // the connection the GCS has opened to this worker
    var responses: seq<Response>  // sent to the scheduler
    var reports: seq<Report>      // sent to the GCS
    var established: set<string>  // connections marked as established
    var welcomed: seq<string>     // connections sent a positive EstablishResponse

    ghost function Abs(): Local
      reads this, objectStorage
    {
      Local(objectStorage.objects, registerObjectChan)
    }

    constructor ()
      ensures Abs() == Local(map[], []) && fresh(objectStorage)
      ensures gcsConn == None && responses == [] && reports == [] && established == {} && welcomed == []
    {
      objectStorage := new ObjectStorage();
      registerObjectChan, gcsConn, responses, reports := [], None, [], [];
      established, welcomed := {}, [];
    }

    /** The result is stored, even that of a failed task, and then registered. */
    method OnAddTowInt(req: AssignTaskRequest, args: seq<seq<byte>>, stamp: string) returns (ok: bool)
      modifies this`registerObjectChan, objectStorage
      ensures ok == AddResult(args).Some?
      ensures var id := ObjectIdOf(req, stamp);
              registerObjectChan == old(registerObjectChan) + [id]
              && objectStorage.objects
                 == old(objectStorage.objects)[id := Object(INT_TYPE, IntBytes(OrZero(AddResult(args))))]
    {
      var result;
      result, ok := AddTowIntFunc(args);
      var objectId := req.taskId + req.funcName + stamp;
      var data := EncodeInt(result);
      objectStorage.SetObject(objectId, Object(INT_TYPE, data[..]));
      registerObjectChan := registerObjectChan + [objectId];
    }

    /** The handler itself returns nil even for a rejected task: the error of the task has been
        overwritten by that of encoding the response. So the connection stays open. */
    method OnAssignTask(req: AssignTaskRequest, stamp: string) returns (outcome: Outcome)
      modifies this`registerObjectChan, this`responses, objectStorage
      ensures Abs() == AfterAssignTask(old(Abs()), req, stamp)
      ensures outcome == OutcomeOf(old(Abs()), req)
      ensures responses == old(responses)
                           + (if outcome.Panicked? then [] else [AnswerTo(old(Abs()), req)])
    {
      var args := req.args;
      for i := 0 to |args|
        invariant Abs() == old(Abs()) && responses == old(responses)
        invariant |args| == |req.args| && i <= |req.argsType|
        invariant forall k :: 0 <= k < i && req.argsType[k] == OBJECT_TYPE ==>
                    DecodeString(req.args[k]) in objectStorage.objects
        invariant forall k :: 0 <= k < i ==>
                    args[k] == if req.argsType[k] == OBJECT_TYPE
                               then objectStorage.objects[DecodeString(req.args[k])].data else req.args[k]
        invariant forall k :: i <= k < |args| ==> args[k] == req.args[k]
      {
        if i >= |req.argsType| {
          return Panicked;
        }
        if req.argsType[i] == OBJECT_TYPE {
          var objectId := DecodeString(args[i]);
          var found := objectStorage.GetObject(objectId);
          if found.None? {
            return Panicked;
          }
          args := args[i := found.value.data];
        }
      }
      assert args == ResolvedArgs(objectStorage.objects, req);
      var ok := true;
      if req.funcName == ADD_TOW_INT {
        ok := OnAddTowInt(req, args, stamp);
      }
      responses := responses + [Response(req.taskId, ok)];
      return Answered(ok);
    }

    method OnGetObjectData(objectId: string) returns (reply: FetchReply)
      ensures reply == if objectId in objectStorage.objects
                       then Found(objectStorage.objects[objectId].data) else NotFound
    {
      var found := objectStorage.GetObject(objectId);
      if found.None? {
        return NotFound;
      }
      return Found(found.value.data);
    }

    /** Every request is welcome, whoever asks. */
    method OnEstablish(conn: string, mode: int)
      modifies this`gcsConn, this`established, this`welcomed
      ensures gcsConn == if mode == MODE_GCS then Some(conn) else old(gcsConn)
      ensures established == old(established) + {conn} && welcomed == old(welcomed) + [conn]
    {
      established := established + {conn};
      if mode == MODE_GCS {
        gcsConn := Some(conn);
      }
      welcomed := welcomed + [conn];
    }

    /** The report pump, until the channel is empty. Without a connection from the GCS the first
        object it takes is gone and the pump with it. */
    method Loop() returns (alive: bool)
      modifies this`registerObjectChan, this`reports
      ensures alive <==> old(registerObjectChan) == [] || gcsConn.Some?
      ensures alive && gcsConn.Some? ==>
                registerObjectChan == []
                && reports == old(reports) + ReportsFor(old(registerObjectChan), gcsConn.value)
      ensures !alive ==> registerObjectChan == old(registerObjectChan)[1..]
      ensures gcsConn.None? ==> reports == old(reports)
    {
      ghost var chan, before := registerObjectChan, reports;
      while registerObjectChan != []
        invariant gcsConn.None? ==> registerObjectChan == chan && reports == before
        invariant gcsConn.Some? ==>
                    reports + ReportsFor(registerObjectChan, gcsConn.value)
                    == before + ReportsFor(chan, gcsConn.value)
        decreases |registerObjectChan|
      {
        var objectId := registerObjectChan[0];
        registerObjectChan := registerObjectChan[1..];
        if gcsConn.None? {
          return false;
        }
        reports := reports + [Report(objectId, gcsConn.value)];
      }
      return true;
    }
  }

  // ---------------------------------------------------------------- requests from AssignTask

  /**
   The loop closes on the task: the worker that is handed the request of the first queued task answers
   for that task, and its answer takes exactly that task out of the pending table again. When it is a
   refusal, the task is queued last if there is room, and lost if there is none.
   */
  lemma AnswerSettlesTask(c: Core, w: Local, answer: Response)
    requires c.queue != [] && c.workers != {} && c.queue[0].id !in c.pending
    requires OutcomeOf(w, RequestFor(c.queue[0])).Answered?
    requires answer == AnswerTo(w, RequestFor(c.queue[0]))
    ensures var task, c' := c.queue[0], AfterResponse(AfterAssign(c), answer.taskId, answer.accepted);
            && c'.pending == c.pending
            && (if answer.accepted then c'.accepted == c.accepted + [task.id] && c'.queue == c.queue[1..]
                else if |c.queue| <= c.capacity then c'.queue == c.queue[1..] + [task]
                else c'.queue == c.queue[1..] && c'.lost == c.lost + [task])
  {
    var task := c.queue[0];
    assert AfterAssign(c).pending == c.pending[task.id := task];
    assert c.pending[task.id := task] - {task.id} == c.pending;
  }

  /**
   AssignTask leaves the argument types out of its requests, so the worker survives one exactly
   when the task has no arguments; and then addTowInt fails for lack of them, while a function
   that the worker does not know is accepted and nothing done.
   */
  lemma RequestsWithoutTypes(task: Task, w: Local)
    ensures OutcomeOf(w, RequestFor(task)) != Panicked <==> task.args == []
    ensures OutcomeOf(w, RequestFor(task)) == Answered(true) <==> task.args == [] && task.funcName != ADD_TOW_INT
  {
  }
}
