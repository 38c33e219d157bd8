/**
 The object directory: workers store objects and register them, a pump on each worker reports them
 to the GCS over the connection the GCS opened, reports may be delayed, reordered or lost, and the
 GCS remembers for each object the endpoint of the connection its last report came in on.
 */
module Directory {
  import opened Wrappers
  import opened Ledger
  import opened Worker

  /** A worker: its store and register channel, the ids its handler has stored but not registered
      yet, the endpoint under which the GCS reached it, and whether its pump has died. */
  datatype Node = Node(local: Local, unregistered: seq<string>, gcs: Option<string>, pumpDead: bool)

  /** `listens` says which worker answers at an endpoint; it does not change. */
  datatype State = State(
    listens: map<string, string>,
    nodes: map<string, Node>,
    reports: multiset<Report>,         // in flight; `connection` is the endpoint the GCS dialled
    locations: map<string, string>,
    delivered: seq<Report>)

  predicate Wired(s: State) {
    forall e :: e in s.listens ==> s.listens[e] in s.nodes
  }

  predicate Initial(s: State) {
    && Wired(s)
    && (forall w :: w in s.nodes ==> s.nodes[w] == Node(Local(map[], []), [], None, false))
    && s.reports == multiset{} && s.locations == map[] && s.delivered == []
  }

  datatype Step =
    | StoreResult(worker: string, id: string, value: int64)
    | Register(worker: string)
    | Establish(endpoint: string)
    | Pump(worker: string)
    | Deliver(report: Report)
    | Lose(report: Report)

  predicate Enabled(s: State, step: Step) {
    match step
    case StoreResult(w, _, _) => w in s.nodes
    case Register(w) => w in s.nodes && s.nodes[w].unregistered != []
    case Establish(e) => e in s.listens
    case Pump(w) => w in s.nodes && !s.nodes[w].pumpDead && s.nodes[w].local.registering != []
    case Deliver(r) => r in s.reports
    case Lose(r) => r in s.reports
  }

  function Stored(n: Node, id: string, value: int64): Node {
    n.(local := n.local.(objects := n.local.objects[id := Object(INT_TYPE, IntBytes(value))]),
       unregistered := n.unregistered + [id])
  }

  function Registered(n: Node): Node
    requires n.unregistered != []
  {
    n.(local := n.local.(registering := n.local.registering + [n.unregistered[0]]),
       unregistered := n.unregistered[1..])
  }

  function Pumped(n: Node): Node
    requires n.local.registering != []
  {
    n.(local := n.local.(registering := n.local.registering[1..]), pumpDead := n.gcs.None?)
  }

  /** What a report leaves in the directory. */
  function Recorded(locations: map<string, string>, r: Report): map<string, string> {
    locations[r.objectId := r.connection]
  }

  function Apply(s: State, step: Step): State
    requires Wired(s)
  {
    if !Enabled(s, step) then s
    else
      match step
      case StoreResult(w, id, value) => s.(nodes := s.nodes[w := Stored(s.nodes[w], id, value)])
      case Register(w) => s.(nodes := s.nodes[w := Registered(s.nodes[w])])
      case Establish(e) =>
        var w := s.listens[e];
        s.(nodes := s.nodes[w := s.nodes[w].(gcs := Some(e))])
      case Pump(w) =>
        var n := s.nodes[w];
        s.(nodes := s.nodes[w := Pumped(n)],
           reports := if n.gcs.None? then s.reports
                      else s.reports + multiset{Report(n.local.registering[0], n.gcs.value)})
      case Deliver(r) =>
        s.(reports := s.reports - multiset{r},
           locations := Recorded(s.locations, r),
           delivered := s.delivered + [r])
      case Lose(r) => s.(reports := s.reports - multiset{r})
  }

  lemma StepWorkers(s: State, step: Step)
    requires Wired(s)
    ensures Apply(s, step).nodes.Keys == s.nodes.Keys
  {
  }

  lemma StepWired(s: State, step: Step)
    requires Wired(s)
    ensures Wired(Apply(s, step)) && Apply(s, step).listens == s.listens
    ensures Apply(s, step).nodes.Keys == s.nodes.Keys
  {
    StepWorkers(s, step);
  }

  function Run(s: State, steps: seq<Step>): State
    requires Wired(s)
    decreases |steps|
  {
    if |steps| == 0 then s
    else
      StepWired(s, steps[0]);
      Run(Apply(s, steps[0]), steps[1..])
  }

  // ---------------------------------------------------------------- the code of the GCS

  class GCS {
    var objectLocationMap: map<string, string>

    constructor ()
      ensures objectLocationMap == map[]
    {
      objectLocationMap := map[];
    }

    /** conn.Remote() of a connection the GCS opened is the endpoint it dialled. */
    method OnReportTaskResult(remote: string, objectId: string)
      modifies this
      ensures objectLocationMap == Recorded(old(objectLocationMap), Report(objectId, remote))
    {
      objectLocationMap := objectLocationMap[objectId := remote];
    }

    method OnGetObjectLocation(objectId: string) returns (nodeAddr: string)
      ensures nodeAddr == Lookup(objectLocationMap, objectId)
    {
      if objectId !in objectLocationMap {
        return "";
      }
      return objectLocationMap[objectId];
    }
  }

  /** The address in the answer to a location request. */
  function Lookup(locations: map<string, string>, id: string): string {
    if id in locations then locations[id] else ""
  }

  /** The answer of whoever listens at an endpoint to a request for an object. */
  function Fetch(s: State, endpoint: string, id: string): FetchReply
    requires Wired(s)
  {
    if endpoint !in s.listens then NotFound
    else
      var objects := s.nodes[s.listens[endpoint]].local.objects;
      if id in objects then Found(objects[id].data) else NotFound
  }

  // ---------------------------------------------------------------- the directory is never wrong

  /** The worker listening at an endpoint holds the object, eight bytes of it. */
  ghost predicate HeldAt(s: State, endpoint: string, id: string)
    requires Wired(s)
  {
    endpoint in s.listens && Holds(s.nodes[s.listens[endpoint]], id)
  }

  ghost predicate Holds(n: Node, id: string) {
    id in n.local.objects && |n.local.objects[id].data| == 8
  }

  /** Whatever a worker is about to report, it holds. */
  ghost predicate NodeHolds(n: Node) {
    && (forall id :: id in n.unregistered ==> Holds(n, id))
    && (forall id :: id in n.local.registering ==> Holds(n, id))
  }

  ghost predicate Sound(s: State) {
    && Wired(s)
    && NodesSound(s)
    && MessagesSound(s)
  }

  /** Objects stay where they are. */
  ghost predicate Retains(s: State, s': State) {
    && Wired(s) && Wired(s') && s.listens == s'.listens
    && forall e, id :: HeldAt(s, e, id) ==> HeldAt(s', e, id)
  }

  lemma StepRetains(s: State, step: Step)
    requires Wired(s)
    ensures Retains(s, Apply(s, step))
  {
    StepWired(s, step);
  }

  lemma StoredHolds(n: Node, id: string, value: int64)
    requires NodeHolds(n)
    ensures NodeHolds(Stored(n, id, value))
  {
  }

  lemma RegisteredHolds(n: Node)
    requires NodeHolds(n) && n.unregistered != []
    ensures NodeHolds(Registered(n))
  {
    var n' := Registered(n);
    assert forall id :: Holds(n, id) ==> Holds(n', id);
    forall id | id in n'.unregistered || id in n'.local.registering
      ensures Holds(n, id)
    {
      assert id in n.unregistered || id in n.local.registering;
    }
  }

  lemma PumpedHolds(n: Node)
    requires NodeHolds(n) && n.local.registering != []
    ensures NodeHolds(Pumped(n)) && Holds(n, n.local.registering[0])
  {
    var n' := Pumped(n);
    assert forall id :: Holds(n, id) ==> Holds(n', id);
    forall id | id in n'.local.registering
      ensures Holds(n, id)
    {
      assert id in n.local.registering;
    }
  }

  /** Each worker keeps its promises, and knows the GCS only by an endpoint of its own. */
  ghost predicate NodesSound(s: State) {
    && (forall w :: w in s.nodes ==> NodeHolds(s.nodes[w]))
    && (forall w :: w in s.nodes && s.nodes[w].gcs.Some? ==>
          s.nodes[w].gcs.value in s.listens && s.listens[s.nodes[w].gcs.value] == w)
  }

  lemma StepNodes(s: State, step: Step)
    requires Wired(s) && NodesSound(s)
    ensures NodesSound(Apply(s, step))
  {
    if Enabled(s, step) {
      match step
      case StoreResult(w, id, value) => StoredHolds(s.nodes[w], id, value);
      case Register(w) => RegisteredHolds(s.nodes[w]);
      case Pump(w) => PumpedHolds(s.nodes[w]);
      case _ =>
    }
  }

  /** Reports in flight and directory entries name holders of their objects. */
  ghost predicate MessagesSound(s: State)
    requires Wired(s)
  {
    && (forall r :: r in s.reports ==> HeldAt(s, r.connection, r.objectId))
    && (forall id :: id in s.locations ==> HeldAt(s, s.locations[id], id))
  }

  lemma PumpMessages(s: State, w: string)
    requires Sound(s) && Enabled(s, Pump(w)) && Retains(s, Apply(s, Pump(w)))
    ensures MessagesSound(Apply(s, Pump(w)))
  {
    var n := s.nodes[w];
    PumpedHolds(n);
    assert n.gcs.Some? ==> HeldAt(s, n.gcs.value, n.local.registering[0]);
  }

  lemma DeliverMessages(s: State, r: Report)
    requires Sound(s) && Enabled(s, Deliver(r)) && Retains(s, Apply(s, Deliver(r)))
    ensures MessagesSound(Apply(s, Deliver(r)))
  {
    assert HeldAt(s, r.connection, r.objectId);
  }

  lemma OtherMessages(s: State, step: Step)
    requires Sound(s) && !step.Pump? && !step.Deliver? && Retains(s, Apply(s, step))
    ensures MessagesSound(Apply(s, step))
  {
  }

  lemma StepMessages(s: State, step: Step)
    requires Sound(s) && Retains(s, Apply(s, step)) && Enabled(s, step)
    ensures MessagesSound(Apply(s, step))
  {
    match step
    case Pump(w) => PumpMessages(s, w);
    case Deliver(r) => DeliverMessages(s, r);
    case _ => OtherMessages(s, step);
  }

  lemma StepSound(s: State, step: Step)
    requires Sound(s)
    ensures Sound(Apply(s, step))
  {
    StepWired(s, step);
    StepRetains(s, step);
    StepNodes(s, step);
    if Enabled(s, step) {
      StepMessages(s, step);
    }
  }

  lemma {:induction false} RunSound(s: State, steps: seq<Step>)
    requires Sound(s)
    ensures Sound(Run(s, steps)) && Retains(s, Run(s, steps))
    decreases |steps|
  {
    if |steps| > 0 {
      StepRetains(s, steps[0]);
      StepSound(s, steps[0]);
      RunSound(Apply(s, steps[0]), steps[1..]);
    }
  }

  /** In every run, with reports lost, delayed and reordered at will, and with objects between
      store and register, a location in the directory names an endpoint whose worker holds the
      object. */
  lemma DirectoryNeverWrong(s: State, steps: seq<Step>, id: string)
    requires Initial(s) && id in Run(s, steps).locations
    ensures Wired(Run(s, steps)) && HeldAt(Run(s, steps), Run(s, steps).locations[id], id)
  {
    RunSound(s, steps);
  }

  // ---------------------------------------------------------------- the last report wins

  /** The connection of the last report about an object. */
  function LastReport(log: seq<Report>, id: string): Option<string> {
    if |log| == 0 then None
    else if log[|log| - 1].objectId == id then Some(log[|log| - 1].connection)
    else LastReport(log[..|log| - 1], id)
  }

  ghost predicate LastWriterWins(s: State) {
    forall id :: LastReport(s.delivered, id)
                 == if id in s.locations then Some(s.locations[id]) else None
  }

  lemma {:induction false} RunLastWriter(s: State, steps: seq<Step>)
    requires Wired(s) && LastWriterWins(s)
    ensures LastWriterWins(Run(s, steps))
    decreases |steps|
  {
    if |steps| > 0 {
      var s' := Apply(s, steps[0]);
      StepWired(s, steps[0]);
      if steps[0].Deliver? && Enabled(s, steps[0]) {
        assert s'.delivered[..|s'.delivered| - 1] == s.delivered;
      }
      assert LastWriterWins(s');
      RunLastWriter(s', steps[1..]);
    }
  }

  lemma LocationsAreLastReports(s: State, steps: seq<Step>, id: string)
    requires Initial(s)
    ensures LastReport(Run(s, steps).delivered, id)
            == if id in Run(s, steps).locations then Some(Run(s, steps).locations[id]) else None
  {
    RunLastWriter(s, steps);
  }

  /** What the GCS answers is the connection of the last report about the object, and nothing if there
      has been none. */
  lemma LookupIsLastReport(s: State, steps: seq<Step>, id: string)
    requires Initial(s)
    ensures Lookup(Run(s, steps).locations, id)
            == match LastReport(Run(s, steps).delivered, id)
               case Some(connection) => connection
               case None => ""
  {
    LocationsAreLastReports(s, steps, id);
  }

  // ---------------------------------------------------------------- lookup, then fetch

  ghost predicate NotStoredAgain(steps: seq<Step>, worker: string, id: string) {
    forall i :: 0 <= i < |steps| ==>
      !(steps[i].StoreResult? && steps[i].worker == worker && steps[i].id == id)
  }

  lemma {:induction false} RunKeepsData(s: State, steps: seq<Step>, w: string, id: string)
    requires Wired(s) && w in s.nodes && id in s.nodes[w].local.objects
    requires NotStoredAgain(steps, w, id)
    ensures w in Run(s, steps).nodes && id in Run(s, steps).nodes[w].local.objects
    ensures Run(s, steps).nodes[w].local.objects[id] == s.nodes[w].local.objects[id]
    decreases |steps|
  {
    if |steps| > 0 {
      StepWired(s, steps[0]);
      RunKeepsData(Apply(s, steps[0]), steps[1..], w, id);
    }
  }

  /**
   Taken on the object id, a non-empty answer to a lookup leads to the object however much later
   it is fetched: the worker there answers with eight bytes, and they are the bytes it held at the
   time of the lookup unless it has stored that id again.
   */
  lemma LookupThenFetch(s: State, steps: seq<Step>, more: seq<Step>, id: string)
    requires Initial(s)
    requires Lookup(Run(s, steps).locations, id) != ""
    ensures Wired(Run(s, steps)) && Wired(Run(Run(s, steps), more))
    ensures var atLookup, later := Run(s, steps), Run(Run(s, steps), more);
            var e := Lookup(atLookup.locations, id);
            var reply := Fetch(later, e, id);
            && reply.Found? && |reply.data| == 8
            && e in s.listens
            && (NotStoredAgain(more, s.listens[e], id) ==> reply == Fetch(atLookup, e, id))
  {
    RunSound(s, steps);
    var s1 := Run(s, steps);
    RunSound(s1, more);
    var e := Lookup(s1.locations, id);
    assert HeldAt(s1, e, id);
    assert HeldAt(Run(s1, more), e, id);
    if NotStoredAgain(more, s.listens[e], id) {
      RunKeepsData(s1, more, s.listens[e], id);
    }
  }

  // ---------------------------------------------------------------- the handler is these steps

  /** The worker's handler for an addition, run to completion, is a store followed by a register. */
  lemma HandlerIsStoreThenRegister(n: Node, req: AssignTaskRequest, stamp: string)
    requires n.unregistered == [] && req.funcName == ADD_TOW_INT && OutcomeOf(n.local, req) != Panicked
    ensures var value := OrZero(AddResult(ResolvedArgs(n.local.objects, req)));
            var stored := Stored(n, ObjectIdOf(req, stamp), value);
            stored.unregistered != []
            && Registered(stored) == n.(local := AfterAssignTask(n.local, req, stamp))
  {
    var value := OrZero(AddResult(ResolvedArgs(n.local.objects, req)));
    var stored := Stored(n, ObjectIdOf(req, stamp), value);
    assert stored.unregistered == [ObjectIdOf(req, stamp)];
    assert stored.unregistered[1..] == [];
  }

  /** The GCS's handler for a report, on the connection it came in on, is the delivery step. */
  lemma HandlerIsDeliver(s: State, r: Report)
    requires Wired(s) && r in s.reports
    ensures Apply(s, Deliver(r)).locations == Recorded(s.locations, r)
    ensures Apply(s, Deliver(r)).nodes == s.nodes && Apply(s, Deliver(r)).reports == s.reports - multiset{r}
  {
  }

  /** The pump steps of one worker until its channel is empty or the pump has died. */
  function PumpSteps(n: Node, worker: string): seq<Step>
    decreases |n.local.registering|
  {
    if n.pumpDead || n.local.registering == [] then [] else [Pump(worker)] + PumpSteps(Pumped(n), worker)
  }

  function InFlight(reports: seq<Report>): multiset<Report> {
    multiset(reports)
  }

  lemma OnePump(s: State, w: string)
    requires Wired(s) && Enabled(s, Pump(w))
    ensures var s', n := Apply(s, Pump(w)), s.nodes[w];
            && Wired(s') && s'.nodes == s.nodes[w := Pumped(n)]
            && s'.reports == s.reports + InFlight(if n.gcs.None? then []
                                                  else [Report(n.local.registering[0], n.gcs.value)])
            && s'.locations == s.locations
  {
    StepWired(s, Pump(w));
  }

  lemma DeadPump(s: State, w: string)
    requires Wired(s) && Enabled(s, Pump(w)) && s.nodes[w].gcs.None?
    ensures PumpSteps(s.nodes[w], w) == [Pump(w)] && Run(s, [Pump(w)]) == Apply(s, Pump(w))
  {
    assert PumpSteps(Pumped(s.nodes[w]), w) == [];
    assert [Pump(w)][1..] == [];
    StepWired(s, Pump(w));
    assert Run(Apply(s, Pump(w)), []) == Apply(s, Pump(w));
  }

  function Emptied(n: Node): Node {
    n.(local := n.local.(registering := []))
  }

  lemma NodesOneMore(nodes: map<string, Node>, w: string)
    requires w in nodes && nodes[w].gcs.Some? && !nodes[w].pumpDead && nodes[w].local.registering != []
    ensures nodes[w := Pumped(nodes[w])][w := Emptied(Pumped(nodes[w]))] == nodes[w := Emptied(nodes[w])]
  {
  }

  lemma LivePump(s: State, w: string)
    requires Wired(s) && Enabled(s, Pump(w)) && s.nodes[w].gcs.Some?
    ensures var s1 := Apply(s, Pump(w));
            && Wired(s1) && w in s1.nodes && s1.nodes[w] == Pumped(s.nodes[w]) && !s1.nodes[w].pumpDead
            && Run(s, PumpSteps(s.nodes[w], w)) == Run(s1, PumpSteps(s1.nodes[w], w))
  {
    OnePump(s, w);
    assert PumpSteps(s.nodes[w], w)[1..] == PumpSteps(Pumped(s.nodes[w]), w);
  }

  /** The worker's report loop with a connection from the GCS, emptying its channel, is these steps:
      everything is reported once. */
  lemma {:induction false} LoopIsPumps(s: State, w: string)
    requires Wired(s) && w in s.nodes && !s.nodes[w].pumpDead && s.nodes[w].gcs.Some?
    ensures var n, s' := s.nodes[w], Run(s, PumpSteps(s.nodes[w], w));
            && s'.locations == s.locations
            && s'.nodes == s.nodes[w := Emptied(n)]
            && s'.reports == s.reports + InFlight(ReportsFor(n.local.registering, n.gcs.value))
    decreases |s.nodes[w].local.registering|
  {
    var n := s.nodes[w];
    if n.local.registering == [] {
      assert s.nodes[w := n] == s.nodes;
    } else {
      LivePump(s, w);
      OnePump(s, w);
      var s1 := Apply(s, Pump(w));
      LoopIsPumps(s1, w);
      NodesOneMore(s.nodes, w);
      ReportsOneMore(n.local.registering, n.gcs.value);
    }
  }

  /** Without such a connection the first object is gone and the pump has died. */
  lemma LoopDies(s: State, w: string)
    requires Wired(s) && w in s.nodes && !s.nodes[w].pumpDead && s.nodes[w].gcs.None?
    requires s.nodes[w].local.registering != []
    ensures var n, s' := s.nodes[w], Run(s, PumpSteps(s.nodes[w], w));
            && s'.nodes == s.nodes[w := Pumped(n)] && Pumped(n).pumpDead
            && s'.reports == s.reports && s'.locations == s.locations
  {
    DeadPump(s, w);
    OnePump(s, w);
  }

  lemma ReportsOneMore(ids: seq<string>, conn: string)
    requires ids != []
    ensures InFlight(ReportsFor(ids, conn)) == InFlight([Report(ids[0], conn)]) + InFlight(ReportsFor(ids[1..], conn))
  {
  }
}
