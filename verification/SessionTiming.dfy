/**
 Times and numbers over the runs of the outbound connection: how long a silent session can live,
 how far apart its frames can be, and the order of sequence ids and of backoff delays.
 */
module SessionTiming {
  import opened Wrappers
  import opened Backoff
  import opened Session
  import opened SessionRuns

  function AtLeastZero(x: int): int {
    if x < 0 then 0 else x
  }

  /** The time from Establish to the last tick that still lets an unestablished session live. */
  function LastQuietTick(cfg: Config): int {
    if cfg.establishTimeout < 0 then 0 else cfg.establishTimeout / SECOND * SECOND
  }

  /** Seen from the last tick, or from the Establish before the first one. */
  ghost predicate Punctual(c: Conn, now: int, lastTick: int) {
    && lastTick <= now <= lastTick + SECOND
    && (!c.established ==>
          lastTick - c.lastSent <= LastQuietTick(c.cfg) && (lastTick - c.lastSent) % SECOND == 0)
    && (c.established ==> lastTick - c.lastRecv <= AtLeastZero(c.cfg.recvIdleTimeout))
    && (c.established ==>
          || lastTick - c.lastSent <= AtLeastZero(c.cfg.shakeEvery - 1)
          || (c.establishedAt >= lastTick && lastTick - c.lastSent <= LastQuietTick(c.cfg)))
  }

  ghost predicate Timely(s: Sys) {
    && Live(s)
    && (s.phase == Ticking ==> s.conn.hasSub)
    && (s.phase == Ticking && !Cancelled(s.conn) ==> Punctual(s.conn, s.now, s.nextTick - SECOND))
  }

  lemma QuietMultiple(cfg: Config, gap: int)
    requires gap <= cfg.establishTimeout && gap % SECOND == 0
    ensures gap <= LastQuietTick(cfg)
  {
  }

  lemma TickTimely(s: Sys, ok: bool)
    requires Timely(s) && Enabled(s, Tick(ok))
    ensures Timely(Apply(s, Tick(ok)))
  {
    var c := s.conn;
    var ticked := AfterTick(c, s.now);
    if !Cancelled(c) && !c.established && s.now - c.lastSent <= c.cfg.establishTimeout {
      QuietMultiple(c.cfg, s.now - c.lastSent);
    }
  }

  lemma PacketTimely(s: Sys, uri: nat, err: string, handled: bool)
    requires Timely(s)
    ensures Timely(Apply(s, Packet(uri, err, handled)))
  {
  }

  lemma LoopTimely(s: Sys, step: Step)
    requires Timely(s) && Enabled(s, step)
    requires step.Dial? || step.WaitOver? || step.Begin? || step.Leave? || step.Exit? || step.Advance?
    ensures Timely(Apply(s, step))
  {
  }

  lemma CallTimely(s: Sys, step: Step)
    requires Timely(s) && Enabled(s, step)
    requires step.RemoteClose? || step.SendFrame? || step.NewHeader? || step.EncodeFrame? || step.StopCall?
             || step.ParentCancel?
    ensures Timely(Apply(s, step))
  {
  }

  lemma StepTimely(s: Sys, step: Step)
    requires Timely(s)
    ensures Timely(Apply(s, step))
  {
    if Enabled(s, step) {
      match step
      case Tick(ok) => TickTimely(s, ok);
      case Packet(uri, err, handled) => PacketTimely(s, uri, err, handled);
      case RemoteClose => CallTimely(s, step);
      case SendFrame(_) => CallTimely(s, step);
      case NewHeader(_, _) => CallTimely(s, step);
      case EncodeFrame(_, _) => CallTimely(s, step);
      case StopCall => CallTimely(s, step);
      case ParentCancel => CallTimely(s, step);
      case _ => LoopTimely(s, step);
    }
  }

  lemma TickConfig(s: Sys, ok: bool)
    requires Live(s)
    ensures Apply(s, Tick(ok)).conn.cfg == s.conn.cfg
  {
  }

  lemma StepConfig(s: Sys, step: Step)
    requires Live(s)
    ensures Apply(s, step).conn.cfg == s.conn.cfg
  {
    if step.Tick? {
      TickConfig(s, step.ok);
    }
  }

  lemma {:induction false} RunTimely(s: Sys, steps: seq<Step>)
    requires Timely(s)
    ensures Timely(Run(s, steps)) && Run(s, steps).conn.cfg == s.conn.cfg
    decreases |steps|
  {
    if |steps| > 0 {
      StepTimely(s, steps[0]);
      StepConfig(s, steps[0]);
      RunTimely(Apply(s, steps[0]), steps[1..]);
    }
  }

  lemma StartTimely(cfg: Config, now: int)
    ensures Timely(Start(cfg, now))
  {
  }

  /**
   In any session the loop is ticking on and that has not been cancelled: without establishment the
   last send is at most establishTimeout and a second ago; once established the last packet is at
   most recvIdleTimeout and a second ago, and the last send is less than shakeEvery and a second
   ago, unless the establishment itself is no more than a second old.
   */
  lemma TimedBounds(cfg: Config, now: int, steps: seq<Step>)
    ensures var s := Run(Start(cfg, now), steps);
            s.phase == Ticking && !Cancelled(s.conn) ==>
              && (!s.conn.established ==>
                    s.now - s.conn.lastSent <= AtLeastZero(cfg.establishTimeout) + SECOND)
              && (s.conn.established ==>
                    && s.now - s.conn.lastRecv <= AtLeastZero(cfg.recvIdleTimeout) + SECOND
                    && (s.now - s.conn.lastSent <= AtLeastZero(cfg.shakeEvery - 1) + SECOND
                        || s.now - s.conn.establishedAt <= SECOND))
  {
    StartTimely(cfg, now);
    RunTimely(Start(cfg, now), steps);
  }

  // ---------------------------------------------------------------- the gap before a heartbeat

  /** In an established, uncancelled session the last send is less than shakeEvery and a second ago. */
  ghost predicate ShakesInTime(s: Sys) {
    s.phase == Ticking && !Cancelled(s.conn) && s.conn.established ==>
      s.now - s.conn.lastSent < s.conn.cfg.shakeEvery + SECOND
  }

  ghost predicate AlwaysShakesInTime(cfg: Config, now: int) {
    forall steps :: ShakesInTime(Run(Start(cfg, now), steps))
  }

  /** Seconds pass and ticks come, and the peer says nothing. */
  function QuietTicks(k: nat): seq<Step> {
    if k == 0 then [] else QuietTicks(k - 1) + [Advance(SECOND)] + [Tick(true)]
  }

  ghost predicate Waits(s: Sys, cfg: Config, begun: int, k: nat) {
    && Live(s)
    && s.phase == Ticking
    && s.conn.cfg == cfg && s.conn.hasSub && !Cancelled(s.conn) && !s.conn.established
    && s.conn.lastSent == begun && s.now == begun + k * SECOND && s.nextTick == s.now + SECOND
  }

  lemma {:induction false} RunSnoc(s: Sys, steps: seq<Step>, last: Step)
    requires Live(s)
    ensures Run(s, steps + [last]) == Apply(Run(s, steps), last)
    decreases |steps|
  {
    if |steps| == 0 {
      assert (steps + [last])[1..] == [];
      assert Run(Apply(s, last), []) == Apply(s, last);
    } else {
      StepLive(s, steps[0]);
      assert (steps + [last])[1..] == steps[1..] + [last];
      RunSnoc(Apply(s, steps[0]), steps[1..], last);
    }
  }

  lemma {:induction false} QuietTicksPass(s: Sys, cfg: Config, begun: int, k: nat)
    requires Waits(s, cfg, begun, 0) && k * SECOND <= cfg.establishTimeout
    ensures Waits(Run(s, QuietTicks(k)), cfg, begun, k)
    decreases k
  {
    if k > 0 {
      QuietTicksPass(s, cfg, begun, k - 1);
      var shorter := QuietTicks(k - 1);
      RunSnoc(s, shorter, Advance(SECOND));
      RunSnoc(s, shorter + [Advance(SECOND)], Tick(true));
    }
  }

  /** The acknowledgement arrives just before the tick that would have been the last but one. */
  function LateAck(k: nat): seq<Step> {
    [Dial(true, 0), Begin(true)] + QuietTicks(k) + [Advance(SECOND)] + [Packet(META_ESTABLISH_ACK, RESPONSE_OK, true)]
  }

  lemma LateAckIsLate(cfg: Config, now: int, k: nat)
    requires k == 0 || k * SECOND <= cfg.establishTimeout
    ensures var s := Run(Start(cfg, now), LateAck(k));
            && s.phase == Ticking && !Cancelled(s.conn) && s.conn.established
            && s.conn.cfg == cfg && s.now - s.conn.lastSent == (k + 1) * SECOND
  {
    var s0 := Start(cfg, now);
    var begun := [Dial(true, 0), Begin(true)];
    var s1 := Run(s0, begun);
    RunSnoc(s0, [Dial(true, 0)], Begin(true));
    assert [Dial(true, 0)] + [Begin(true)] == begun;
    RunSnoc(s0, [], Dial(true, 0));
    assert [] + [Dial(true, 0)] == [Dial(true, 0)];
    assert Waits(s1, cfg, now, 0);
    if k > 0 {
      QuietTicksPass(s1, cfg, now, k);
    }
    RunThen(s0, begun, QuietTicks(k));
    RunSnoc(s0, begun + QuietTicks(k), Advance(SECOND));
    RunSnoc(s0, begun + QuietTicks(k) + [Advance(SECOND)], Packet(META_ESTABLISH_ACK, RESPONSE_OK, true));
  }

  lemma {:induction false} RunThen(s: Sys, first: seq<Step>, second: seq<Step>)
    requires Live(s)
    ensures Run(s, first + second) == Run(Run(s, first), second)
    decreases |first|
  {
    if |first| == 0 {
      assert first + second == second;
    } else {
      StepLive(s, first[0]);
      assert (first + second)[1..] == first[1..] + second;
      RunThen(Apply(s, first[0]), first[1..], second);
    }
  }

  /**
   The heartbeat bound holds without exception exactly when the establish timeout, in whole
   seconds, is below the heartbeat interval. With the defaults of ten and three seconds it is not:
   an acknowledgement may come long after Establish was sent, and the first heartbeat waits for the
   tick after it.
   */
  lemma ShakesInTimeIff(cfg: Config, now: int)
    ensures AlwaysShakesInTime(cfg, now) <==> LastQuietTick(cfg) < cfg.shakeEvery
  {
    if LastQuietTick(cfg) < cfg.shakeEvery {
      forall steps
        ensures ShakesInTime(Run(Start(cfg, now), steps))
      {
        StartTimely(cfg, now);
        RunTimely(Start(cfg, now), steps);
      }
    } else {
      var k := LastQuietTick(cfg) / SECOND;
      LateAckIsLate(cfg, now, k);
      assert !ShakesInTime(Run(Start(cfg, now), LateAck(k)));
    }
  }

  // ---------------------------------------------------------------- sequence ids

  /** The id the frame carries, if the connection assigned it, in this call or in an earlier one. */
  function IdOf(e: Event): Option<nat> {
    match e
    case EstablishSent(_, seqId) => Some(seqId)
    case HeartbeatSent(_, seqId) => Some(seqId)
    case BusinessSent(_, seqId, origin) => if origin.Drawn? || origin.Again? then Some(seqId) else None
    case _ => None
  }

  /** Assigned ids increase in the order of sending. */
  ghost predicate InOrder(log: seq<Event>) {
    forall i, j :: 0 <= i < j < |log| && IdOf(log[i]).Some? && IdOf(log[j]).Some? ==>
      IdOf(log[i]).value < IdOf(log[j]).value
  }

  /** No assigned id is sent twice. */
  ghost predicate NoneTwice(log: seq<Event>) {
    forall i, j :: 0 <= i < j < |log| && IdOf(log[i]).Some? && IdOf(log[j]).Some? ==>
      IdOf(log[i]).value != IdOf(log[j]).value
  }

  ghost predicate HasId(log: seq<Event>, id: nat) {
    exists e :: e in log && IdOf(e) == Some(id)
  }

  /** Every assigned id that has gone out is below this one. */
  predicate AboveAll(log: seq<Event>, id: nat) {
    forall e :: e in log ==> IdOf(e) == None || IdOf(e).value < id
  }

  /** A frame goes out with a header to which an earlier call has given its id. */
  predicate SendsAgain(s: Sys, step: Step) {
    step.EncodeFrame? && step.ok && Enabled(s, step) && CanSend(s.conn)
    && OriginOf(s.headers[step.name]) == Again
  }

  /** And meanwhile an id as high has gone out. */
  predicate SendsOvertaken(s: Sys, step: Step) {
    SendsAgain(s, step) && !AboveAll(s.conn.log, s.headers[step.name].seqId)
  }

  /** And the earlier call has sent it. */
  predicate SendsTwice(s: Sys, step: Step) {
    SendsAgain(s, step) && s.headers[step.name].sent
  }

  /** As long as the counter has not wrapped, each id drawn is in one header or went out in a frame
      of the connection itself. */
  ghost predicate Numbered(s: Sys) {
    && Live(s)
    && s.conn.seqId == s.conn.draws
    && (forall e :: e in s.conn.log && IdOf(e).Some? ==> 0 < IdOf(e).value <= s.conn.draws)
    && HeadersNumbered(s.headers, s.conn.log, s.conn.draws)
  }

  ghost predicate HeadersNumbered(headers: map<nat, Header>, log: seq<Event>, draws: nat) {
    && (forall name :: name in headers && headers[name].stamped ==>
          0 < headers[name].seqId <= draws && (headers[name].sent <==> HasId(log, headers[name].seqId)))
    && (forall name, other :: name in headers && other in headers && name != other
                              && headers[name].stamped && headers[other].stamped ==>
          headers[name].seqId != headers[other].seqId)
  }

  /** The events carry no assigned id, or are one frame with the id just drawn. */
  ghost predicate Fresh(events: seq<Event>, draws: nat, draws': nat) {
    && draws <= draws' <= draws + 1
    && forall e :: e in events && IdOf(e).Some? ==>
         |events| == 1 && IdOf(e).value == draws' && draws' == draws + 1
  }

  /** A step draws at most one id, and then for the one frame it sends, if it sends one; the only
      other assigned id it can send is that of a header used again. */
  ghost predicate SendsIds(s: Sys, step: Step)
    requires Live(s)
  {
    var c, c', events := s.conn, Apply(s, step).conn, NewEvents(s, step);
    && c'.seqId == c'.draws
    && (if SendsAgain(s, step) then
          |events| == 1 && IdOf(events[0]) == Some(s.headers[step.name].seqId) && c'.draws == c.draws
        else Fresh(events, c.draws, c'.draws))
  }

  lemma TickIds(s: Sys, ok: bool)
    requires Live(s) && s.conn.seqId == s.conn.draws
    requires Apply(s, Tick(ok)).conn.draws < SEQ_SPACE
    ensures SendsIds(s, Tick(ok))
  {
  }

  lemma AgainIds(s: Sys, step: Step)
    requires Live(s) && s.conn.seqId == s.conn.draws && SendsAgain(s, step)
    ensures SendsIds(s, step)
  {
  }

  lemma EncodeIds(s: Sys, name: nat, ok: bool)
    requires Live(s) && s.conn.seqId == s.conn.draws
    requires Apply(s, EncodeFrame(name, ok)).conn.draws < SEQ_SPACE
    ensures SendsIds(s, EncodeFrame(name, ok))
  {
    if SendsAgain(s, EncodeFrame(name, ok)) {
      AgainIds(s, EncodeFrame(name, ok));
    }
  }

  lemma BeginIds(s: Sys, ok: bool)
    requires Live(s) && s.conn.seqId == s.conn.draws
    requires Apply(s, Begin(ok)).conn.draws < SEQ_SPACE
    ensures SendsIds(s, Begin(ok))
  {
  }

  lemma PacketIds(s: Sys, uri: nat, err: string, handled: bool)
    requires Live(s) && s.conn.seqId == s.conn.draws
    ensures SendsIds(s, Packet(uri, err, handled))
  {
  }

  lemma OtherIds(s: Sys, step: Step)
    requires Live(s) && s.conn.seqId == s.conn.draws
    requires !step.Tick? && !step.EncodeFrame? && !step.Begin? && !step.Packet?
    ensures SendsIds(s, step)
  {
  }

  lemma StepIds(s: Sys, step: Step)
    requires Live(s) && s.conn.seqId == s.conn.draws
    requires Apply(s, step).conn.draws < SEQ_SPACE
    ensures SendsIds(s, step)
  {
    match step
    case Tick(ok) => TickIds(s, ok);
    case EncodeFrame(name, ok) => EncodeIds(s, name, ok);
    case Begin(ok) => BeginIds(s, ok);
    case Packet(uri, err, handled) => PacketIds(s, uri, err, handled);
    case _ => OtherIds(s, step);
  }

  lemma HasIdExtend(log: seq<Event>, events: seq<Event>, id: nat)
    ensures HasId(Extend(log, events), id) <==> HasId(log, id) || HasId(events, id)
  {
    assert forall e :: e in Extend(log, events) <==> e in log || e in events;
  }

  /** New frames with ids of their own leave the headers' accounts alone. */
  lemma FreshKeepsHeaders(headers: map<nat, Header>, log: seq<Event>, events: seq<Event>,
                          draws: nat, draws': nat)
    requires HeadersNumbered(headers, log, draws) && Fresh(events, draws, draws')
    ensures HeadersNumbered(headers, Extend(log, events), draws')
  {
    forall name | name in headers && headers[name].stamped
      ensures HasId(Extend(log, events), headers[name].seqId) <==> HasId(log, headers[name].seqId)
    {
      HasIdExtend(log, events, headers[name].seqId);
    }
  }

  lemma AgainKeepsHeaders(headers: map<nat, Header>, log: seq<Event>, e: Event, draws: nat, name: nat)
    requires HeadersNumbered(headers, log, draws) && name in headers && headers[name].stamped
    requires IdOf(e) == Some(headers[name].seqId)
    ensures HeadersNumbered(headers[name := headers[name].(sent := true)], log + [e], draws)
  {
    assert e in [e];
    forall other | other in headers && headers[other].stamped
      ensures HasId(log + [e], headers[other].seqId) <==> HasId(log, headers[other].seqId) || other == name
    {
      HasIdExtend(log, [e], headers[other].seqId);
    }
  }

  /** A header that has just been given an id, and sent with it if the call succeeded. */
  lemma StampKeepsHeaders(headers: map<nat, Header>, log: seq<Event>, events: seq<Event>, draws: nat,
                          name: nat, h: Header)
    requires HeadersNumbered(headers, log, draws) && Fresh(events, draws, draws + 1)
    requires forall e :: e in log && IdOf(e).Some? ==> IdOf(e).value <= draws
    requires h.stamped && h.seqId == draws + 1 && (h.sent <==> HasId(events, h.seqId))
    ensures HeadersNumbered(headers[name := h], Extend(log, events), draws + 1)
  {
    FreshKeepsHeaders(headers, log, events, draws, draws + 1);
    HasIdExtend(log, events, h.seqId);
  }

  lemma EncodeHeaders(s: Sys, name: nat, ok: bool)
    requires Numbered(s) && name in s.headers
    requires Apply(s, EncodeFrame(name, ok)).conn.draws < SEQ_SPACE
    ensures var step := EncodeFrame(name, ok);
            HeadersNumbered(Apply(s, step).headers, Extend(s.conn.log, NewEvents(s, step)), Apply(s, step).conn.draws)
  {
    var step := EncodeFrame(name, ok);
    var h, h', events := s.headers[name], HeaderAfter(s.conn, s.headers[name], ok), NewEvents(s, step);
    EncodeIds(s, name, ok);
    if h.seqId == 0 {
      assert HasId(events, h'.seqId) <==> h'.sent by {
        assert h'.sent ==> events[0] in events;
      }
      StampKeepsHeaders(s.headers, s.conn.log, events, s.conn.draws, name, h');
    } else if SendsAgain(s, step) {
      assert events == [events[0]];
      AgainKeepsHeaders(s.headers, s.conn.log, events[0], s.conn.draws, name);
    } else {
      FreshKeepsHeaders(s.headers, s.conn.log, events, s.conn.draws, s.conn.draws);
    }
  }

  lemma SameHeaders(s: Sys, step: Step)
    requires Live(s) && !step.NewHeader? && !step.EncodeFrame?
    ensures Apply(s, step).headers == s.headers
  {
  }

  lemma StepNumbered(s: Sys, step: Step)
    requires Numbered(s) && Apply(s, step).conn.draws < SEQ_SPACE
    ensures Numbered(Apply(s, step))
  {
    StepLive(s, step);
    StepEvents(s, step);
    StepIds(s, step);
    if step.EncodeFrame? && Enabled(s, step) {
      EncodeHeaders(s, step.name, step.ok);
    } else if !step.NewHeader? && !step.EncodeFrame? {
      SameHeaders(s, step);
      FreshKeepsHeaders(s.headers, s.conn.log, NewEvents(s, step), s.conn.draws, Apply(s, step).conn.draws);
    }
    assert forall e :: e in Extend(s.conn.log, NewEvents(s, step)) ==> e in s.conn.log || e in NewEvents(s, step);
  }

  lemma TickDraws(s: Sys, ok: bool)
    requires Live(s)
    ensures s.conn.draws <= Apply(s, Tick(ok)).conn.draws
  {
  }

  lemma StepDraws(s: Sys, step: Step)
    requires Live(s)
    ensures s.conn.draws <= Apply(s, step).conn.draws
  {
    if step.Tick? {
      TickDraws(s, step.ok);
    }
  }

  lemma {:induction false} RunDraws(s: Sys, steps: seq<Step>)
    requires Live(s)
    ensures s.conn.draws <= Run(s, steps).conn.draws
    decreases |steps|
  {
    if |steps| > 0 {
      StepLive(s, steps[0]);
      StepDraws(s, steps[0]);
      RunDraws(Apply(s, steps[0]), steps[1..]);
    }
  }

  // One more frame, and the two properties of the log.

  lemma OneMoreId(log: seq<Event>, e: Event)
    ensures InOrder(log + [e]) <==> InOrder(log) && (IdOf(e).Some? ==> AboveAll(log, IdOf(e).value))
    ensures NoneTwice(log + [e]) <==> NoneTwice(log) && (IdOf(e).Some? ==> !HasId(log, IdOf(e).value))
  {
    var longer := log + [e];
    assert longer[|log|] == e && forall i :: 0 <= i < |log| ==> longer[i] == log[i];
  }

  lemma NoMoreIds(log: seq<Event>, events: seq<Event>)
    requires |events| <= 2 && forall e :: e in events ==> IdOf(e).None?
    ensures InOrder(Extend(log, events)) <==> InOrder(log)
    ensures NoneTwice(Extend(log, events)) <==> NoneTwice(log)
  {
    if |events| >= 1 {
      assert events[0] in events;
      OneMoreId(log, events[0]);
      if |events| == 1 {
        assert events == [events[0]];
      } else {
        assert events[1] in events && log + events == (log + [events[0]]) + [events[1]];
        OneMoreId(log + [events[0]], events[1]);
      }
    }
  }

  lemma AtMostTwoEvents(s: Sys, step: Step)
    requires Live(s)
    ensures |NewEvents(s, step)| <= 2
  {
  }

  lemma StepOrder(s: Sys, step: Step)
    requires Numbered(s) && Apply(s, step).conn.draws < SEQ_SPACE
    ensures InOrder(Apply(s, step).conn.log) <==> InOrder(s.conn.log) && !SendsOvertaken(s, step)
    ensures NoneTwice(Apply(s, step).conn.log) <==> NoneTwice(s.conn.log) && !SendsTwice(s, step)
  {
    var log, events := s.conn.log, NewEvents(s, step);
    StepEvents(s, step);
    StepIds(s, step);
    AtMostTwoEvents(s, step);
    if SendsAgain(s, step) {
      assert events == [events[0]];
      OneMoreId(log, events[0]);
    } else if forall e :: e in events ==> IdOf(e).None? {
      NoMoreIds(log, events);
    } else {
      assert events == [events[0]];
      OneMoreId(log, events[0]);
    }
  }

  lemma {:induction false} RunOrder(s: Sys, steps: seq<Step>)
    requires Numbered(s) && Run(s, steps).conn.draws < SEQ_SPACE
    ensures Numbered(Run(s, steps))
    ensures InOrder(Run(s, steps).conn.log) <==> InOrder(s.conn.log) && Avoids(SendsOvertaken, s, steps)
    ensures NoneTwice(Run(s, steps).conn.log) <==> NoneTwice(s.conn.log) && Avoids(SendsTwice, s, steps)
    decreases |steps|
  {
    if |steps| > 0 {
      StepLive(s, steps[0]);
      RunDraws(Apply(s, steps[0]), steps[1..]);
      StepNumbered(s, steps[0]);
      StepOrder(s, steps[0]);
      RunOrder(Apply(s, steps[0]), steps[1..]);
    }
  }

  /**
   In every run with fewer than 2^64 draws, the ids the connection assigns to its Establish,
   heartbeat and business frames are strictly increasing in the order of sending, across
   reconnects, exactly when no header that already has its id is sent after an id as high has gone
   out; and they are pairwise distinct exactly when no header is sent again that has been sent.
   */
  lemma SequenceIdsIff(cfg: Config, now: int, steps: seq<Step>)
    requires Run(Start(cfg, now), steps).conn.draws < SEQ_SPACE
    ensures var log := Run(Start(cfg, now), steps).conn.log;
            && (InOrder(log) <==> Avoids(SendsOvertaken, Start(cfg, now), steps))
            && (NoneTwice(log) <==> Avoids(SendsTwice, Start(cfg, now), steps))
            && forall e :: e in log && IdOf(e).Some? ==>
                 0 < IdOf(e).value <= Run(Start(cfg, now), steps).conn.seqId
  {
    RunOrder(Start(cfg, now), steps);
  }

  lemma {:induction false} AvoidsWorse(s: Sys, steps: seq<Step>)
    requires Live(s) && Avoids(SendsAgain, s, steps)
    ensures Avoids(SendsOvertaken, s, steps) && Avoids(SendsTwice, s, steps)
    decreases |steps|
  {
    if |steps| > 0 {
      StepLive(s, steps[0]);
      AvoidsWorse(Apply(s, steps[0]), steps[1..]);
    }
  }

  /** So for callers that use a header for one call only, assigned ids increase. */
  lemma SequenceIdsIncrease(cfg: Config, now: int, steps: seq<Step>)
    requires Run(Start(cfg, now), steps).conn.draws < SEQ_SPACE
    requires Avoids(SendsAgain, Start(cfg, now), steps)
    ensures InOrder(Run(Start(cfg, now), steps).conn.log) && NoneTwice(Run(Start(cfg, now), steps).conn.log)
  {
    AvoidsWorse(Start(cfg, now), steps);
    SequenceIdsIff(cfg, now, steps);
  }

  const ACK := Packet(META_ESTABLISH_ACK, RESPONSE_OK, true)

  /** A header gets its id from a call that fails, Establish goes out with the next one, and then
      the header is sent twice. */
  const HEADER_REUSED := [NewHeader(0, 0)] + [EncodeFrame(0, true)] + [Dial(true, 0)] + [Begin(true)] + [ACK]
                         + [EncodeFrame(0, true)] + [EncodeFrame(0, true)]

  lemma HeaderReuseBreaksOrder(cfg: Config, now: int)
    ensures var c := Run(Start(cfg, now), HEADER_REUSED).conn;
            && c.draws == 2
            && c.log == [EstablishSent(1, 2), AckAccepted(1), Handled(1, META_ESTABLISH_ACK),
                         BusinessSent(1, 1, Again), BusinessSent(1, 1, Again)]
            && !InOrder(c.log) && !NoneTwice(c.log)
  {
    var s0 := Start(cfg, now);
    var first := [NewHeader(0, 0)] + [EncodeFrame(0, true)];
    RunSnoc(s0, [], NewHeader(0, 0));
    assert [] + [NewHeader(0, 0)] == [NewHeader(0, 0)];
    RunSnoc(s0, [NewHeader(0, 0)], EncodeFrame(0, true));
    var session := first + [Dial(true, 0)] + [Begin(true)] + [ACK];
    RunSnoc(s0, first, Dial(true, 0));
    RunSnoc(s0, first + [Dial(true, 0)], Begin(true));
    RunSnoc(s0, first + [Dial(true, 0)] + [Begin(true)], ACK);
    RunSnoc(s0, session, EncodeFrame(0, true));
    RunSnoc(s0, session + [EncodeFrame(0, true)], EncodeFrame(0, true));
    var log := Run(s0, HEADER_REUSED).conn.log;
    assert IdOf(log[0]) == Some(2) && IdOf(log[3]) == Some(1) && IdOf(log[4]) == Some(1);
  }

  // ---------------------------------------------------------------- where the order ends

  /** Calls with n new headers, all of which fail. */
  function Draws(n: nat): seq<Step> {
    if n == 0 then [] else Draws(n - 1) + [NewHeader(0, 0)] + [EncodeFrame(0, false)]
  }

  lemma {:induction false} AvoidsSnoc(s: Sys, steps: seq<Step>, last: Step)
    requires Live(s) && Avoids(SendsAgain, s, steps) && !SendsAgain(Run(s, steps), last)
    ensures Avoids(SendsAgain, s, steps + [last])
    decreases |steps|
  {
    if |steps| == 0 {
      assert (steps + [last])[1..] == [];
      StepLive(s, last);
    } else {
      StepLive(s, steps[0]);
      assert (steps + [last])[1..] == steps[1..] + [last];
      AvoidsSnoc(Apply(s, steps[0]), steps[1..], last);
    }
  }

  lemma TakeStep(s: Sys, steps: seq<Step>, last: Step)
    requires Live(s) && Avoids(SendsAgain, s, steps) && !SendsAgain(Run(s, steps), last)
    ensures Run(s, steps + [last]) == Apply(Run(s, steps), last)
    ensures Avoids(SendsAgain, s, steps + [last])
  {
    RunSnoc(s, steps, last);
    AvoidsSnoc(s, steps, last);
  }

  ghost predicate Undialled(s: Sys, n: nat) {
    Live(s) && s.phase == Top && s.conn == NewConn(s.conn.cfg).(seqId := SeqOf(n), draws := n)
  }

  lemma OneDraw(s: Sys, n: nat)
    requires Undialled(s, n)
    ensures var s' := Apply(s, NewHeader(0, 0));
            && Live(s') && !SendsAgain(s, NewHeader(0, 0)) && !SendsAgain(s', EncodeFrame(0, false))
            && Undialled(Apply(s', EncodeFrame(0, false)), n + 1)
  {
  }

  lemma {:induction false} DrawsRun(cfg: Config, now: int, n: nat)
    ensures Undialled(Run(Start(cfg, now), Draws(n)), n) && Avoids(SendsAgain, Start(cfg, now), Draws(n))
    decreases n
  {
    if n > 0 {
      DrawsRun(cfg, now, n - 1);
      OneDraw(Run(Start(cfg, now), Draws(n - 1)), n - 1);
      TakeStep(Start(cfg, now), Draws(n - 1), NewHeader(0, 0));
      TakeStep(Start(cfg, now), Draws(n - 1) + [NewHeader(0, 0)], EncodeFrame(0, false));
    }
  }

  ghost predicate Opened(s: Sys, n: nat) {
    && Live(s) && CanSend(s.conn) && s.conn.rawConn == Some(1)
    && s.conn.draws == n + 1 && s.conn.seqId == SeqOf(n + 1)
    && s.conn.log == [EstablishSent(1, SeqOf(n + 1)), AckAccepted(1), Handled(1, META_ESTABLISH_ACK)]
  }

  lemma OpensAfter(s: Sys, n: nat)
    requires Undialled(s, n)
    ensures Live(Apply(s, Dial(true, 0))) && Live(Apply(Apply(s, Dial(true, 0)), Begin(true)))
    ensures Opened(Apply(Apply(Apply(s, Dial(true, 0)), Begin(true)), ACK), n)
  {
  }

  lemma SendsNext(s: Sys, n: nat)
    requires Opened(s, n)
    ensures var s' := Apply(s, NewHeader(0, 0));
            && Live(s') && !SendsAgain(s', EncodeFrame(0, true))
            && Apply(s', EncodeFrame(0, true)).conn.draws == n + 2
            && Apply(s', EncodeFrame(0, true)).conn.log == s.conn.log + [BusinessSent(1, SeqOf(n + 2), Drawn)]
  {
  }

  lemma OpenedRun(cfg: Config, now: int, n: nat) returns (steps: seq<Step>)
    ensures Avoids(SendsAgain, Start(cfg, now), steps) && Opened(Run(Start(cfg, now), steps), n)
  {
    var s0, drawn := Start(cfg, now), Draws(n);
    DrawsRun(cfg, now, n);
    OpensAfter(Run(s0, drawn), n);
    TakeStep(s0, drawn, Dial(true, 0));
    TakeStep(s0, drawn + [Dial(true, 0)], Begin(true));
    TakeStep(s0, drawn + [Dial(true, 0)] + [Begin(true)], ACK);
    steps := drawn + [Dial(true, 0)] + [Begin(true)] + [ACK];
  }

  /** With the 2^64th draw the order ends, however careful the callers are: the id after the highest
      is zero. */
  lemma OrderEndsAtWrap(cfg: Config, now: int) returns (steps: seq<Step>)
    ensures var s := Run(Start(cfg, now), steps);
            && s.conn.draws == SEQ_SPACE && Avoids(SendsAgain, Start(cfg, now), steps)
            && !InOrder(s.conn.log)
  {
    var s0, n := Start(cfg, now), SEQ_SPACE - 2;
    var session := OpenedRun(cfg, now, n);
    SendsNext(Run(s0, session), n);
    TakeStep(s0, session, NewHeader(0, 0));
    TakeStep(s0, session + [NewHeader(0, 0)], EncodeFrame(0, true));
    steps := session + [NewHeader(0, 0)] + [EncodeFrame(0, true)];
    WrapOutOfOrder(Run(s0, session).conn.log, BusinessSent(1, SeqOf(n + 2), Drawn));
  }

  lemma WrapOutOfOrder(log: seq<Event>, e: Event)
    requires |log| == 3 && IdOf(log[0]) == Some(SeqOf(SEQ_SPACE - 1)) && IdOf(e) == Some(SeqOf(SEQ_SPACE))
    ensures !InOrder(log + [e])
  {
    assert (log + [e])[0] == log[0] && (log + [e])[3] == e;
  }

  // ---------------------------------------------------------------- delays

  ghost predicate BacksOff(c: Conn) {
    c.failure == |c.delays| && forall i :: 0 <= i < |c.delays| ==> c.delays[i] == GetBackOff(i + 1)
  }

  ghost predicate SameDelays(s: Sys, s': Sys) {
    s'.conn.failure == s.conn.failure && s'.conn.delays == s.conn.delays
  }

  lemma TickDelays(s: Sys, ok: bool)
    requires Live(s)
    ensures SameDelays(s, Apply(s, Tick(ok)))
  {
  }

  lemma SessionDelays(s: Sys, step: Step)
    requires Live(s) && (step.WaitOver? || step.Begin? || step.Leave? || step.Exit? || step.Advance?)
    ensures SameDelays(s, Apply(s, step))
  {
  }

  lemma CallDelays(s: Sys, step: Step)
    requires Live(s)
    requires step.RemoteClose? || step.SendFrame? || step.NewHeader? || step.EncodeFrame? || step.StopCall?
             || step.ParentCancel?
    ensures SameDelays(s, Apply(s, step))
  {
  }

  lemma StepBacksOff(s: Sys, step: Step)
    requires Live(s) && BacksOff(s.conn)
    ensures BacksOff(Apply(s, step).conn)
  {
    match step
    case Dial(_, _) =>
    case Packet(_, _, _) =>
    case Tick(ok) => TickDelays(s, ok);
    case RemoteClose => CallDelays(s, step);
    case SendFrame(_) => CallDelays(s, step);
    case NewHeader(_, _) => CallDelays(s, step);
    case EncodeFrame(_, _) => CallDelays(s, step);
    case StopCall => CallDelays(s, step);
    case ParentCancel => CallDelays(s, step);
    case _ => SessionDelays(s, step);
  }

  lemma {:induction false} RunBacksOff(s: Sys, steps: seq<Step>)
    requires Live(s) && BacksOff(s.conn)
    ensures BacksOff(Run(s, steps).conn)
    decreases |steps|
  {
    if |steps| > 0 {
      StepLive(s, steps[0]);
      StepBacksOff(s, steps[0]);
      RunBacksOff(Apply(s, steps[0]), steps[1..]);
    }
  }

  /** Between two establishments the computed delays never shrink: only an accepted
      acknowledgement starts them over. */
  lemma DelaysNeverShrink(cfg: Config, now: int, steps: seq<Step>, i: nat, j: nat)
    requires var d := Run(Start(cfg, now), steps).conn.delays; i <= j < |d| <= MAX_FAILURES
    ensures var d := Run(Start(cfg, now), steps).conn.delays;
            0 <= d[i] <= d[j] && (d[j] >= SECOND ==> d[j] % SECOND == 0)
  {
    RunBacksOff(Start(cfg, now), steps);
    BackOffMonotone(i + 1, j + 1);
    BackOffBounds(i + 1);
    BackOffBounds(j + 1);
  }
}
