/**
 Runs of the outbound connection: the loop's phases, packets, sends, stops and the passing of time
 in any order, with any outcome of each dial and write and any behaviour of the peer.
 */
module SessionRuns {
  import opened Wrappers
  import opened Backoff
  import opened Session

  /** Where the loop is: about to dial, waiting out a backoff, with a connection on which Establish
      has not been sent, ticking, or gone. */
  datatype Phase = Top | Waiting | Dialed | Ticking | Exited

  /** `headers` are the packet headers of the callers of EncodeAndSend, by some name; `wakeAt` is when
      the timer of a failed dial fires. */
  datatype Sys = Sys(conn: Conn, phase: Phase, now: int, nextTick: int, wakeAt: int,
                     headers: map<nat, Header>)

  function Start(cfg: Config, now: int): Sys {
    Sys(NewConn(cfg), Top, now, now, now, map[])
  }

  datatype Step =
    | Dial(ok: bool, lag: nat)  // lag is the time from a failure to the setting of the timer
    | WaitOver
    | Begin(ok: bool)
    | Tick(ok: bool)            // onTick, then maybeShake
    | Leave                     // the session context is done: waitClose
    | Exit
    | Packet(uri: nat, err: string, handled: bool)
    | RemoteClose
    | SendFrame(ok: bool)
    | NewHeader(name: nat, seqId: nat)
    | EncodeFrame(name: nat, ok: bool)
    | StopCall
    | ParentCancel
    | Advance(d: nat)

  /** A connection is live exactly while there is one to use, which is all the code relies on when
      it uses rawConn without looking. */
  predicate Live(s: Sys) {
    && (s.phase == Dialed || s.phase == Ticking <==> s.conn.rawConn.Some?)
    && (s.conn.established ==> s.conn.rawConn.Some?)
  }

  /** Ticks are on time: while the session is not cancelled, time does not pass a due tick. */
  predicate Enabled(s: Sys, step: Step) {
    var c := s.conn;
    match step
    case Dial(_, _) => s.phase == Top && c.started && !c.ctxDone
    case WaitOver => s.phase == Waiting && s.now >= s.wakeAt
    case Begin(_) => s.phase == Dialed
    case Tick(_) => s.phase == Ticking && s.now == s.nextTick
    case Leave => s.phase == Ticking && Cancelled(c)
    case Exit => (s.phase == Top && (c.ctxDone || !c.started)) || (s.phase == Waiting && c.ctxDone)
    case Packet(_, _, _) => c.rawConn.Some?
    case EncodeFrame(name, _) => name in s.headers
    case Advance(d) => s.phase == Ticking && !Cancelled(c) ==> s.now + d <= s.nextTick
    case _ => true
  }

  /** A timer set for the time until nextDial in whole seconds; one that is not positive fires at once. */
  function TimerFor(nextDial: int, now: int): int {
    var wait := FloorToSecond(nextDial - now);
    if wait > 0 then now + wait else now
  }

  /** A packet that is not taken well makes the event loop close the connection, which cancels the
      session. */
  function Apply(s: Sys, step: Step): Sys
    requires Live(s)
  {
    if !Enabled(s, step) then s
    else
      var c := s.conn;
      match step
      case Dial(ok, lag) =>
        var c' := AfterDial(c, s.now, ok);
        if ok then s.(conn := c', phase := Dialed)
        else s.(conn := c', phase := Waiting, now := s.now + lag, wakeAt := TimerFor(c'.nextDial, s.now + lag))
      case WaitOver => s.(phase := Top)
      case Begin(ok) =>
        s.(conn := AfterEstablish(c, s.now, ok), phase := if ok then Ticking else Top,
           nextTick := s.now + SECOND)
      case Tick(ok) => s.(conn := AfterShake(AfterTick(c, s.now), s.now, ok), nextTick := s.nextTick + SECOND)
      case Leave => s.(conn := AfterClose(c), phase := Top)
      case Exit => s.(conn := c.(started := false), phase := Exited)
      case Packet(uri, err, handled) =>
        var c' := AfterPacket(c, s.now, uri, err);
        s.(conn := if PacketOk(c, uri, err, handled) then c' else AfterNotify(c'))
      case RemoteClose => s.(conn := AfterNotify(c))
      case SendFrame(ok) => s.(conn := AfterSend(c, ok))
      case NewHeader(name, seqId) => s.(headers := s.headers[name := Header(seqId, false, false)])
      case EncodeFrame(name, ok) =>
        var h := s.headers[name];
        s.(conn := AfterEncodeAndSend(c, s.now, h, ok), headers := s.headers[name := HeaderAfter(c, h, ok)])
      case StopCall => s.(conn := AfterStop(c))
      case ParentCancel => s.(conn := c.(ctxDone := true))
      case Advance(d) => s.(now := s.now + d)
  }

  lemma StepLive(s: Sys, step: Step)
    requires Live(s)
    ensures Live(Apply(s, step))
  {
  }

  function Run(s: Sys, steps: seq<Step>): (r: Sys)
    requires Live(s)
    ensures Live(r)
    decreases |steps|
  {
    if |steps| == 0 then s
    else
      StepLive(s, steps[0]);
      Run(Apply(s, steps[0]), steps[1..])
  }

  // ---------------------------------------------------------------- order of events

  predicate NeedsAck(e: Event) {
    e.HeartbeatSent? || e.BusinessSent? || e.Handled?
  }

  /** Nothing is handled or sent in a session before its acknowledgement was accepted. */
  ghost predicate AckFirst(log: seq<Event>) {
    forall i :: 0 <= i < |log| && NeedsAck(log[i]) ==> AckAccepted(log[i].session) in log[..i]
  }

  ghost predicate HasEstablish(log: seq<Event>, session: nat) {
    exists e :: e in log && e.EstablishSent? && e.session == session
  }

  /** Establish goes before every heartbeat and business frame of its session. */
  ghost predicate EstablishFirst(log: seq<Event>) {
    forall i :: 0 <= i < |log| && (log[i].HeartbeatSent? || log[i].BusinessSent?) ==>
      HasEstablish(log[..i], log[i].session)
  }

  ghost predicate EstablishOnce(log: seq<Event>) {
    forall i, j :: 0 <= i < j < |log| && log[i].EstablishSent? && log[j].EstablishSent? ==>
      log[i].session != log[j].session
  }

  lemma AckFirstSnoc(log: seq<Event>, e: Event)
    requires AckFirst(log) && (NeedsAck(e) ==> AckAccepted(e.session) in log)
    ensures AckFirst(log + [e])
  {
    var longer := log + [e];
    forall i | 0 <= i < |longer| && NeedsAck(longer[i])
      ensures AckAccepted(longer[i].session) in longer[..i]
    {
      assert longer[..i] == log[..i];
      if i == |log| {
        assert log[..i] == log;
      }
    }
  }

  lemma EstablishFirstSnoc(log: seq<Event>, e: Event)
    requires EstablishFirst(log)
    requires e.HeartbeatSent? || e.BusinessSent? ==> HasEstablish(log, e.session)
    ensures EstablishFirst(log + [e])
  {
    var longer := log + [e];
    forall i | 0 <= i < |longer| && (longer[i].HeartbeatSent? || longer[i].BusinessSent?)
      ensures HasEstablish(longer[..i], longer[i].session)
    {
      assert longer[..i] == log[..i];
      if i == |log| {
        assert log[..i] == log;
      }
    }
  }

  lemma HasEstablishSnoc(log: seq<Event>, e: Event, session: nat)
    ensures HasEstablish(log + [e], session) <==>
              HasEstablish(log, session) || (e.EstablishSent? && e.session == session)
  {
    assert e in log + [e];
    assert forall x :: x in log ==> x in log + [e];
  }

  // ---------------------------------------------------------------- session safety

  /** What holds against any peer. */
  ghost predicate Ordered(s: Sys) {
    var c := s.conn;
    && Live(s)
    && AckFirst(c.log)
    && EstablishOnce(c.log)
    && (c.established ==> AckAccepted(c.rawConn.value) in c.log)
    && (c.rawConn.Some? ==> c.rawConn.value == c.sessions)
    && (forall e :: e in c.log ==> e.session <= c.sessions)
    && (s.phase == Dialed ==> !HasEstablish(c.log, c.sessions))
  }

  /** A step adds at most these events to the log. */
  function NewEvents(s: Sys, step: Step): seq<Event>
    requires Live(s)
  {
    var c, c' := s.conn, Apply(s, step).conn;
    if !Enabled(s, step) then []
    else
      match step
      case Begin(ok) => if ok then [EstablishSent(c.rawConn.value, c'.seqId)] else []
      case Tick(ok) =>
        if ok && c.established && s.now - c.lastSent >= c.cfg.shakeEvery then
          [HeartbeatSent(c.rawConn.value, c'.seqId)] else []
      case Packet(uri, err, _) =>
        if uri == META_ESTABLISH_ACK then
          if Rejects(err) then [] else [AckAccepted(c.rawConn.value), Handled(c.rawConn.value, uri)]
        else if !c.established || uri == META_SHAKE_HAND || uri == META_SHAKE_HAND_RESP then []
        else [Handled(c.rawConn.value, uri)]
      case SendFrame(ok) => if CanSend(c) && ok then [BusinessSent(c.rawConn.value, 0, Raw)] else []
      case EncodeFrame(name, ok) =>
        var h := s.headers[name];
        if CanSend(c) && ok then
          [BusinessSent(c.rawConn.value, Stamped(c, h).seqId, OriginOf(h))] else []
      case _ => []
  }

  function Extend(log: seq<Event>, events: seq<Event>): seq<Event> {
    if events == [] then log else log + events
  }

  lemma AckEvents(s: Sys, err: string, handled: bool)
    requires Live(s)
    ensures var step := Packet(META_ESTABLISH_ACK, err, handled);
            Apply(s, step).conn.log == Extend(s.conn.log, NewEvents(s, step))
  {
    if s.conn.rawConn.Some? {
      var c' := AfterPacket(s.conn, s.now, META_ESTABLISH_ACK, err);
      assert Apply(s, Packet(META_ESTABLISH_ACK, err, handled)).conn.log == c'.log;
    }
  }

  lemma PacketEvents(s: Sys, uri: nat, err: string, handled: bool)
    requires Live(s)
    ensures var step := Packet(uri, err, handled);
            Apply(s, step).conn.log == Extend(s.conn.log, NewEvents(s, step))
  {
    if uri == META_ESTABLISH_ACK {
      AckEvents(s, err, handled);
    }
  }

  lemma TickEvents(s: Sys, ok: bool)
    requires Live(s)
    ensures Apply(s, Tick(ok)).conn.log == Extend(s.conn.log, NewEvents(s, Tick(ok)))
  {
  }

  lemma StepEvents(s: Sys, step: Step)
    requires Live(s)
    ensures Apply(s, step).conn.log == Extend(s.conn.log, NewEvents(s, step))
  {
    match step
    case Packet(uri, err, handled) => PacketEvents(s, uri, err, handled);
    case Tick(ok) => TickEvents(s, ok);
    case _ =>
  }

  // How a step may change what the order of events depends on.

  ghost predicate SameSession(s: Sys, s': Sys) {
    s'.conn.rawConn == s.conn.rawConn && s'.conn.sessions == s.conn.sessions && s'.phase == s.phase
  }

  lemma TickQuiet(s: Sys, ok: bool)
    requires Live(s)
    ensures SameSession(s, Apply(s, Tick(ok))) && Apply(s, Tick(ok)).conn.established == s.conn.established
  {
  }

  lemma PacketQuiet(s: Sys, uri: nat, err: string, handled: bool)
    requires Live(s)
    ensures var step := Packet(uri, err, handled);
            var s', events := Apply(s, step), NewEvents(s, step);
            && SameSession(s, s')
            && (s'.conn.established != s.conn.established ==>
                  |events| == 2 && Enabled(s, step) && uri == META_ESTABLISH_ACK)
  {
  }

  lemma OtherQuiet(s: Sys, step: Step)
    requires Live(s)
    requires step.RemoteClose? || step.SendFrame? || step.NewHeader? || step.EncodeFrame? || step.StopCall?
             || step.ParentCancel? || step.Advance?
    ensures SameSession(s, Apply(s, step))
    ensures Apply(s, step).conn.established ==> s.conn.established
  {
  }

  lemma StepSessions(s: Sys, step: Step)
    requires Live(s)
    ensures var c, c' := s.conn, Apply(s, step).conn;
            && (c'.sessions == c.sessions || c'.sessions == c.sessions + 1)
            && (c'.rawConn.Some? ==>
                  (c'.rawConn == c.rawConn && c'.sessions == c.sessions)
                  || (c'.rawConn == Some(c'.sessions) && c'.sessions == c.sessions + 1))
            && (c'.established ==> c'.rawConn == c.rawConn && (c.established || |NewEvents(s, step)| == 2))
  {
    match step
    case Tick(ok) => TickQuiet(s, ok);
    case Packet(uri, err, handled) => PacketQuiet(s, uri, err, handled);
    case Dial(_, _) =>
    case WaitOver =>
    case Begin(_) =>
    case Leave =>
    case Exit =>
    case _ => OtherQuiet(s, step);
  }

  lemma StepDialed(s: Sys, step: Step)
    requires Live(s)
    ensures var c, c' := s.conn, Apply(s, step).conn;
            Apply(s, step).phase == Dialed ==>
              || (s.phase == Dialed && c'.sessions == c.sessions
                  && forall e :: e in NewEvents(s, step) ==> !e.EstablishSent?)
              || (NewEvents(s, step) == [] && c'.sessions == c.sessions + 1)
  {
  }

  /** What a step adds: nothing, an event of the live session that needs its acknowledgement, its
      Establish, or the acknowledgement itself, which is also handled. */
  ghost predicate Addition(log: seq<Event>, events: seq<Event>, session: nat) {
    || events == []
    || (|events| == 1 && events[0].session == session
        && (NeedsAck(events[0]) ==> AckAccepted(session) in log)
        && (events[0].EstablishSent? ==> !HasEstablish(log, session)))
    || (|events| == 2 && events[0] == AckAccepted(session) && events[1].Handled? && events[1].session == session)
  }

  lemma StepAddition(s: Sys, step: Step)
    requires Ordered(s)
    ensures s.conn.rawConn.None? ==> NewEvents(s, step) == []
    ensures s.conn.rawConn.Some? ==> Addition(s.conn.log, NewEvents(s, step), s.conn.rawConn.value)
  {
  }

  lemma EstablishOnceSnoc(log: seq<Event>, e: Event)
    requires EstablishOnce(log) && (e.EstablishSent? ==> !HasEstablish(log, e.session))
    ensures EstablishOnce(log + [e])
  {
    var longer := log + [e];
    forall i, j | 0 <= i < j < |longer| && longer[i].EstablishSent? && longer[j].EstablishSent?
      ensures longer[i].session != longer[j].session
    {
      assert longer[i] == log[i] && log[i] in log;
    }
  }

  lemma ExtendKeepsOrder(log: seq<Event>, events: seq<Event>, session: nat)
    requires AckFirst(log) && EstablishOnce(log) && Addition(log, events, session)
    ensures AckFirst(Extend(log, events)) && EstablishOnce(Extend(log, events))
    ensures |events| == 2 ==> AckAccepted(session) in Extend(log, events)
    ensures forall e :: e in Extend(log, events) ==> e in log || e.session == session
  {
    if |events| == 1 {
      assert events == [events[0]];
      AckFirstSnoc(log, events[0]);
      EstablishOnceSnoc(log, events[0]);
    } else if |events| == 2 {
      assert log + events == (log + [events[0]]) + [events[1]];
      AckFirstSnoc(log, events[0]);
      EstablishOnceSnoc(log, events[0]);
      assert AckAccepted(session) in log + [events[0]];
      AckFirstSnoc(log + [events[0]], events[1]);
      EstablishOnceSnoc(log + [events[0]], events[1]);
      assert AckAccepted(session) in log + events;
    }
  }

  lemma StepOrdered(s: Sys, step: Step)
    requires Ordered(s)
    ensures Ordered(Apply(s, step))
  {
    var s' := Apply(s, step);
    var c, c', events := s.conn, s'.conn, NewEvents(s, step);
    StepLive(s, step);
    StepEvents(s, step);
    StepSessions(s, step);
    StepDialed(s, step);
    StepAddition(s, step);
    if events != [] {
      ExtendKeepsOrder(c.log, events, c.rawConn.value);
      assert c.established ==> AckAccepted(c.rawConn.value) in c'.log;
    }
    if s'.phase == Dialed {
      forall e | e in c'.log && e.EstablishSent?
        ensures e.session != c'.sessions
      {
        assert e in c.log || e in events;
      }
    }
  }

  lemma {:induction false} RunOrdered(s: Sys, steps: seq<Step>)
    requires Ordered(s)
    ensures Ordered(Run(s, steps))
    decreases |steps|
  {
    if |steps| > 0 {
      StepOrdered(s, steps[0]);
      RunOrdered(Apply(s, steps[0]), steps[1..]);
    }
  }

  /**
   Session safety against any peer and any failures: an established connection is live and its
   acknowledgement was accepted in this very session; before its acknowledgement a session sends
   no heartbeat or business frame and hands no packet to the handler; and no session sends
   Establish twice, across any number of reconnects.
   */
  lemma SessionSafety(cfg: Config, now: int, steps: seq<Step>)
    ensures var c := Run(Start(cfg, now), steps).conn;
            && (c.established ==> c.rawConn.Some? && AckAccepted(c.rawConn.value) in c.log)
            && AckFirst(c.log)
            && EstablishOnce(c.log)
  {
    RunOrdered(Start(cfg, now), steps);
  }

  // ---------------------------------------------------------------- Establish comes first

  /** No step of the run is a bad one. */
  ghost predicate Avoids(bad: (Sys, Step) -> bool, s: Sys, steps: seq<Step>)
    requires Live(s)
    decreases |steps|
  {
    |steps| == 0
    || (!bad(s, steps[0]) && (StepLive(s, steps[0]); Avoids(bad, Apply(s, steps[0]), steps[1..])))
  }

  /** A business frame goes out between the dial and the Establish of a session. */
  predicate SendsEarly(s: Sys, step: Step) {
    && s.phase == Dialed && CanSend(s.conn)
    && (step == SendFrame(true) || (step.EncodeFrame? && step.ok && Enabled(s, step)))
  }

  ghost predicate Asked(s: Sys) {
    && Ordered(s)
    && (s.phase == Ticking ==> HasEstablish(s.conn.log, s.conn.sessions))
  }

  /** While the loop ticks, the session stays the one Establish was sent on. */
  lemma StepTicking(s: Sys, step: Step)
    requires Live(s)
    ensures var s' := Apply(s, step);
            s'.phase == Ticking ==>
              && s'.conn.sessions == s.conn.sessions
              && (s.phase == Ticking
                  || (|NewEvents(s, step)| == 1 && NewEvents(s, step)[0].EstablishSent?
                      && NewEvents(s, step)[0].session == s.conn.rawConn.value))
  {
    match step
    case Tick(ok) => TickQuiet(s, ok);
    case Packet(uri, err, handled) => PacketQuiet(s, uri, err, handled);
    case Dial(_, _) =>
    case WaitOver =>
    case Begin(_) =>
    case Leave =>
    case Exit =>
    case _ => OtherQuiet(s, step);
  }

  lemma ExtendHasEstablish(log: seq<Event>, events: seq<Event>, session: nat)
    ensures HasEstablish(log, session) ==> HasEstablish(Extend(log, events), session)
    ensures |events| == 1 && events[0].EstablishSent? && events[0].session == session ==>
              HasEstablish(Extend(log, events), session)
  {
    assert forall e :: e in log ==> e in Extend(log, events);
    if |events| == 1 {
      assert events[0] in Extend(log, events);
    }
  }

  lemma StepAsked(s: Sys, step: Step)
    requires Asked(s)
    ensures Asked(Apply(s, step))
  {
    StepOrdered(s, step);
    StepEvents(s, step);
    StepTicking(s, step);
    ExtendHasEstablish(s.conn.log, NewEvents(s, step), s.conn.sessions);
  }

  /** The frames of a step, and whether they come too early. */
  lemma FramesOf(s: Sys, step: Step)
    requires Asked(s)
    ensures SendsEarly(s, step) ==>
              |NewEvents(s, step)| == 1 && NewEvents(s, step)[0].BusinessSent?
              && NewEvents(s, step)[0].session == s.conn.sessions
    ensures !SendsEarly(s, step) ==>
              forall e :: e in NewEvents(s, step) && (e.HeartbeatSent? || e.BusinessSent?) ==>
                s.phase == Ticking && e.session == s.conn.sessions
    ensures |NewEvents(s, step)| <= 2
  {
  }

  lemma PrefixEstablishFirst(log: seq<Event>, events: seq<Event>)
    requires EstablishFirst(log + events)
    ensures EstablishFirst(log)
  {
    forall i | 0 <= i < |log| && (log[i].HeartbeatSent? || log[i].BusinessSent?)
      ensures HasEstablish(log[..i], log[i].session)
    {
      assert (log + events)[i] == log[i] && (log + events)[..i] == log[..i];
    }
  }

  lemma ExtendEstablishFirst(log: seq<Event>, events: seq<Event>)
    requires EstablishFirst(log) && |events| <= 2
    requires forall e :: e in events && (e.HeartbeatSent? || e.BusinessSent?) ==> HasEstablish(log, e.session)
    ensures EstablishFirst(Extend(log, events))
  {
    if |events| >= 1 {
      assert events[0] in events;
      EstablishFirstSnoc(log, events[0]);
      if |events| == 1 {
        assert events == [events[0]];
      } else {
        assert events[1] in events;
        HasEstablishSnoc(log, events[0], events[1].session);
        EstablishFirstSnoc(log + [events[0]], events[1]);
        assert log + events == (log + [events[0]]) + [events[1]];
      }
    }
  }

  lemma EarlyFrameBreaks(log: seq<Event>, e: Event)
    requires (e.HeartbeatSent? || e.BusinessSent?) && !HasEstablish(log, e.session)
    ensures !EstablishFirst(log + [e])
  {
    assert (log + [e])[|log|] == e && (log + [e])[..|log|] == log;
  }

  lemma StepEstablishFirst(s: Sys, step: Step)
    requires Asked(s)
    ensures EstablishFirst(Apply(s, step).conn.log) <==> EstablishFirst(s.conn.log) && !SendsEarly(s, step)
  {
    var log, events := s.conn.log, NewEvents(s, step);
    StepEvents(s, step);
    FramesOf(s, step);
    if SendsEarly(s, step) {
      assert events == [events[0]];
      EarlyFrameBreaks(log, events[0]);
    } else if EstablishFirst(log) {
      ExtendEstablishFirst(log, events);
    } else if EstablishFirst(Extend(log, events)) && events != [] {
      PrefixEstablishFirst(log, events);
    }
  }

  lemma {:induction false} RunEstablishFirst(s: Sys, steps: seq<Step>)
    requires Asked(s)
    ensures EstablishFirst(Run(s, steps).conn.log) <==>
              EstablishFirst(s.conn.log) && Avoids(SendsEarly, s, steps)
    decreases |steps|
  {
    if |steps| > 0 {
      StepAsked(s, steps[0]);
      StepEstablishFirst(s, steps[0]);
      RunEstablishFirst(Apply(s, steps[0]), steps[1..]);
    }
  }

  /** In every run, each session's Establish precedes all its heartbeat and business frames exactly
      when no business frame was sent between the dial and the Establish of a session. */
  lemma EstablishFirstIff(cfg: Config, now: int, steps: seq<Step>)
    ensures EstablishFirst(Run(Start(cfg, now), steps).conn.log) <==> Avoids(SendsEarly, Start(cfg, now), steps)
  {
    RunEstablishFirst(Start(cfg, now), steps);
  }

  // ---------------------------------------------------------------- early acknowledgements

  predicate AckedEarly(s: Sys, step: Step) {
    s.phase == Dialed && step.Packet? && step.uri == META_ESTABLISH_ACK
  }

  lemma StepEstablishedLate(s: Sys, step: Step)
    requires Live(s) && (s.conn.established ==> s.phase == Ticking) && !AckedEarly(s, step)
    ensures Apply(s, step).conn.established ==> Apply(s, step).phase == Ticking
  {
    match step
    case Tick(ok) => TickQuiet(s, ok);
    case Packet(uri, err, handled) => PacketQuiet(s, uri, err, handled);
    case Dial(_, _) =>
    case WaitOver =>
    case Begin(_) =>
    case Leave =>
    case Exit =>
    case _ => OtherQuiet(s, step);
  }

  lemma {:induction false} LateAcksNoEarlySends(s: Sys, steps: seq<Step>)
    requires Live(s) && (s.conn.established ==> s.phase == Ticking) && Avoids(AckedEarly, s, steps)
    ensures Avoids(SendsEarly, s, steps)
    decreases |steps|
  {
    if |steps| > 0 {
      StepLive(s, steps[0]);
      StepEstablishedLate(s, steps[0]);
      LateAcksNoEarlySends(Apply(s, steps[0]), steps[1..]);
    }
  }

  ghost predicate AlwaysEstablishFirst(cfg: Config, now: int, early: bool) {
    forall steps :: (early || Avoids(AckedEarly, Start(cfg, now), steps)) ==>
      EstablishFirst(Run(Start(cfg, now), steps).conn.log)
  }

  /**
   For all runs together: Establish comes first in every one of them exactly when the peer cannot
   acknowledge a session before Establish has been sent on it. The code takes such an early
   acknowledgement for the real one.
   */
  lemma EstablishFirstIffNoEarlyAck(cfg: Config, now: int, early: bool)
    ensures AlwaysEstablishFirst(cfg, now, early) <==> !early
  {
    var s0 := Start(cfg, now);
    if early {
      var ack := Packet(META_ESTABLISH_ACK, RESPONSE_OK, true);
      var steps := [Dial(true, 0), ack, SendFrame(true)];
      var s1 := Apply(s0, Dial(true, 0));
      var s2 := Apply(s1, ack);
      assert SendsEarly(s2, SendFrame(true));
      assert steps[1..][1..] == [SendFrame(true)];
      assert !Avoids(SendsEarly, s2, steps[1..][1..]);
      assert !Avoids(SendsEarly, s1, steps[1..]);
      EstablishFirstIff(cfg, now, steps);
    } else {
      forall steps | Avoids(AckedEarly, s0, steps)
        ensures EstablishFirst(Run(s0, steps).conn.log)
      {
        LateAcksNoEarlySends(s0, steps);
        EstablishFirstIff(cfg, now, steps);
      }
    }
  }
}
