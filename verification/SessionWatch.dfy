/**
 The connection as someone sees it who only watches what happens to it and when, and never looks
 inside: how long sessions live, when heartbeats go out, how far apart dials are, what Stop does.
 */
module SessionWatch {
  import opened Wrappers
  import opened Backoff
  import opened Session
  import opened SessionRuns

  /** When the last packet came or session was dialled, when the last Establish, heartbeat or encoded
      frame went out or session was dialled, when the next dial was last said to be due, how many
      dials have failed since the last accepted acknowledgement, whether the session has one, and how
      many ids have been drawn. */
  datatype Seen = Seen(heard: int, sent: int, due: int, failed: nat, acked: bool, drawn: nat)

  const NOTHING := Seen(0, 0, 0, 0, false, 0)

  function Accepts(uri: nat, err: string): bool {
    uri == META_ESTABLISH_ACK && (err == "" || err == RESPONSE_OK)
  }

  function See(k: Seen, s: Sys, step: Step): Seen {
    if !Enabled(s, step) then k
    else
      match step
      case Dial(ok, _) =>
        if ok then k.(heard := s.now, sent := s.now, due := s.now + HOUR)
        else k.(failed := k.failed + 1, due := s.now + GetBackOff(k.failed + 1))
      case Begin(ok) =>
        var k' := k.(acked := false, drawn := k.drawn + 1);
        if ok then k'.(sent := s.now) else k'
      case Tick(ok) =>
        if !HeartbeatDue(k, s) then k
        else if ok then k.(sent := s.now, drawn := k.drawn + 1)
        else k.(drawn := k.drawn + 1)
      case Packet(uri, err, _) =>
        var k' := k.(heard := s.now, due := s.now + HOUR);
        if Accepts(uri, err) then k'.(failed := 0, acked := true) else k'
      case EncodeFrame(name, ok) =>
        var k' := if s.headers[name].seqId == 0 then k.(drawn := k.drawn + 1) else k;
        if ok && k.acked then k'.(sent := s.now) else k'
      case StopCall => if s.conn.started then k.(acked := false) else k
      case Leave => k.(acked := false)
      case _ => k
  }

  predicate HeartbeatDue(k: Seen, s: Sys) {
    k.acked && s.now - k.sent >= s.conn.cfg.shakeEvery
  }

  function Watch(k: Seen, s: Sys, steps: seq<Step>): Seen
    requires Live(s)
    decreases |steps|
  {
    if |steps| == 0 then k
    else
      StepLive(s, steps[0]);
      Watch(See(k, s, steps[0]), Apply(s, steps[0]), steps[1..])
  }

  /** The connection's own fields say what has been seen. */
  ghost predicate Agrees(k: Seen, s: Sys) {
    var c := s.conn;
    && Live(s)
    && c.lastRecv == k.heard && c.lastSent == k.sent && c.nextDial == k.due
    && c.failure == k.failed && c.established == k.acked
    && c.draws == k.drawn && c.seqId == SeqOf(k.drawn)
    && (c.started || c.ctxDone)
    && (s.phase == Ticking ==> c.hasSub)
  }

  lemma QuietTickAgrees(k: Seen, s: Sys, ok: bool)
    requires Agrees(k, s) && !HeartbeatDue(k, s)
    ensures Agrees(See(k, s, Tick(ok)), Apply(s, Tick(ok)))
  {
  }

  lemma TickAgrees(k: Seen, s: Sys, ok: bool)
    requires Agrees(k, s)
    ensures Agrees(See(k, s, Tick(ok)), Apply(s, Tick(ok)))
  {
    if !HeartbeatDue(k, s) {
      QuietTickAgrees(k, s, ok);
    }
  }

  lemma AckAgrees(k: Seen, s: Sys, err: string, handled: bool)
    requires Agrees(k, s)
    ensures var step := Packet(META_ESTABLISH_ACK, err, handled); Agrees(See(k, s, step), Apply(s, step))
  {
  }

  lemma PacketAgrees(k: Seen, s: Sys, uri: nat, err: string, handled: bool)
    requires Agrees(k, s)
    ensures Agrees(See(k, s, Packet(uri, err, handled)), Apply(s, Packet(uri, err, handled)))
  {
    if uri == META_ESTABLISH_ACK {
      AckAgrees(k, s, err, handled);
    }
  }

  lemma DialAgrees(k: Seen, s: Sys, ok: bool, lag: nat)
    requires Agrees(k, s)
    ensures Agrees(See(k, s, Dial(ok, lag)), Apply(s, Dial(ok, lag)))
  {
  }

  lemma LoopAgrees(k: Seen, s: Sys, step: Step)
    requires Agrees(k, s)
    requires step.WaitOver? || step.Begin? || step.Leave? || step.Exit? || step.Advance?
    ensures Agrees(See(k, s, step), Apply(s, step))
  {
  }

  lemma EncodeAgrees(k: Seen, s: Sys, name: nat, ok: bool)
    requires Agrees(k, s)
    ensures Agrees(See(k, s, EncodeFrame(name, ok)), Apply(s, EncodeFrame(name, ok)))
  {
  }

  lemma CallAgrees(k: Seen, s: Sys, step: Step)
    requires Agrees(k, s)
    requires step.RemoteClose? || step.SendFrame? || step.NewHeader? || step.StopCall? || step.ParentCancel?
    ensures Agrees(See(k, s, step), Apply(s, step))
  {
  }

  lemma StepAgrees(k: Seen, s: Sys, step: Step)
    requires Agrees(k, s)
    ensures Agrees(See(k, s, step), Apply(s, step))
  {
    match step
    case Dial(ok, lag) => DialAgrees(k, s, ok, lag);
    case Tick(ok) => TickAgrees(k, s, ok);
    case Packet(uri, err, handled) => PacketAgrees(k, s, uri, err, handled);
    case RemoteClose => CallAgrees(k, s, step);
    case SendFrame(_) => CallAgrees(k, s, step);
    case NewHeader(_, _) => CallAgrees(k, s, step);
    case EncodeFrame(name, ok) => EncodeAgrees(k, s, name, ok);
    case StopCall => CallAgrees(k, s, step);
    case ParentCancel => CallAgrees(k, s, step);
    case _ => LoopAgrees(k, s, step);
  }

  /** In every run, the times, counts and marks the connection keeps are those that were seen. */
  lemma FieldsAreWhatWasSeen(cfg: Config, now: int, steps: seq<Step>)
    ensures Agrees(Watch(NOTHING, Start(cfg, now), steps), Run(Start(cfg, now), steps))
  {
    RunAgrees(NOTHING, Start(cfg, now), steps);
  }

  lemma {:induction false} RunAgrees(k: Seen, s: Sys, steps: seq<Step>)
    requires Agrees(k, s)
    ensures Agrees(Watch(k, s, steps), Run(s, steps))
    decreases |steps|
  {
    if |steps| > 0 {
      StepAgrees(k, s, steps[0]);
      RunAgrees(See(k, s, steps[0]), Apply(s, steps[0]), steps[1..]);
    }
  }

  // ---------------------------------------------------------------- how long a session lives

  /** A step after which an uncancelled session is still uncancelled: at a tick the acknowledgement
      is not overdue, or the peer has been heard and any heartbeat that is due can be written; a
      packet is not a refusal, and not failed by the handler, if that is given it. */
  predicate Spares(k: Seen, s: Sys, step: Step) {
    !Enabled(s, step)
    || match step
       case Tick(ok) =>
         if k.acked then s.now - k.heard <= s.conn.cfg.recvIdleTimeout && (HeartbeatDue(k, s) ==> ok)
         else s.now - k.sent <= s.conn.cfg.establishTimeout
       case Packet(uri, err, handled) =>
         if uri == META_ESTABLISH_ACK then Accepts(uri, err) && handled
         else k.acked && uri != META_SHAKE_HAND && uri != META_SHAKE_HAND_RESP ==> handled
       case RemoteClose => false
       case StopCall => false
       case ParentCancel => false
       case _ => true
  }

  ghost predicate AlwaysSpares(k: Seen, s: Sys, steps: seq<Step>)
    requires Live(s)
    decreases |steps|
  {
    |steps| == 0
    || (Spares(k, s, steps[0])
        && (StepLive(s, steps[0]); AlwaysSpares(See(k, s, steps[0]), Apply(s, steps[0]), steps[1..])))
  }

  ghost predicate Stays(steps: seq<Step>) {
    forall i :: 0 <= i < |steps| ==> steps[i] != Leave
  }

  lemma TickCancelsIff(k: Seen, s: Sys, ok: bool)
    requires Agrees(k, s) && s.phase == Ticking && !Cancelled(s.conn)
    ensures Apply(s, Tick(ok)).phase == Ticking
    ensures Cancelled(Apply(s, Tick(ok)).conn) <==> !Spares(k, s, Tick(ok))
  {
  }

  lemma PacketCancelsIff(k: Seen, s: Sys, uri: nat, err: string, handled: bool)
    requires Agrees(k, s) && s.phase == Ticking && !Cancelled(s.conn)
    ensures Apply(s, Packet(uri, err, handled)).phase == Ticking
    ensures Cancelled(Apply(s, Packet(uri, err, handled)).conn) <==> !Spares(k, s, Packet(uri, err, handled))
  {
  }

  lemma OtherCancelsIff(k: Seen, s: Sys, step: Step)
    requires Agrees(k, s) && s.phase == Ticking && !Cancelled(s.conn)
    requires !step.Tick? && !step.Packet? && step != Leave
    ensures Apply(s, step).phase == Ticking
    ensures Cancelled(Apply(s, step).conn) <==> !Spares(k, s, step)
  {
  }

  lemma StepCancelsIff(k: Seen, s: Sys, step: Step)
    requires Agrees(k, s) && s.phase == Ticking && !Cancelled(s.conn) && step != Leave
    ensures Apply(s, step).phase == Ticking
    ensures Cancelled(Apply(s, step).conn) <==> !Spares(k, s, step)
  {
    match step
    case Tick(ok) => TickCancelsIff(k, s, ok);
    case Packet(uri, err, handled) => PacketCancelsIff(k, s, uri, err, handled);
    case _ => OtherCancelsIff(k, s, step);
  }

  lemma StaysCancelled(s: Sys, step: Step)
    requires Live(s) && s.phase == Ticking && Cancelled(s.conn) && step != Leave
    ensures Apply(s, step).phase == Ticking && Cancelled(Apply(s, step).conn)
  {
  }

  lemma {:induction false} RunStaysCancelled(s: Sys, steps: seq<Step>)
    requires Live(s) && s.phase == Ticking && Cancelled(s.conn) && Stays(steps)
    ensures Cancelled(Run(s, steps).conn)
    decreases |steps|
  {
    if |steps| > 0 {
      StepLive(s, steps[0]);
      StaysCancelled(s, steps[0]);
      RunStaysCancelled(Apply(s, steps[0]), steps[1..]);
    }
  }

  lemma {:induction false} RunCancelsIff(k: Seen, s: Sys, steps: seq<Step>)
    requires Agrees(k, s) && s.phase == Ticking && !Cancelled(s.conn) && Stays(steps)
    ensures Cancelled(Run(s, steps).conn) <==> !AlwaysSpares(k, s, steps)
    decreases |steps|
  {
    if |steps| > 0 {
      assert steps[0] != Leave;
      StepAgrees(k, s, steps[0]);
      StepCancelsIff(k, s, steps[0]);
      if Spares(k, s, steps[0]) {
        RunCancelsIff(See(k, s, steps[0]), Apply(s, steps[0]), steps[1..]);
      } else {
        RunStaysCancelled(Apply(s, steps[0]), steps[1..]);
      }
    }
  }

  /**
   How long a session lives, exactly. In any run, a session on which Establish has just been sent,
   unless the connection has been stopped before, is cancelled later in that session if and only if
   by then it was stopped, closed, refused or failed by the handler, or some tick came more than
   establishTimeout after Establish without an acknowledgement, or more than recvIdleTimeout after
   the last packet with one, or found a heartbeat due that could not be written.
   */
  lemma SessionLivesIff(cfg: Config, now: int, before: seq<Step>, steps: seq<Step>)
    requires var s0 := Run(Start(cfg, now), before);
             Enabled(s0, Begin(true)) && !s0.conn.ctxDone && Stays(steps)
    ensures var s0, k0 := Run(Start(cfg, now), before), Watch(NOTHING, Start(cfg, now), before);
            var s, k := Apply(s0, Begin(true)), See(k0, s0, Begin(true));
            Live(s) && (Cancelled(Run(s, steps).conn) <==> !AlwaysSpares(k, s, steps))
  {
    var s0, k0 := Run(Start(cfg, now), before), Watch(NOTHING, Start(cfg, now), before);
    RunAgrees(NOTHING, Start(cfg, now), before);
    StepAgrees(k0, s0, Begin(true));
    RunCancelsIff(See(k0, s0, Begin(true)), Apply(s0, Begin(true)), steps);
  }

  // ---------------------------------------------------------------- heartbeats

  /** A tick sends a heartbeat exactly when the session is acknowledged, nothing but raw payloads has
      gone out for shakeEvery, and the write succeeds. */
  lemma HeartbeatIff(cfg: Config, now: int, steps: seq<Step>, ok: bool)
    ensures var s, k := Run(Start(cfg, now), steps), Watch(NOTHING, Start(cfg, now), steps);
            (|Apply(s, Tick(ok)).conn.log| == |s.conn.log| + 1
             && Apply(s, Tick(ok)).conn.log[|s.conn.log|].HeartbeatSent?)
            <==> (Enabled(s, Tick(ok)) && HeartbeatDue(k, s) && ok)
  {
    RunAgrees(NOTHING, Start(cfg, now), steps);
    TickEvents(Run(Start(cfg, now), steps), ok);
  }

  // ---------------------------------------------------------------- dials

  ghost predicate NoDial(steps: seq<Step>) {
    forall i :: 0 <= i < |steps| ==> !steps[i].Dial?
  }

  /** The loop is waiting for its timer, or has left it behind. */
  ghost predicate Spaced(s: Sys, wakeAt: int) {
    (s.phase == Waiting && s.wakeAt == wakeAt) || s.phase == Exited || (s.phase == Top && s.now >= wakeAt)
  }

  lemma StepSpaced(s: Sys, step: Step, wakeAt: int)
    requires Live(s) && Spaced(s, wakeAt) && !step.Dial?
    ensures Spaced(Apply(s, step), wakeAt)
  {
  }

  lemma {:induction false} RunSpaced(s: Sys, steps: seq<Step>, wakeAt: int)
    requires Live(s) && Spaced(s, wakeAt) && NoDial(steps)
    ensures Spaced(Run(s, steps), wakeAt)
    decreases |steps|
  {
    if |steps| > 0 {
      StepLive(s, steps[0]);
      StepSpaced(s, steps[0], wakeAt);
      RunSpaced(Apply(s, steps[0]), steps[1..], wakeAt);
    }
  }

  /** The delay after so many failures, of which lag has gone by when the timer is set. */
  function WaitAfter(failures: nat, lag: nat): int {
    var rest := FloorToSecond(GetBackOff(failures) - lag);
    if rest > 0 then lag + rest else lag
  }

  /**
   Two consecutive dials of any run of which the first fails are apart by at least the backoff
   for the number of dials that have failed since the last accepted acknowledgement, as far as the
   timer keeps it.
   */
  lemma DialsAreApart(cfg: Config, now: int, before: seq<Step>, lag: nat, between: seq<Step>, ok: bool, lag': nat)
    ensures var s0, k0 := Run(Start(cfg, now), before), Watch(NOTHING, Start(cfg, now), before);
            var s := Apply(s0, Dial(false, lag));
            && Live(s)
            && (Enabled(s0, Dial(false, lag)) && NoDial(between) && Enabled(Run(s, between), Dial(ok, lag')) ==>
                  Run(s, between).now - s0.now >= WaitAfter(k0.failed + 1, lag))
  {
    var s0, k0 := Run(Start(cfg, now), before), Watch(NOTHING, Start(cfg, now), before);
    RunAgrees(NOTHING, Start(cfg, now), before);
    StepLive(s0, Dial(false, lag));
    var s := Apply(s0, Dial(false, lag));
    if Enabled(s0, Dial(false, lag)) && NoDial(between) {
      RunSpaced(s, between, s.wakeAt);
    }
  }

  /**
   The timer rounds the rest of the delay down to whole seconds once more, so it keeps the delay
   exactly when less than a second or a whole number of seconds is left of it when the timer is set;
   it never cuts off a second or more.
   */
  lemma WaitKeepsBackOffIff(failures: nat, lag: nat)
    requires failures <= MAX_FAILURES
    ensures var delay := GetBackOff(failures);
            && (WaitAfter(failures, lag) >= delay <==> delay - lag < SECOND || (delay - lag) % SECOND == 0)
            && WaitAfter(failures, lag) > delay - SECOND
  {
    BackOffBounds(failures);
    var rest := GetBackOff(failures) - lag;
    if rest >= 0 {
      FloorProperties(rest);
    }
  }

  // ---------------------------------------------------------------- Stop

  lemma StoppedTick(s: Sys, ok: bool)
    requires Live(s) && s.conn.ctxDone
    ensures var c := Apply(s, Tick(ok)).conn; c.ctxDone && c.sessions == s.conn.sessions
  {
  }

  lemma StoppedStep(s: Sys, step: Step)
    requires Live(s) && s.conn.ctxDone
    ensures var c := Apply(s, step).conn; c.ctxDone && c.sessions == s.conn.sessions
  {
    if step.Tick? {
      StoppedTick(s, step.ok);
    }
  }

  lemma {:induction false} StoppedRun(s: Sys, steps: seq<Step>)
    requires Live(s) && s.conn.ctxDone
    ensures Run(s, steps).conn.ctxDone && Run(s, steps).conn.sessions == s.conn.sessions
    decreases |steps|
  {
    if |steps| > 0 {
      StepLive(s, steps[0]);
      StoppedStep(s, steps[0]);
      StoppedRun(Apply(s, steps[0]), steps[1..]);
    }
  }

  /** The first Stop ends an establishment at once. After any Stop no further session is dialled,
      whatever happens, and every session is cancelled. */
  lemma StopIsFinal(cfg: Config, now: int, before: seq<Step>, steps: seq<Step>)
    ensures var s0 := Run(Start(cfg, now), before);
            var s := Apply(s0, StopCall);
            && Live(s)
            && (s0.conn.started ==> !s.conn.established)
            && !s.conn.started
            && Cancelled(Run(s, steps).conn)
            && Run(s, steps).conn.sessions == s.conn.sessions == s0.conn.sessions
  {
    var s0, k0 := Run(Start(cfg, now), before), Watch(NOTHING, Start(cfg, now), before);
    RunAgrees(NOTHING, Start(cfg, now), before);
    StepAgrees(k0, s0, StopCall);
    StoppedRun(Apply(s0, StopCall), steps);
  }

  /** And then the loop can always leave, by its own steps. */
  lemma StopLeadsOut(s: Sys) returns (steps: seq<Step>)
    requires Live(s) && s.conn.ctxDone
    ensures Run(s, steps).phase == Exited
    ensures forall step :: step in steps ==> step.Begin? || step.Leave? || step.Exit?
  {
    match s.phase
    case Exited => steps := [];
    case Top => steps := OneStepOut(s);
    case Waiting => steps := OneStepOut(s);
    case Ticking =>
      StepLive(s, Leave);
      var last := OneStepOut(Apply(s, Leave));
      steps := [Leave] + last;
    case Dialed =>
      StepLive(s, Begin(false));
      var last := OneStepOut(Apply(s, Begin(false)));
      steps := [Begin(false)] + last;
  }

  lemma OneStepOut(s: Sys) returns (steps: seq<Step>)
    requires Live(s) && s.conn.ctxDone && (s.phase == Top || s.phase == Waiting)
    ensures Run(s, steps).phase == Exited && steps == [Exit]
  {
    steps := [Exit];
    StepLive(s, Exit);
    assert steps[1..] == [];
    assert Run(Apply(s, Exit), []) == Apply(s, Exit);
  }
}
