/**
 The outbound connection: a loop that dials with backoff, sends Establish on every new session,
 and ticks every second; packet handling on another thread; and the sending functions. Each of the
 code's functions is one atomic step. Time is in nanoseconds.

 `Conn` is the connection as a value, with its history; the class is the code.
 */
module Session {
  import opened Wrappers
  import opened Backoff

  const META_ESTABLISH_ACK: nat := 2
  const META_SHAKE_HAND: nat := 3
  const META_SHAKE_HAND_RESP: nat := 4
  const RESPONSE_OK := "OK"

  datatype Config = Config(establishTimeout: int, recvIdleTimeout: int, shakeEvery: int)

  /** Where the sequence id of a business frame comes from: drawn for this call, drawn by an earlier
      call with the same header, chosen by the caller, or part of a payload encoded elsewhere. */
  datatype Origin = Drawn | Again | Chosen | Raw

  /** `seqId` is the id the frame carries; for Raw it is not known. */
  datatype Event =
    | EstablishSent(session: nat, seqId: nat)
    | HeartbeatSent(session: nat, seqId: nat)
    | BusinessSent(session: nat, seqId: nat, origin: Origin)
    | AckAccepted(session: nat)
    | Handled(session: nat, uri: nat)

  datatype Conn = Conn(
    cfg: Config,
    started: bool,
    ctxDone: bool,          // the outer context is cancelled
    hasSub: bool,           // a session context has been made
    subDone: bool,          // the latest session context is cancelled
    established: bool,
    rawConn: Option<nat>,   // the live session
    seqId: nat,
    failure: nat,
    lastRecv: int,
    lastSent: int,
    nextDial: int,
    // history
    sessions: nat,          // sessions dialled so far
    draws: nat,             // sequence ids drawn so far
    establishedAt: int,     // when established was last set from false
    delays: seq<int>,       // backoff delays computed since the last accepted ack
    log: seq<Event>)

  /** A packet header as its caller holds it: EncodeAndSend writes the id it draws into it. Whether
      it has done so, and whether a frame with that id has gone out, is history. */
  datatype Header = Header(seqId: nat, stamped: bool, sent: bool)

  const SEQ_SPACE: nat := 0x1_0000_0000_0000_0000

  function SeqOf(draw: nat): nat {
    draw % SEQ_SPACE
  }

  function NewConn(cfg: Config): Conn {
    Conn(cfg, true, false, false, false, false, None, 0, 0, 0, 0, 0, 0, 0, 0, [], [])
  }

  // ---------------------------------------------------------------- the functions on values

  function AfterDraw(c: Conn): Conn {
    c.(seqId := (c.seqId + 1) % SEQ_SPACE, draws := c.draws + 1)
  }

  function AfterNotify(c: Conn): Conn {
    if c.hasSub then c.(subDone := true) else c
  }

  function AfterDial(c: Conn, now: int, ok: bool): Conn {
    if ok then
      c.(rawConn := Some(c.sessions + 1), sessions := c.sessions + 1,
         lastRecv := now, lastSent := now, nextDial := now + HOUR)
    else
      var delay := GetBackOff(c.failure + 1);
      c.(failure := c.failure + 1, nextDial := now + delay, delays := c.delays + [delay])
  }

  /** A new session context, and the Establish frame; ok says whether it could be sent. */
  function AfterEstablish(c: Conn, now: int, ok: bool): Conn
    requires c.rawConn.Some?
  {
    var c' := AfterDraw(c.(hasSub := true, subDone := false, established := false));
    if ok then c'.(lastSent := now, log := c.log + [EstablishSent(c.rawConn.value, c'.seqId)])
    else c'.(rawConn := None)
  }

  function AfterTick(c: Conn, now: int): Conn {
    if !c.established then
      if now - c.lastSent > c.cfg.establishTimeout then AfterNotify(c) else c
    else if now - c.lastRecv > c.cfg.recvIdleTimeout then AfterNotify(c)
    else c
  }

  function AfterShake(c: Conn, now: int, ok: bool): Conn
    requires c.established ==> c.rawConn.Some?
  {
    if !c.established || now - c.lastSent < c.cfg.shakeEvery then c
    else
      var c' := AfterDraw(c);
      if ok then c'.(lastSent := now, log := c.log + [HeartbeatSent(c.rawConn.value, c'.seqId)])
      else AfterNotify(c')
  }

  predicate Rejects(err: string) {
    err != "" && err != RESPONSE_OK
  }

  function AfterAck(c: Conn, now: int): Conn
    requires c.rawConn.Some?
  {
    var session := c.rawConn.value;
    c.(established := true, failure := 0, delays := [],
       establishedAt := if c.established then c.establishedAt else now,
       log := c.log + [AckAccepted(session), Handled(session, META_ESTABLISH_ACK)])
  }

  function AfterPacket(c: Conn, now: int, uri: nat, err: string): Conn
    requires c.rawConn.Some?
  {
    var c' := c.(lastRecv := now, nextDial := now + HOUR);
    var session := c.rawConn.value;
    if uri == META_ESTABLISH_ACK then
      if Rejects(err) then AfterNotify(c')
      else
        AfterAck(c', now)
    else if !c.established || uri == META_SHAKE_HAND || uri == META_SHAKE_HAND_RESP then c'
    else c'.(log := c.log + [Handled(session, uri)])
  }

  predicate CanSend(c: Conn) {
    c.rawConn.Some? && c.established
  }

  predicate HandlerCalled(c: Conn, uri: nat, err: string) {
    if uri == META_ESTABLISH_ACK then !Rejects(err)
    else c.established && uri != META_SHAKE_HAND && uri != META_SHAKE_HAND_RESP
  }

  /** Whether OnPacket returns nil: it fails for a refused session and when the handler fails, and
      then the event loop closes the connection. */
  predicate PacketOk(c: Conn, uri: nat, err: string, handled: bool) {
    if HandlerCalled(c, uri, err) then handled else uri != META_ESTABLISH_ACK
  }

  /** Send leaves the time of the last send alone. */
  function AfterSend(c: Conn, ok: bool): Conn {
    if CanSend(c) && ok then c.(log := c.log + [BusinessSent(c.rawConn.value, 0, Raw)]) else c
  }

  /** A header with id zero is given one, even if nothing can be sent. */
  function Stamped(c: Conn, h: Header): Header {
    if h.seqId == 0 then Header(AfterDraw(c).seqId, true, false) else h
  }

  function OriginOf(h: Header): Origin {
    if h.seqId == 0 then Drawn else if h.stamped then Again else Chosen
  }

  function AfterEncodeAndSend(c: Conn, now: int, h: Header, ok: bool): Conn {
    var c' := if h.seqId == 0 then AfterDraw(c) else c;
    if CanSend(c) && ok then
      c'.(lastSent := now,
          log := c.log + [BusinessSent(c.rawConn.value, Stamped(c, h).seqId, OriginOf(h))])
    else c'
  }

  function HeaderAfter(c: Conn, h: Header, ok: bool): Header {
    if CanSend(c) && ok then Stamped(c, h).(sent := true) else Stamped(c, h)
  }

  function AfterClose(c: Conn): Conn {
    c.(established := false, rawConn := None)
  }

  function AfterStop(c: Conn): Conn {
    if c.started then AfterNotify(c.(started := false, ctxDone := true)).(established := false)
    else c
  }

  /** The session context is done when it or its parent has been cancelled. */
  predicate Cancelled(c: Conn) {
    c.ctxDone || (c.hasSub && c.subDone)
  }

  // ---------------------------------------------------------------- the code

  class PacketHeader {
    var seqId: nat
    ghost var stamped: bool
    ghost var sent: bool

    ghost function Abs(): Header
      reads this
    {
      Header(seqId, stamped, sent)
    }

    constructor (seqId: nat)
      ensures Abs() == Header(seqId, false, false)
    {
      this.seqId, stamped, sent := seqId, false, false;
    }

    method Stamp(id: nat)
      modifies this
      ensures Abs() == Header(id, true, false)
    {
      seqId, stamped, sent := id, true, false;
    }
  }

  class ClientConn {
    const cfg: Config
    var started: bool
    var ctxDone: bool
    var hasSub: bool
    var subDone: bool
    var established: bool
    var rawConn: Option<nat>
    var sessions: nat
    var seqId: nat
    var failure: nat
    var lastRecv: int
    var lastSent: int
    var nextDial: int
    ghost var draws: nat
    ghost var establishedAt: int
    ghost var delays: seq<int>
    ghost var log: seq<Event>

    ghost function Abs(): Conn
      reads this
    {
      Conn(cfg, started, ctxDone, hasSub, subDone, established, rawConn, seqId, failure,
           lastRecv, lastSent, nextDial, sessions, draws, establishedAt, delays, log)
    }

    /** A connection that has just been started. */
    constructor (cfg: Config)
      ensures Abs() == NewConn(cfg)
    {
      this.cfg := cfg;
      started, ctxDone, hasSub, subDone, established, rawConn := true, false, false, false, false, None;
      sessions, seqId, failure, lastRecv, lastSent, nextDial := 0, 0, 0, 0, 0, 0;
      draws, establishedAt, delays, log := 0, 0, [], [];
    }

    method NextSeq() returns (seqNo: nat)
      modifies this`seqId, this`draws
      ensures Abs() == AfterDraw(old(Abs())) && seqNo == seqId
    {
      seqId := (seqId + 1) % SEQ_SPACE;
      draws := draws + 1;
      seqNo := seqId;
    }

    method NotifyReconnect()
      modifies this`subDone
      ensures Abs() == AfterNotify(old(Abs()))
    {
      if hasSub {
        subDone := true;
      }
    }

    method DialOnce(now: int, dialled: bool) returns (ok: bool)
      modifies this
      ensures Abs() == AfterDial(old(Abs()), now, dialled) && ok == dialled
    {
      if !dialled {
        failure := failure + 1;
        nextDial := now + GetBackOff(failure);
        delays := delays + [GetBackOff(failure)];
        return false;
      }
      sessions := sessions + 1;
      rawConn := Some(sessions);
      lastRecv := now;
      lastSent := now;
      nextDial := now + HOUR;
      return true;
    }

    /** What the loop does with a dialled connection; written says whether the write succeeds. */
    method SendEstablish(now: int, written: bool) returns (ok: bool)
      requires rawConn.Some?
      modifies this`hasSub, this`subDone, this`established, this`seqId, this`draws
      modifies this`rawConn, this`lastSent, this`log
      ensures Abs() == AfterEstablish(old(Abs()), now, written) && ok == written
    {
      hasSub, subDone := true, false;
      established := false;
      assert Abs() == old(Abs()).(hasSub := true, subDone := false, established := false);
      var seqNo := NextSeq();
      if !written {
        rawConn := None;
        return false;
      }
      log := log + [EstablishSent(rawConn.value, seqNo)];
      lastSent := now;
      return true;
    }

    method OnTick(now: int)
      modifies this`subDone
      ensures Abs() == AfterTick(old(Abs()), now)
    {
      if !established {
        if now - lastSent > cfg.establishTimeout {
          NotifyReconnect();
        }
        return;
      }
      if now - lastRecv > cfg.recvIdleTimeout {
        NotifyReconnect();
      }
    }

    method MaybeShake(now: int, written: bool)
      requires established ==> rawConn.Some?
      modifies this
      ensures Abs() == AfterShake(old(Abs()), now, written)
    {
      if !established {
        return;
      }
      if now - lastSent < cfg.shakeEvery {
        return;
      }
      var seqNo := NextSeq();
      if !written {
        NotifyReconnect();
        return;
      }
      log := log + [HeartbeatSent(rawConn.value, seqNo)];
      lastSent := now;
    }

    /** The session is established, and the handler is given the acknowledgement. */
    method AcceptAck(now: int, handled: bool) returns (ok: bool)
      requires rawConn.Some?
      modifies this`established, this`failure, this`establishedAt, this`delays, this`log
      ensures Abs() == AfterAck(old(Abs()), now) && ok == handled
    {
      establishedAt := if established then establishedAt else now;
      established := true;
      failure, delays := 0, [];
      log := log + [AckAccepted(rawConn.value), Handled(rawConn.value, META_ESTABLISH_ACK)];
      return handled;
    }

    /** err is the error text of an EstablishResponse; handled says whether the handler, if it is
        called, returns nil. */
    method OnPacket(now: int, uri: nat, err: string, handled: bool) returns (ok: bool)
      requires rawConn.Some?
      modifies this`lastRecv, this`nextDial, this`subDone, this`established, this`failure
      modifies this`establishedAt, this`delays, this`log
      ensures Abs() == AfterPacket(old(Abs()), now, uri, err)
      ensures ok == PacketOk(old(Abs()), uri, err, handled)
    {
      lastRecv := now;
      nextDial := now + HOUR;
      if !established && uri != META_ESTABLISH_ACK {
        return true;
      }
      if uri == META_ESTABLISH_ACK {
        if err != "" && err != RESPONSE_OK {
          NotifyReconnect();
          return false;
        }
        ok := AcceptAck(now, handled);
        return ok;
      } else if uri != META_SHAKE_HAND && uri != META_SHAKE_HAND_RESP {
        log := log + [Handled(rawConn.value, uri)];
        return handled;
      }
      return true;
    }

    method Send(written: bool) returns (ok: bool)
      modifies this
      ensures Abs() == AfterSend(old(Abs()), written) && ok == (CanSend(old(Abs())) && written)
    {
      if rawConn.None? || !established || !written {
        return false;
      }
      log := log + [BusinessSent(rawConn.value, 0, Raw)];
      return true;
    }

    method EncodeAndSend(now: int, h: PacketHeader, written: bool) returns (ok: bool)
      modifies this`seqId, this`draws, this`lastSent, this`log, h
      ensures Abs() == AfterEncodeAndSend(old(Abs()), now, old(h.Abs()), written)
      ensures h.Abs() == HeaderAfter(old(Abs()), old(h.Abs()), written)
      ensures ok == (CanSend(old(Abs())) && written)
    {
      ghost var origin := OriginOf(h.Abs());
      if h.seqId == 0 {
        var seqNo := NextSeq();
        h.Stamp(seqNo);
      }
      if rawConn.None? || !established || !written {
        return false;
      }
      log := log + [BusinessSent(rawConn.value, h.seqId, origin)];
      h.sent := true;
      lastSent := now;
      return true;
    }

    method WaitClose()
      modifies this`established, this`rawConn
      ensures Abs() == AfterClose(old(Abs()))
    {
      established := false;
      if rawConn.None? {
        return;
      }
      rawConn := None;
    }

    method Stop()
      modifies this
      ensures Abs() == AfterStop(old(Abs()))
    {
      if started {
        started := false;
        ctxDone := true;
        NotifyReconnect();
        established := false;
      }
    }
  }
}
