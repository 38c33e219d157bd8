/**
 The driver's blocking reader, which takes frames off a net.Conn until something goes wrong, and
 its short-write loop. Both readers of the driver feed the same packet handler; this module says
 how far they agree.
 */
module Readers {
  import opened Bytes
  import opened Codec
  import opened Wrappers
  import opened Stream

  const MAX_FRAME_SIZE: nat := 16 * 1024 * 1024

  /** The packets the blocking reader has delivered when the stream, ending after `bytes`, stops
      it: at an oversized length, at the end of the bytes, or because the handler failed. */
  function ReadAll(env: Env, bytes: seq<byte>, delivered: seq<Packet>): (r: seq<Packet>)
    ensures delivered <= r
    decreases |bytes|
  {
    if |bytes| < 4 then delivered
    else
      var n := FrameLength(bytes);
      if n > MAX_FRAME_SIZE || |bytes| < 4 + n then delivered
      else
        match DecodeInnerPayload(env, bytes[4..4 + n])
        case None => ReadAll(env, bytes[4 + n..], delivered)
        case Some(packet) =>
          if env.accepts(delivered + [packet]) then ReadAll(env, bytes[4 + n..], delivered + [packet])
          else delivered + [packet]
  }

  // ---------------------------------------------------------------- the code

  /** A blocking transport. The peer has sent `incoming` and then closed its side; a write takes
      as much as the next entry of `plan` lets it, and everything once the plan is used up. */
  class NetConn {
    var incoming: seq<byte>
    var written: seq<byte>
    var plan: seq<WriteResult>
    var closed: bool

    /** io.ReadFull: all n bytes, or an error and nothing left to read. */
    method ReadFull(n: nat) returns (ok: bool, buf: seq<byte>)
      modifies this`incoming
      ensures ok <==> n <= |old(incoming)|
      ensures ok ==> buf == old(incoming)[..n] && incoming == old(incoming)[n..]
      ensures !ok ==> incoming == []
    {
      if n <= |incoming| {
        ok, buf := true, incoming[..n];
        incoming := incoming[n..];
      } else {
        ok, buf := false, incoming;
        incoming := [];
      }
    }

    method Write(b: seq<byte>) returns (n: nat, ok: bool)
      modifies this`written, this`plan
      ensures n <= |b| && written == old(written) + b[..n]
      ensures if old(plan) == [] then plan == [] && n == |b| && ok
              else plan == old(plan)[1..] && ok == old(plan)[0].ok
    {
      if plan == [] {
        n, ok := |b|, true;
      } else {
        n := if plan[0].n < |b| then plan[0].n else |b|;
        ok := plan[0].ok;
        plan := plan[1..];
      }
      written := written + b[..n];
    }
  }

  datatype WriteResult = WriteResult(n: nat, ok: bool)

  method ReadFrame(c: NetConn) returns (ok: bool, buf: seq<byte>)
    modifies c`incoming
    ensures var bytes := old(c.incoming);
            ok <==> |bytes| >= 4 && FrameLength(bytes) <= MAX_FRAME_SIZE && |bytes| >= 4 + FrameLength(bytes)
    ensures ok ==> var bytes := old(c.incoming); var n := FrameLength(bytes);
                   buf == bytes[4..4 + n] && c.incoming == bytes[4 + n..]
  {
    var hdr;
    ok, hdr := c.ReadFull(4);
    if !ok {
      return false, [];
    }
    var n := FromBE(hdr);
    if n > MAX_FRAME_SIZE {
      return false, [];
    }
    ok, buf := c.ReadFull(n);
  }

  /** Without a transport there is nothing to read. Only an error of the handler closes the
      connection. */
  method ReadLoop(netC: NetConn?, conn: PacketHandler)
    modifies netC, conn
    ensures netC == null ==> conn.delivered == old(conn.delivered)
    ensures netC != null ==>
              && conn.delivered == ReadAll(conn.env, old(netC.incoming), old(conn.delivered))
              && netC.written == old(netC.written)
              && (netC.closed <==> old(netC.closed)
                                   || (conn.delivered != old(conn.delivered) && !conn.env.accepts(conn.delivered)))
  {
    if netC == null {
      return;
    }
    var c: NetConn := netC;
    ghost var bytes, delivered := c.incoming, conn.delivered;
    while true
      invariant ReadAll(conn.env, c.incoming, conn.delivered) == ReadAll(conn.env, bytes, delivered)
      invariant c.closed == old(c.closed) && c.written == old(c.written)
      invariant conn.delivered == delivered || conn.env.accepts(conn.delivered)
      invariant delivered <= conn.delivered
      decreases |c.incoming|
    {
      var ok, raw := ReadFrame(c);
      if !ok {
        return;
      }
      var decoded := DecodeInnerPayload(conn.env, raw);
      if decoded.Some? {
        var accepted := conn.OnPacket(decoded.value);
        if !accepted {
          c.closed := true;
          return;
        }
      }
    }
  }

  /** Whatever the transport accepts at a time, a write without error has sent all of b in order;
      one with an error has sent a beginning of it. */
  method WriteFull(w: NetConn, b: seq<byte>) returns (ok: bool)
    modifies w`written, w`plan
    ensures old(w.written) <= w.written <= old(w.written) + b
    ensures ok ==> w.written == old(w.written) + b
    ensures (forall r :: r in old(w.plan) ==> r.ok) ==> ok
  {
    var rest := b;
    while |rest| > 0
      invariant w.written + rest == old(w.written) + b
      invariant old(w.written) <= w.written
      invariant forall r :: r in w.plan ==> r in old(w.plan)
      decreases |w.plan|, |rest|
    {
      ghost var before := w.written;
      var n, sent := w.Write(rest);
      assert w.written + rest[n..] == before + rest;
      if !sent {
        return false;
      }
      rest := rest[n..];
    }
    return true;
  }

  /** The net.Conn is used if there is one, else the gnet connection; taken says whether that
      accepts the frame. */
  method Send(netC: NetConn?, gnetC: GnetConn?, payload: seq<byte>, taken: bool) returns (ok: bool)
    modifies netC, gnetC
    ensures netC != null ==>
              && old(netC.written) <= netC.written <= old(netC.written) + FrameOf(payload)
              && (ok ==> netC.written == old(netC.written) + FrameOf(payload))
              && netC.incoming == old(netC.incoming) && netC.closed == old(netC.closed)
    ensures netC != null && gnetC != null ==> unchanged(gnetC)
    ensures netC == null && gnetC != null ==>
              && ok == taken && gnetC.inbound == old(gnetC.inbound)
              && gnetC.outbound == old(gnetC.outbound) + (if taken then FrameOf(payload) else [])
    ensures netC == null && gnetC == null ==> !ok
  {
    var frame := MakeFrame(payload);
    if netC != null {
      ok := WriteFull(netC, frame[..]);
    } else if gnetC != null {
      ok := gnetC.AsyncWrite(frame[..], taken);
    } else {
      ok := false;
    }
  }

  // ---------------------------------------------------------------- what the blocking reader delivers

  /** The packets of those payloads that decode, in their order. */
  function Decodings(env: Env, payloads: seq<seq<byte>>): seq<Packet> {
    if |payloads| == 0 then []
    else
      match DecodeInnerPayload(env, payloads[0])
      case None => Decodings(env, payloads[1..])
      case Some(packet) => [packet] + Decodings(env, payloads[1..])
  }

  /** Nothing can be read here: no whole frame, or an oversized one. */
  predicate Stuck(bytes: seq<byte>) {
    |bytes| < 4 || FrameLength(bytes) > MAX_FRAME_SIZE || |bytes| < 4 + FrameLength(bytes)
  }

  datatype Reading = Reading(payloads: seq<seq<byte>>, rest: seq<byte>, refused: bool)

  /**
   A declarative account of what the blocking reader delivers: the bytes are frames of any length
   within the limit, and then a rest. The packets delivered are those of the frames that decode, in
   order, whatever lies between them. The handler has accepted them all and the rest cannot be read,
   unless it has refused the last of them, which is the last frame.
   */
  ghost predicate Accounts(env: Env, bytes: seq<byte>, delivered: seq<Packet>, r: seq<Packet>, reading: Reading) {
    var Reading(payloads, rest, refused) := reading;
    var packets := Decodings(env, payloads);
    && bytes == Frames(payloads) + rest
    && (forall i :: 0 <= i < |payloads| ==> |payloads[i]| <= MAX_FRAME_SIZE)
    && r == delivered + packets
    && AllButLastAccepted(env, delivered, packets)
    && (if refused then
          payloads != [] && DecodeInnerPayload(env, payloads[|payloads| - 1]).Some? && !env.accepts(r)
        else Stuck(rest) && (packets == [] || env.accepts(r)))
  }

  lemma SkipOne(env: Env, bytes: seq<byte>, head: seq<byte>, later: seq<byte>, delivered: seq<Packet>,
                r: seq<Packet>, reading: Reading)
    requires bytes == FrameOf(head) + later && |head| <= MAX_FRAME_SIZE && DecodeInnerPayload(env, head).None?
    requires Accounts(env, later, delivered, r, reading)
    ensures Accounts(env, bytes, delivered, r, reading.(payloads := [head] + reading.payloads))
  {
    assert ([head] + reading.payloads)[1..] == reading.payloads;
  }

  lemma DeliverOne(env: Env, bytes: seq<byte>, head: seq<byte>, packet: Packet, later: seq<byte>,
                   delivered: seq<Packet>, r: seq<Packet>, reading: Reading)
    requires bytes == FrameOf(head) + later && |head| <= MAX_FRAME_SIZE
    requires DecodeInnerPayload(env, head) == Some(packet) && env.accepts(delivered + [packet])
    requires Accounts(env, later, delivered + [packet], r, reading)
    ensures Accounts(env, bytes, delivered, r, reading.(payloads := [head] + reading.payloads))
  {
    assert ([head] + reading.payloads)[1..] == reading.payloads;
    var packets := Decodings(env, reading.payloads);
    AcceptedOneMore(env, delivered, packet, packets);
    assert delivered + [packet] + packets == delivered + ([packet] + packets);
    if packets == [] {
      assert r == delivered + [packet];
    }
  }

  lemma RefuseOne(env: Env, bytes: seq<byte>, head: seq<byte>, packet: Packet, later: seq<byte>,
                  delivered: seq<Packet>)
    requires bytes == FrameOf(head) + later && |head| <= MAX_FRAME_SIZE
    requires DecodeInnerPayload(env, head) == Some(packet) && !env.accepts(delivered + [packet])
    ensures Accounts(env, bytes, delivered, delivered + [packet], Reading([head], later, true))
  {
    assert Frames([head]) == FrameOf(head);
    assert Decodings(env, [head]) == [packet];
  }

  /** Whatever the bytes, what the blocking reader delivers has such an account. */
  lemma {:induction false} ReadAllAccounted(env: Env, bytes: seq<byte>, delivered: seq<Packet>) returns (reading: Reading)
    ensures Accounts(env, bytes, delivered, ReadAll(env, bytes, delivered), reading)
    decreases |bytes|
  {
    if Stuck(bytes) {
      reading := Reading([], bytes, false);
    } else {
      var n := FrameLength(bytes);
      var head, later := bytes[4..4 + n], bytes[4 + n..];
      HeadBytes(bytes, n);
      assert bytes == FrameOf(head) + later;
      match DecodeInnerPayload(env, head)
      case None =>
        reading := ReadAllAccounted(env, later, delivered);
        SkipOne(env, bytes, head, later, delivered, ReadAll(env, later, delivered), reading);
        reading := reading.(payloads := [head] + reading.payloads);
      case Some(packet) =>
        if env.accepts(delivered + [packet]) {
          reading := ReadAllAccounted(env, later, delivered + [packet]);
          DeliverOne(env, bytes, head, packet, later, delivered, ReadAll(env, later, delivered + [packet]), reading);
          reading := reading.(payloads := [head] + reading.payloads);
        } else {
          RefuseOne(env, bytes, head, packet, later, delivered);
          reading := Reading([head], later, true);
        }
    }
  }

  lemma ReadFront(env: Env, payload: seq<byte>, rest: seq<byte>, delivered: seq<Packet>)
    requires |payload| <= MAX_FRAME_SIZE
    ensures ReadAll(env, FrameOf(payload) + rest, delivered)
            == match DecodeInnerPayload(env, payload)
               case None => ReadAll(env, rest, delivered)
               case Some(packet) =>
                 if env.accepts(delivered + [packet]) then ReadAll(env, rest, delivered + [packet])
                 else delivered + [packet]
  {
    var bytes := FrameOf(payload) + rest;
    FrameLengthExact(payload, rest);
    assert bytes[4..4 + |payload|] == payload && bytes[4 + |payload|..] == rest;
  }

  /** Two streams with the same first frame deliver the same if their rests do. */
  lemma SameFront(env: Env, head: seq<byte>, one: seq<byte>, other: seq<byte>, delivered: seq<Packet>)
    requires |head| <= MAX_FRAME_SIZE
    requires DecodeInnerPayload(env, head).None? ==> ReadAll(env, one, delivered) == ReadAll(env, other, delivered)
    requires DecodeInnerPayload(env, head).Some? ==>
               var delivered' := delivered + [DecodeInnerPayload(env, head).value];
               ReadAll(env, one, delivered') == ReadAll(env, other, delivered')
    ensures ReadAll(env, FrameOf(head) + one, delivered) == ReadAll(env, FrameOf(head) + other, delivered)
  {
    ReadFront(env, head, one, delivered);
    ReadFront(env, head, other, delivered);
  }

  /** A frame that does not decode changes nothing of what is delivered, wherever it is put between
      other frames. */
  lemma {:induction false} BadFrameIsSkipped(env: Env, payloads: seq<seq<byte>>, bad: seq<byte>, rest: seq<byte>,
                                             delivered: seq<Packet>)
    requires forall i :: 0 <= i < |payloads| ==> |payloads[i]| <= MAX_FRAME_SIZE
    requires |bad| <= MAX_FRAME_SIZE && DecodeInnerPayload(env, bad).None?
    ensures ReadAll(env, Frames(payloads) + (FrameOf(bad) + rest), delivered)
            == ReadAll(env, Frames(payloads) + rest, delivered)
    decreases |payloads|
  {
    if |payloads| == 0 {
      assert Frames(payloads) + (FrameOf(bad) + rest) == FrameOf(bad) + rest;
      assert Frames(payloads) + rest == rest;
      ReadFront(env, bad, rest, delivered);
    } else {
      var head, others := payloads[0], payloads[1..];
      var with, without := Frames(others) + (FrameOf(bad) + rest), Frames(others) + rest;
      assert Frames(payloads) + (FrameOf(bad) + rest) == FrameOf(head) + with;
      assert Frames(payloads) + rest == FrameOf(head) + without;
      match DecodeInnerPayload(env, head) {
        case None => BadFrameIsSkipped(env, others, bad, rest, delivered);
        case Some(packet) => BadFrameIsSkipped(env, others, bad, rest, delivered + [packet]);
      }
      SameFront(env, head, with, without, delivered);
    }
  }

  // ---------------------------------------------------------------- agreement

  /** Which reader may deliver more, decided at the first frame the two treat differently. */
  datatype Leader = Neither | BlockingReader | TrafficReader

  function MayLead(env: Env, bytes: seq<byte>, delivered: seq<Packet>): Leader
    decreases |bytes|
  {
    if |bytes| < 4 then Neither
    else
      var n := FrameLength(bytes);
      if |bytes| < 4 + n then Neither
      else if n > MAX_FRAME_SIZE then TrafficReader
      else if n < HEADER_SIZE then BlockingReader
      else
        match DecodeInnerPayload(env, bytes[4..4 + n])
        case None => BlockingReader
        case Some(packet) =>
          if env.accepts(delivered + [packet]) then MayLead(env, bytes[4 + n..], delivered + [packet])
          else Neither
  }

  /** Every complete frame has a length from 10 to MAX_FRAME_SIZE and a decodable body. */
  predicate AllOrdinary(env: Env, bytes: seq<byte>)
    decreases |bytes|
  {
    if |bytes| < 4 then true
    else
      var n := FrameLength(bytes);
      |bytes| < 4 + n
      || (HEADER_SIZE <= n <= MAX_FRAME_SIZE
          && DecodeInnerPayload(env, bytes[4..4 + n]).Some?
          && AllOrdinary(env, bytes[4 + n..]))
  }

  lemma {:induction false} DrainExtends(env: Env, s: Stream)
    ensures s.delivered <= Drain(env, s).delivered
    decreases |s.unread|
  {
    if s.open && ScanHead(env, s.unread).Whole? {
      var next := Stream(s.unread[ScanHead(env, s.unread).size..],
                         s.delivered + [ScanHead(env, s.unread).packet], true);
      if env.accepts(next.delivered) {
        DrainExtends(env, next);
      }
    }
  }

  ghost predicate Compared(env: Env, bytes: seq<byte>, delivered: seq<Packet>) {
    var blocking := ReadAll(env, bytes, delivered);
    var traffic := Drain(env, Stream(bytes, delivered, true)).delivered;
    match MayLead(env, bytes, delivered)
    case Neither => traffic == blocking
    case BlockingReader => traffic <= blocking
    case TrafficReader => blocking <= traffic
  }

  /** The frame at the front, when both readers deliver it and go on. */
  function CommonHead(env: Env, bytes: seq<byte>, delivered: seq<Packet>): Option<Packet> {
    if |bytes| < 4 then None
    else
      var n := FrameLength(bytes);
      if n < HEADER_SIZE || n > MAX_FRAME_SIZE || |bytes| < 4 + n then None
      else
        match DecodeInnerPayload(env, bytes[4..4 + n])
        case None => None
        case Some(packet) => if env.accepts(delivered + [packet]) then Some(packet) else None
  }

  lemma TrafficAdvances(env: Env, bytes: seq<byte>, delivered: seq<Packet>)
    requires CommonHead(env, bytes, delivered).Some?
    ensures var delivered' := delivered + [CommonHead(env, bytes, delivered).value];
            Drain(env, Stream(bytes, delivered, true))
            == Drain(env, Stream(bytes[4 + FrameLength(bytes)..], delivered', true))
  {
    assert ScanHead(env, bytes) == Whole(4 + FrameLength(bytes), CommonHead(env, bytes, delivered).value);
  }

  lemma BlockingAdvances(env: Env, bytes: seq<byte>, delivered: seq<Packet>)
    requires CommonHead(env, bytes, delivered).Some?
    ensures var delivered' := delivered + [CommonHead(env, bytes, delivered).value];
            var rest := bytes[4 + FrameLength(bytes)..];
            && ReadAll(env, bytes, delivered) == ReadAll(env, rest, delivered')
            && MayLead(env, bytes, delivered) == MayLead(env, rest, delivered')
  {
  }

  lemma FirstDifference(env: Env, bytes: seq<byte>, delivered: seq<Packet>)
    requires CommonHead(env, bytes, delivered).None?
    ensures Compared(env, bytes, delivered)
  {
    DrainExtends(env, Stream(bytes, delivered, true));
  }

  /** On any bytes whatsoever, one reader's deliveries are a prefix of the other's, and the first
      frame they treat differently says whose: the blocking reader skips what the incremental one
      stalls or closes on, and the incremental one has no size limit. */
  lemma {:induction false} ReadersCompared(env: Env, bytes: seq<byte>, delivered: seq<Packet>)
    ensures Compared(env, bytes, delivered)
    decreases |bytes|
  {
    var head := CommonHead(env, bytes, delivered);
    if head.None? {
      FirstDifference(env, bytes, delivered);
    } else {
      TrafficAdvances(env, bytes, delivered);
      BlockingAdvances(env, bytes, delivered);
      ReadersCompared(env, bytes[4 + FrameLength(bytes)..], delivered + [head.value]);
    }
  }

  lemma {:induction false} OrdinaryNeverDiffers(env: Env, bytes: seq<byte>, delivered: seq<Packet>)
    requires AllOrdinary(env, bytes)
    ensures MayLead(env, bytes, delivered) == Neither
    decreases |bytes|
  {
    if |bytes| >= 4 && |bytes| >= 4 + FrameLength(bytes) {
      var n := FrameLength(bytes);
      var packet := DecodeInnerPayload(env, bytes[4..4 + n]).value;
      OrdinaryNeverDiffers(env, bytes[4 + n..], delivered + [packet]);
    }
  }

  /** The same bytes through the blocking loop, and through OnTraffic in any chunks. */
  lemma TwoReadersAgree(env: Env, chunks: seq<seq<byte>>)
    ensures var blocking := ReadAll(env, Concat(chunks), []);
            var traffic := ArriveAll(env, FRESH, chunks).delivered;
            && (traffic <= blocking || blocking <= traffic)
            && (AllOrdinary(env, Concat(chunks)) ==> traffic == blocking)
  {
    ChunkingInvariance(env, chunks);
    ReadersCompared(env, Concat(chunks), []);
    if AllOrdinary(env, Concat(chunks)) {
      OrdinaryNeverDiffers(env, Concat(chunks), []);
    }
  }
}
