/**
 The incremental reader: OnTraffic empties the inbound buffer frame by frame on every arrival.
 What it delivers must not depend on how the bytes were cut into arrivals.
 */
module Stream {
  import opened Bytes
  import opened Codec
  import opened Wrappers

  /**
   One connection as seen by the reader. `unread` is the inbound buffer; after the connection
   has been closed nothing is decoded any more and later bytes only pile up there.
   */
  datatype Stream = Stream(unread: seq<byte>, delivered: seq<Packet>, open: bool)

  const FRESH := Stream([], [], true)

  /** Runs the decode loop until it leaves by one of its three exits. */
  function Drain(env: Env, s: Stream): (r: Stream)
    ensures |r.unread| <= |s.unread|
    decreases |s.unread|
  {
    if !s.open then s
    else
      match ScanHead(env, s.unread)
      case Short => s
      case Bad(n) => Stream(s.unread[n..], s.delivered, false)
      case Whole(n, packet) =>
        var next := Stream(s.unread[n..], s.delivered + [packet], true);
        if env.accepts(next.delivered) then Drain(env, next) else next.(open := false)
  }

  function Arrive(env: Env, s: Stream, chunk: seq<byte>): Stream {
    Drain(env, s.(unread := s.unread + chunk))
  }

  function ArriveAll(env: Env, s: Stream, chunks: seq<seq<byte>>): Stream
    decreases |chunks|
  {
    if |chunks| == 0 then s
    else ArriveAll(env, Arrive(env, s, chunks[0]), chunks[1..])
  }

  function Concat(chunks: seq<seq<byte>>): seq<byte> {
    if |chunks| == 0 then [] else chunks[0] + Concat(chunks[1..])
  }

  // ---------------------------------------------------------------- the code

  datatype Action = NoAction | Close

  /** The owner of a connection; the packet history is all its answers depend on. */
  class PacketHandler {
    const env: Env
    var delivered: seq<Packet>

    constructor (env: Env)
      ensures this.env == env && delivered == []
    {
      this.env := env;
      delivered := [];
    }

    method OnPacket(packet: Packet) returns (ok: bool)
      modifies this
      ensures delivered == old(delivered) + [packet]
      ensures ok == env.accepts(delivered)
    {
      delivered := delivered + [packet];
      ok := env.accepts(delivered);
    }
  }

  /** A connection whose context is missing, or no packet handler, is closed unread. */
  method OnTraffic(c: GnetConn, ctx: PacketHandler?) returns (action: Action)
    modifies c`inbound, ctx
    ensures ctx == null ==> action == Close && c.inbound == old(c.inbound)
    ensures ctx != null ==>
              Stream(c.inbound, ctx.delivered, action == NoAction)
              == Drain(ctx.env, Stream(old(c.inbound), old(ctx.delivered), true))
  {
    if ctx == null {
      return Close;
    }
    var conn: PacketHandler := ctx;
    ghost var start := Stream(c.inbound, conn.delivered, true);
    while |c.inbound| > 0
      invariant Drain(conn.env, Stream(c.inbound, conn.delivered, true)) == Drain(conn.env, start)
      decreases |c.inbound|
    {
      var r := ZeroCopyDecode(conn.env, c);
      if r == ShortBuffer {
        return NoAction;
      }
      if r == Failed {
        return Close;
      }
      var ok := conn.OnPacket(r.packet);
      if !ok {
        return Close;
      }
    }
    return NoAction;
  }

  // ---------------------------------------------------------------- chunking invariance

  /** Draining early, then draining what arrives later, is draining everything at once. */
  lemma {:induction false} DrainThenMore(env: Env, s: Stream, more: seq<byte>)
    ensures Arrive(env, Drain(env, s), more) == Arrive(env, s, more)
    decreases |s.unread|
  {
    if s.open && !ScanHead(env, s.unread).Short? {
      ScanStable(env, s.unread, more);
      var n := ScanHead(env, s.unread).size;
      assert (s.unread + more)[n..] == s.unread[n..] + more;
      if ScanHead(env, s.unread).Whole? {
        var next := Stream(s.unread[n..], s.delivered + [ScanHead(env, s.unread).packet], true);
        if env.accepts(next.delivered) {
          DrainThenMore(env, next, more);
        }
      }
    }
  }

  lemma {:induction false} ArriveAllFrom(env: Env, s: Stream, chunks: seq<seq<byte>>)
    ensures ArriveAll(env, Drain(env, s), chunks) == Arrive(env, s, Concat(chunks))
    decreases |chunks|
  {
    if |chunks| == 0 {
      assert s.unread + [] == s.unread;
    } else {
      var head, tail := chunks[0], chunks[1..];
      var grown := s.(unread := s.unread + head);
      calc {
        ArriveAll(env, Drain(env, s), chunks);
        ArriveAll(env, Arrive(env, Drain(env, s), head), tail);
        { DrainThenMore(env, s, head); }
        ArriveAll(env, Drain(env, grown), tail);
        { ArriveAllFrom(env, grown, tail); }
        Arrive(env, grown, Concat(tail));
        { assert grown.unread + Concat(tail) == s.unread + Concat(chunks); }
        Arrive(env, s, Concat(chunks));
      }
    }
  }

  /**
   For every byte string, well formed or not, and every way of cutting it into arrivals, the
   packets delivered, the bytes left over and the state of the connection are those of one run
   over the whole string.
   */
  lemma ChunkingInvariance(env: Env, chunks: seq<seq<byte>>)
    ensures ArriveAll(env, FRESH, chunks) == Drain(env, Stream(Concat(chunks), [], true))
  {
    assert Drain(env, FRESH) == FRESH;
    ArriveAllFrom(env, FRESH, chunks);
    assert [] + Concat(chunks) == Concat(chunks);
  }

  // ---------------------------------------------------------------- what is delivered

  /** The frames of a list of payloads, one after another. */
  function Frames(payloads: seq<seq<byte>>): seq<byte> {
    if |payloads| == 0 then [] else FrameOf(payloads[0]) + Frames(payloads[1..])
  }

  /** Each packet is the decoding of the payload at the same place. */
  ghost predicate Decodes(env: Env, payloads: seq<seq<byte>>, packets: seq<Packet>) {
    |payloads| == |packets|
    && forall i :: 0 <= i < |payloads| ==>
         HEADER_SIZE <= |payloads[i]| < 0x1_0000_0000
         && DecodeInnerPayload(env, payloads[i]) == Some(packets[i])
  }

  /**
   A declarative account of a run from s to r: the bytes are exactly the frames of the packets
   delivered in it, then at most one culprit frame that does not decode, then the unread rest.
   Every packet was accepted, except the last one when that is what closed the connection, and
   there is no whole frame left at the front of a connection that is still open.
   */
  ghost predicate Explains(env: Env, s: Stream, r: Stream, account: Account) {
    var Account(payloads, packets, culprit) := account;
    && r.delivered == s.delivered + packets
    && Decodes(env, payloads, packets)
    && s.unread == BytesOf(account, r.unread)
    && AllButLastAccepted(env, s.delivered, packets)
    && (r.open || culprit != [] ==> packets == [] || env.accepts(r.delivered))
    && (if culprit == [] then
          (if r.open then ScanHead(env, r.unread).Short?
           else packets != [] && !env.accepts(r.delivered))
        else
          && !r.open && |culprit| == 1 && HEADER_SIZE <= |culprit[0]| < 0x1_0000_0000
          && DecodeInnerPayload(env, culprit[0]).None?)
  }

  function BytesOf(account: Account, rest: seq<byte>): seq<byte> {
    Frames(account.payloads) + (Frames(account.culprit) + rest)
  }

  ghost predicate AllButLastAccepted(env: Env, delivered: seq<Packet>, packets: seq<Packet>) {
    forall k :: 0 < k < |packets| ==> env.accepts(delivered + packets[..k])
  }

  datatype Account = Account(payloads: seq<seq<byte>>, packets: seq<Packet>, culprit: seq<seq<byte>>)

  lemma HeadIsFrame(env: Env, buf: seq<byte>) returns (payload: seq<byte>)
    requires !ScanHead(env, buf).Short?
    ensures HEADER_SIZE <= |payload| < 0x1_0000_0000
    ensures |FrameOf(payload)| == ScanHead(env, buf).size
    ensures buf == FrameOf(payload) + buf[ScanHead(env, buf).size..]
    ensures DecodeInnerPayload(env, payload) ==
            if ScanHead(env, buf).Bad? then None else Some(ScanHead(env, buf).packet)
  {
    var n := FrameLength(buf);
    payload := buf[4..4 + n];
    HeadBytes(buf, n);
  }

  function OneMore(head: seq<byte>, packet: Packet, account: Account): Account {
    Account([head] + account.payloads, [packet] + account.packets, account.culprit)
  }

  lemma BytesOneMore(head: seq<byte>, packet: Packet, account: Account, rest: seq<byte>)
    ensures BytesOf(OneMore(head, packet, account), rest) == FrameOf(head) + BytesOf(account, rest)
  {
    assert ([head] + account.payloads)[1..] == account.payloads;
  }

  lemma ExplainsStopped(env: Env, s: Stream)
    requires s.open && ScanHead(env, s.unread).Short?
    ensures Explains(env, s, s, Account([], [], []))
  {
  }

  lemma ExplainsClosing(env: Env, s: Stream, head: seq<byte>, rest: seq<byte>)
    requires HEADER_SIZE <= |head| < 0x1_0000_0000
    requires s.unread == FrameOf(head) + rest && DecodeInnerPayload(env, head).None?
    ensures Explains(env, s, Stream(rest, s.delivered, false), Account([], [], [head]))
  {
    assert Frames([head]) == FrameOf(head);
  }

  lemma ExplainsRejected(env: Env, s: Stream, head: seq<byte>, packet: Packet, rest: seq<byte>)
    requires HEADER_SIZE <= |head| < 0x1_0000_0000
    requires DecodeInnerPayload(env, head) == Some(packet)
    requires s.unread == FrameOf(head) + rest && !env.accepts(s.delivered + [packet])
    ensures Explains(env, s, Stream(rest, s.delivered + [packet], false), Account([head], [packet], []))
  {
    assert Frames([head]) == FrameOf(head);
  }

  lemma AcceptedOneMore(env: Env, delivered: seq<Packet>, packet: Packet, packets: seq<Packet>)
    requires env.accepts(delivered + [packet])
    requires AllButLastAccepted(env, delivered + [packet], packets)
    ensures AllButLastAccepted(env, delivered, [packet] + packets)
  {
    forall k | 0 < k < 1 + |packets|
      ensures env.accepts(delivered + ([packet] + packets)[..k])
    {
      if k == 1 {
        assert ([packet] + packets)[..1] == [packet];
      } else {
        assert delivered + ([packet] + packets)[..k] == delivered + [packet] + packets[..k - 1];
      }
    }
  }

  lemma ExplainsOneMore(env: Env, s: Stream, head: seq<byte>, packet: Packet, next: Stream,
                        r: Stream, account: Account)
    requires HEADER_SIZE <= |head| < 0x1_0000_0000
    requires DecodeInnerPayload(env, head) == Some(packet)
    requires s.unread == FrameOf(head) + next.unread
    requires next.delivered == s.delivered + [packet] && env.accepts(next.delivered)
    requires Explains(env, next, r, account)
    ensures Explains(env, s, r, OneMore(head, packet, account))
  {
    var packets := [packet] + account.packets;
    assert r.delivered == s.delivered + packets;
    BytesOneMore(head, packet, account, r.unread);
    AcceptedOneMore(env, s.delivered, packet, account.packets);
    if account.packets == [] {
      assert r.delivered == next.delivered;
    }
  }

  /** Every run of the loop has such an account. */
  lemma {:induction false} DrainExplained(env: Env, s: Stream) returns (account: Account)
    requires s.open
    ensures Explains(env, s, Drain(env, s), account)
    decreases |s.unread|
  {
    var scan := ScanHead(env, s.unread);
    if scan.Short? {
      ExplainsStopped(env, s);
      account := Account([], [], []);
    } else {
      var head := HeadIsFrame(env, s.unread);
      var rest := s.unread[scan.size..];
      if scan.Bad? {
        ExplainsClosing(env, s, head, rest);
        account := Account([], [], [head]);
      } else {
        var next := Stream(rest, s.delivered + [scan.packet], true);
        if env.accepts(next.delivered) {
          var later := DrainExplained(env, next);
          ExplainsOneMore(env, s, head, scan.packet, next, Drain(env, next), later);
          account := OneMore(head, scan.packet, later);
        } else {
          ExplainsRejected(env, s, head, scan.packet, rest);
          account := Account([head], [scan.packet], []);
        }
      }
    }
  }

  lemma StalledArrival(env: Env, s: Stream, chunk: seq<byte>)
    requires s.open && |s.unread| >= 4 && FrameLength(s.unread) < HEADER_SIZE
    ensures var grown := s.(unread := s.unread + chunk);
            Arrive(env, s, chunk) == grown && FrameLength(grown.unread) == FrameLength(s.unread)
  {
    assert (s.unread + chunk)[..4] == s.unread[..4];
  }

  /** A declared length below the header size stops the stream for good: it stays open, and
      whatever arrives later is never decoded. */
  lemma {:induction false} ShortLengthStalls(env: Env, s: Stream, chunks: seq<seq<byte>>)
    requires s.open && |s.unread| >= 4 && FrameLength(s.unread) < HEADER_SIZE
    ensures ArriveAll(env, s, chunks) == s.(unread := s.unread + Concat(chunks))
    decreases |chunks|
  {
    if |chunks| == 0 {
      assert s.unread + [] == s.unread;
    } else {
      var grown := s.(unread := s.unread + chunks[0]);
      StalledArrival(env, s, chunks[0]);
      ShortLengthStalls(env, grown, chunks[1..]);
      assert grown.unread + Concat(chunks[1..]) == s.unread + Concat(chunks);
    }
  }

  // ---------------------------------------------------------------- round trip

  datatype Outgoing = Outgoing(header: Header, body: seq<byte>)

  ghost predicate Sendable(env: Env, out: Outgoing) {
    HEADER_SIZE + |out.body| < 0x1_0000_0000
    && UnmarshalByURI(env, out.header.uri, out.body).Some?
  }

  ghost function PacketOf(env: Env, out: Outgoing): Packet
    requires Sendable(env, out)
  {
    Packet(out.header, UnmarshalByURI(env, out.header.uri, out.body).value)
  }

  function Wire(outs: seq<Outgoing>): seq<byte> {
    if |outs| == 0 then [] else FrameOf(Inner(outs[0].header, outs[0].body)) + Wire(outs[1..])
  }

  ghost function PacketsOf(env: Env, outs: seq<Outgoing>): (packets: seq<Packet>)
    requires forall i :: 0 <= i < |outs| ==> Sendable(env, outs[i])
    ensures |packets| == |outs|
  {
    if |outs| == 0 then [] else [PacketOf(env, outs[0])] + PacketsOf(env, outs[1..])
  }

  /** The first message of a wire image is delivered, and the loop goes on with the rest. */
  lemma DrainFirst(env: Env, out: Outgoing, rest: seq<byte>, delivered: seq<Packet>)
    requires Sendable(env, out) && env.accepts(delivered + [PacketOf(env, out)])
    ensures Drain(env, Stream(FrameOf(Inner(out.header, out.body)) + rest, delivered, true))
            == Drain(env, Stream(rest, delivered + [PacketOf(env, out)], true))
  {
    var frame := FrameOf(Inner(out.header, out.body));
    InnerRoundTrip(env, out.header, out.body);
    ScanFrame(env, Inner(out.header, out.body), rest);
    assert (frame + rest)[|frame|..] == rest;
  }

  /** The handler returns nil for each of the packets, coming after those delivered before. */
  ghost predicate Accepted(env: Env, delivered: seq<Packet>, packets: seq<Packet>) {
    forall k :: |delivered| < k <= |delivered| + |packets| ==> env.accepts((delivered + packets)[..k])
  }

  lemma {:induction false} DrainWire(env: Env, outs: seq<Outgoing>, delivered: seq<Packet>)
    requires forall i :: 0 <= i < |outs| ==> Sendable(env, outs[i])
    requires Accepted(env, delivered, PacketsOf(env, outs))
    ensures Drain(env, Stream(Wire(outs), delivered, true))
            == Stream([], delivered + PacketsOf(env, outs), true)
    decreases |outs|
  {
    var packets := PacketsOf(env, outs);
    if |outs| == 0 {
      assert delivered + packets == delivered;
    } else {
      var rest := outs[1..];
      var delivered' := delivered + [packets[0]];
      var final := delivered' + PacketsOf(env, rest);
      assert final == delivered + packets;
      assert env.accepts(delivered') by {
        assert final[..|delivered'|] == delivered';
      }
      calc {
        Drain(env, Stream(Wire(outs), delivered, true));
        { DrainFirst(env, outs[0], Wire(rest), delivered); }
        Drain(env, Stream(Wire(rest), delivered', true));
        { DrainWire(env, rest, delivered'); }
        Stream([], final, true);
      }
    }
  }

  /**
   Whatever list of messages is encoded and framed, and however the bytes are cut into arrivals,
   the peer is handed exactly that list and keeps nothing back.
   */
  lemma StreamRoundTrip(env: Env, outs: seq<Outgoing>, chunks: seq<seq<byte>>)
    requires forall i :: 0 <= i < |outs| ==> Sendable(env, outs[i])
    requires Accepted(env, [], PacketsOf(env, outs))
    requires Concat(chunks) == Wire(outs)
    ensures ArriveAll(env, FRESH, chunks) == Stream([], PacketsOf(env, outs), true)
  {
    ChunkingInvariance(env, chunks);
    DrainWire(env, outs, []);
    assert [] + PacketsOf(env, outs) == PacketsOf(env, outs);
  }

  // ---------------------------------------------------------------- messages by what they are

  /** What one of the senders sends. */
  datatype Sending = Sending(site: Site, seqId: uint64, body: seq<byte>)

  function OutgoingOf(m: Sending): Outgoing {
    Outgoing(Header(SentUri(m.site), m.seqId), m.body)
  }

  function OutgoingsOf(ms: seq<Sending>): (outs: seq<Outgoing>)
    ensures |outs| == |ms| && forall i :: 0 <= i < |ms| ==> outs[i] == OutgoingOf(ms[i])
  {
    seq(|ms|, i requires 0 <= i < |ms| => OutgoingOf(ms[i]))
  }

  /** What is handed to the peer's handler for it. */
  function ArrivalOf(m: Sending): Packet {
    Packet(Header(SentUri(m.site), m.seqId), Message(SentKind(m.site), m.body))
  }

  function ArrivalsOf(ms: seq<Sending>): (packets: seq<Packet>)
    ensures |packets| == |ms| && forall i :: 0 <= i < |ms| ==> packets[i] == ArrivalOf(ms[i])
  {
    seq(|ms|, i requires 0 <= i < |ms| => ArrivalOf(ms[i]))
  }

  /** Of the right length, and decodable as what it is. */
  ghost predicate WellFormed(env: Env, m: Sending) {
    HEADER_SIZE + |m.body| < 0x1_0000_0000 && env.unmarshals(SentKind(m.site), m.body)
  }

  lemma WellFormedIsSendable(env: Env, m: Sending)
    requires WellFormed(env, m)
    ensures Sendable(env, OutgoingOf(m)) && PacketOf(env, OutgoingOf(m)) == ArrivalOf(m)
  {
    UrisMeanTheirMessages(SentUri(m.site), SentKind(m.site), m.site);
  }

  lemma {:induction false} PacketsOfAt(env: Env, outs: seq<Outgoing>, i: nat)
    requires forall j :: 0 <= j < |outs| ==> Sendable(env, outs[j])
    requires i < |outs|
    ensures PacketsOf(env, outs)[i] == PacketOf(env, outs[i])
    decreases |outs|
  {
    if i > 0 {
      PacketsOfAt(env, outs[1..], i - 1);
    }
  }

  /**
   Messages arrive as what they were sent as: whatever the senders send, in any order and cut in any
   way, the peer's handler is given exactly these messages, each of the kind that was sent.
   */
  lemma KindsSentArrive(env: Env, ms: seq<Sending>, chunks: seq<seq<byte>>)
    requires forall i :: 0 <= i < |ms| ==> WellFormed(env, ms[i])
    requires Accepted(env, [], ArrivalsOf(ms))
    requires Concat(chunks) == Wire(OutgoingsOf(ms))
    ensures ArriveAll(env, FRESH, chunks) == Stream([], ArrivalsOf(ms), true)
  {
    var outs := OutgoingsOf(ms);
    forall i | 0 <= i < |ms|
      ensures Sendable(env, outs[i]) && PacketOf(env, outs[i]) == ArrivalOf(ms[i])
    {
      WellFormedIsSendable(env, ms[i]);
    }
    forall i | 0 <= i < |ms|
      ensures PacketsOf(env, outs)[i] == ArrivalsOf(ms)[i]
    {
      PacketsOfAt(env, outs, i);
    }
    assert PacketsOf(env, outs) == ArrivalsOf(ms);
    StreamRoundTrip(env, outs, chunks);
  }
}
