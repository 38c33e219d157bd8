/**
 The inner payload [uri:2][seqId:8][body], the outer frame [length:4][payload], and the
 decoder that takes one frame off the front of a gnet inbound buffer.

 Protobuf bodies are opaque. `Env` stands for the two things the model cannot see: whether
 proto.Unmarshal accepts a body for a message kind, and whether the packet handler returns nil
 for the last of the packets it has been given.
 */
module Codec {
  import opened Bytes
  import opened Wrappers

  type uint16 = x: int | 0 <= x < 0x1_0000
  type uint64 = x: int | 0 <= x < 0x1_0000_0000_0000_0000

  const HEADER_SIZE: nat := 10
  const RAY_URI_BASE: uint16 := 100

  datatype Header = Header(uri: uint16, seqId: uint64)

  datatype Kind =
    | EstablishReq | EstablishResponse | ShakeHandReq | ShakeHandResp
    | DriverSubmitTaskRequest | SchedulerSubmitTaskResponse
    | RegisterTaskToGCSRequest | RegisterTaskToGCSResponse
    | FetchTaskRequest | FetchTaskResponse
    | GetObjectLocationRequest | GetObjectLocationResponse
    | ReportTaskResultRequest | ReportTaskResultResponse
    | GetTaskResultRequest | GetTaskResultResponse
    | AssignTaskRequest | AssignTaskResponse
    | GetObjectDataRequest | GetObjectDataResponse

  /** A decoded protobuf message, known by its kind and the bytes it was decoded from. */
  datatype Message = Message(kind: Kind, body: seq<byte>)

  datatype Packet = Packet(header: Header, msg: Message)

  datatype Env = Env(unmarshals: (Kind, seq<byte>) -> bool, accepts: seq<Packet> -> bool)

  // ---------------------------------------------------------------- dispatch on the uri

  function MetaKind(uri: uint16): Option<Kind> {
    match uri
    case 1 => Some(EstablishReq)
    case 2 => Some(EstablishResponse)
    case 3 => Some(ShakeHandReq)
    case 4 => Some(ShakeHandResp)
    case _ => None
  }

  function RayKind(uri: uint16): Option<Kind> {
    match uri
    case 100 => Some(DriverSubmitTaskRequest)
    case 101 => Some(SchedulerSubmitTaskResponse)
    case 102 => Some(RegisterTaskToGCSRequest)
    case 103 => Some(RegisterTaskToGCSResponse)
    case 104 => Some(FetchTaskRequest)
    case 105 => Some(FetchTaskResponse)
    case 106 => Some(GetObjectLocationRequest)
    case 107 => Some(GetObjectLocationResponse)
    case 108 => Some(ReportTaskResultRequest)
    case 109 => Some(ReportTaskResultResponse)
    case 110 => Some(GetTaskResultRequest)
    case 111 => Some(GetTaskResultResponse)
    case 112 => Some(AssignTaskRequest)
    case 113 => Some(AssignTaskResponse)
    case 114 => Some(GetObjectDataRequest)
    case 115 => Some(GetObjectDataResponse)
    case _ => None
  }

  function KindOf(uri: uint16): Option<Kind> {
    if uri >= RAY_URI_BASE then RayKind(uri) else MetaKind(uri)
  }

  function UnmarshalByURI(env: Env, uri: uint16, body: seq<byte>): Option<Message> {
    match KindOf(uri)
    case None => None
    case Some(kind) => if env.unmarshals(kind, body) then Some(Message(kind, body)) else None
  }

  // ---------------------------------------------------------------- uris on the sending side

  const META_ESTABLISH: uint16 := 1
  const META_ESTABLISH_ACK: uint16 := 2
  const META_SHAKE_HAND: uint16 := 3
  const META_SHAKE_HAND_RESP: uint16 := 4
  const DRIVER_SUBMIT_TASK: uint16 := 100
  const SCHEDULER_SUBMIT_TASK_RESP: uint16 := 101
  const RAY_REGISTER_TASK_TO_GCS: uint16 := 102
  const RAY_REGISTER_TASK_TO_GCS_RESP: uint16 := 103
  const RAY_FETCH_TASK: uint16 := 104
  const RAY_FETCH_TASK_RESP: uint16 := 105
  const RAY_GET_OBJECT_LOCATION: uint16 := 106
  const RAY_GET_OBJECT_LOCATION_RESP: uint16 := 107
  const RAY_REPORT_TASK_RESULT: uint16 := 108
  const RAY_REPORT_TASK_RESULT_RESP: uint16 := 109
  const RAY_GET_TASK_RESULT: uint16 := 110
  const RAY_GET_TASK_RESULT_RESP: uint16 := 111
  const RAY_ASSIGN_TASK: uint16 := 112
  const RAY_ASSIGN_TASK_RESP: uint16 := 113
  const RAY_GET_OBJECT_DATA: uint16 := 114
  const RAY_GET_OBJECT_DATA_RESP: uint16 := 115

  /** Every place that sends a message, with the uri it puts in front of it. */
  datatype Site =
    | ConnEstablish | ConnShakeHand | NodeEstablishAck
    | DriverSubmit
    | SchedulerAssign
    | WorkerAnswer | WorkerReport | WorkerObjectFound | WorkerObjectMissing | WorkerAskLocation | WorkerAskData
    | GcsLocation | GcsNoLocation

  function SentKind(site: Site): Kind {
    match site
    case ConnEstablish => EstablishReq
    case ConnShakeHand => ShakeHandReq
    case NodeEstablishAck => EstablishResponse
    case DriverSubmit => DriverSubmitTaskRequest
    case SchedulerAssign => AssignTaskRequest
    case WorkerAnswer => AssignTaskResponse
    case WorkerReport => ReportTaskResultRequest
    case WorkerObjectFound => GetObjectDataResponse
    case WorkerObjectMissing => GetObjectDataResponse
    case WorkerAskLocation => GetObjectLocationRequest
    case WorkerAskData => GetObjectDataRequest
    case GcsLocation => GetObjectLocationResponse
    case GcsNoLocation => GetObjectLocationResponse
  }

  function SentUri(site: Site): uint16 {
    match site
    case ConnEstablish => META_ESTABLISH
    case ConnShakeHand => META_SHAKE_HAND
    case NodeEstablishAck => META_ESTABLISH_ACK
    case DriverSubmit => DRIVER_SUBMIT_TASK
    case SchedulerAssign => RAY_ASSIGN_TASK
    case WorkerAnswer => RAY_ASSIGN_TASK_RESP
    case WorkerReport => RAY_REPORT_TASK_RESULT
    case WorkerObjectFound => RAY_GET_OBJECT_DATA_RESP
    case WorkerObjectMissing => RAY_GET_OBJECT_DATA_RESP
    case WorkerAskLocation => RAY_GET_OBJECT_LOCATION
    case WorkerAskData => RAY_GET_OBJECT_DATA
    case GcsLocation => RAY_GET_OBJECT_LOCATION_RESP
    case GcsNoLocation => RAY_GET_OBJECT_LOCATION_RESP
  }

  /** The uri named after each message, sent or not. */
  function UriOf(kind: Kind): uint16 {
    match kind
    case EstablishReq => META_ESTABLISH
    case EstablishResponse => META_ESTABLISH_ACK
    case ShakeHandReq => META_SHAKE_HAND
    case ShakeHandResp => META_SHAKE_HAND_RESP
    case DriverSubmitTaskRequest => DRIVER_SUBMIT_TASK
    case SchedulerSubmitTaskResponse => SCHEDULER_SUBMIT_TASK_RESP
    case RegisterTaskToGCSRequest => RAY_REGISTER_TASK_TO_GCS
    case RegisterTaskToGCSResponse => RAY_REGISTER_TASK_TO_GCS_RESP
    case FetchTaskRequest => RAY_FETCH_TASK
    case FetchTaskResponse => RAY_FETCH_TASK_RESP
    case GetObjectLocationRequest => RAY_GET_OBJECT_LOCATION
    case GetObjectLocationResponse => RAY_GET_OBJECT_LOCATION_RESP
    case ReportTaskResultRequest => RAY_REPORT_TASK_RESULT
    case ReportTaskResultResponse => RAY_REPORT_TASK_RESULT_RESP
    case GetTaskResultRequest => RAY_GET_TASK_RESULT
    case GetTaskResultResponse => RAY_GET_TASK_RESULT_RESP
    case AssignTaskRequest => RAY_ASSIGN_TASK
    case AssignTaskResponse => RAY_ASSIGN_TASK_RESP
    case GetObjectDataRequest => RAY_GET_OBJECT_DATA
    case GetObjectDataResponse => RAY_GET_OBJECT_DATA_RESP
  }

  // ---------------------------------------------------------------- payloads and frames

  function Inner(h: Header, body: seq<byte>): (payload: seq<byte>) {
    ToBE(h.uri, 2) + ToBE(h.seqId, 8) + body
  }

  /** The length field is a uint32 conversion of the payload length. */
  function FrameOf(payload: seq<byte>): (frame: seq<byte>) {
    ToBE(|payload| % 0x1_0000_0000, 4) + payload
  }

  function FrameLength(buf: seq<byte>): nat
    requires |buf| >= 4
  {
    FromBE(buf[..4])
  }

  function DecodeHeader(payload: seq<byte>): Header
    requires |payload| >= HEADER_SIZE
  {
    FromBound(payload[0..2]);
    FromBound(payload[2..10]);
    Widths();
    Header(FromBE(payload[0..2]), FromBE(payload[2..10]))
  }

  function DecodeInnerPayload(env: Env, payload: seq<byte>): Option<Packet> {
    if |payload| < HEADER_SIZE then None
    else
      var h := DecodeHeader(payload);
      match UnmarshalByURI(env, h.uri, payload[10..])
      case None => None
      case Some(msg) => Some(Packet(h, msg))
  }

  /** What is at the front of a buffer: too little for a frame, or a frame of `size` bytes. */
  datatype Scan = Short | Bad(size: nat) | Whole(size: nat, packet: Packet)

  function ScanHead(env: Env, buf: seq<byte>): (r: Scan)
    ensures !r.Short? ==> 14 <= r.size <= |buf|
  {
    if |buf| < 4 then Short
    else
      var outerLen := FrameLength(buf);
      if outerLen < HEADER_SIZE || |buf| < 4 + outerLen then Short
      else
        match DecodeInnerPayload(env, buf[4..4 + outerLen])
        case None => Bad(4 + outerLen)
        case Some(packet) => Whole(4 + outerLen, packet)
  }

  // ---------------------------------------------------------------- properties

  /** The uris with a message are exactly 1..4 and 100..115, each with a message of its own. */
  lemma KindsAreDistinct(uri: uint16, uri': uint16)
    ensures KindOf(uri).Some? <==> 1 <= uri <= 4 || 100 <= uri <= 115
    ensures KindOf(uri).Some? && KindOf(uri) == KindOf(uri') ==> uri == uri'
  {
  }

  /** A uri is decoded as the message it is named after, and every sender uses that uri. */
  lemma UrisMeanTheirMessages(uri: uint16, kind: Kind, site: Site)
    ensures KindOf(uri) == Some(kind) <==> uri == UriOf(kind)
    ensures KindOf(SentUri(site)) == Some(SentKind(site))
  {
  }

  lemma InnerFields(h: Header, body: seq<byte>)
    ensures |Inner(h, body)| == HEADER_SIZE + |body|
    ensures DecodeHeader(Inner(h, body)) == h && Inner(h, body)[10..] == body
  {
    var p := Inner(h, body);
    assert p[0..2] == ToBE(h.uri, 2) && p[2..10] == ToBE(h.seqId, 8);
    Widths();
    FromToFits(h.uri, 2);
    FromToFits(h.seqId, 8);
  }

  /** Decoding inverts encoding whenever the body is decodable for its uri, and only then. */
  lemma InnerRoundTrip(env: Env, h: Header, body: seq<byte>)
    ensures DecodeInnerPayload(env, Inner(h, body)) ==
            match KindOf(h.uri)
            case None => None
            case Some(kind) =>
              if env.unmarshals(kind, body) then Some(Packet(h, Message(kind, body))) else None
  {
    InnerFields(h, body);
  }

  /** Encoding inverts decoding: a payload that decodes is the encoding of what it decodes to. */
  lemma InnerCanonical(env: Env, payload: seq<byte>)
    requires DecodeInnerPayload(env, payload).Some?
    ensures var packet := DecodeInnerPayload(env, payload).value;
            Inner(packet.header, packet.msg.body) == payload
            && KindOf(packet.header.uri) == Some(packet.msg.kind)
  {
    ToFrom(payload[0..2]);
    ToFrom(payload[2..10]);
    assert payload == payload[0..2] + payload[2..10] + payload[10..];
  }

  /** The length field is right exactly for payloads below 4 GiB. */
  lemma FrameLengthExact(payload: seq<byte>, rest: seq<byte>)
    ensures FrameLength(FrameOf(payload) + rest) == |payload| <==> |payload| < 0x1_0000_0000
    ensures |payload| < 0x1_0000_0000 ==>
              (FrameOf(payload) + rest)[4..4 + |payload|] == payload
  {
    var n := |payload| % 0x1_0000_0000;
    assert (FrameOf(payload) + rest)[..4] == ToBE(n, 4);
    Widths();
    FromToFits(n, 4);
  }

  /** A frame in front of anything is scanned as exactly itself. */
  lemma ScanFrame(env: Env, payload: seq<byte>, rest: seq<byte>)
    requires HEADER_SIZE <= |payload| < 0x1_0000_0000
    ensures ScanHead(env, FrameOf(payload) + rest) ==
            match DecodeInnerPayload(env, payload)
            case None => Bad(|FrameOf(payload)|)
            case Some(packet) => Whole(|FrameOf(payload)|, packet)
  {
    FrameLengthExact(payload, rest);
  }

  /** The bytes up to a declared length are the frame of the payload they hold. */
  lemma HeadBytes(buf: seq<byte>, n: nat)
    requires |buf| >= 4 && n == FrameLength(buf) && 4 + n <= |buf|
    ensures n < 0x1_0000_0000 && FrameOf(buf[4..4 + n]) == buf[..4 + n]
  {
    var head, payload := buf[..4], buf[4..4 + n];
    assert n < 0x1_0000_0000 by {
      FromBound(head);
      Widths();
    }
    assert ToBE(|payload| % 0x1_0000_0000, 4) == head by {
      ToFrom(head);
    }
    assert head + payload == buf[..4 + n];
  }

  /** No frame is a proper prefix of another, so a stream of frames splits in one way only. */
  lemma FramesPrefixFree(p: seq<byte>, q: seq<byte>, x: seq<byte>, y: seq<byte>)
    requires |p| < 0x1_0000_0000 && |q| < 0x1_0000_0000
    requires FrameOf(p) + x == FrameOf(q) + y
    ensures p == q && x == y
  {
    FrameLengthExact(p, x);
    FrameLengthExact(q, y);
    var whole := FrameOf(p) + x;
    assert x == whole[|FrameOf(p)|..] && y == (FrameOf(q) + y)[|FrameOf(q)|..];
  }

  /** Bytes that arrive later never change what has been recognised at the front. */
  lemma ScanStable(env: Env, buf: seq<byte>, more: seq<byte>)
    requires !ScanHead(env, buf).Short?
    ensures ScanHead(env, buf + more) == ScanHead(env, buf)
  {
    assert (buf + more)[..4] == buf[..4];
    var n := FrameLength(buf);
    assert (buf + more)[4..4 + n] == buf[4..4 + n];
  }

  // ---------------------------------------------------------------- the code on buffers

  /** gnet's inbound buffer: Peek and Next give nothing when fewer than n bytes are there. */
  class GnetConn {
    var inbound: seq<byte>
    var outbound: seq<byte>

    method Peek(n: nat) returns (p: seq<byte>)
      requires n > 0
      ensures p == if n <= |inbound| then inbound[..n] else []
    {
      p := if n <= |inbound| then inbound[..n] else [];
    }

    method Next(n: nat) returns (p: seq<byte>)
      requires n > 0
      modifies this`inbound
      ensures if n <= |old(inbound)| then p == old(inbound)[..n] && inbound == old(inbound)[n..]
              else p == [] && inbound == old(inbound)
    {
      p := Peek(n);
      inbound := inbound[|p|..];
    }

    /** Queues all of the frame, or nothing. */
    method AsyncWrite(frame: seq<byte>, taken: bool) returns (ok: bool)
      modifies this`outbound
      ensures ok == taken && outbound == old(outbound) + (if taken then frame else [])
    {
      if taken {
        outbound := outbound + frame;
      }
      return taken;
    }
  }

  method EncodePayload(h: Header, body: seq<byte>) returns (buf: array<byte>)
    ensures fresh(buf) && buf[..] == Inner(h, body)
  {
    buf := new byte[10 + |body|];
    PutUint(buf, 0, 2, h.uri);
    ghost var first := buf[..];
    PutUint(buf, 2, 8, h.seqId);
    assert buf[..2] == first[..2] == ToBE(h.uri, 2);
    ghost var second := buf[..];
    assert second[..10] == Inner(h, [])[..10];
    forall i | 0 <= i < |body| {
      buf[10 + i] := body[i];
    }
    assert buf[..10] == second[..10] && buf[10..] == body;
    assert buf[..] == buf[..10] + buf[10..];
  }

  method MakeFrame(payload: seq<byte>) returns (b: array<byte>)
    ensures fresh(b) && b[..] == FrameOf(payload)
  {
    b := new byte[4 + |payload|];
    PutUint(b, 0, 4, |payload| % 0x1_0000_0000);
    ghost var first := b[..];
    forall i | 0 <= i < |payload| {
      b[4 + i] := payload[i];
    }
    assert b[..4] == first[..4] && b[4..] == payload;
    assert b[..] == b[..4] + b[4..];
  }

  datatype Decoded = ShortBuffer | Failed | Decoded(packet: Packet)

  method ZeroCopyDecode(env: Env, c: GnetConn) returns (r: Decoded)
    modifies c`inbound
    ensures match ScanHead(env, old(c.inbound))
            case Short => r == ShortBuffer && c.inbound == old(c.inbound)
            case Bad(n) => r == Failed && c.inbound == old(c.inbound)[n..]
            case Whole(n, packet) => r == Decoded.Decoded(packet) && c.inbound == old(c.inbound)[n..]
  {
    if |c.inbound| < 4 {
      return ShortBuffer;
    }
    var lb := c.Peek(4);
    var outerLen := FromBE(lb);
    if outerLen < 10 {
      return ShortBuffer;
    }
    if |c.inbound| < 4 + outerLen {
      return ShortBuffer;
    }
    lb := c.Next(4);
    var payload := c.Next(outerLen);
    assert payload == old(c.inbound)[4..4 + outerLen];
    var h := DecodeHeader(payload);
    var msg := UnmarshalByURI(env, h.uri, payload[10..]);
    if msg.None? {
      return Failed;
    }
    return Decoded.Decoded(Packet(h, msg.value));
  }
}
