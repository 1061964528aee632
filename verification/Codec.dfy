/** Cutting a byte stream into packets, and writing packets to it. */
module Codec {
  import opened Basics
  import opened Bits
  import opened Messages
  import opened Packets
  import opened Paths
  import opened Reader
  import opened Validation
  import AckWire
  import ConnectWire
  import Grammar
  import PublishWire
  import SubscribeWire
  import Varint

  type Msg = MQTTMessage

  datatype CodecError =
    | InvalidMessageLength | ExceedsMaximum | ExceedsProtocolMaximum | UnknownMessage | Malformed(error: ParseError)

  datatype MessageType =
    | TConnect | TConnAck | TPublish | TPubAck | TPubRec | TPubRel | TPubComp
    | TSubscribe | TSubAck | TUnsubscribe | TUnsubAck | TPingReq | TPingResp | TDisconnect

  function TypeOf(v: int): Option<MessageType> {
    match v
    case 1 => Some(TConnect)
    case 2 => Some(TConnAck)
    case 3 => Some(TPublish)
    case 4 => Some(TPubAck)
    case 5 => Some(TPubRec)
    case 6 => Some(TPubRel)
    case 7 => Some(TPubComp)
    case 8 => Some(TSubscribe)
    case 9 => Some(TSubAck)
    case 10 => Some(TUnsubscribe)
    case 11 => Some(TUnsubAck)
    case 12 => Some(TPingReq)
    case 13 => Some(TPingResp)
    case 14 => Some(TDisconnect)
    case _ => None
  }

  // ----- one frame -----

  function Wrapped<T>(r: Result<T, ParseError>, message: T -> Msg): Result<Msg, CodecError> {
    match r
    case Ok(x) => Ok(message(x))
    case Err(e) => Err(Malformed(e))
  }

  function ParseFrame(frame: seq<Byte>): Result<Msg, CodecError>
    requires frame != []
  {
    match TypeOf(frame[0] / 16)
    case Some(TConnect) => Wrapped(ConnectWire.Parse(frame), c => MQTTMessage.Connect(c))
    case Some(TSubscribe) =>
      Wrapped(SubscribeWire.ParseSubscribe(frame), (s: (U16, seq<(Str, Byte)>)) => MQTTMessage.Subscribe(s.0, s.1))
    case Some(TUnsubscribe) =>
      Wrapped(SubscribeWire.ParseUnsubscribe(frame), (s: (U16, seq<Str>)) => MQTTMessage.Unsubscribe(s.0, s.1))
    case Some(TPublish) => Wrapped(PublishWire.Parse(frame), m => MQTTMessage.Publish(m))
    case Some(TPingReq) => Wrapped(AckWire.ParsePingReq(frame), (u: ()) => MQTTMessage.PingReq)
    case Some(TPubAck) => Wrapped(AckWire.ParseAck(frame, 0), id => MQTTMessage.PubAck(id))
    case Some(TPubRec) => Wrapped(AckWire.ParseAck(frame, 0), id => MQTTMessage.PubRec(id))
    case Some(TPubRel) => Wrapped(AckWire.ParseAck(frame, 2), id => MQTTMessage.PubRel(id))
    case Some(TPubComp) => Wrapped(AckWire.ParseAck(frame, 0), id => MQTTMessage.PubComp(id))
    case Some(TDisconnect) => Ok(MQTTMessage.Disconnect)
    case _ => Err(UnknownMessage)
  }

  /** `frame` is a packet of the standard saying `msg`; DISCONNECT is not looked into. */
  ghost predicate Encodes(frame: seq<Byte>, msg: Msg)
    requires frame != []
  {
    match msg
    case Connect(c) =>
      frame[0] / 16 == 1 && ConnectWire.WellFormed(c)
      && exists name: seq<Byte> :: |name| == 6 && HasBody(frame, 0, name + ConnectWire.Body(c))
    case Publish(m) =>
      frame[0] / 16 == 3 && PublishWire.WellFormed(m) && IsPacket(frame, PublishWire.Flags(m), PublishWire.Body(m))
    case PubAck(id) => frame[0] / 16 == 4 && IsPacket(frame, 0, PutU16(id))
    case PubRec(id) => frame[0] / 16 == 5 && IsPacket(frame, 0, PutU16(id))
    case PubRel(id) => frame[0] / 16 == 6 && IsPacket(frame, 2, PutU16(id))
    case PubComp(id) => frame[0] / 16 == 7 && IsPacket(frame, 0, PutU16(id))
    case Subscribe(id, filters) =>
      frame[0] / 16 == 8 && SubscribeWire.SubscribeOk(id, filters)
      && HasBody(frame, 2, SubscribeWire.SubscribeBody(id, filters))
    case Unsubscribe(id, topics) =>
      frame[0] / 16 == 10 && topics != [] && SubscribeWire.AllFiltersOk(topics)
      && HasBody(frame, 2, SubscribeWire.UnsubscribeBody(id, topics))
    case PingReq => frame[0] / 16 == 12 && HasBody(frame, 0, [])
    case Disconnect => frame[0] / 16 == 14
    case _ => false
  }

  lemma ParseFrameExact(frame: seq<Byte>, msg: Msg)
    requires frame != []
    ensures ParseFrame(frame) == Ok(msg) <==> Encodes(frame, msg)
  {
    hide ConnectWire.Parse, ConnectWire.WellFormed, ConnectWire.Body, PublishWire.Parse, PublishWire.WellFormed,
         PublishWire.Body, SubscribeWire.ParseSubscribe, SubscribeWire.SubscribeOk, SubscribeWire.ParseUnsubscribe,
         SubscribeWire.AllFiltersOk, AckWire.ParseAck, AckWire.ParsePingReq, HasBody, IsPacket, PutU16;
    match msg
    case Connect(c) => ConnectWire.ParseExact(frame, c);
    case Publish(m) => PublishWire.ParseExact(frame, m);
    case PubAck(id) => AckWire.AckExact(frame, 0, id);
    case PubRec(id) => AckWire.AckExact(frame, 0, id);
    case PubRel(id) => AckWire.AckExact(frame, 2, id);
    case PubComp(id) => AckWire.AckExact(frame, 0, id);
    case Subscribe(id, filters) =>
      SubscribeWire.SubscribeExact(frame, id, filters);
      TupleIsPair(SubscribeWire.ParseSubscribe(frame));
    case Unsubscribe(id, topics) =>
      SubscribeWire.UnsubscribeExact(frame, id, topics);
      TupleIsPair(SubscribeWire.ParseUnsubscribe(frame));
    case PingReq =>
      AckWire.PingReqExact(frame);
      var r := AckWire.ParsePingReq(frame);
      assert r.Ok? ==> r.value == ();
    case _ =>
  }

  lemma TupleIsPair<A, B, E>(r: Result<(A, B), E>)
    ensures r.Ok? ==> r.value == (r.value.0, r.value.1)
  {}

  // ----- one call -----

  datatype Step = Need | Got(msg: Msg, size: nat) | Fail(error: CodecError, used: nat)

  function StepOf(max: nat, data: seq<Byte>): (s: Step)
    ensures s.Got? ==> 2 <= s.size <= |data|
    ensures s.Fail? ==> s.used <= |data|
    ensures s.Need? ==> |data| < 5 + max
  {
    if data == [] then Need
    else
      Varint.DecodeOpen(data[1..], 4);
      match Varint.Decode(data[1..], 4)
      case Incomplete => Need
      case TooLong => Fail(InvalidMessageLength, 0)
      case Complete(len, lensize) =>
        if len > max then Fail(ExceedsMaximum, 0)
        else if len > Varint.MAX_LENGTH then Fail(ExceedsProtocolMaximum, 0)
        else
          var n := 1 + lensize + len;
          if |data| < n then Need
          else
            match ParseFrame(data[..n])
            case Ok(msg) => Got(msg, n)
            case Err(e) => Fail(e, n)
  }

  /** A fixed header and exactly the bytes it announces. */
  predicate IsFrame(frame: seq<Byte>) {
    && frame != []
    && Varint.Decode(frame[1..], 4).Complete?
    && |frame| == 1 + Varint.Decode(frame[1..], 4).size + Varint.Decode(frame[1..], 4).value
  }

  lemma CutFrame(data: seq<Byte>, n: nat)
    requires n <= |data|
    requires data != [] && Varint.Decode(data[1..], 4).Complete?
    requires n == 1 + Varint.Decode(data[1..], 4).size + Varint.Decode(data[1..], 4).value
    ensures IsFrame(data[..n]) && Varint.Decode(data[..n][1..], 4) == Varint.Decode(data[1..], 4)
  {
    var size := Varint.Decode(data[1..], 4).size;
    Varint.DecodeLocal(data[1..], data[1..n], 4);
    assert data[..n][1..] == data[1..n];
  }

  /** Whatever stands at the front of the stream, and only that, is decoded. */
  lemma StepExact(max: nat, data: seq<Byte>, msg: Msg, n: nat)
    ensures StepOf(max, data) == Got(msg, n) <==>
            && n <= |data| && IsFrame(data[..n])
            && Varint.Decode(data[..n][1..], 4).value <= max
            && Encodes(data[..n], msg)
  {
    hide ParseFrame, Encodes, Varint.Decode;
    if n <= |data| && IsFrame(data[..n]) {
      Varint.DecodeStable(data[..n][1..], data[n..], 4);
      assert data[1..] == data[..n][1..] + data[n..];
      ParseFrameExact(data[..n], msg);
      Varint.DecodeBound(data[1..]);
    }
    if StepOf(max, data).Got? {
      CutFrame(data, StepOf(max, data).size);
      ParseFrameExact(data[..StepOf(max, data).size], msg);
    }
  }

  /** A packet that says `msg` stands at the front, within the limit, and `rest` is what follows it. */
  ghost predicate Carries(max: nat, data: seq<Byte>, msg: Msg, rest: seq<Byte>) {
    exists n: nat :: Begins(max, data, msg, n) && rest == data[n..]
  }

  ghost predicate Begins(max: nat, data: seq<Byte>, msg: Msg, n: nat) {
    n <= |data| && IsFrame(data[..n]) && n <= 5 + max && Encodes(data[..n], msg)
  }

  lemma StepBegins(max: nat, data: seq<Byte>)
    ensures var s := StepOf(max, data); s.Got? ==> Carries(max, data, s.msg, data[s.size..])
  {
    hide ParseFrame, Encodes, Varint.Decode;
    var s := StepOf(max, data);
    if s.Got? {
      StepExact(max, data, s.msg, s.size);
      assert Begins(max, data, s.msg, s.size);
    }
  }

  /** Nothing can be decided yet: the length field is not all there, or it is within the limit and its packet is not. */
  ghost predicate Waits(max: nat, data: seq<Byte>) {
    || data == []
    || (|data| < 5 && Varint.AllContinue(data[1..]))
    || (Announces(data) && Announced(data) <= max && |data| < HeaderSize(data) + Announced(data))
  }

  /** The length field is complete. */
  ghost predicate Announces(data: seq<Byte>) {
    data != [] && Varint.Decode(data[1..], 4).Complete?
  }

  ghost function Announced(data: seq<Byte>): nat
    requires Announces(data)
  {
    Varint.Decode(data[1..], 4).value
  }

  ghost function HeaderSize(data: seq<Byte>): nat
    requires Announces(data)
  {
    1 + Varint.Decode(data[1..], 4).size
  }

  ghost predicate Oversized(max: nat, data: seq<Byte>) {
    Announces(data) && Announced(data) > max
  }

  /** All that a step can be, by what stands in the buffer. Bytes are waited for only below the limit, so a buffer
      of more than the limit and a fixed header is never held on to. */
  lemma StepCases(max: nat, data: seq<Byte>)
    ensures StepOf(max, data) == Need <==> Waits(max, data)
    ensures StepOf(max, data) == Need ==> |data| < 5 + max
    ensures StepOf(max, data) == Fail(InvalidMessageLength, 0) <==> |data| >= 5 && Varint.AllContinue(data[1..5])
    ensures StepOf(max, data) == Fail(ExceedsMaximum, 0) <==> Oversized(max, data)
    ensures (exists e :: StepOf(max, data) == Fail(e, 0)) ==>
              StepOf(max, data) == Fail(InvalidMessageLength, 0) || StepOf(max, data) == Fail(ExceedsMaximum, 0)
    ensures forall e, n: nat :: StepOf(max, data) == Fail(e, n) && n > 0 ==>
              n <= |data| && IsFrame(data[..n]) && (e == UnknownMessage || e.Malformed?) && forall msg :: !Encodes(data[..n], msg)
  {
    hide ParseFrame, Encodes, Varint.Decode;
    if data != [] {
      Varint.DecodeOpen(data[1..], 4);
      if |data| >= 5 {
        assert data[1..][..4] == data[1..5];
      }
      Varint.DecodeBound(data[1..]);
      if Announces(data) && Announced(data) <= max && |data| >= HeaderSize(data) + Announced(data) {
        var n := HeaderSize(data) + Announced(data);
        CutFrame(data, n);
        FrameErrors(data[..n]);
        forall msg ensures StepOf(max, data) == Got(msg, n) || !Encodes(data[..n], msg) {
          ParseFrameExact(data[..n], msg);
        }
      }
    }
  }

  lemma FrameErrors(frame: seq<Byte>)
    requires frame != []
    ensures ParseFrame(frame).Err? ==> ParseFrame(frame).error == UnknownMessage || ParseFrame(frame).error.Malformed?
  {
    hide ConnectWire.Parse, PublishWire.Parse, SubscribeWire.ParseSubscribe, SubscribeWire.ParseUnsubscribe,
         AckWire.ParseAck, AckWire.ParsePingReq;
  }

  /** The protocol's own limit is never what refuses a packet: four bytes hold no more. */
  lemma ProtocolLimitIdle(max: nat, data: seq<Byte>)
    ensures StepOf(max, data) != Fail(ExceedsProtocolMaximum, 0)
  {
    if data != [] {
      Varint.DecodeBound(data[1..]);
    }
  }

  /** In frames cut by this layer, a PUBLISH is never refused for its length. */
  lemma PublishLengthFits(frame: seq<Byte>)
    requires IsFrame(frame)
    ensures frame[0] / 16 == 3 ==>
            ParseFrame(frame) != Err(Malformed(LengthUnderflow)) && ParseFrame(frame) != Err(Malformed(LengthIncorrect))
  {
    hide PublishWire.Parse;
    PublishWire.CutFrameLength(frame);
  }

  /** Decoded topics and QoS meet what the router's index asks of its callers. */
  lemma DecodedFitsRouter(max: nat, data: seq<Byte>, msg: Msg, n: nat)
    requires StepOf(max, data) == Got(msg, n)
    ensures msg.Publish? ==> Plain(Split(msg.publish.topic)) && msg.publish.qos <= 2
    ensures msg.Connect? && msg.connect.will.Some? ==>
              Plain(Split(msg.connect.will.value.topic)) && msg.connect.will.value.qos <= 2
    ensures msg.Subscribe? ==> forall i :: 0 <= i < |msg.filters| ==> msg.filters[i].1 <= 2
  {
    StepExact(max, data, msg, n);
    hide StepOf, Split, Plain, PublishTopicValid, IsPacket, HasBody;
    match msg
    case Publish(m) => Grammar.AcceptedNamePlain(m.topic);
    case Connect(c) =>
      if c.will.Some? {
        Grammar.AcceptedNamePlain(c.will.value.topic);
      }
    case Subscribe(_, filters) =>
      forall i | 0 <= i < |filters| ensures filters[i].1 <= 2 {
        assert SubscribeWire.RequestOk(filters[i]);
      }
    case _ =>
  }

  // ----- independence of chunking -----

  /** What was decided stays decided when more bytes arrive. */
  lemma StepStable(max: nat, data: seq<Byte>, more: seq<Byte>)
    requires StepOf(max, data) != Need
    ensures StepOf(max, data + more) == StepOf(max, data)
  {
    hide ParseFrame, Varint.Decode;
    Varint.DecodeStable(data[1..], more, 4);
    assert (data + more)[1..] == data[1..] + more;
    var d := Varint.Decode(data[1..], 4);
    if d.Complete? && 1 + d.size + d.value <= |data| {
      assert (data + more)[..1 + d.size + d.value] == data[..1 + d.size + d.value];
    }
  }

  datatype End = Waiting(rest: seq<Byte>) | Failed(error: CodecError)

  datatype Drained = Drained(messages: seq<Msg>, end: End)

  /** Decoding until more bytes are needed or an error ends the connection. */
  function Drain(max: nat, data: seq<Byte>): Drained
    decreases |data|
  {
    match StepOf(max, data)
    case Need => Drained([], Waiting(data))
    case Fail(e, _) => Drained([], Failed(e))
    case Got(msg, n) =>
      var more := Drain(max, data[n..]);
      Drained([msg] + more.messages, more.end)
  }

  /** The same as chunks arrive. */
  function Feed(max: nat, pending: seq<Byte>, chunks: seq<seq<Byte>>): Drained
    decreases chunks
  {
    if chunks == [] then Drain(max, pending)
    else
      var now := Drain(max, pending + chunks[0]);
      if now.end.Failed? then now
      else
        var later := Feed(max, now.end.rest, chunks[1..]);
        Drained(now.messages + later.messages, later.end)
  }

  function Concat(chunks: seq<seq<Byte>>): seq<Byte> {
    if chunks == [] then [] else chunks[0] + Concat(chunks[1..])
  }

  lemma {:induction false} DrainAppend(max: nat, data: seq<Byte>, more: seq<Byte>)
    ensures match Drain(max, data).end
            case Failed(e) => Drain(max, data + more) == Drain(max, data)
            case Waiting(rest) =>
              Drain(max, data + more)
              == Drained(Drain(max, data).messages + Drain(max, rest + more).messages, Drain(max, rest + more).end)
    decreases |data|
  {
    hide StepOf;
    var s := StepOf(max, data);
    if s != Need {
      StepStable(max, data, more);
    }
    match s
    case Need =>
      assert [] + Drain(max, data + more).messages == Drain(max, data + more).messages;
    case Fail(_, _) =>
    case Got(msg, n) =>
      DrainAppend(max, data[n..], more);
      assert (data + more)[n..] == data[n..] + more;
      var d := Drain(max, data[n..]);
      if d.end.Waiting? {
        var e := Drain(max, d.end.rest + more);
        assert [msg] + (d.messages + e.messages) == ([msg] + d.messages) + e.messages;
      }
  }

  /** However the stream is cut, the same messages and the same end come out. */
  lemma {:induction false} ChunkingIrrelevant(max: nat, pending: seq<Byte>, chunks: seq<seq<Byte>>)
    ensures Feed(max, pending, chunks) == Drain(max, pending + Concat(chunks))
    decreases chunks
  {
    hide Drain;
    if chunks == [] {
      assert pending + Concat(chunks) == pending;
    } else {
      var first := pending + chunks[0];
      var now := Drain(max, first);
      DrainAppend(max, first, Concat(chunks[1..]));
      assert first + Concat(chunks[1..]) == pending + Concat(chunks);
      if now.end.Waiting? {
        ChunkingIrrelevant(max, now.end.rest, chunks[1..]);
      }
    }
  }

  // ----- printing -----

  /** The bytes of the packets the broker sends; nothing for the others. */
  function Printed(msg: Msg): seq<Byte> {
    match msg
    case Publish(m) => PublishWire.Bytes(m)
    case ConnAck(code, present) => Frame(2, 0, [if present then 1 else 0, AckWire.CodeByte(code)])
    case SubAck(id, codes) => Frame(9, 0, PutU16(id) + codes)
    case UnsubAck(id) => Frame(11, 0, PutU16(id))
    case PingResp => Frame(13, 0, [])
    case PubAck(id) => Frame(4, 0, PutU16(id))
    case PubRec(id) => Frame(5, 0, PutU16(id))
    case PubRel(id) => Frame(6, 2, PutU16(id))
    case PubComp(id) => Frame(7, 0, PutU16(id))
    case _ => []
  }

  /** The first two bytes of what the broker sends besides PUBLISH, with the identifier behind them. */
  lemma PrintedBytes(msg: Msg)
    ensures match msg
            case Publish(_) => true
            case ConnAck(code, present) => |Printed(msg)| == 4 && Printed(msg)[..2] == [0x20, 2]
            case SubAck(id, codes) => Printed(msg) == [0x90] + Varint.Encode(2 + |codes|) + [id / 256, id % 256] + codes
            case UnsubAck(id) => Printed(msg) == [0xB0, 2, id / 256, id % 256]
            case PingResp => Printed(msg) == [0xD0, 0]
            case PubAck(id) => Printed(msg) == [0x40, 2, id / 256, id % 256]
            case PubRec(id) => Printed(msg) == [0x50, 2, id / 256, id % 256]
            case PubRel(id) => Printed(msg) == [0x62, 2, id / 256, id % 256]
            case PubComp(id) => Printed(msg) == [0x70, 2, id / 256, id % 256]
            case _ => Printed(msg) == []
  {
    match msg
    case ConnAck(code, present) => AckWire.ConnAckBytes(code, present);
    case SubAck(id, codes) =>
      hide Varint.Encode;
      assert PutU16(id) == [id / 256, id % 256];
      assert Printed(msg) == [0x90] + (Varint.Encode(2 + |codes|) + (PutU16(id) + codes));
    case UnsubAck(id) => AckWire.AckBytes(11, 0, id);
    case PingResp => AckWire.AckBytes(13, 0, 0);
    case PubAck(id) => AckWire.AckBytes(4, 0, id);
    case PubRec(id) => AckWire.AckBytes(5, 0, id);
    case PubRel(id) => AckWire.AckBytes(6, 2, id);
    case PubComp(id) => AckWire.AckBytes(7, 0, id);
    case _ =>
  }

  /** A packet both sides send, within the limits. */
  predicate Transmissible(msg: Msg, max: nat) {
    match msg
    case Publish(m) =>
      PublishWire.WellFormed(m) && |PublishWire.Body(m)| <= max && |PublishWire.Body(m)| <= Varint.MAX_LENGTH
    case PubAck(_) | PubRec(_) | PubRel(_) | PubComp(_) => max >= 2
    case _ => false
  }

  function WithoutDup(msg: Msg): Msg {
    if msg.Publish? then MQTTMessage.Publish(msg.publish.(dup := false)) else msg
  }

  lemma FrameCut(kind: nat, flags: nat, body: seq<Byte>)
    requires kind < 16 && flags < 16 && |body| <= Varint.MAX_LENGTH
    ensures var f := Frame(kind, flags, body);
            IsFrame(f) && IsPacket(f, flags, body) && f[0] / 16 == kind && Varint.Decode(f[1..], 4).value == |body|
  {
    FrameIsPacket(kind, flags, body);
  }

  lemma PrintedEncodes(msg: Msg, max: nat)
    requires Transmissible(msg, max)
    ensures IsFrame(Printed(msg)) && Varint.Decode(Printed(msg)[1..], 4).value <= max
    ensures Encodes(Printed(msg), WithoutDup(msg))
  {
    hide IsFrame, IsPacket, Frame, Varint.Decode, PutU16, PublishWire.Flags, PublishWire.WellFormed;
    match msg
    case Publish(m) =>
      var sent := m.(dup := false);
      PublishWire.PrintedFrame(m);
      FrameCut(3, PublishWire.Flags(sent), PublishWire.Body(sent));
    case PubAck(id) => FrameCut(4, 0, PutU16(id));
    case PubRec(id) => FrameCut(5, 0, PutU16(id));
    case PubRel(id) => FrameCut(6, 2, PutU16(id));
    case PubComp(id) => FrameCut(7, 0, PutU16(id));
  }

  /** What one side prints the other decodes, leaving the rest of the stream; only dup is lost. */
  lemma RoundTrip(max: nat, msg: Msg, rest: seq<Byte>)
    requires Transmissible(msg, max)
    ensures StepOf(max, Printed(msg) + rest) == Got(WithoutDup(msg), |Printed(msg)|)
  {
    hide StepOf, Transmissible, Printed, WithoutDup, Encodes;
    PrintedEncodes(msg, max);
    assert (Printed(msg) + rest)[..|Printed(msg)|] == Printed(msg);
    StepExact(max, Printed(msg) + rest, WithoutDup(msg), |Printed(msg)|);
  }

  function PrintedAll(msgs: seq<Msg>): seq<Byte> {
    if msgs == [] then [] else Printed(msgs[0]) + PrintedAll(msgs[1..])
  }

  function WithoutDups(msgs: seq<Msg>): seq<Msg> {
    if msgs == [] then [] else [WithoutDup(msgs[0])] + WithoutDups(msgs[1..])
  }

  /** A whole conversation comes through, in order and complete, however it is cut. */
  lemma StreamRoundTrip(max: nat, msgs: seq<Msg>, chunks: seq<seq<Byte>>)
    requires forall i :: 0 <= i < |msgs| ==> Transmissible(msgs[i], max)
    requires Concat(chunks) == PrintedAll(msgs)
    ensures Feed(max, [], chunks) == Drained(WithoutDups(msgs), Waiting([]))
  {
    ChunkingIrrelevant(max, [], chunks);
    assert [] + Concat(chunks) == Concat(chunks);
    DrainPrinted(max, msgs);
  }

  lemma {:induction false} DrainPrinted(max: nat, msgs: seq<Msg>)
    requires forall i :: 0 <= i < |msgs| ==> Transmissible(msgs[i], max)
    ensures Drain(max, PrintedAll(msgs)) == Drained(WithoutDups(msgs), Waiting([]))
  {
    hide Transmissible, Printed, WithoutDup;
    if msgs == [] {
      assert StepOf(max, []) == Need;
    } else {
      hide StepOf;
      var rest := PrintedAll(msgs[1..]);
      RoundTrip(max, msgs[0], rest);
      assert (Printed(msgs[0]) + rest)[|Printed(msgs[0])|..] == rest;
      DrainPrinted(max, msgs[1..]);
    }
  }

  // ----- the program -----

  class BytesMut {
    var data: seq<Byte>

    method SplitTo(n: nat) returns (front: seq<Byte>)
      requires n <= |data|
      modifies this
      ensures front == old(data)[..n] && data == old(data)[n..]
    {
      front := data[..n];
      data := data[n..];
    }

    method Put(bytes: seq<Byte>)
      modifies this
      ensures data == old(data) + bytes
    {
      data := data + bytes;
    }
  }

  class MqttCodec {
    var maxPacketSize: nat

    constructor (max: nat)
      ensures maxPacketSize == max
    {
      maxPacketSize := max;
    }

    method SetMaxPacketSize(max: nat)
      modifies this
      ensures maxPacketSize == max
    {
      maxPacketSize := max;
    }

    method Decode(buf: BytesMut) returns (r: Result<Option<Msg>, CodecError>)
      modifies buf
      ensures match StepOf(maxPacketSize, old(buf.data))
              case Need => r == Ok(None) && buf.data == old(buf.data)
              case Got(msg, n) => r == Ok(Some(msg)) && buf.data == old(buf.data)[n..]
              case Fail(e, n) => r == Err(e) && buf.data == old(buf.data)[n..]
      ensures r == Ok(None) <==> Waits(maxPacketSize, old(buf.data))
      ensures r == Ok(None) ==> buf.data == old(buf.data) && |buf.data| < 5 + maxPacketSize
      ensures r == Err(ExceedsMaximum) <==> Oversized(maxPacketSize, old(buf.data))
      ensures r == Err(ExceedsMaximum) ==> buf.data == old(buf.data)
      ensures r.Ok? && r.value.Some? ==> Carries(maxPacketSize, old(buf.data), r.value.value, buf.data)
    {
      hide Varint.Decode, ParseFrame, Waits, Oversized, Carries;
      StepCases(maxPacketSize, buf.data);
      StepBegins(maxPacketSize, buf.data);
      if buf.data == [] {
        return Ok(None);
      }
      TypeNibble(buf.data[0]);
      var msgtype := Shr(buf.data[0], 4);
      var size := Varint.ReadSizeCheck(buf.data[1..]);
      if size.TooLong? {
        return Err(InvalidMessageLength);
      }
      if size.Incomplete? {
        return Ok(None);
      }
      var len, lensize := size.value, size.size;
      if len > maxPacketSize {
        return Err(ExceedsMaximum);
      }
      if len > Varint.MAX_LENGTH {
        return Err(ExceedsProtocolMaximum);
      }
      var frameLen := 1 + lensize + len;
      if |buf.data| < frameLen {
        return Ok(None);
      }
      var msg := buf.SplitTo(frameLen);
      var parsed := DecodeFrame(msgtype, msg);
      match parsed
      case Ok(m) => return Ok(Some(m));
      case Err(e) => return Err(e);
    }

    method Encode(message: Msg, buf: BytesMut)
      modifies buf
      ensures buf.data == old(buf.data) + Printed(message)
    {
      hide Frame, PutU16;
      var bytes: seq<Byte>;
      match message {
        case Publish(m) => bytes := PublishWire.ToBytes(m);
        case ConnAck(code, present) => bytes := AckWire.ConnAckToBytes(code, present);
        case SubAck(id, codes) => bytes := AckWire.SubAckToBytes(id, codes);
        case UnsubAck(id) => bytes := AckWire.AckToBytes(11, 0, id);
        case PingResp => bytes := AckWire.PingRespToBytes();
        case PubAck(id) => bytes := AckWire.AckToBytes(4, 0, id);
        case PubRec(id) => bytes := AckWire.AckToBytes(5, 0, id);
        case PubRel(id) => bytes := AckWire.AckToBytes(6, 2, id);
        case PubComp(id) => bytes := AckWire.AckToBytes(7, 0, id);
        case _ =>
          assert buf.data + [] == buf.data;
          return;
      }
      buf.Put(bytes);
    }
  }

  lemma TypeNibble(b: Byte)
    ensures Shr(b, 4) == b / 16
  {}

  method DecodeFrame(msgtype: nat, frame: seq<Byte>) returns (r: Result<Msg, CodecError>)
    requires frame != [] && msgtype == frame[0] / 16
    ensures r == ParseFrame(frame)
  {
    hide ConnectWire.Parse, PublishWire.Parse, SubscribeWire.ParseSubscribe, SubscribeWire.ParseUnsubscribe,
         AckWire.ParseAck, AckWire.ParsePingReq;
    match TypeOf(msgtype)
    case Some(TConnect) =>
      var m := ConnectWire.FromBytes(frame);
      r := Wrapped(m, c => MQTTMessage.Connect(c));
    case Some(TSubscribe) =>
      var m := SubscribeWire.SubscribeFromBytes(frame);
      r := Wrapped(m, (s: (U16, seq<(Str, Byte)>)) => MQTTMessage.Subscribe(s.0, s.1));
    case Some(TUnsubscribe) =>
      var m := SubscribeWire.UnsubscribeFromBytes(frame);
      r := Wrapped(m, (s: (U16, seq<Str>)) => MQTTMessage.Unsubscribe(s.0, s.1));
    case Some(TPublish) =>
      var m := PublishWire.FromBytes(frame);
      r := Wrapped(m, p => MQTTMessage.Publish(p));
    case Some(TPingReq) =>
      var m := AckWire.PingReqFromBytes(frame);
      r := Wrapped(m, (u: ()) => MQTTMessage.PingReq);
    case Some(TPubAck) =>
      var m := AckWire.AckFromBytes(frame, 0);
      r := Wrapped(m, id => MQTTMessage.PubAck(id));
    case Some(TPubRec) =>
      var m := AckWire.AckFromBytes(frame, 0);
      r := Wrapped(m, id => MQTTMessage.PubRec(id));
    case Some(TPubRel) =>
      var m := AckWire.AckFromBytes(frame, 2);
      r := Wrapped(m, id => MQTTMessage.PubRel(id));
    case Some(TPubComp) =>
      var m := AckWire.AckFromBytes(frame, 0);
      r := Wrapped(m, id => MQTTMessage.PubComp(id));
    case Some(TDisconnect) =>
      r := Ok(MQTTMessage.Disconnect);
    case _ =>
      r := Err(UnknownMessage);
  }
}
