/// The live danmaku WebSocket client: its 16-byte big-endian packet
/// header, the auth and heartbeat packets, the reading of binary frames
/// (plain or zlib-compressed batches of packets), the LIVE / PREPARING
/// status machine that reports each change once, and the reconnect
/// back-off of the connection loop.
module WsClient {
  import opened Common
  import opened Bytes
  import opened Json
  import LiveApi

  const HEADER_SIZE: nat := 16
  const PROTOCOL_VERSION: nat := 2
  const OP_HEARTBEAT: nat := 2
  const OP_POPULARITY: nat := 3
  const OP_NOTIFICATION: nat := 5
  const OP_AUTH: nat := 7
  const OP_AUTH_REPLY: nat := 8

  // ---------------------------------------------------------------------
  // The packet header
  // ---------------------------------------------------------------------

  /// Packet length (u32), header length (u16), protocol version (u16),
  /// operation (u32) and sequence id (u32), in that order.
  datatype Header = Header(packetLen: nat, headerLen: nat, version: nat, operation: nat, sequence: nat)

  predicate HeaderFits(h: Header)
  {
    h.packetLen < U32_LIMIT && h.headerLen < U16_LIMIT && h.version < U16_LIMIT
    && h.operation < U32_LIMIT && h.sequence < U32_LIMIT
  }

  function EncodeHeader(h: Header): (r: seq<Byte>)
    ensures |r| == HEADER_SIZE
  {
    BeBytes(h.packetLen, 4) + BeBytes(h.headerLen, 2) + BeBytes(h.version, 2)
    + BeBytes(h.operation, 4) + BeBytes(h.sequence, 4)
  }

  /// The five big-endian fields read from the start of a frame.
  function DecodeHeader(data: seq<Byte>): (h: Header)
    requires |data| >= HEADER_SIZE
    ensures HeaderFits(h)
  {
    Header(BeValue(data[0..4]), BeValue(data[4..6]), BeValue(data[6..8]), BeValue(data[8..12]), BeValue(data[12..16]))
  }

  /// Reading the header of an encoded packet recovers the values written.
  lemma HeaderRoundTrip(h: Header, body: seq<Byte>)
    requires HeaderFits(h)
    ensures DecodeHeader(EncodeHeader(h) + body) == h
  {
    var a, b, c, d, e := BeBytes(h.packetLen, 4), BeBytes(h.headerLen, 2), BeBytes(h.version, 2), BeBytes(h.operation, 4), BeBytes(h.sequence, 4);
    var p := EncodeHeader(h) + body;
    assert p == a + b + c + d + e + body;
    assert p[0..4] == a && p[4..6] == b && p[6..8] == c && p[8..12] == d && p[12..16] == e;
    BeValueOfBytes(h.packetLen, 4);
    BeValueOfBytes(h.headerLen, 2);
    BeValueOfBytes(h.version, 2);
    BeValueOfBytes(h.operation, 4);
    BeValueOfBytes(h.sequence, 4);
  }

  /// Writing back the header read from a frame recovers its first 16 bytes.
  lemma HeaderOfFrame(data: seq<Byte>)
    requires |data| >= HEADER_SIZE
    ensures EncodeHeader(DecodeHeader(data)) == data[..HEADER_SIZE]
  {
    BeBytesOfValue(data[0..4]);
    BeBytesOfValue(data[4..6]);
    BeBytesOfValue(data[6..8]);
    BeBytesOfValue(data[8..12]);
    BeBytesOfValue(data[12..16]);
    assert data[..16] == data[0..4] + data[4..6] + data[6..8] + data[8..12] + data[12..16];
  }

  // ---------------------------------------------------------------------
  // Packets sent
  // ---------------------------------------------------------------------

  /// The JSON body of the auth packet.
  function AuthBody(roomId: int, token: string): string
  {
    "{\"uid\":0,\"roomid\":" + IntToString(roomId)
    + ",\"protover\":2,\"platform\":\"web\",\"clientver\":\"2.0.11\",\"type\":2,\"key\":\"" + token + "\"}"
  }

  /// `build_auth_packet`: header (length 16 + body, computed in `u32`),
  /// version 2, operation 7, sequence 1, then the body's UTF-8 bytes.
  function BuildAuthPacket(roomId: int, token: string): seq<Byte>
  {
    Framed(OP_AUTH, Utf8(AuthBody(roomId, token)))
  }

  /// A header for `body` followed by `body`.
  function Framed(operation: nat, body: seq<Byte>): seq<Byte>
  {
    EncodeHeader(Header((HEADER_SIZE + |body|) % U32_LIMIT, HEADER_SIZE, PROTOCOL_VERSION, operation, 1)) + body
  }

  lemma FramedShape(operation: nat, body: seq<Byte>)
    requires operation < U32_LIMIT
    ensures var p := Framed(operation, body);
      |p| >= HEADER_SIZE
      && DecodeHeader(p) == Header(|p| % U32_LIMIT, HEADER_SIZE, PROTOCOL_VERSION, operation, 1)
      && (|p| < U32_LIMIT ==> DecodeHeader(p).packetLen == |p|)
      && p[HEADER_SIZE..] == body
  {
    var h := Header((HEADER_SIZE + |body|) % U32_LIMIT, HEADER_SIZE, PROTOCOL_VERSION, operation, 1);
    HeaderRoundTrip(h, body);
  }

  /// The auth packet's header reads back as written, its first field is
  /// its own length (below 4 GiB), and the body follows the header.
  lemma AuthPacketShape(roomId: int, token: string)
    ensures var p := BuildAuthPacket(roomId, token);
      |p| >= HEADER_SIZE
      && DecodeHeader(p) == Header(|p| % U32_LIMIT, HEADER_SIZE, PROTOCOL_VERSION, OP_AUTH, 1)
      && (|p| < U32_LIMIT ==> DecodeHeader(p).packetLen == |p|)
      && p[HEADER_SIZE..] == Utf8(AuthBody(roomId, token))
  {
    FramedShape(OP_AUTH, Utf8(AuthBody(roomId, token)));
  }

  /// `build_heartbeat_packet`: a bare header, length 16, operation 2.
  function BuildHeartbeatPacket(): seq<Byte>
  {
    EncodeHeader(Header(HEADER_SIZE, HEADER_SIZE, PROTOCOL_VERSION, OP_HEARTBEAT, 1))
  }

  /// The heartbeat is exactly these 16 bytes, and reads back as written.
  lemma HeartbeatPacketShape()
    ensures BuildHeartbeatPacket() == [0, 0, 0, 16, 0, 16, 0, 2, 0, 0, 0, 2, 0, 0, 0, 1]
    ensures DecodeHeader(BuildHeartbeatPacket()) == Header(16, 16, 2, OP_HEARTBEAT, 1)
  {
    var h := Header(HEADER_SIZE, HEADER_SIZE, PROTOCOL_VERSION, OP_HEARTBEAT, 1);
    SmallField(16);
    SmallField(2);
    SmallField(1);
    assert EncodeHeader(h) == [0, 0, 0, 16] + [0, 16] + [0, 2] + [0, 0, 0, 2] + [0, 0, 0, 1];
    HeaderRoundTrip(h, []);
    assert BuildHeartbeatPacket() + [] == BuildHeartbeatPacket();
  }

  /// A value below 256 written in two and in four bytes.
  lemma SmallField(v: Byte)
    ensures BeBytes(v, 2) == [0, v] && BeBytes(v, 4) == [0, 0, 0, v]
  {
    assert BeBytes(v, 1) == [v];
    assert BeBytes(0, 1) == [0] && BeBytes(0, 2) == [0, 0];
  }

  // ---------------------------------------------------------------------
  // Events and the status machine
  // ---------------------------------------------------------------------

  datatype Event =
    | LiveStatusChanged(roomId: int, status: LiveApi.LiveStatus, title: Option<string>)
    | ConnectionStatusChanged(roomId: int, connected: bool, error: Option<string>)
    | PopularityChanged(roomId: int, popularity: int)

  /// The last status seen on a connection and the events sent so far.
  datatype Listener = Listener(last: Option<LiveApi.LiveStatus>, events: seq<Event>)

  /// Decoders the frames pass through and that lie outside the core: zlib
  /// inflation, UTF-8 validation and JSON parsing.
  datatype Decoders = Decoders(
    inflate: seq<Byte> -> Option<seq<Byte>>,
    utf8: seq<Byte> -> Option<string>,
    parseJson: string -> Option<Json>)

  /// A status report: sent, and remembered, only when it differs from the
  /// last status seen.
  function Observe(st: Listener, roomId: int, status: LiveApi.LiveStatus, title: Option<string>): (r: Listener)
    ensures r.last == Some(status)
    ensures r.events == st.events + (if st.last == Some(status) then [] else [LiveStatusChanged(roomId, status, title)])
  {
    if st.last == Some(status) then st
    else Listener(Some(status), st.events + [LiveStatusChanged(roomId, status, title)])
  }

  /// `handle_notification_message`: LIVE, PREPARING and ROOM_CHANGE
  /// commands of a parsed message, or, for text that is not JSON, the
  /// same two commands found by substring.
  function Notification(st: Listener, roomId: int, text: string, dec: Decoders): Listener
  {
    match dec.parseJson(text)
    case Some(json) =>
      var cmd := AsStr(Get(json, "cmd"));
      if cmd == Some("LIVE") then
        Observe(st, roomId, LiveApi.Live, AsStr(GetIn(Get(json, "data"), "live_title")))
      else if cmd == Some("PREPARING") then
        Observe(st, roomId, LiveApi.NotLive, None)
      else if cmd == Some("ROOM_CHANGE") then
        var data := Get(json, "data");
        match AsU64(GetIn(data, "live_status"))
        case None => st
        case Some(v) => Observe(st, roomId, LiveApi.LiveStatusFrom(v), AsStr(GetIn(data, "title")))
      else st
    case None =>
      if Contains(text, "\"cmd\":\"LIVE\"") then Observe(st, roomId, LiveApi.Live, None)
      else if Contains(text, "\"cmd\":\"PREPARING\"") then Observe(st, roomId, LiveApi.NotLive, None)
      else st
  }

  /// A notification only ever appends, and it sends one event exactly
  /// when it changes the remembered status.
  lemma NotificationAppendsAtMostOne(st: Listener, roomId: int, text: string, dec: Decoders)
    ensures var r := Notification(st, roomId, text, dec);
      |st.events| <= |r.events| <= |st.events| + 1 && r.events[..|st.events|] == st.events
      && (|r.events| == |st.events| + 1 <==> r.last != st.last)
  {
  }

  /// Delivering the same notification twice sends its event once: the
  /// second delivery changes nothing.
  lemma NotificationIdempotent(st: Listener, roomId: int, text: string, dec: Decoders)
    ensures var once := Notification(st, roomId, text, dec);
      Notification(once, roomId, text, dec) == once
  {
  }

  /// ROOM_CHANGE reports live exactly for `live_status` 1.
  lemma RoomChangeStatus(st: Listener, roomId: int, text: string, dec: Decoders, json: Json, v: nat)
    requires dec.parseJson(text) == Some(json)
    requires AsStr(Get(json, "cmd")) == Some("ROOM_CHANGE")
    requires AsU64(GetIn(Get(json, "data"), "live_status")) == Some(v)
    ensures Notification(st, roomId, text, dec).last == Some(if v == 1 then LiveApi.Live else LiveApi.NotLive)
  {
  }

  // ---------------------------------------------------------------------
  // Reading frames
  // ---------------------------------------------------------------------

  /// The effect of reading a frame: the listener after it, and whether
  /// the read succeeded.
  datatype Outcome = Outcome(state: Listener, ok: bool)

  /// `handle_binary_message`, with the header length checked against the
  /// frame (see `BodySliceAsWritten`). Frames under 16 bytes are ignored;
  /// a version-2 notification is a zlib batch of packets read in turn,
  /// at most `depth` levels of nesting deep.
  function HandleFrame(data: seq<Byte>, st: Listener, roomId: int, dec: Decoders, depth: nat): Outcome
    decreases depth, 0
  {
    if |data| < HEADER_SIZE then Outcome(st, true)
    else
      var h := DecodeHeader(data);
      if h.headerLen > |data| then Outcome(st, false)
      else
        var body := data[h.headerLen..];
        if h.version == PROTOCOL_VERSION && h.operation == OP_NOTIFICATION then
          match dec.inflate(body)
          case None => Outcome(st, false)
          case Some(inner) =>
            if depth == 0 then Outcome(st, false) else PacketsFrom(inner, 0, st, roomId, dec, depth - 1)
        else if h.operation == OP_POPULARITY then
          if |body| >= 4 then Outcome(Listener(st.last, st.events + [PopularityChanged(roomId, BeValue(body[..4]))]), true)
          else Outcome(st, true)
        else if h.operation == OP_NOTIFICATION then
          match dec.utf8(body)
          case None => Outcome(st, true)
          case Some(text) => Outcome(Notification(st, roomId, text, dec), true)
        else Outcome(st, true)
  }

  /// The declared length of the packet at `pos`, when a header fits there.
  function DeclaredLength(data: seq<Byte>, pos: nat): nat
    requires pos + HEADER_SIZE <= |data|
  {
    BeValue(data[pos..pos + 4])
  }

  /// `parse_compressed_packets` from `pos` on, with a zero length read as
  /// the end of the batch (see `StepAsWritten`): stops when under 16 bytes
  /// remain or the declared length overruns; otherwise reads the packet
  /// and moves past it, and stops at the first packet that fails.
  function PacketsFrom(data: seq<Byte>, pos: nat, st: Listener, roomId: int, dec: Decoders, depth: nat): Outcome
    requires pos <= |data|
    decreases depth, 1, |data| - pos
  {
    if pos >= |data| || |data| - pos < HEADER_SIZE then Outcome(st, true)
    else
      var len := DeclaredLength(data, pos);
      if pos + len > |data| || len == 0 then Outcome(st, true)
      else
        var o := HandleFrame(data[pos..pos + len], st, roomId, dec, depth);
        if !o.ok then o else PacketsFrom(data, pos + len, o.state, roomId, dec, depth)
  }

  /// A frame under 16 bytes changes nothing.
  lemma ShortFrameIgnored(data: seq<Byte>, st: Listener, roomId: int, dec: Decoders, depth: nat)
    requires |data| < HEADER_SIZE
    ensures HandleFrame(data, st, roomId, dec, depth) == Outcome(st, true)
  {
  }

  /// An operation-3 frame with at least 4 body bytes reports the body's
  /// first big-endian u32 as the popularity, and nothing else changes.
  lemma PopularityReported(data: seq<Byte>, st: Listener, roomId: int, dec: Decoders, depth: nat)
    requires |data| >= HEADER_SIZE
    requires DecodeHeader(data).operation == OP_POPULARITY
    requires DecodeHeader(data).headerLen + 4 <= |data|
    ensures var k := DecodeHeader(data).headerLen;
      HandleFrame(data, st, roomId, dec, depth)
      == Outcome(Listener(st.last, st.events + [PopularityChanged(roomId, BeValue(data[k..k + 4]))]), true)
  {
    var k := DecodeHeader(data).headerLen;
    assert data[k..][..4] == data[k..k + 4];
  }

  /// Reading frames only ever appends events.
  lemma {:induction false} FrameAppends(data: seq<Byte>, st: Listener, roomId: int, dec: Decoders, depth: nat)
    ensures var o := HandleFrame(data, st, roomId, dec, depth);
      |st.events| <= |o.state.events| && o.state.events[..|st.events|] == st.events
    decreases depth, 0
  {
    if |data| >= HEADER_SIZE {
      var h := DecodeHeader(data);
      if h.headerLen <= |data| {
        var body := data[h.headerLen..];
        if h.version == PROTOCOL_VERSION && h.operation == OP_NOTIFICATION {
          var inner := dec.inflate(body);
          if inner.Some? && depth > 0 {
            PacketsAppend(inner.value, 0, st, roomId, dec, depth - 1);
          }
        } else if h.operation == OP_NOTIFICATION {
          var text := dec.utf8(body);
          if text.Some? {
            NotificationAppendsAtMostOne(st, roomId, text.value, dec);
          }
        }
      }
    }
  }

  lemma {:induction false} PacketsAppend(data: seq<Byte>, pos: nat, st: Listener, roomId: int, dec: Decoders, depth: nat)
    requires pos <= |data|
    ensures var o := PacketsFrom(data, pos, st, roomId, dec, depth);
      |st.events| <= |o.state.events| && o.state.events[..|st.events|] == st.events
    decreases depth, 1, |data| - pos
  {
    if pos < |data| && |data| - pos >= HEADER_SIZE {
      var len := DeclaredLength(data, pos);
      if pos + len <= |data| && len != 0 {
        var o := HandleFrame(data[pos..pos + len], st, roomId, dec, depth);
        FrameAppends(data[pos..pos + len], st, roomId, dec, depth);
        if o.ok {
          PacketsAppend(data, pos + len, o.state, roomId, dec, depth);
          var r := PacketsFrom(data, pos + len, o.state, roomId, dec, depth);
          assert r.state.events[..|st.events|] == r.state.events[..|o.state.events|][..|st.events|];
        }
      }
    }
  }

  // ---------------------------------------------------------------------
  // The source as written
  // ---------------------------------------------------------------------

  /// The body slice `&data[header_len..]` as written: it panics when the
  /// header declares more bytes than the frame has.
  datatype Slice = Sliced(body: seq<Byte>) | Panicked

  function BodySliceAsWritten(data: seq<Byte>): (r: Slice)
    requires |data| >= HEADER_SIZE
    ensures r.Panicked? <==> DecodeHeader(data).headerLen > |data|
  {
    var k := DecodeHeader(data).headerLen;
    if k <= |data| then Sliced(data[k..]) else Panicked
  }

  /// A 16-byte frame declaring a 17-byte header reaches the panicking
  /// slice, while the checked reader rejects it and changes nothing.
  lemma OverlongHeaderPanics(st: Listener, roomId: int, dec: Decoders, depth: nat)
    ensures var frame := EncodeHeader(Header(16, 17, 1, OP_POPULARITY, 1));
      BodySliceAsWritten(frame) == Panicked
      && HandleFrame(frame, st, roomId, dec, depth) == Outcome(st, false)
  {
    var h := Header(16, 17, 1, OP_POPULARITY, 1);
    HeaderRoundTrip(h, []);
    assert EncodeHeader(h) + [] == EncodeHeader(h);
  }

  /// One turn of the batch loop as written: where the cursor goes next,
  /// or nothing when the loop breaks. A zero length is not checked.
  function StepAsWritten(data: seq<Byte>, pos: nat): Option<nat>
  {
    if pos >= |data| || |data| - pos < HEADER_SIZE then None
    else
      var len := DeclaredLength(data, pos);
      if pos + len > |data| then None else Some(pos + len)
  }

  /// A batch that starts with a zero length: the loop as written comes
  /// back to the same position for ever, while the checked loop stops.
  lemma ZeroLengthStallsAsWritten(st: Listener, roomId: int, dec: Decoders, depth: nat)
    ensures var batch := EncodeHeader(Header(0, 16, 2, OP_POPULARITY, 1));
      StepAsWritten(batch, 0) == Some(0)
      && PacketsFrom(batch, 0, st, roomId, dec, depth) == Outcome(st, true)
  {
    var h := Header(0, 16, 2, OP_POPULARITY, 1);
    var batch := EncodeHeader(h);
    HeaderRoundTrip(h, []);
    assert batch + [] == batch;
    assert DeclaredLength(batch, 0) == DecodeHeader(batch).packetLen;
  }

  /// Every turn of the checked loop that goes on moves the cursor forward.
  lemma CheckedStepAdvances(data: seq<Byte>, pos: nat)
    requires StepAsWritten(data, pos).Some? && DeclaredLength(data, pos) != 0
    ensures StepAsWritten(data, pos).value > pos
  {
  }

  // ---------------------------------------------------------------------
  // The connection's reader
  // ---------------------------------------------------------------------

  class Connection {
    const roomId: int
    var lastLiveStatus: Option<LiveApi.LiveStatus>
    var events: seq<Event>

    function State(): Listener
      reads this
    {
      Listener(lastLiveStatus, events)
    }

    constructor (room: int)
      ensures roomId == room && lastLiveStatus.None? && events == []
    {
      roomId := room;
      lastLiveStatus := None;
      events := [];
    }

    /// `handle_binary_message` on one frame.
    method HandleBinaryMessage(data: seq<Byte>, dec: Decoders, depth: nat) returns (r: Result<()>)
      modifies this
      ensures HandleFrame(data, old(State()), roomId, dec, depth) == Outcome(State(), r.Ok?)
      decreases depth, 0
    {
      if |data| < HEADER_SIZE {
        return Ok(());
      }
      var h := DecodeHeader(data);
      if h.headerLen > |data| {
        return Err("包头长度超出数据范围");
      }
      var body := data[h.headerLen..];
      if h.version == PROTOCOL_VERSION && h.operation == OP_NOTIFICATION {
        var inner := dec.inflate(body);
        if inner.None? {
          return Err("zlib解压失败");
        }
        if depth == 0 {
          return Err("压缩包嵌套过深");
        }
        r := ParseCompressedPackets(inner.value, dec, depth - 1);
        return;
      }
      if h.operation == OP_POPULARITY {
        if |body| >= 4 {
          events := events + [PopularityChanged(roomId, BeValue(body[..4]))];
        }
      } else if h.operation == OP_NOTIFICATION {
        var text := dec.utf8(body);
        if text.Some? {
          HandleNotificationMessage(text.value, dec);
        }
      }
      return Ok(());
    }

    /// `parse_compressed_packets` over a decompressed batch.
    method ParseCompressedPackets(data: seq<Byte>, dec: Decoders, depth: nat) returns (r: Result<()>)
      modifies this
      ensures PacketsFrom(data, 0, old(State()), roomId, dec, depth) == Outcome(State(), r.Ok?)
      decreases depth, 1
    {
      var pos := 0;
      while pos < |data|
        invariant pos <= |data|
        invariant PacketsFrom(data, 0, old(State()), roomId, dec, depth) == PacketsFrom(data, pos, State(), roomId, dec, depth)
        decreases |data| - pos
      {
        if |data| - pos < HEADER_SIZE {
          break;
        }
        var len := BeValue(data[pos..pos + 4]);
        if pos + len > |data| || len == 0 {
          break;
        }
        r := HandleBinaryMessage(data[pos..pos + len], dec, depth);
        if r.Err? {
          return;
        }
        pos := pos + len;
      }
      return Ok(());
    }

    /// `handle_notification_message` on a message's text.
    method HandleNotificationMessage(text: string, dec: Decoders)
      modifies this
      ensures State() == Notification(old(State()), roomId, text, dec)
    {
      var status: LiveApi.LiveStatus;
      var title: Option<string> := None;
      match dec.parseJson(text) {
        case Some(json) =>
          var cmd := AsStr(Get(json, "cmd"));
          if cmd == Some("LIVE") {
            status := LiveApi.Live;
            title := AsStr(GetIn(Get(json, "data"), "live_title"));
          } else if cmd == Some("PREPARING") {
            status := LiveApi.NotLive;
          } else if cmd == Some("ROOM_CHANGE") {
            var data := Get(json, "data");
            var liveStatus := AsU64(GetIn(data, "live_status"));
            if liveStatus.None? {
              return;
            }
            status := LiveApi.LiveStatusFrom(liveStatus.value);
            title := AsStr(GetIn(data, "title"));
          } else {
            return;
          }
        case None =>
          if Contains(text, "\"cmd\":\"LIVE\"") {
            status := LiveApi.Live;
          } else if Contains(text, "\"cmd\":\"PREPARING\"") {
            status := LiveApi.NotLive;
          } else {
            return;
          }
      }
      if lastLiveStatus != Some(status) {
        lastLiveStatus := Some(status);
        events := events + [LiveStatusChanged(roomId, status, title)];
      }
    }
  }

  // ---------------------------------------------------------------------
  // Reconnecting
  // ---------------------------------------------------------------------

  const MAX_RETRIES: nat := 10

  function Pow2(n: nat): (r: nat)
    ensures r >= 1
  {
    if n == 0 then 1 else 2 * Pow2(n - 1)
  }

  /// The pause after the `n`-th consecutive failure, in seconds.
  function BackoffSeconds(n: nat): nat
  {
    Pow2(if n < 6 then n else 6)
  }

  /// `connection_loop`: each attempt's outcome comes from `attempt`. A
  /// clean end stops the loop; each failure sends a disconnect event and,
  /// unless it is the tenth, is followed by a pause.
  method ConnectionLoop(roomId: int, attempt: nat -> Result<()>) returns (sent: seq<Event>, pauses: seq<nat>, attempts: nat)
    ensures 1 <= attempts <= MAX_RETRIES
    ensures forall k :: 0 <= k < attempts - 1 ==> attempt(k).Err?
    ensures attempt(attempts - 1).Ok? || attempts == MAX_RETRIES
    ensures var failures := if attempt(attempts - 1).Ok? then attempts - 1 else attempts;
      |sent| == failures
      && (forall k :: 0 <= k < failures ==> sent[k] == ConnectionStatusChanged(roomId, false, Some(attempt(k).error)))
      && |pauses| == (if failures == MAX_RETRIES then failures - 1 else failures)
    ensures forall k :: 0 <= k < |pauses| ==> pauses[k] == BackoffSeconds(k + 1)
  {
    var retryCount := 0;
    sent, pauses, attempts := [], [], 0;
    while true
      invariant retryCount == attempts < MAX_RETRIES
      invariant forall k :: 0 <= k < attempts ==> attempt(k).Err?
      invariant |sent| == attempts && |pauses| == attempts
      invariant forall k :: 0 <= k < attempts ==> sent[k] == ConnectionStatusChanged(roomId, false, Some(attempt(k).error))
      invariant forall k :: 0 <= k < |pauses| ==> pauses[k] == BackoffSeconds(k + 1)
      decreases MAX_RETRIES - retryCount
    {
      var outcome := attempt(attempts);
      attempts := attempts + 1;
      if outcome.Ok? {
        return;
      }
      retryCount := retryCount + 1;
      sent := sent + [ConnectionStatusChanged(roomId, false, Some(outcome.error))];
      if retryCount >= MAX_RETRIES {
        return;
      }
      pauses := pauses + [BackoffSeconds(retryCount)];
    }
  }

  /// The pauses of a full run of failures: 2, 4, ..., 64, then 64 three
  /// more times, 318 seconds in all.
  lemma BackoffSchedule()
    ensures seq(MAX_RETRIES - 1, k requires 0 <= k < MAX_RETRIES - 1 => BackoffSeconds(k + 1))
      == [2, 4, 8, 16, 32, 64, 64, 64, 64]
    ensures forall n: nat :: BackoffSeconds(n) <= 64
  {
    assert Pow2(6) == 64 by {
      assert Pow2(1) == 2;
      assert Pow2(3) == 8;
    }
  }
}
