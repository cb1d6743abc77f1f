/** The netlink datagram walk of the process connector. */
module Netlink {
  import opened Wrappers
  import Types
  import opened Bytes

  // Each message starts with the header of section 2.3.2 of RFC 3549: length, type, flags, sequence
  // number and sender.
  const NL_HDR: nat := 16
  const CN_HDR: nat := 20
  const PREFIX: nat := 36

  const NLMSG_DONE: u16 := 3
  const CN_IDX_PROC: u32 := 1
  const CN_VAL_PROC: u32 := 1

  const EVENT_FORK: u32 := 0x1
  const EVENT_EXEC: u32 := 0x2
  const EVENT_UID: u32 := 0x4
  const EVENT_COMM: u32 := 0x200
  const EVENT_EXIT: u32 := 0x8000_0000

  /** What the decoder makes of a message; a comm is the bytes of a UTF-8 string. */
  datatype DecodedEvent =
    | Fork(parentPid: u32, childPid: u32, childTgid: u32)
    | Exec(pid: u32)
    | Exit(pid: u32, exitCode: u32)
    | Comm(pid: u32, comm: seq<byte>)
    | Uid(pid: u32)

  // ------------------------------------------------------------------------------------------
  // Decoding
  // ------------------------------------------------------------------------------------------

  predicate Known(what: u32) {
    what == EVENT_FORK || what == EVENT_EXEC || what == EVENT_UID || what == EVENT_COMM || what == EVENT_EXIT
  }

  /** How many bytes of event data the decoder wants after the event header. */
  function DataSize(what: u32): nat {
    if what == EVENT_FORK then 16
    else if what == EVENT_EXEC then 8
    else if what == EVENT_UID then 16
    else 24
  }

  function TrimNuls(b: seq<byte>): seq<byte> {
    if b != [] && b[|b| - 1] == 0 then TrimNuls(b[..|b| - 1]) else b
  }

  /** The event data, which may be followed by anything. */
  function ParseData(what: u32, data: seq<byte>): Option<DecodedEvent> {
    if !Known(what) || |data| < DataSize(what) then None
    else if what == EVENT_FORK then Some(Fork(Le32(data, 0), Le32(data, 8), Le32(data, 12)))
    else if what == EVENT_EXEC then Some(Exec(Le32(data, 0)))
    else if what == EVENT_EXIT then Some(Exit(Le32(data, 0), Le32(data, 8)))
    else if what == EVENT_COMM then
      var raw := data[8..24];
      Some(Comm(Le32(data, 0), if ValidUtf8(raw) then TrimNuls(raw) else []))
    else Some(Uid(Le32(data, 0)))
  }

  function ParseConnector(buf: seq<byte>): Option<DecodedEvent> {
    if |buf| < PREFIX then None
    else if Le32(buf, 0) != CN_IDX_PROC || Le32(buf, 4) != CN_VAL_PROC then None
    else ParseData(Le32(buf, CN_HDR), buf[PREFIX..])
  }

  function Align(n: nat): (r: nat)
    ensures n <= r < n + 4 && r % 4 == 0
  {
    (n + 3) / 4 * 4
  }

  /** The message at the front of `rest`: how far to advance, and the event it carries. */
  function ReadMessage(rest: seq<byte>): Option<(nat, seq<DecodedEvent>)> {
    if |rest| < NL_HDR then None
    else
      var len := Le32(rest, 0);
      if len < NL_HDR || len > |rest| then None
      else
        var event := if Le16(rest, 4) == NLMSG_DONE then ParseConnector(rest[NL_HDR..]) else None;
        Some((Align(len), if event.Some? then [event.value] else []))
  }

  type Reader = seq<byte> -> Option<(nat, seq<DecodedEvent>)>

  /** The events found by reading one message after the other. */
  function WalkWith(rest: seq<byte>, read: Reader): seq<DecodedEvent>
    decreases |rest|
  {
    match read(rest)
    case None => []
    case Some((n, found)) => found + if 0 < n <= |rest| then WalkWith(rest[n..], read) else []
  }

  function Walk(data: seq<byte>): seq<DecodedEvent> {
    WalkWith(data, ReadMessage)
  }

  function WalkFrom(data: seq<byte>, offset: nat, read: Reader): seq<DecodedEvent> {
    if offset <= |data| then WalkWith(data[offset..], read) else []
  }

  lemma WalkOn(data: seq<byte>, offset: nat, read: Reader, n: nat, found: seq<DecodedEvent>)
    requires offset <= |data| && read(data[offset..]) == Some((n, found)) && n > 0
    ensures WalkFrom(data, offset, read) == found + WalkFrom(data, offset + n, read)
  {
    if offset + n <= |data| { assert data[offset..][n..] == data[offset + n..]; }
  }

  /** The loop of the listener: the offset always advances, and stays within reach of the data. */
  method WalkLoop(data: seq<byte>, read: Reader) returns (events: seq<DecodedEvent>)
    requires forall rest: seq<byte> :: read(rest).Some? ==> read(rest).value.0 > 0
    ensures events == WalkWith(data, read)
  {
    events := [];
    var offset: nat := 0;
    assert data[0..] == data;
    while offset <= |data|
      invariant events + WalkFrom(data, offset, read) == WalkWith(data, read)
      decreases |data| - offset
    {
      var message := read(data[offset..]);
      if message.None? { break; }
      var (n, found) := message.value;
      WalkOn(data, offset, read, n, found);
      Types.Regroup(events, found, WalkFrom(data, offset + n, read));
      events := events + found;
      offset := offset + n;
    }
  }

  /** On arbitrary bytes: every read is in bounds and the walk comes to an end. */
  method WalkDatagram(data: seq<byte>) returns (events: seq<DecodedEvent>)
    ensures events == Walk(data)
  {
    events := WalkLoop(data, ReadMessage);
  }

  // ------------------------------------------------------------------------------------------
  // Frames
  // ------------------------------------------------------------------------------------------

  /** A message: its header fields, its body, and the padding up to a multiple of four bytes. */
  datatype Frame = Frame(kind: u16, flags: u16, seqNo: u32, sender: u32, body: seq<byte>, padding: seq<byte>) {
    ghost predicate WellFormed() {
      NL_HDR + |body| < 0x1_0000_0000 && NL_HDR + |body| + |padding| == Align(NL_HDR + |body|)
    }

    ghost function Encoded(): seq<byte> {
      Header() + body + padding
    }

    ghost function Header(): (r: seq<byte>)
      ensures |r| == NL_HDR
    {
      Words([(NL_HDR + |body|) % 0x1_0000_0000, kind + 0x1_0000 * flags, seqNo, sender])
    }

    /** The event the frame carries. */
    function Event(): seq<DecodedEvent> {
      var e := if kind == NLMSG_DONE then ParseConnector(body) else None;
      if e.Some? then [e.value] else []
    }
  }

  ghost function EncodeAll(frames: seq<Frame>): seq<byte> {
    if frames == [] then [] else frames[0].Encoded() + EncodeAll(frames[1..])
  }

  function EventsOf(frames: seq<Frame>): seq<DecodedEvent> {
    if frames == [] then [] else frames[0].Event() + EventsOf(frames[1..])
  }

  /** Whatever follows the encoding of `f`, it is read as one message with the event of `f`. */
  ghost predicate ReadsAs(f: Frame, read: Reader) {
    |f.Encoded()| > 0 && forall rest: seq<byte> :: read(f.Encoded() + rest) == Some((|f.Encoded()|, f.Event()))
  }

  lemma WalkOneFrame(f: Frame, rest: seq<byte>, read: Reader)
    requires ReadsAs(f, read)
    ensures WalkWith(f.Encoded() + rest, read) == f.Event() + WalkWith(rest, read)
  {
    assert (f.Encoded() + rest)[|f.Encoded()|..] == rest;
  }

  lemma {:induction false} WalkFrames(frames: seq<Frame>, rest: seq<byte>, read: Reader)
    requires forall f <- frames :: ReadsAs(f, read)
    ensures WalkWith(EncodeAll(frames) + rest, read) == EventsOf(frames) + WalkWith(rest, read)
    decreases |frames|
  {
    if frames == [] {
      assert [] + rest == rest;
    } else {
      var f, others := frames[0], frames[1..];
      WalkOneFrame(f, EncodeAll(others) + rest, read);
      WalkFrames(others, rest, read);
      Types.Regroup(f.Encoded(), EncodeAll(others), rest);
      Types.Regroup(f.Event(), EventsOf(others), WalkWith(rest, read));
    }
  }

  lemma HeaderIsRead(f: Frame, rest: seq<byte>)
    requires f.WellFormed()
    ensures var data := f.Header() + rest;
            Le32(data, 0) == NL_HDR + |f.body| && Le16(data, 4) == f.kind
  {
    var len, kindFlags := (NL_HDR + |f.body|) % 0x1_0000_0000, f.kind + 0x1_0000 * f.flags;
    assert len == NL_HDR + |f.body|;
    LowPart(f.kind, f.flags);
    var ws := [len, kindFlags, f.seqNo, f.sender];
    WordAt(ws, 0);
    WordAt(ws, 1);
    ReadFront(Words(ws), rest, 0);
    ReadFront(Words(ws), rest, 4);
    LowHalf(Words(ws), 4);
  }

  // ------------------------------------------------------------------------------------------
  // What the decoder reads beyond the end of a message
  // ------------------------------------------------------------------------------------------

  /** Byte `i` of every message with the ids of the process connector and event `what`. */
  ghost function Mark(what: u32, i: nat): byte {
    if i == 0 || i == 4 then 1
    else if i < 20 || i >= 24 then 0
    else Bytes32(what)[i - 20]
  }

  predicate Marked(i: nat) {
    i < 8 || 20 <= i < 24
  }

  /** As far as `body` goes, it could be the front of an event of kind `what`. */
  ghost predicate Compatible(body: seq<byte>, what: u32) {
    forall i: nat | i < |body| && i < 24 :: Marked(i) ==> body[i] == Mark(what, i)
  }

  /** A body that looks like an event brings all the data of that event. */
  ghost predicate Complete(body: seq<byte>) {
    forall what: u32 :: Known(what) && Compatible(body, what) ==> |body| >= PREFIX + DataSize(what)
  }

  /** The ids and the event kind, read as words or as bytes. */
  lemma MarksAreWords(buf: seq<byte>, what: u32)
    requires |buf| >= 24
    ensures Compatible(buf, what) <==> Le32(buf, 0) == CN_IDX_PROC && Le32(buf, 4) == CN_VAL_PROC && Le32(buf, CN_HDR) == what
  {
    var w := Bytes32(what);
    if Compatible(buf, what) {
      assert buf[0] == Mark(what, 0) && buf[1] == Mark(what, 1) && buf[2] == Mark(what, 2) && buf[3] == Mark(what, 3);
      assert buf[4] == Mark(what, 4) && buf[5] == Mark(what, 5) && buf[6] == Mark(what, 6) && buf[7] == Mark(what, 7);
      assert buf[20] == Mark(what, 20) && buf[21] == Mark(what, 21) && buf[22] == Mark(what, 22) && buf[23] == Mark(what, 23);
      assert Le32(w, 0) == what;
    } else {
      var i: nat :| i < 24 && Marked(i) && buf[i] != Mark(what, i);
      if i >= 20 && Le32(buf, CN_HDR) == what { WordsDetermineBytes(buf, CN_HDR, w, 0); }
    }
  }

  lemma SameDigits(x: int, xs: int, y: int, ys: int)
    requires 0 <= x < 0x100 && 0 <= y < 0x100 && x + 0x100 * xs == y + 0x100 * ys
    ensures x == y && xs == ys
  {
  }

  lemma WordsDetermineBytes(a: seq<byte>, i: nat, b: seq<byte>, j: nat)
    requires i + 4 <= |a| && j + 4 <= |b| && Le32(a, i) == Le32(b, j)
    ensures a[i] == b[j] && a[i + 1] == b[j + 1] && a[i + 2] == b[j + 2] && a[i + 3] == b[j + 3]
  {
    SameDigits(a[i] as int, a[i + 1] as int + 0x100 * a[i + 2] as int + 0x1_0000 * a[i + 3] as int,
               b[j] as int, b[j + 1] as int + 0x100 * b[j + 2] as int + 0x1_0000 * b[j + 3] as int);
    SameDigits(a[i + 1] as int, a[i + 2] as int + 0x100 * a[i + 3] as int,
               b[j + 1] as int, b[j + 2] as int + 0x100 * b[j + 3] as int);
    SameDigits(a[i + 2] as int, a[i + 3] as int, b[j + 2] as int, b[j + 3] as int);
  }

  lemma CompleteIgnoresRest(body: seq<byte>, rest: seq<byte>)
    requires Complete(body)
    ensures ParseConnector(body + rest) == ParseConnector(body)
  {
    var buf := body + rest;
    if |buf| >= PREFIX {
      var what := Le32(buf, CN_HDR);
      MarksAreWords(buf, what);
      if Known(what) && Compatible(buf, what) {
        assert Compatible(body, what);
        assert |body| >= PREFIX + DataSize(what);
        assert buf[PREFIX..] == body[PREFIX..] + rest;
        if what == EVENT_COMM { assert buf[PREFIX..][8..24] == body[PREFIX..][8..24]; }
      } else if |body| >= PREFIX {
        assert Le32(body, CN_HDR) == what;
      }
    }
  }

  /** Bytes that complete `body` to an event of kind `what` with zero data. */
  ghost function Completion(body: seq<byte>, what: u32): (r: seq<byte>)
    requires |body| <= PREFIX + DataSize(what)
    ensures |body + r| == PREFIX + DataSize(what)
  {
    seq(PREFIX + DataSize(what) - |body|, i requires i >= 0 => Mark(what, |body| + i))
  }

  lemma CompletionDecodes(body: seq<byte>, what: u32)
    requires Known(what) && Compatible(body, what) && |body| < PREFIX + DataSize(what)
    ensures ParseConnector(body).None? && ParseConnector(body + Completion(body, what)).Some?
  {
    var buf := body + Completion(body, what);
    assert Compatible(buf, what);
    MarksAreWords(buf, what);
    if |body| >= PREFIX { MarksAreWords(body, what); }
  }

  /**
   * The decoder is handed all that follows a header.  What follows the message makes no difference
   * exactly when the body is complete: a shorter one is completed from the next message.
   */
  lemma RestIgnoredIffComplete(body: seq<byte>)
    ensures Complete(body) <==> forall rest: seq<byte> :: ParseConnector(body + rest) == ParseConnector(body)
  {
    if Complete(body) {
      forall rest: seq<byte> ensures ParseConnector(body + rest) == ParseConnector(body) { CompleteIgnoresRest(body, rest); }
    } else {
      var what: u32 :| Known(what) && Compatible(body, what) && |body| < PREFIX + DataSize(what);
      CompletionDecodes(body, what);
    }
  }

  /** A frame that is decoded on its own, whatever follows it. */
  ghost predicate SelfContained(f: Frame) {
    f.WellFormed() && (f.kind == NLMSG_DONE ==> Complete(f.body))
  }

  lemma FrameIsRead(f: Frame, rest: seq<byte>)
    requires SelfContained(f)
    ensures ReadMessage(f.Encoded() + rest) == Some((|f.Encoded()|, f.Event()))
  {
    var header, after := f.Header(), f.padding + rest;
    var data := f.Encoded() + rest;
    assert data == header + (f.body + after);
    HeaderIsRead(f, f.body + after);
    assert data[NL_HDR..] == f.body + after;
    if f.kind == NLMSG_DONE { CompleteIgnoresRest(f.body, after); }
  }

  /**
   * For every sequence of self-contained frames, whatever follows them, the walk gives the events
   * of the frames in order and goes on with what follows.
   */
  lemma WalkInvertsEncoding(frames: seq<Frame>, rest: seq<byte>)
    requires forall f <- frames :: SelfContained(f)
    ensures Walk(EncodeAll(frames) + rest) == EventsOf(frames) + Walk(rest)
  {
    forall f | f in frames ensures ReadsAs(f, ReadMessage) {
      forall rest: seq<byte> ensures ReadMessage(f.Encoded() + rest) == Some((|f.Encoded()|, f.Event())) { FrameIsRead(f, rest); }
    }
    WalkFrames(frames, rest, ReadMessage);
  }

  // ------------------------------------------------------------------------------------------
  // Events
  // ------------------------------------------------------------------------------------------

  /**
   * What the decoder skips, which differs from message to message: fields of the wire structures,
   * the bytes that follow the event data inside the message - the kernel sends every event in a
   * structure of the same size - and the padding after it.
   */
  datatype Unread = Unread(
    flags: u16, nlSeqNo: u32, sender: u32, seqNo: u32, ack: u32, lenFlags: u32, cpu: u32, timeLow: u32, timeHigh: u32,
    a: u32, b: u32, c: u32, d: u32, tail: seq<byte>, padding: seq<byte>)

  function WhatOf(e: DecodedEvent): u32 {
    match e
    case Fork(_, _, _) => EVENT_FORK
    case Exec(_) => EVENT_EXEC
    case Exit(_, _) => EVENT_EXIT
    case Comm(_, _) => EVENT_COMM
    case Uid(_) => EVENT_UID
  }

  /** A comm as the kernel can send it: at most 16 bytes of UTF-8, not ending in NUL. */
  ghost predicate Sendable(e: DecodedEvent) {
    e.Comm? ==> |e.comm| <= 16 && ValidUtf8(e.comm) && (e.comm != [] ==> e.comm[|e.comm| - 1] != 0)
  }

  ghost function Data(e: DecodedEvent, u: Unread): (r: seq<byte>)
    requires e.Comm? ==> |e.comm| <= 16
    ensures |r| == DataSize(WhatOf(e))
  {
    match e
    case Fork(parent, child, tgid) => Words([parent, u.a, child, tgid])
    case Exec(pid) => Words([pid, u.a])
    case Exit(pid, code) => Words([pid, u.a, code, u.b, u.c, u.d])
    case Comm(pid, comm) => Words([pid, u.a]) + (comm + Zeros(16 - |comm|))
    case Uid(pid) => Words([pid, u.a, u.b, u.c])
  }

  ghost function Front(what: u32, u: Unread): (r: seq<byte>)
    ensures |r| == PREFIX
  {
    Words([CN_IDX_PROC, CN_VAL_PROC, u.seqNo, u.ack, u.lenFlags, what, u.cpu, u.timeLow, u.timeHigh])
  }

  lemma {:induction false} TrimZeros(b: seq<byte>, n: nat)
    requires b != [] ==> b[|b| - 1] != 0
    ensures TrimNuls(b + Zeros(n)) == b
    decreases n
  {
    if n == 0 {
      assert b + Zeros(0) == b;
    } else {
      var s := b + Zeros(n);
      assert s[..|s| - 1] == b + Zeros(n - 1);
      TrimZeros(b, n - 1);
    }
  }

  lemma CommRoundTrip(e: DecodedEvent, u: Unread)
    requires Sendable(e) && e.Comm?
    ensures ParseData(WhatOf(e), Data(e, u)) == Some(e)
  {
    var padded := e.comm + Zeros(16 - |e.comm|);
    WordAt([e.pid, u.a], 0);
    ReadFront(Words([e.pid, u.a]), padded, 0);
    assert Data(e, u)[8..24] == padded;
    AsciiIsValid(Zeros(16 - |e.comm|));
    ValidConcat(e.comm, Zeros(16 - |e.comm|));
    TrimZeros(e.comm, 16 - |e.comm|);
  }

  lemma DataRoundTrip(e: DecodedEvent, u: Unread)
    requires Sendable(e)
    ensures ParseData(WhatOf(e), Data(e, u)) == Some(e)
  {
    match e {
      case Fork(parent, child, tgid) =>
        var ws := [parent, u.a, child, tgid];
        WordAt(ws, 0);
        WordAt(ws, 2);
        WordAt(ws, 3);
      case Exec(pid) => WordAt([pid, u.a], 0);
      case Exit(pid, code) =>
        var ws := [pid, u.a, code, u.b, u.c, u.d];
        WordAt(ws, 0);
        WordAt(ws, 2);
      case Comm(pid, comm) => CommRoundTrip(e, u);
      case Uid(pid) => WordAt([pid, u.a, u.b, u.c], 0);
    }
  }

  lemma FrontWords(what: u32, u: Unread, data: seq<byte>)
    ensures var buf := Front(what, u) + data;
            && Le32(buf, 0) == CN_IDX_PROC && Le32(buf, 4) == CN_VAL_PROC && Le32(buf, CN_HDR) == what
            && buf[PREFIX..] == data
  {
    var ws := [CN_IDX_PROC, CN_VAL_PROC, u.seqNo, u.ack, u.lenFlags, what, u.cpu, u.timeLow, u.timeHigh];
    WordAt(ws, 0);
    WordAt(ws, 1);
    WordAt(ws, 5);
    ReadFront(Words(ws), data, 0);
    ReadFront(Words(ws), data, 4);
    ReadFront(Words(ws), data, CN_HDR);
  }

  lemma FrontIsRead(what: u32, u: Unread, data: seq<byte>)
    ensures ParseConnector(Front(what, u) + data) == ParseData(what, data)
    ensures Known(what) && |data| >= DataSize(what) ==> Complete(Front(what, u) + data)
  {
    FrontWords(what, u, data);
    var buf := Front(what, u) + data;
    forall other: u32 | Known(other) && Compatible(buf, other) ensures other == what { MarksAreWords(buf, other); }
  }

  /** The body of a message that carries `e`, whatever follows the event data. */
  ghost function BodyOf(e: DecodedEvent, u: Unread): seq<byte>
    requires e.Comm? ==> |e.comm| <= 16
  {
    Front(WhatOf(e), u) + Data(e, u) + u.tail
  }

  lemma StaysComplete(body: seq<byte>, tail: seq<byte>)
    requires Complete(body) && |body| >= 24
    ensures Complete(body + tail)
  {
    forall what: u32 | Known(what) && Compatible(body + tail, what) ensures |body + tail| >= PREFIX + DataSize(what) {
      forall i: nat | i < |body| && i < 24 && Marked(i) ensures body[i] == Mark(what, i) { assert (body + tail)[i] == body[i]; }
      assert Compatible(body, what);
    }
  }

  /** Decoding gives back the event that was sent. */
  lemma DecodeInvertsEncode(e: DecodedEvent, u: Unread)
    requires Sendable(e)
    ensures ParseConnector(BodyOf(e, u)) == Some(e) && Complete(BodyOf(e, u))
  {
    var body := Front(WhatOf(e), u) + Data(e, u);
    DataRoundTrip(e, u);
    FrontIsRead(WhatOf(e), u, Data(e, u));
    CompleteIgnoresRest(body, u.tail);
    StaysComplete(body, u.tail);
  }

  /** The message fits its length field, and is padded to a multiple of four bytes. */
  ghost predicate Fitting(e: DecodedEvent, u: Unread) {
    Sendable(e) && FrameOf(e, u).WellFormed()
  }

  ghost function FrameOf(e: DecodedEvent, u: Unread): Frame
    requires Sendable(e)
  {
    Frame(NLMSG_DONE, u.flags, u.nlSeqNo, u.sender, BodyOf(e, u), u.padding)
  }

  /** One frame for each event, with unread fields of its own. */
  ghost function FramesOf(events: seq<DecodedEvent>, us: seq<Unread>): seq<Frame>
    requires |us| == |events| && forall i :: 0 <= i < |us| ==> Fitting(events[i], us[i])
  {
    if events == [] then []
    else
      assert Fitting(events[0], us[0]);
      [FrameOf(events[0], us[0])] + FramesOf(events[1..], us[1..])
  }

  lemma FrameRoundTrip(e: DecodedEvent, u: Unread)
    requires Fitting(e, u)
    ensures SelfContained(FrameOf(e, u)) && FrameOf(e, u).Event() == [e]
  {
    DecodeInvertsEncode(e, u);
  }

  /** One more frame in front, with its one event. */
  lemma FrameInFront(f: Frame, frames: seq<Frame>, e: DecodedEvent, events: seq<DecodedEvent>)
    requires SelfContained(f) && f.Event() == [e]
    requires (forall g <- frames :: SelfContained(g)) && EventsOf(frames) == events
    ensures (forall g <- [f] + frames :: SelfContained(g)) && EventsOf([f] + frames) == [e] + events
  {
    assert ([f] + frames)[1..] == frames;
  }

  lemma {:induction false} FramesAreSelfContained(events: seq<DecodedEvent>, us: seq<Unread>)
    requires |us| == |events| && forall i :: 0 <= i < |us| ==> Fitting(events[i], us[i])
    ensures forall f <- FramesOf(events, us) :: SelfContained(f)
    ensures EventsOf(FramesOf(events, us)) == events
    decreases |events|
  {
    if events != [] {
      assert Fitting(events[0], us[0]);
      FrameRoundTrip(events[0], us[0]);
      FramesAreSelfContained(events[1..], us[1..]);
      FrameInFront(FrameOf(events[0], us[0]), FramesOf(events[1..], us[1..]), events[0], events[1..]);
      assert events == [events[0]] + events[1..];
    }
  }

  /**
   * A datagram that carries any sequence of events is walked to exactly these events, whatever
   * the parts of each message that are not read.
   */
  lemma DatagramRoundTrip(events: seq<DecodedEvent>, us: seq<Unread>)
    requires |us| == |events| && forall i :: 0 <= i < |us| ==> Fitting(events[i], us[i])
    ensures Walk(EncodeAll(FramesOf(events, us))) == events
  {
    var frames := FramesOf(events, us);
    FramesAreSelfContained(events, us);
    WalkInvertsEncoding(frames, []);
    assert EncodeAll(frames) + [] == EncodeAll(frames);
    assert Walk([]) == [];
  }

  // ------------------------------------------------------------------------------------------
  // A message that is not complete
  // ------------------------------------------------------------------------------------------

  /** A message of kind exec, cut off after its event header. */
  ghost function CutOff(u: Unread): Frame {
    Frame(NLMSG_DONE, u.flags, u.nlSeqNo, u.sender, Front(EVENT_EXEC, u), [])
  }

  lemma CutOffIsEmpty(u: Unread)
    ensures CutOff(u).WellFormed() && CutOff(u).Event() == []
  {
    assert Front(EVENT_EXEC, u) + [] == Front(EVENT_EXEC, u);
    FrontIsRead(EVENT_EXEC, u, []);
  }

  lemma TwoFrames(f: Frame, g: Frame)
    ensures EncodeAll([f, g]) == f.Encoded() + g.Encoded()
    ensures EventsOf([f, g]) == f.Event() + g.Event()
  {
    assert [f, g][1..] == [g] && [g][1..] == [];
    assert EncodeAll([g]) == g.Encoded() + EncodeAll([]) == g.Encoded();
    assert EventsOf([g]) == g.Event() + EventsOf([]) == g.Event();
  }

  lemma ReportsFirst(data: seq<byte>, read: Reader)
    requires read(data).Some? && read(data).value.1 != []
    ensures WalkWith(data, read) != []
  {
  }

  /**
   * A message cut off after its event header, followed by any other message: the walk reports an
   * event that neither message carries.
   */
  lemma PhantomEvent(u: Unread, next: Frame)
    requires next.WellFormed() && next.Event() == []
    ensures CutOff(u).WellFormed() && EventsOf([CutOff(u), next]) == []
    ensures Walk(EncodeAll([CutOff(u), next])) != []
  {
    TwoFrames(CutOff(u), next);
    CutOffIsEmpty(u);
    var rest := next.Encoded();
    var body := Front(EVENT_EXEC, u) + rest;
    var data := CutOff(u).Header() + body;
    assert CutOff(u).Encoded() + rest == data;
    HeaderIsRead(CutOff(u), body);
    FrontIsRead(EVENT_EXEC, u, rest);
    assert data[NL_HDR..] == body;
    ReportsFirst(data, ReadMessage);
  }
}
