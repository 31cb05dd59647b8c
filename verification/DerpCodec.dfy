/** DERP framing after the HTTP upgrade: `write_frame`, the framing part of
    `DerpCodec::decode`, and the payload split of `decode_frame`. */
module DerpCodec {
  import opened Options
  import opened Bytes
  import opened Streaming

  const HEADER: nat := 5
  const MAX_FRAME: nat := 0x10_0000
  const KEY_LEN: nat := 32
  const MAGIC_LEN: nat := 8

  const FRAME_SERVER_KEY: byte := 0x01
  const FRAME_SERVER_INFO: byte := 0x03
  const FRAME_RECV_PACKET: byte := 0x05
  const FRAME_KEEP_ALIVE: byte := 0x06
  const FRAME_PEER_GONE: byte := 0x08
  const UNKNOWN: byte := 0x13

  predicate Known(b: byte) {
    b == 1 || b == 2 || b == 3 || b == 4 || b == 5 || b == 6 || b == 8 || b == 10 || b == 18
  }

  /** `CmdType::from`: everything else is `Unknown`. */
  function CmdType(b: byte): byte {
    if Known(b) then b else UNKNOWN
  }

  datatype Frame = Frame(cmd: byte, payload: seq<byte>)

  datatype Header = Header(cmd: byte, len: nat)

  /** The codec: the saved header and whatever `decode_frame` keeps. */
  datatype Codec<K> = Codec(header: Option<Header>, kept: K)

  /** `decode_frame`: the next state and response, or nothing when it errs. */
  type Handler<!K, R> = (K, Frame) -> Option<(K, R)>

  function Body<K, R>(handle: Handler<K, R>, st: Codec<K>, h: Header, src: seq<byte>): Outcome<Codec<K>, (Frame, R)> {
    if |src| < h.len then NeedMore(st.(header := Some(h)), src)
    else
      var f := Frame(h.cmd, src[..h.len]);
      match handle(st.kept, f)
      case None => Fail(st.(header := None), src[h.len..])
      case Some((kept, r)) => Emit((f, r), Codec(None, kept), src[h.len..])
  }

  function Decode<K, R>(handle: Handler<K, R>, st: Codec<K>, src: seq<byte>): Outcome<Codec<K>, (Frame, R)> {
    if st.header.Some? then Body(handle, st, st.header.value, src)
    else if |src| < HEADER then NeedMore(st, src)
    else
      var len := FromBe(src[1..5]);
      if len > MAX_FRAME then Fail(st, src[HEADER..])
      else Body(handle, st, Header(CmdType(src[0]), len), src[HEADER..])
  }

  function Decoding<K, R>(handle: Handler<K, R>): Decoder<Codec<K>, (Frame, R)> {
    (st, src) => Decode(handle, st, src)
  }

  function Size<K>(st: Codec<K>): nat {
    if st.header.Some? then 1 else 0
  }

  function Sizing<K>(): Codec<K> -> nat {
    st => Size(st)
  }

  ghost predicate BodySettled<K(!new), R(!new)>(
    handle: Handler<K, R>, st: Codec<K>, h: Header, src: seq<byte>, more: seq<byte>) {
    match Body(handle, st, h, src)
    case Emit(m, st', rest) => Body(handle, st, h, src + more) == Emit(m, st', rest + more)
    case Fail(st', rest) => Body(handle, st, h, src + more) == Fail(st', rest + more)
    case NeedMore(st', rest) => rest == src && st' == st.(header := Some(h))
  }

  lemma BodyWaits<K(!new), R(!new)>(handle: Handler<K, R>, st: Codec<K>, h: Header, src: seq<byte>, more: seq<byte>)
    ensures BodySettled(handle, st, h, src, more)
    ensures var r := Body(handle, st, h, src); r.Emit? ==> |r.rest| <= |src| && r.state.header.None?
    ensures Body(handle, st.(header := Some(h)), h, src) == Body(handle, st, h, src)
  {
    if h.len <= |src| {
      assert (src + more)[..h.len] == src[..h.len];
      assert (src + more)[h.len..] == src[h.len..] + more;
    }
  }

  lemma DecodeSettled<K(!new), R(!new)>(handle: Handler<K, R>, st: Codec<K>, src: seq<byte>, more: seq<byte>)
    ensures Settled(Decoding(handle), st, src, more)
  {
    hide Body, CmdType;
    if st.header.Some? {
      BodyWaits(handle, st, st.header.value, src, more);
    } else if |src| >= HEADER {
      assert (src + more)[1..5] == src[1..5];
      assert (src + more)[HEADER..] == src[HEADER..] + more;
      var h := Header(CmdType(src[0]), FromBe(src[1..5]));
      BodyWaits(handle, st, h, src[HEADER..], more);
      BodyWaits(handle, st, h, src[HEADER..] + more, []);
    }
  }

  /** Framing never revises a decision when more bytes arrive. */
  lemma DecodeIncremental<K(!new), R(!new)>(handle: Handler<K, R>)
    ensures Incremental(Decoding(handle), Sizing())
  {
    forall st: Codec<K>, src ensures StepOk(Decoding(handle), Sizing(), st, src) {
      forall more ensures Settled(Decoding(handle), st, src, more) {
        DecodeSettled(handle, st, src, more);
      }
      hide Body, CmdType;
      if st.header.Some? {
        BodyWaits(handle, st, st.header.value, src, []);
      } else if |src| >= HEADER {
        BodyWaits(handle, st, Header(CmdType(src[0]), FromBe(src[1..5])), src[HEADER..], []);
      }
    }
  }

  // ---------- writing ----------

  function WriteFrame(f: Frame): seq<byte> {
    [f.cmd] + ToBe(|f.payload|, 4) + f.payload
  }

  function WriteFrames(fs: seq<Frame>): seq<byte> {
    if fs == [] then [] else WriteFrame(fs[0]) + WriteFrames(fs[1..])
  }

  /** A frame within the size limit, of a known type or not. */
  predicate Sendable(f: Frame) {
    |f.payload| <= MAX_FRAME
  }

  /** A frame as `decode_frame` gets to see it. */
  function Seen(f: Frame): Frame {
    Frame(CmdType(f.cmd), f.payload)
  }

  /** What reading `fs` one by one through `decode_frame` gives; reading stops at
      a frame it errs on. */
  function HandleAll<K, R>(handle: Handler<K, R>, kept: K, fs: seq<Frame>): (Drained<Codec<K>, (Frame, R)>)
    decreases |fs|
  {
    if fs == [] then Drained([], Codec(None, kept), [], false)
    else match handle(kept, Seen(fs[0]))
      case None => Drained([], Codec(None, kept), WriteFrames(fs[1..]), true)
      case Some((kept', r)) => Prepend((Seen(fs[0]), r), HandleAll(handle, kept', fs[1..]))
  }

  lemma ReadsBack<K(!new), R(!new)>(handle: Handler<K, R>, kept: K, f: Frame, tail: seq<byte>)
    requires Sendable(f)
    ensures Decode(handle, Codec(None, kept), WriteFrame(f) + tail) ==
      match handle(kept, Seen(f))
      case None => Fail(Codec(None, kept), tail)
      case Some((kept', r)) => Emit((Seen(f), r), Codec(None, kept'), tail)
  {
    var n := |f.payload|;
    var src := WriteFrame(f) + tail;
    assert src[1..5] == ToBe(n, 4);
    Widths();
    BeRoundTrip(n, 4);
    assert src[HEADER..] == f.payload + tail;
    assert src[HEADER..][..n] == f.payload && src[HEADER..][n..] == tail;
  }

  lemma {:induction false} DrainReadsBack<K(!new), R(!new)>(handle: Handler<K, R>, kept: K, fs: seq<Frame>)
    requires forall i :: 0 <= i < |fs| ==> Sendable(fs[i])
    ensures Incremental(Decoding(handle), Sizing())
    ensures Drain(Decoding(handle), Sizing(), Codec(None, kept), WriteFrames(fs)) == HandleAll(handle, kept, fs)
    decreases |fs|
  {
    DecodeIncremental(handle);
    hide Decode, Incremental, StepOk, WriteFrame, Sendable, Seen;
    if fs == [] {
      EmptyWaits(handle, kept);
    } else {
      ReadsBack(handle, kept, fs[0], WriteFrames(fs[1..]));
      match handle(kept, Seen(fs[0]))
      case None =>
      case Some((kept', r)) => DrainReadsBack(handle, kept', fs[1..]);
    }
  }

  lemma EmptyWaits<K(!new), R(!new)>(handle: Handler<K, R>, kept: K)
    ensures Decode(handle, Codec(None, kept), []) == NeedMore(Codec(None, kept), [])
  {}

  /** Frames written in a row and received in any pieces reach `decode_frame`
      as the same frames in the same order, with nothing lost or left over. */
  lemma FramesRoundTrip<K(!new), R(!new)>(handle: Handler<K, R>, kept: K, fs: seq<Frame>, chunks: seq<seq<byte>>)
    requires forall i :: 0 <= i < |fs| ==> Sendable(fs[i])
    requires Concat(chunks) == WriteFrames(fs)
    ensures Incremental(Decoding(handle), Sizing())
    ensures FeedAll(Decoding(handle), Sizing(), Drained([], Codec(None, kept), [], false), chunks)
         == HandleAll(handle, kept, fs)
  {
    DecodeIncremental(handle);
    hide Decode, Incremental, StepOk, WriteFrames, FeedAll, HandleAll, Sendable;
    EmptyWaits(handle, kept);
    assert Drain(Decoding(handle), Sizing(), Codec(None, kept), []) == Drained([], Codec(None, kept), [], false);
    ChunkingIsInvisible(Decoding(handle), Sizing(), Codec(None, kept), [], chunks);
    assert [] + Concat(chunks) == WriteFrames(fs);
    DrainReadsBack(handle, kept, fs);
  }

  /** As long as `decode_frame` does not err, its inputs are exactly the frames written. */
  lemma {:induction false} NothingLost<K(!new), R(!new)>(handle: Handler<K, R>, kept: K, fs: seq<Frame>)
    ensures var d := HandleAll(handle, kept, fs);
      && |d.messages| <= |fs|
      && (forall i :: 0 <= i < |d.messages| ==> d.messages[i].0 == Seen(fs[i]))
      && (!d.failed ==> |d.messages| == |fs| && d.rest == [])
    decreases |fs|
  {
    if fs != [] {
      match handle(kept, Seen(fs[0]))
      case None =>
      case Some((kept', r)) => NothingLost(handle, kept', fs[1..]);
    }
  }

  // ---------- payloads ----------

  datatype Response =
    | ServerKey(key: seq<byte>) | ServerInfo(info: seq<byte>) | KeepAlive
    | RecvPacket(from: seq<byte>, data: seq<byte>) | PeerGone(peer: seq<byte>, reason: byte) | Other

  /** `decode_frame`; it keeps the server key. `info` opens and parses a server-info body. */
  function DecodeFrame(
    info: (seq<byte>, seq<byte>) -> Option<seq<byte>>, server: Option<seq<byte>>, f: Frame)
    : Option<(Option<seq<byte>>, Response)>
  {
    var data := f.payload;
    if f.cmd == FRAME_SERVER_KEY then
      if |data| != MAGIC_LEN + KEY_LEN then None
      else Some((Some(data[MAGIC_LEN..]), ServerKey(data[MAGIC_LEN..])))
    else if f.cmd == FRAME_SERVER_INFO then
      if server.None? || |data| < 24 || info(server.value, data).None? then None
      else Some((server, ServerInfo(info(server.value, data).value)))
    else if f.cmd == FRAME_KEEP_ALIVE then Some((server, KeepAlive))
    else if f.cmd == FRAME_RECV_PACKET then
      if |data| < KEY_LEN then None else Some((server, RecvPacket(data[..KEY_LEN], data[KEY_LEN..])))
    else if f.cmd == FRAME_PEER_GONE then
      if |data| <= KEY_LEN then None else Some((server, PeerGone(data[..KEY_LEN], data[KEY_LEN])))
    else Some((server, Other))
  }

  type Info = (seq<byte>, seq<byte>) -> Option<seq<byte>>

  function Handling(info: Info): Handler<Option<seq<byte>>, Response> {
    (server, f) => DecodeFrame(info, server, f)
  }

  /** What a decoder that holds `server` makes of a stream received in pieces. */
  ghost function Received(info: Info, server: Option<seq<byte>>, chunks: seq<seq<byte>>)
    : Drained<Codec<Option<seq<byte>>>, (Frame, Response)>
  {
    DecodeIncremental(Handling(info));
    FeedAll(Decoding(Handling(info)), Sizing(), Drained([], Codec(None, server), [], false), chunks)
  }

  lemma FrameLayout(cmd: byte, payload: seq<byte>)
    ensures WriteFrame(Frame(cmd, payload)) == [cmd] + ToBe(|payload|, 4) + payload
  {}

  lemma FramesSeen(info: Info, server: Option<seq<byte>>, fs: seq<Frame>, chunks: seq<seq<byte>>)
    requires forall i :: 0 <= i < |fs| ==> Sendable(fs[i])
    requires Concat(chunks) == WriteFrames(fs)
    ensures Received(info, server, chunks) == HandleAll(Handling(info), server, fs)
  {
    hide HandleAll, WriteFrames, Incremental, FeedAll;
    FramesRoundTrip(Handling(info), server, fs, chunks);
  }

  /** One frame, written as its type byte, its length in four bytes, most
      significant first, and its payload. */
  lemma OneFrame(info: Info, server: Option<seq<byte>>, cmd: byte, payload: seq<byte>, chunks: seq<seq<byte>>)
    requires |payload| <= 0x10_0000
    requires Concat(chunks) == [cmd] + ToBe(|payload|, 4) + payload
    ensures var d, r := Received(info, server, chunks), DecodeFrame(info, server, Frame(CmdType(cmd), payload));
      && d.failed == r.None? && d.rest == []
      && (r.None? ==> d.messages == [] && d.state == Codec(None, server))
      && (r.Some? ==> d.messages == [(Frame(CmdType(cmd), payload), r.value.1)] && d.state == Codec(None, r.value.0))
  {
    hide DecodeFrame, CmdType, Received, ToBe;
    var f := Frame(cmd, payload);
    FrameLayout(cmd, payload);
    assert [f][1..] == [] && WriteFrames([f]) == WriteFrame(f) + WriteFrames([f][1..]);
    assert WriteFrames([f]) == WriteFrame(f);
    FramesSeen(info, server, [f], chunks);
    assert HandleAll(Handling(info), server, [f][1..]) == Drained([], Codec(None, server), [], false);
  }

  /** A relayed packet: key and data come out as they were framed, in any pieces. */
  lemma RelayedPacketArrives(
    info: Info, server: Option<seq<byte>>, key: seq<byte>, data: seq<byte>, chunks: seq<seq<byte>>)
    requires |key| == 32 && |data| <= 0x10_0000 - 32
    requires Concat(chunks) == [0x05] + ToBe(32 + |data|, 4) + (key + data)
    ensures var d := Received(info, server, chunks);
      && |d.messages| == 1 && d.messages[0].1 == RecvPacket(key, data)
      && !d.failed && d.rest == [] && d.state == Codec(None, server)
  {
    hide Received, ToBe, DecodeFrame, CmdType;
    assert |key + data| == 32 + |data|;
    OneFrame(info, server, 0x05, key + data, chunks);
    RelayFrame(info, server, key, data);
  }

  lemma RelayFrame(info: Info, server: Option<seq<byte>>, key: seq<byte>, data: seq<byte>)
    requires |key| == 32
    ensures CmdType(0x05) == 0x05
    ensures DecodeFrame(info, server, Frame(0x05, key + data)) == Some((server, RecvPacket(key, data)))
  {
    assert (key + data)[..32] == key && (key + data)[32..] == data;
  }

  /** A peer is gone: its key and the reason, whatever follows them. */
  lemma PeerGoneArrives(
    info: Info, server: Option<seq<byte>>, key: seq<byte>, reason: byte, more: seq<byte>, chunks: seq<seq<byte>>)
    requires |key| == 32 && |more| <= 0x10_0000 - 33
    requires Concat(chunks) == [0x08] + ToBe(33 + |more|, 4) + (key + [reason] + more)
    ensures var d := Received(info, server, chunks);
      && |d.messages| == 1 && d.messages[0].1 == PeerGone(key, reason)
      && !d.failed && d.rest == [] && d.state == Codec(None, server)
  {
    hide Received, ToBe, DecodeFrame, CmdType;
    var payload := key + [reason] + more;
    assert |payload| == 33 + |more|;
    OneFrame(info, server, 0x08, payload, chunks);
    GoneFrame(info, server, key, reason, more);
  }

  lemma GoneFrame(info: Info, server: Option<seq<byte>>, key: seq<byte>, reason: byte, more: seq<byte>)
    requires |key| == 32
    ensures CmdType(0x08) == 0x08
    ensures DecodeFrame(info, server, Frame(0x08, key + [reason] + more)) == Some((server, PeerGone(key, reason)))
  {
    var payload := key + [reason] + more;
    assert payload[..32] == key && payload[32] == reason;
  }

  /** The server introduces itself: after its key, its info is opened under that key. */
  lemma ServerGreets(
    info: Info, server: Option<seq<byte>>, magic: seq<byte>, key: seq<byte>, body: seq<byte>,
    chunks: seq<seq<byte>>)
    requires |magic| == 8 && |key| == 32 && |body| <= 0x10_0000
    requires Concat(chunks)
          == ([0x01] + ToBe(40, 4) + (magic + key)) + ([0x03] + ToBe(|body|, 4) + body)
    ensures var d := Received(info, server, chunks);
      && |d.messages| >= 1 && d.messages[0].1 == ServerKey(key) && d.state == Codec(None, Some(key)) && d.rest == []
      && (!d.failed <==> |body| >= 24 && info(key, body).Some?)
      && (!d.failed ==> |d.messages| == 2 && d.messages[1].1 == ServerInfo(info(key, body).value))
      && (d.failed ==> |d.messages| == 1)
  {
    hide Received, ToBe;
    var f, g := Frame(0x01, magic + key), Frame(0x03, body);
    FrameLayout(0x01, magic + key);
    FrameLayout(0x03, body);
    assert [f, g][1..] == [g] && [g][1..] == [];
    assert WriteFrames([g]) == WriteFrame(g) + [];
    assert WriteFrames([f, g]) == WriteFrame(f) + WriteFrame(g);
    FramesSeen(info, server, [f, g], chunks);
    assert (magic + key)[8..] == key;
    var none: seq<Frame> := [];
    assert HandleAll(Handling(info), Some(key), none) == Drained([], Codec(None, Some(key)), [], false);
    assert WriteFrames(none) == [];
  }

  /** Keepalives are reported; frames of all other types, known or not, are passed
      over, and the stream stays in step. */
  lemma OtherFramesPass(
    info: Info, server: Option<seq<byte>>, cmd: byte, payload: seq<byte>, chunks: seq<seq<byte>>)
    requires |payload| <= 0x10_0000 && cmd !in [0x01, 0x03, 0x05, 0x08]
    requires Concat(chunks) == [cmd] + ToBe(|payload|, 4) + payload
    ensures var d := Received(info, server, chunks);
      && |d.messages| == 1 && d.messages[0].1 == (if cmd == 0x06 then KeepAlive else Other)
      && !d.failed && d.rest == [] && d.state == Codec(None, server)
  {
    hide Received, ToBe, DecodeFrame, CmdType;
    OneFrame(info, server, cmd, payload, chunks);
    OtherFrame(info, server, cmd, payload);
  }

  lemma OtherFrame(info: Info, server: Option<seq<byte>>, cmd: byte, payload: seq<byte>)
    requires cmd !in [0x01, 0x03, 0x05, 0x08]
    ensures DecodeFrame(info, server, Frame(CmdType(cmd), payload))
         == Some((server, if cmd == 0x06 then KeepAlive else Other))
  {}

  /** Which frames `decode_frame` errs on. */
  lemma ErrsExactly(info: Info, server: Option<seq<byte>>, f: Frame)
    ensures DecodeFrame(info, server, f).None? <==>
      || (f.cmd == 0x01 && |f.payload| != 40)
      || (f.cmd == 0x03 && (server.None? || |f.payload| < 24 || info(server.value, f.payload).None?))
      || (f.cmd == 0x05 && |f.payload| < 32)
      || (f.cmd == 0x08 && |f.payload| < 33)
    ensures DecodeFrame(info, server, f).Some? && f.cmd != 0x01 ==> DecodeFrame(info, server, f).value.0 == server
  {}

  /** A frame over 2^20 bytes is refused by its header, before its payload is there. */
  lemma OversizeIsRefused<K(!new), R(!new)>(handle: Handler<K, R>, kept: K, cmd: byte, n: nat, tail: seq<byte>)
    requires n < 0x1_0000_0000
    ensures Decode(handle, Codec(None, kept), [cmd] + ToBe(n, 4) + tail).Fail? <==>
      || n > 0x10_0000
      || (n <= |tail| && handle(kept, Frame(CmdType(cmd), tail[..n])).None?)
  {
    hide ToBe, FromBe, CmdType;
    var src := [cmd] + ToBe(n, 4) + tail;
    Widths();
    BeRoundTrip(n, 4);
    assert src[1..5] == ToBe(n, 4) && src[HEADER..] == tail;
  }

  // ---------- the object ----------

  class DerpDecoder<K, R> {
    const handle: Handler<K, R>
    var header: Option<Header>
    var kept: K

    function View(): Codec<K>
      reads this
    {
      Codec(header, kept)
    }

    constructor (handle: Handler<K, R>, kept: K)
      ensures this.handle == handle && View() == Codec(None, kept)
    {
      this.handle, this.kept, header := handle, kept, None;
    }

    /** One call of `decode` after the upgrade: exactly the outcome of the pure decoder. */
    method DecodeNext(src: seq<byte>) returns (m: Option<(Frame, R)>, failed: bool, rest: seq<byte>)
      modifies this
      ensures Decode(handle, old(View()), src) ==
        if failed then Fail(View(), rest)
        else if m.Some? then Emit(m.value, View(), rest)
        else NeedMore(View(), rest)
    {
      m, failed, rest := None, false, src;
      var h;
      if header.Some? {
        h := header.value;
        header := None;
      } else {
        if |src| < HEADER {
          return;
        }
        rest := src[HEADER..];
        var len := FromBe(src[1..5]);
        if len > MAX_FRAME {
          failed := true;
          return;
        }
        h := Header(CmdType(src[0]), len);
      }
      if |rest| < h.len {
        header := Some(h);
        return;
      }
      var f := Frame(h.cmd, rest[..h.len]);
      rest := rest[h.len..];
      match handle(kept, f)
      case None => failed := true;
      case Some((kept', r)) =>
        kept := kept';
        m := Some((f, r));
    }
  }
}
