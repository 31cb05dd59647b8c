/** The frp control-connection decoder: `FrpCodec::decode` over the stream cipher
    of `FrpBufCrypto`. The cipher is any byte-by-byte state machine, message
    bodies are checked by any predicates. */
module FrpCodec {
  import opened Options
  import opened Bytes
  import opened Streaming

  const HEADER: nat := 9
  const IV: nat := 16
  const MAX_BODY: nat := 2048

  // message type bytes
  const TYPE_LOGIN_RESP: byte := 49       // '1'
  const TYPE_NEW_PROXY_RESP: byte := 50   // '2'
  const TYPE_REQ_WORK_CONN: byte := 114   // 'r'
  const TYPE_START_WORK_CONN: byte := 115 // 's'

  datatype Stage = Login | WaitIv | Work

  datatype Header = Header(kind: byte, len: nat)

  datatype Response =
    | LoginResp(body: seq<byte>) | IvReceived | ReqWorkConn | StartWorkConn(body: seq<byte>) | NewProxyResp

  /** The cipher (state after an IV, one byte step) and the two JSON checks. */
  datatype Env<!C> = Env(
    keyed: seq<byte> -> C, step: (C, byte) -> (C, byte), loginOk: seq<byte> -> bool, startOk: seq<byte> -> bool)

  datatype Codec<C> = Codec(stage: Stage, header: Option<Header>, coder: Option<C>)

  // ---------- the cipher ----------

  function CipherAfter<C>(env: Env<C>, c: C, buf: seq<byte>): C {
    if buf == [] then c else env.step(CipherAfter(env, c, buf[..|buf| - 1]), buf[|buf| - 1]).0
  }

  function Decipher<C>(env: Env<C>, c: C, buf: seq<byte>): (r: seq<byte>)
    ensures |r| == |buf|
  {
    if buf == [] then []
    else Decipher(env, c, buf[..|buf| - 1]) + [env.step(CipherAfter(env, c, buf[..|buf| - 1]), buf[|buf| - 1]).1]
  }

  /** Deciphering in two pieces is deciphering once. */
  lemma {:induction false} DecipherSplits<C>(env: Env<C>, c: C, a: seq<byte>, b: seq<byte>)
    ensures CipherAfter(env, c, a + b) == CipherAfter(env, CipherAfter(env, c, a), b)
    ensures Decipher(env, c, a + b) == Decipher(env, c, a) + Decipher(env, CipherAfter(env, c, a), b)
    decreases |b|
  {
    if b == [] {
      assert a + b == a;
    } else {
      assert (a + b)[..|a + b| - 1] == a + b[..|b| - 1];
      DecipherSplits(env, c, a, b[..|b| - 1]);
    }
  }

  /** Deciphering is running the cipher over the bytes: with `states` the states it
      goes through, byte k comes out of state k. */
  lemma {:induction false} DecipherIsARun<C>(env: Env<C>, c: C, buf: seq<byte>, states: seq<C>)
    requires |states| == |buf| + 1 && states[0] == c
    requires forall k :: 0 <= k < |buf| ==> states[k + 1] == env.step(states[k], buf[k]).0
    ensures CipherAfter(env, c, buf) == states[|buf|]
    ensures forall k :: 0 <= k < |buf| ==> Decipher(env, c, buf)[k] == env.step(states[k], buf[k]).1
    decreases |buf|
  {
    if buf != [] {
      var n := |buf| - 1;
      DecipherIsARun(env, c, buf[..n], states[..|buf|]);
    }
  }

  /** Without a cipher the bytes pass unchanged. */
  function CoderAfter<C>(env: Env<C>, c: Option<C>, buf: seq<byte>): Option<C> {
    if c.Some? then Some(CipherAfter(env, c.value, buf)) else None
  }

  function Plain<C>(env: Env<C>, c: Option<C>, buf: seq<byte>): (r: seq<byte>)
    ensures |r| == |buf|
  {
    if c.Some? then Decipher(env, c.value, buf) else buf
  }

  // ---------- the decoder ----------

  function Dispatch<C>(
    env: Env<C>, st: Codec<C>, kind: byte, data: seq<byte>, rest: seq<byte>): Outcome<Codec<C>, Response> {
    if kind == TYPE_LOGIN_RESP then
      if env.loginOk(data) then Emit(LoginResp(data), st.(stage := WaitIv), rest) else Fail(st, rest)
    else if kind == TYPE_REQ_WORK_CONN then Emit(ReqWorkConn, st, rest)
    else if kind == TYPE_NEW_PROXY_RESP then Emit(NewProxyResp, st, rest)
    else if kind == TYPE_START_WORK_CONN then
      if env.startOk(data) then Emit(StartWorkConn(data), st, rest) else Fail(st, rest)
    else Fail(st, rest)
  }

  function Body<C>(env: Env<C>, st: Codec<C>, h: Header, src: seq<byte>): Outcome<Codec<C>, Response> {
    if h.len > MAX_BODY then Fail(st.(header := None), src)
    else if |src| < h.len then NeedMore(st.(header := Some(h)), src)
    else
      Dispatch(env, st.(header := None, coder := CoderAfter(env, st.coder, src[..h.len])), h.kind,
               Plain(env, st.coder, src[..h.len]), src[h.len..])
  }

  function ReadHeader(head: seq<byte>): Header
    requires |head| == HEADER
  {
    Header(head[0], FromBe(head[1..]))
  }

  function Decode<C>(env: Env<C>, st: Codec<C>, src: seq<byte>): Outcome<Codec<C>, Response> {
    if st.stage.WaitIv? then
      if |src| < IV then NeedMore(st, src)
      else Emit(IvReceived, st.(coder := Some(env.keyed(src[..IV])), stage := Work), src[IV..])
    else if st.header.Some? then Body(env, st, st.header.value, src)
    else if |src| < HEADER then NeedMore(st, src)
    else
      Body(env, st.(coder := CoderAfter(env, st.coder, src[..HEADER])),
           ReadHeader(Plain(env, st.coder, src[..HEADER])), src[HEADER..])
  }

  function Decoding<C>(env: Env<C>): Decoder<Codec<C>, Response> {
    (st, src) => Decode(env, st, src)
  }

  function Size<C>(st: Codec<C>): nat {
    if st.header.Some? then 1 else 0
  }

  function Sizing<C>(): Codec<C> -> nat {
    st => Size(st)
  }

  /** What the body stage has decided stands when more bytes arrive. */
  ghost predicate BodySettled<C(!new)>(env: Env<C>, st: Codec<C>, h: Header, src: seq<byte>, more: seq<byte>) {
    match Body(env, st, h, src)
    case Emit(m, st', rest) => Body(env, st, h, src + more) == Emit(m, st', rest + more)
    case Fail(st', rest) => Body(env, st, h, src + more) == Fail(st', rest + more)
    case NeedMore(st', rest) => rest == src && st' == st.(header := Some(h))
  }

  lemma BodyWaits<C(!new)>(env: Env<C>, st: Codec<C>, h: Header, src: seq<byte>, more: seq<byte>)
    ensures BodySettled(env, st, h, src, more)
    ensures var r := Body(env, st, h, src); r.Emit? ==> |r.rest| <= |src| && r.state.header.None?
  {
    if h.len <= |src| {
      assert (src + more)[..h.len] == src[..h.len];
      assert (src + more)[h.len..] == src[h.len..] + more;
    }
  }

  lemma BodyIgnoresHeader<C>(env: Env<C>, st: Codec<C>, h: Header, src: seq<byte>)
    ensures Body(env, st.(header := Some(h)), h, src) == Body(env, st, h, src)
  {}

  /** `decode` never revises a decision when more bytes arrive, and every message
      it yields uses up bytes or the saved header. */
  lemma DecodeIncremental<C(!new)>(env: Env<C>)
    ensures Incremental(Decoding(env), Sizing())
  {
    forall st: Codec<C>, src ensures StepOk(Decoding(env), Sizing(), st, src) {
      DecodeStepOk(env, st, src);
    }
  }

  lemma DecodeStepOk<C(!new)>(env: Env<C>, st: Codec<C>, src: seq<byte>)
    ensures StepOk(Decoding(env), Sizing(), st, src)
  {
    forall more ensures Settled(Decoding(env), st, src, more) {
      DecodeSettled(env, st, src, more);
    }
    hide Body, Plain, CoderAfter;
    if !st.stage.WaitIv? && st.header.Some? {
      BodyWaits(env, st, st.header.value, src, []);
    } else if !st.stage.WaitIv? && |src| >= HEADER {
      BodyWaits(env, st.(coder := CoderAfter(env, st.coder, src[..HEADER])),
                ReadHeader(Plain(env, st.coder, src[..HEADER])), src[HEADER..], []);
    }
  }

  lemma DecodeSettled<C(!new)>(env: Env<C>, st: Codec<C>, src: seq<byte>, more: seq<byte>)
    ensures Settled(Decoding(env), st, src, more)
  {
    hide Body, Plain, CoderAfter;
    if st.stage.WaitIv? {
      if |src| >= IV {
        assert (src + more)[..IV] == src[..IV];
        assert (src + more)[IV..] == src[IV..] + more;
      }
    } else if st.header.Some? {
      BodyWaits(env, st, st.header.value, src, more);
    } else if |src| >= HEADER {
      assert (src + more)[..HEADER] == src[..HEADER];
      assert (src + more)[HEADER..] == src[HEADER..] + more;
      var st1 := st.(coder := CoderAfter(env, st.coder, src[..HEADER]));
      var h := ReadHeader(Plain(env, st.coder, src[..HEADER]));
      BodyWaits(env, st1, h, src[HEADER..], more);
      BodyIgnoresHeader(env, st1, h, src[HEADER..] + more);
    }
  }

  function NewCodec<C>(): Codec<C> {
    Codec(Login, None, None)
  }

  /** A fresh codec fed in any pieces ends with the messages, stage, saved
      header, cipher state and leftover of the whole stream at once. */
  lemma FrpChunkingIsInvisible<C(!new)>(env: Env<C>, chunks: seq<seq<byte>>)
    ensures Incremental(Decoding(env), Sizing())
    ensures FeedAll(Decoding(env), Sizing(), Drained([], NewCodec(), [], false), chunks)
         == Drain(Decoding(env), Sizing(), NewCodec(), Concat(chunks))
  {
    DecodeIncremental(env);
    assert Drain(Decoding(env), Sizing(), NewCodec(), []) == Drained([], NewCodec(), [], false);
    ChunkingIsInvisible(Decoding(env), Sizing(), NewCodec(), [], chunks);
    assert [] + Concat(chunks) == Concat(chunks);
  }

  /** One turn of `Drain`. */
  lemma DrainUnfolds<C(!new)>(env: Env<C>, st: Codec<C>, src: seq<byte>)
    requires Incremental(Decoding(env), Sizing())
    ensures Drain(Decoding(env), Sizing(), st, src) ==
      match Decode(env, st, src)
      case NeedMore(st', rest) => Drained([], st', rest, false)
      case Fail(st', rest) => Drained([], st', rest, true)
      case Emit(m, st', rest) => Prepend(m, Drain(Decoding(env), Sizing(), st', rest))
  {
    hide Decode;
  }

  // ---------- deciphering and parsing commute ----------

  ghost predicate NoLogin(messages: seq<Response>) {
    forall i :: 0 <= i < |messages| ==> !messages[i].LoginResp?
  }

  /** The state and leftover `st`, `rest` of a decoder on ciphertext match `p`,
      `plain` of one on plaintext. */
  ghost predicate InStep<C(!new)>(env: Env<C>, st: Codec<C>, rest: seq<byte>, p: Codec<C>, plain: seq<byte>) {
    && st.coder.Some? && p == st.(coder := None)
    && plain == Decipher(env, st.coder.value, rest)
  }

  /** Two outcomes, on ciphertext and on plaintext, agree. */
  ghost predicate Agree<C(!new)>(env: Env<C>, r: Outcome<Codec<C>, Response>, q: Outcome<Codec<C>, Response>) {
    && r.Emit? == q.Emit? && r.Fail? == q.Fail?
    && (r.Emit? ==> r.message == q.message)
    && InStep(env, r.state, r.rest, q.state, q.rest)
  }

  lemma DecipherSlices<C(!new)>(env: Env<C>, c: C, buf: seq<byte>, n: nat)
    requires n <= |buf|
    ensures Decipher(env, c, buf)[..n] == Decipher(env, c, buf[..n])
    ensures Decipher(env, c, buf)[n..] == Decipher(env, CipherAfter(env, c, buf[..n]), buf[n..])
  {
    assert buf == buf[..n] + buf[n..];
    DecipherSplits(env, c, buf[..n], buf[n..]);
  }

  lemma DispatchAgrees<C(!new)>(env: Env<C>, st: Codec<C>, kind: byte, data: seq<byte>, rest: seq<byte>)
    requires st.coder.Some?
    ensures Agree(env, Dispatch(env, st, kind, data, rest),
                  Dispatch(env, st.(coder := None), kind, data, Decipher(env, st.coder.value, rest)))
    ensures var r := Dispatch(env, st, kind, data, rest); r.rest == rest && r.state.coder == st.coder
  {
    hide Decipher;
  }

  lemma BodiesAgree<C(!new)>(env: Env<C>, st: Codec<C>, h: Header, src: seq<byte>)
    requires st.coder.Some?
    ensures var r := Body(env, st, h, src);
      && Agree(env, r, Body(env, st.(coder := None), h, Decipher(env, st.coder.value, src)))
      && Advanced(env, st.coder.value, src, r.state.coder, r.rest)
  {
    hide Dispatch, Agree, Decipher, CipherAfter;
    if h.len > MAX_BODY || |src| < h.len {
      BodyStops(env, st, h, src);
      CipherStill(env, st.coder.value, src);
    } else {
      DecipherSlices(env, st.coder.value, src, h.len);
      var st1 := st.(header := None, coder := Some(CipherAfter(env, st.coder.value, src[..h.len])));
      DispatchAgrees(env, st1, h.kind, Decipher(env, st.coder.value, src[..h.len]), src[h.len..]);
    }
  }

  lemma BodyStops<C(!new)>(env: Env<C>, st: Codec<C>, h: Header, src: seq<byte>)
    requires st.coder.Some? && (h.len > MAX_BODY || |src| < h.len)
    ensures Agree(env, Body(env, st, h, src), Body(env, st.(coder := None), h, Decipher(env, st.coder.value, src)))
  {
    hide Dispatch, Decipher;
  }

  /** `rest` is what is left of `src`, and the cipher has run over exactly the bytes before it. */
  ghost predicate Advanced<C(!new)>(env: Env<C>, c: C, src: seq<byte>, coder: Option<C>, rest: seq<byte>) {
    && |rest| <= |src| && rest == src[|src| - |rest|..]
    && coder == Some(CipherAfter(env, c, src[..|src| - |rest|]))
  }

  lemma CipherStill<C(!new)>(env: Env<C>, c: C, src: seq<byte>)
    ensures Advanced(env, c, src, Some(c), src)
  {}

  lemma AdvancedTwice<C(!new)>(
    env: Env<C>, c: C, src: seq<byte>, c1: C, rest1: seq<byte>, coder: Option<C>, rest: seq<byte>)
    requires Advanced(env, c, src, Some(c1), rest1) && Advanced(env, c1, rest1, coder, rest)
    ensures Advanced(env, c, src, coder, rest)
  {
    var n, m := |src| - |rest1|, |rest1| - |rest|;
    DecipherSplits(env, c, src[..n], src[n..][..m]);
    assert src[..n] + src[n..][..m] == src[..n + m];
  }

  lemma DecodesAgree<C(!new)>(env: Env<C>, st: Codec<C>, src: seq<byte>)
    requires st.coder.Some? && !st.stage.WaitIv?
    ensures var r := Decode(env, st, src);
      && Agree(env, r, Decode(env, st.(coder := None), Decipher(env, st.coder.value, src)))
      && Advanced(env, st.coder.value, src, r.state.coder, r.rest)
  {
    hide Body;
    var c := st.coder.value;
    if st.header.Some? {
      BodiesAgree(env, st, st.header.value, src);
    } else if |src| >= HEADER {
      DecipherSlices(env, c, src, HEADER);
      var st1, h := st.(coder := Some(CipherAfter(env, c, src[..HEADER]))), ReadHeader(Decipher(env, c, src[..HEADER]));
      BodiesAgree(env, st1, h, src[HEADER..]);
      var r := Body(env, st1, h, src[HEADER..]);
      AdvancedTwice(env, c, src, st1.coder.value, src[HEADER..], r.state.coder, r.rest);
    }
  }

  lemma StageStays<C(!new)>(env: Env<C>, st: Codec<C>, src: seq<byte>)
    requires !st.stage.WaitIv?
    ensures var r := Decode(env, st, src);
      (r.Emit? && !r.message.LoginResp?) || r.Fail? ==> !r.state.stage.WaitIv?
  {}

  /** Draining until a login response has come out: it makes the decoder wait for
      an IV in the clear, after which another cipher takes over. */
  ghost function DrainToLogin<C(!new)>(env: Env<C>, st: Codec<C>, src: seq<byte>): Drained<Codec<C>, Response>
    requires Incremental(Decoding(env), Sizing())
    decreases |src|, Size(st)
  {
    assert StepOk(Decoding(env), Sizing(), st, src);
    match Decode(env, st, src)
    case NeedMore(st', rest) => Drained([], st', rest, false)
    case Fail(st', rest) => Drained([], st', rest, true)
    case Emit(m, st', rest) =>
      if m.LoginResp? then Drained([m], st', rest, false) else Prepend(m, DrainToLogin(env, st', rest))
  }

  /** The messages up to and including the first login response. */
  function UpToLogin(messages: seq<Response>): seq<Response> {
    if messages == [] then []
    else if messages[0].LoginResp? then messages[..1]
    else [messages[0]] + UpToLogin(messages[1..])
  }

  /** One turn of `DrainToLogin`. */
  lemma DrainToLoginUnfolds<C(!new)>(env: Env<C>, st: Codec<C>, src: seq<byte>)
    requires Incremental(Decoding(env), Sizing())
    ensures DrainToLogin(env, st, src) ==
      match Decode(env, st, src)
      case NeedMore(st', rest) => Drained([], st', rest, false)
      case Fail(st', rest) => Drained([], st', rest, true)
      case Emit(m, st', rest) =>
        if m.LoginResp? then Drained([m], st', rest, false) else Prepend(m, DrainToLogin(env, st', rest))
  {
    hide Decode;
  }

  lemma DecodeShrinks<C(!new)>(env: Env<C>, st: Codec<C>, src: seq<byte>)
    ensures var r := Decode(env, st, src);
      r.Emit? ==> |r.rest| < |src| || (|r.rest| == |src| && Size(r.state) < Size(st))
  {
    hide Decode;
    DecodeStepOk(env, st, src);
  }

  /** `r` is `d`, followed by `later` if `d` ends with a login response. */
  ghost predicate GoesOn<C(!new)>(
    d: Drained<Codec<C>, Response>, r: Drained<Codec<C>, Response>, later: Drained<Codec<C>, Response>) {
    && d.messages == UpToLogin(r.messages)
    && (NoLogin(d.messages) ==> r == d)
    && (!NoLogin(d.messages) ==>
          !d.failed && d.state.stage.WaitIv? && r == later.(messages := d.messages + later.messages))
  }

  lemma GoesOnAfter<C(!new)>(
    m: Response, d: Drained<Codec<C>, Response>, r: Drained<Codec<C>, Response>,
    later: Drained<Codec<C>, Response>)
    requires !m.LoginResp? && GoesOn(d, r, later)
    ensures GoesOn(Prepend(m, d), Prepend(m, r), later)
  {
    hide NoLogin;
    OneMoreMessage(m, d.messages);
    assert ([m] + r.messages)[1..] == r.messages;
    assert [m] + (d.messages + later.messages) == [m] + d.messages + later.messages;
  }

  lemma GoesOnAtLogin<C(!new)>(m: Response, st: Codec<C>, rest: seq<byte>, later: Drained<Codec<C>, Response>)
    requires m.LoginResp? && st.stage.WaitIv?
    ensures GoesOn(Drained([m], st, rest, false), Prepend(m, later), later)
  {
    assert ([m] + later.messages)[..1] == [m] && [m][0].LoginResp?;
  }

  /** Draining goes on from there, so nothing of a stream is left out. */
  lemma {:induction false} DrainGoesOn<C(!new)>(env: Env<C>, st: Codec<C>, src: seq<byte>)
    requires Incremental(Decoding(env), Sizing())
    ensures var d, r := DrainToLogin(env, st, src), Drain(Decoding(env), Sizing(), st, src);
      GoesOn(d, r, Drain(Decoding(env), Sizing(), d.state, d.rest))
    decreases |src|, Size(st)
  {
    hide Decode, Drain, DrainToLogin, Incremental, GoesOn;
    DecodeShrinks(env, st, src);
    DrainUnfolds(env, st, src);
    DrainToLoginUnfolds(env, st, src);
    LoginAsksForIv(env, st, src);
    var r := Decode(env, st, src);
    var d := DrainToLogin(env, st, src);
    var later := Drain(Decoding(env), Sizing(), d.state, d.rest);
    if !r.Emit? {
      NothingGoesOn(d, later);
    } else if r.message.LoginResp? {
      GoesOnAtLogin(r.message, r.state, r.rest, later);
    } else {
      DrainGoesOn(env, r.state, r.rest);
      var all := Drain(Decoding(env), Sizing(), r.state, r.rest);
      GoesOnAfter(r.message, DrainToLogin(env, r.state, r.rest), all, later);
    }
  }

  lemma NothingGoesOn<C(!new)>(d: Drained<Codec<C>, Response>, later: Drained<Codec<C>, Response>)
    requires d.messages == []
    ensures GoesOn(d, d, later)
  {}

  lemma LoginAsksForIv<C(!new)>(env: Env<C>, st: Codec<C>, src: seq<byte>)
    ensures var r := Decode(env, st, src); r.Emit? && r.message.LoginResp? ==> r.state.stage.WaitIv?
  {}

  lemma {:induction false} DrainsAgree<C(!new)>(env: Env<C>, st: Codec<C>, src: seq<byte>)
    requires st.coder.Some? && !st.stage.WaitIv?
    requires Incremental(Decoding(env), Sizing())
    ensures var d := DrainToLogin(env, st, src);
      var p := DrainToLogin(env, st.(coder := None), Decipher(env, st.coder.value, src));
      && p.messages == d.messages && p.failed == d.failed
      && InStep(env, d.state, d.rest, p.state, p.rest)
      && Advanced(env, st.coder.value, src, d.state.coder, d.rest)
    decreases |src|, Size(st)
  {
    hide Decode, DrainToLogin, Incremental, Decipher, CipherAfter, Advanced;
    DecodesAgree(env, st, src);
    DecodeShrinks(env, st, src);
    DrainToLoginUnfolds(env, st, src);
    DrainToLoginUnfolds(env, st.(coder := None), Decipher(env, st.coder.value, src));
    StageStays(env, st, src);
    var r := Decode(env, st, src);
    if r.Emit? && !r.message.LoginResp? {
      DrainsAgree(env, r.state, r.rest);
      var d := DrainToLogin(env, r.state, r.rest);
      AdvancedTwice(env, st.coder.value, src, r.state.coder.value, r.rest, d.state.coder, d.rest);
    }
  }

  /** Once the cipher is running, decoding a ciphertext stream is decoding its
      plaintext, for every stream: up to and including the first login response
      the messages are the same, the leftovers correspond, and the cipher has run
      over exactly the bytes used up, each once and in order, across headers and
      bodies. Without a login response this is the whole stream. */
  lemma DecipherThenParse<C(!new)>(env: Env<C>, st: Codec<C>, src: seq<byte>)
    requires st.coder.Some? && !st.stage.WaitIv?
    ensures Incremental(Decoding(env), Sizing())
    ensures var plain := Decipher(env, st.coder.value, src);
      var d, p := DrainToLogin(env, st, src), DrainToLogin(env, st.(coder := None), plain);
      && p.messages == d.messages && p.failed == d.failed
      && InStep(env, d.state, d.rest, p.state, p.rest)
      && Advanced(env, st.coder.value, src, d.state.coder, d.rest)
    ensures var plain := Decipher(env, st.coder.value, src);
      var r, q := Drain(Decoding(env), Sizing(), st, src), Drain(Decoding(env), Sizing(), st.(coder := None), plain);
      && UpToLogin(r.messages) == UpToLogin(q.messages) == DrainToLogin(env, st, src).messages
      && (NoLogin(q.messages) ==>
            r == DrainToLogin(env, st, src) && q == DrainToLogin(env, st.(coder := None), plain))
  {
    hide Decode, Decipher, CipherAfter, Advanced, Drain, DrainToLogin, Incremental;
    DecodeIncremental(env);
    var plain := Decipher(env, st.coder.value, src);
    DrainsAgree(env, st, src);
    DrainGoesOn(env, st, src);
    DrainGoesOn(env, st.(coder := None), plain);
    var q := Drain(Decoding(env), Sizing(), st.(coder := None), plain);
    if NoLogin(q.messages) {
      UpToLoginIsAll(q.messages);
    }
  }

  lemma {:induction false} UpToLoginIsAll(ms: seq<Response>)
    requires NoLogin(ms)
    ensures UpToLogin(ms) == ms
  {
    if ms != [] {
      UpToLoginIsAll(ms[1..]);
    }
  }

  lemma OneMoreMessage(m: Response, ms: seq<Response>)
    ensures NoLogin([m] + ms) <==> !m.LoginResp? && NoLogin(ms)
  {
    assert forall i :: 0 <= i < |ms| ==> ([m] + ms)[i + 1] == ms[i];
    assert ([m] + ms)[0] == m;
  }

  // ---------- reading what is written ----------

  /** A message in the codec's wire format: type byte, 64-bit length, body. */
  datatype Msg = Msg(kind: byte, body: seq<byte>)

  function Wire(m: Msg): seq<byte> {
    [m.kind] + ToBe(|m.body|, 8) + m.body
  }

  function WireAll(ms: seq<Msg>): seq<byte> {
    if ms == [] then [] else Wire(ms[0]) + WireAll(ms[1..])
  }

  lemma WireLayout(m: Msg)
    ensures Wire(m) == [m.kind] + ToBe(|m.body|, 8) + m.body
  {}

  /** A message the codec handles while it works: '2', 'r', or 's' with a good body. */
  predicate Handled<C>(env: Env<C>, m: Msg) {
    |m.body| <= 2048 && (m.kind == 50 || m.kind == 114 || (m.kind == 115 && env.startOk(m.body)))
  }

  function Meaning(m: Msg): Response {
    match m.kind
    case 50 => NewProxyResp
    case 114 => ReqWorkConn
    case _ => StartWorkConn(m.body)
  }

  /** Too long, of another type, or with a body that does not parse. */
  predicate Refused<C>(env: Env<C>, kind: byte, body: seq<byte>) {
    || |body| > 2048
    || (kind != 49 && kind != 50 && kind != 114 && kind != 115)
    || (kind == 49 && !env.loginOk(body)) || (kind == 115 && !env.startOk(body))
  }

  /** What the codec makes of one message in the clear: a type byte, a length in
      eight bytes, most significant first, and a body. */
  lemma OneMessage<C(!new)>(env: Env<C>, st: Codec<C>, kind: byte, body: seq<byte>, tail: seq<byte>)
    requires st.coder.None? && st.header.None? && !st.stage.WaitIv? && |body| < 0x1_0000_0000_0000_0000
    ensures var r := Decode(env, st, [kind] + ToBe(|body|, 8) + body + tail);
      if Refused(env, kind, body) then r.Fail?
      else if kind == 49 then r == Emit(LoginResp(body), st.(stage := WaitIv), tail)
      else r == Emit(Meaning(Msg(kind, body)), st, tail)
  {
    hide Wire, ToBe, Decode;
    var m := Msg(kind, body);
    WireLayout(m);
    if |body| <= MAX_BODY {
      WireReadsBack(env, st, m, tail);
    } else {
      LongMessageFails(env, st, m, tail);
    }
  }

  lemma LongMessageFails<C(!new)>(env: Env<C>, st: Codec<C>, m: Msg, tail: seq<byte>)
    requires st.coder.None? && st.header.None? && !st.stage.WaitIv?
    requires MAX_BODY < |m.body| < 0x1_0000_0000_0000_0000
    ensures Decode(env, st, Wire(m) + tail) == Fail(st, m.body + tail)
  {
    hide Dispatch, ToBe, FromBe;
    var src := Wire(m) + tail;
    Widths();
    BeRoundTrip(|m.body|, 8);
    assert src[..HEADER][0] == m.kind && src[..HEADER][1..] == ToBe(|m.body|, 8);
    assert src[HEADER..] == m.body + tail;
  }

  function Meanings(ms: seq<Msg>): seq<Response> {
    if ms == [] then [] else [Meaning(ms[0])] + Meanings(ms[1..])
  }

  /** Reading one plaintext message that stands at the front of the buffer. */
  lemma WireReadsBack<C(!new)>(env: Env<C>, st: Codec<C>, m: Msg, tail: seq<byte>)
    requires st.coder.None? && st.header.None? && !st.stage.WaitIv? && |m.body| <= MAX_BODY
    ensures Decode(env, st, Wire(m) + tail) == Dispatch(env, st, m.kind, m.body, tail)
  {
    hide Dispatch, ToBe, FromBe;
    var src := Wire(m) + tail;
    Widths();
    BeRoundTrip(|m.body|, 8);
    assert src[..HEADER][0] == m.kind && src[..HEADER][1..] == ToBe(|m.body|, 8);
    assert src[HEADER..] == m.body + tail;
    assert src[HEADER..][..|m.body|] == m.body && src[HEADER..][|m.body|..] == tail;
  }

  lemma {:induction false} PlainStreamReadsBack<C(!new)>(env: Env<C>, st: Codec<C>, ms: seq<Msg>)
    requires st.coder.None? && st.header.None? && !st.stage.WaitIv?
    requires forall i :: 0 <= i < |ms| ==> Handled(env, ms[i])
    ensures Incremental(Decoding(env), Sizing())
    ensures Drain(Decoding(env), Sizing(), st, WireAll(ms)) == Drained(Meanings(ms), st, [], false)
    ensures NoLogin(Meanings(ms))
    decreases |ms|
  {
    DecodeIncremental(env);
    hide Incremental, StepOk, Wire;
    if ms != [] {
      hide Decode;
      WireReadsBack(env, st, ms[0], WireAll(ms[1..]));
      PlainStreamReadsBack(env, st, ms[1..]);
      OneMoreMessage(Meaning(ms[0]), Meanings(ms[1..]));
    }
  }

  /** A whole connection: a login response in the clear, an IV, then messages under
      the cipher started by that IV, received in any pieces. The codec yields
      exactly the login response, the IV and the messages, in order, with nothing
      left over. `ciphertext` is any byte string that deciphers to the messages. */
  lemma ConnectionReadsBack<C(!new)>(
    env: Env<C>, login: seq<byte>, iv: seq<byte>, ms: seq<Msg>, ciphertext: seq<byte>, chunks: seq<seq<byte>>)
    requires |login| <= 2048 && env.loginOk(login) && |iv| == 16
    requires forall i :: 0 <= i < |ms| ==> Handled(env, ms[i])
    requires Decipher(env, env.keyed(iv), ciphertext) == WireAll(ms)
    requires Concat(chunks) == [49] + ToBe(|login|, 8) + login + (iv + ciphertext)
    ensures Incremental(Decoding(env), Sizing())
    ensures FeedAll(Decoding(env), Sizing(), Drained([], NewCodec(), [], false), chunks)
         == Drained([LoginResp(login), IvReceived] + Meanings(ms),
                    Codec(Work, None, Some(CipherAfter(env, env.keyed(iv), ciphertext))), [], false)
  {
    hide Incremental, StepOk, Wire, FeedAll, Decode, Drain, Decipher, CipherAfter, Meanings, Concat, WireAll;
    hide ToBe;
    WireLayout(Msg(TYPE_LOGIN_RESP, login));
    FrpChunkingIsInvisible(env, chunks);
    var st1: Codec<C> := Codec(WaitIv, None, None);
    var st2 := Codec(Work, None, Some(env.keyed(iv)));
    LoginThenIv(env, login, iv, ciphertext);
    DrainUnfolds(env, NewCodec(), Concat(chunks));
    DrainUnfolds(env, st1, iv + ciphertext);
    CipherStreamReadsBack(env, st2, ms, ciphertext);
    assert [LoginResp(login)] + ([IvReceived] + Meanings(ms)) == [LoginResp(login), IvReceived] + Meanings(ms);
  }

  lemma LoginThenIv<C(!new)>(env: Env<C>, login: seq<byte>, iv: seq<byte>, rest: seq<byte>)
    requires |login| <= MAX_BODY && env.loginOk(login) && |iv| == IV
    ensures Decode(env, NewCodec(), Wire(Msg(TYPE_LOGIN_RESP, login)) + (iv + rest))
         == Emit(LoginResp(login), Codec(WaitIv, None, None), iv + rest)
    ensures Decode(env, Codec(WaitIv, None, None), iv + rest)
         == Emit(IvReceived, Codec(Work, None, Some(env.keyed(iv))), rest)
  {
    hide Wire;
    var st: Codec<C> := NewCodec();
    WireReadsBack(env, st, Msg(TYPE_LOGIN_RESP, login), iv + rest);
    assert (iv + rest)[..IV] == iv && (iv + rest)[IV..] == rest;
  }

  lemma CipherStreamReadsBack<C(!new)>(env: Env<C>, st: Codec<C>, ms: seq<Msg>, ciphertext: seq<byte>)
    requires st.coder.Some? && st.header.None? && !st.stage.WaitIv?
    requires forall i :: 0 <= i < |ms| ==> Handled(env, ms[i])
    requires Decipher(env, st.coder.value, ciphertext) == WireAll(ms)
    ensures Incremental(Decoding(env), Sizing())
    ensures Drain(Decoding(env), Sizing(), st, ciphertext)
         == Drained(Meanings(ms), st.(coder := Some(CipherAfter(env, st.coder.value, ciphertext))), [], false)
  {
    hide Incremental, Drain, DrainToLogin, Decode, Decipher, CipherAfter, WireAll, Meanings, NoLogin, UpToLogin;
    DecipherThenParse(env, st, ciphertext);
    PlainStreamReadsBack(env, st.(coder := None), ms);
    var d := Drain(Decoding(env), Sizing(), st, ciphertext);
    assert ciphertext[..|ciphertext|] == ciphertext;
    assert |d.rest| == |Decipher(env, d.state.coder.value, d.rest)| == 0;
  }
}
