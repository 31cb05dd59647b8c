/** The frp codec as the objects that update themselves and their buffers in place. */
module FrpObjects {
  import opened Options
  import opened Bytes
  import opened Streaming
  import opened FrpCodec

  class FrpBufCrypto<C> {
    const env: Env<C>
    var dec: C

    constructor (env: Env<C>, iv: seq<byte>)
      ensures this.env == env && dec == env.keyed(iv)
    {
      this.env, dec := env, env.keyed(iv);
    }

    /** Deciphers a buffer where it stands and moves on by its length. */
    method DecryptBuf(buf: array<byte>)
      modifies this, buf
      ensures dec == CipherAfter(env, old(dec), old(buf[..]))
      ensures buf[..] == Decipher(env, old(dec), old(buf[..]))
    {
      ghost var was := buf[..];
      for i := 0 to buf.Length
        invariant dec == CipherAfter(env, old(dec), was[..i])
        invariant buf[..i] == Decipher(env, old(dec), was[..i])
        invariant buf[i..] == was[i..]
      {
        assert was[..i + 1][..i] == was[..i];
        var (next, plain) := env.step(dec, buf[i]);
        dec := next;
        buf[i] := plain;
      }
      assert was[..|was|] == was && buf[..buf.Length] == buf[..];
    }
  }

  /** What `decode` returns, besides the state and the buffer it leaves. */
  datatype Reply = Waiting | Message(m: Response) | Broken

  function Joined<S>(r: Reply, st: S, rest: seq<byte>): Outcome<S, Response> {
    match r
    case Waiting => NeedMore(st, rest)
    case Message(m) => Emit(m, st, rest)
    case Broken => Fail(st, rest)
  }

  class FrpDecoder<C(!new)> {
    const env: Env<C>
    var stage: Stage
    var header: Option<Header>
    var coder: FrpBufCrypto?<C>

    ghost predicate Valid()
      reads this, coder
    {
      coder != null ==> coder.env == env
    }

    function View(): Codec<C>
      reads this, coder
    {
      Codec(stage, header, if coder == null then None else Some(coder.dec))
    }

    constructor (env: Env<C>)
      ensures Valid() && this.env == env && View() == NewCodec() && coder == null
    {
      this.env, stage, header, coder := env, Login, None, null;
    }

    /** Copies `bytes` into a buffer of their own and deciphers it if the cipher is running. */
    method SplitTo(bytes: seq<byte>) returns (data: seq<byte>)
      requires Valid()
      modifies coder
      ensures Valid() && stage == old(stage) && header == old(header)
      ensures View().coder == CoderAfter(env, old(View()).coder, bytes)
      ensures data == Plain(env, old(View()).coder, bytes)
    {
      var buf := new byte[|bytes|](i requires 0 <= i < |bytes| => bytes[i]);
      assert buf[..] == bytes;
      if coder != null {
        coder.DecryptBuf(buf);
      }
      data := buf[..];
    }

    /** One call of `decode`: exactly the outcome of the pure decoder. */
    method DecodeNext(src: seq<byte>) returns (r: Reply, rest: seq<byte>)
      requires Valid()
      modifies this, coder
      ensures Valid() && (coder == old(coder) || fresh(coder))
      ensures Joined(r, View(), rest) == Decode(env, old(View()), src)
    {
      if stage.WaitIv? {
        if |src| < IV {
          return Waiting, src;
        }
        coder := new FrpBufCrypto(env, src[..IV]);
        stage := Work;
        return Message(IvReceived), src[IV..];
      }
      rest := src;
      var h;
      if header.None? {
        if |src| < HEADER {
          return Waiting, src;
        }
        var data := SplitTo(src[..HEADER]);
        rest := src[HEADER..];
        h := ReadHeader(data);
      } else {
        h := header.value;
        header := None;
      }
      ghost var before := View();
      assert Decode(env, old(View()), src) == Body(env, before, h, rest) by {
        BodyIgnoresHeader(env, before, h, rest);
      }
      r, rest := DecodeBody(h, rest);
    }

    method DecodeBody(h: Header, src: seq<byte>) returns (r: Reply, rest: seq<byte>)
      requires Valid() && header.None?
      modifies this`header, this`stage, coder
      ensures Valid()
      ensures Joined(r, View(), rest) == Body(env, old(View()), h, src)
    {
      if h.len > MAX_BODY {
        return Broken, src;
      }
      if |src| < h.len {
        header := Some(h);
        return Waiting, src;
      }
      var data := SplitTo(src[..h.len]);
      rest := src[h.len..];
      if h.kind == TYPE_LOGIN_RESP {
        if !env.loginOk(data) {
          return Broken, rest;
        }
        stage := WaitIv;
        r := Message(LoginResp(data));
      } else if h.kind == TYPE_REQ_WORK_CONN {
        r := Message(ReqWorkConn);
      } else if h.kind == TYPE_NEW_PROXY_RESP {
        r := Message(NewProxyResp);
      } else if h.kind == TYPE_START_WORK_CONN {
        r := if env.startOk(data) then Message(StartWorkConn(data)) else Broken;
      } else {
        r := Broken;
      }
    }

    /** A read: decode until nothing more comes out. The loop ends, with the result of `Drain`. */
    method Pump(src: seq<byte>) returns (messages: seq<Response>, rest: seq<byte>, failed: bool)
      requires Valid()
      modifies this, coder
      ensures Valid() && Incremental(Decoding(env), Sizing())
      ensures Drained(messages, View(), rest, failed) == Drain(Decoding(env), Sizing(), old(View()), src)
    {
      hide Decode, StepOk, Incremental;
      DecodeIncremental(env);
      messages, rest, failed := [], src, false;
      ghost var goal := Drain(Decoding(env), Sizing(), View(), src);
      assert [] + goal.messages == goal.messages;
      var done := false;
      while !done
        invariant Valid() && (coder == old(coder) || fresh(coder))
        invariant done ==> Drained(messages, View(), rest, failed) == goal
        invariant !done ==> !failed && (var d := Drain(Decoding(env), Sizing(), View(), rest);
                            d.(messages := messages + d.messages) == goal)
        decreases !done, |rest|, Size(View())
      {
        DecodeStepOk(env, View(), rest);
        ghost var st, buf := View(), rest;
        DrainUnfolds(env, st, buf);
        var r;
        r, rest := DecodeNext(rest);
        match r
        case Waiting => done := true;
        case Broken => done, failed := true, true;
        case Message(m) =>
          Progress(env, st, buf);
          ghost var d := Drain(Decoding(env), Sizing(), View(), rest);
          assert messages + ([m] + d.messages) == messages + [m] + d.messages;
          messages := messages + [m];
      }
    }
  }

  lemma Progress<C(!new)>(env: Env<C>, st: Codec<C>, src: seq<byte>)
    ensures var r := Decode(env, st, src);
      r.Emit? ==> |r.rest| < |src| || (|r.rest| == |src| && Size(r.state) < Size(st))
  {
    DecodeStepOk(env, st, src);
    hide Decode;
  }
}
