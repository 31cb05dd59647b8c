/** Decoders that are fed a byte stream in pieces.

    A decoder looks at its state and the buffered bytes and either emits a
    message, fails, or asks for more. `Drain` calls it until it stops emitting,
    which is what a framed transport does after every read. A failure is final:
    later bytes are only buffered. */
module Streaming {
  import opened Bytes

  datatype Outcome<S, M> =
    | NeedMore(state: S, rest: seq<byte>)
    | Emit(message: M, state: S, rest: seq<byte>)
    | Fail(state: S, rest: seq<byte>)

  type Decoder<!S, !M> = (S, seq<byte>) -> Outcome<S, M>

  datatype Drained<S, M> = Drained(messages: seq<M>, state: S, rest: seq<byte>, failed: bool)

  function Prepend<S, M>(m: M, d: Drained<S, M>): Drained<S, M> {
    d.(messages := [m] + d.messages)
  }

  /** Bytes that arrive later do not change what has been decided. */
  ghost predicate Settled<S, M>(dec: Decoder<S, M>, st: S, buf: seq<byte>, more: seq<byte>) {
    match dec(st, buf)
    case Emit(m, st', rest) => dec(st, buf + more) == Emit(m, st', rest + more)
    case Fail(st', rest) => dec(st, buf + more) == Fail(st', rest + more)
    case NeedMore(st', rest) => dec(st, buf + more) == dec(st', rest + more)
  }

  /** ... and every message uses up bytes or state. */
  ghost predicate StepOk<S(!new), M(!new)>(dec: Decoder<S, M>, size: S -> nat, st: S, buf: seq<byte>) {
    && (var r := dec(st, buf);
        r.Emit? ==> |r.rest| < |buf| || (|r.rest| == |buf| && size(r.state) < size(st)))
    && forall more :: Settled(dec, st, buf, more)
  }

  ghost predicate Incremental<S(!new), M(!new)>(dec: Decoder<S, M>, size: S -> nat) {
    forall st, buf :: StepOk(dec, size, st, buf)
  }

  ghost function Drain<S(!new), M(!new)>(dec: Decoder<S, M>, size: S -> nat, st: S, buf: seq<byte>): Drained<S, M>
    requires Incremental(dec, size)
    decreases |buf|, size(st)
  {
    assert StepOk(dec, size, st, buf);
    match dec(st, buf)
    case NeedMore(st', rest) => Drained([], st', rest, false)
    case Fail(st', rest) => Drained([], st', rest, true)
    case Emit(m, st', rest) => Prepend(m, Drain(dec, size, st', rest))
  }

  /** A read: append the bytes to what is left over and drain. */
  ghost function Feed<S(!new), M(!new)>(
    dec: Decoder<S, M>, size: S -> nat, d: Drained<S, M>, chunk: seq<byte>): Drained<S, M>
    requires Incremental(dec, size)
  {
    if d.failed then d.(rest := d.rest + chunk)
    else
      var r := Drain(dec, size, d.state, d.rest + chunk);
      r.(messages := d.messages + r.messages)
  }

  ghost function FeedAll<S(!new), M(!new)>(
    dec: Decoder<S, M>, size: S -> nat, d: Drained<S, M>, chunks: seq<seq<byte>>): Drained<S, M>
    requires Incremental(dec, size)
  {
    if chunks == [] then d
    else Feed(dec, size, FeedAll(dec, size, d, chunks[..|chunks| - 1]), chunks[|chunks| - 1])
  }

  function Concat(chunks: seq<seq<byte>>): seq<byte> {
    if chunks == [] then [] else Concat(chunks[..|chunks| - 1]) + chunks[|chunks| - 1]
  }

  /** Draining, waiting for more and draining again is draining once. */
  lemma {:induction false} DrainSplits<S(!new), M(!new)>(
    dec: Decoder<S, M>, size: S -> nat, st: S, a: seq<byte>, b: seq<byte>)
    requires Incremental(dec, size)
    ensures Feed(dec, size, Drain(dec, size, st, a), b) == Drain(dec, size, st, a + b)
    decreases |a|, size(st)
  {
    assert StepOk(dec, size, st, a) && Settled(dec, st, a, b);
    assert StepOk(dec, size, st, a + b);
    match dec(st, a)
    case NeedMore(st', rest) =>
      assert dec(st, a + b) == dec(st', rest + b);
      assert StepOk(dec, size, st', rest + b);
      var r := Drain(dec, size, st', rest + b);
      assert [] + r.messages == r.messages;
    case Fail(st', rest) =>
    case Emit(m, st', rest) =>
      DrainSplits(dec, size, st', rest, b);
      var d := Drain(dec, size, st', rest);
      if !d.failed {
        var r := Drain(dec, size, d.state, d.rest + b);
        assert [m] + d.messages + r.messages == [m] + (d.messages + r.messages);
      }
  }

  /** Chunking does not matter: messages, state and leftover depend only on the
      bytes received, not on the pieces they came in. */
  lemma {:induction false} ChunkingIsInvisible<S(!new), M(!new)>(
    dec: Decoder<S, M>, size: S -> nat, st: S, a: seq<byte>, chunks: seq<seq<byte>>)
    requires Incremental(dec, size)
    ensures FeedAll(dec, size, Drain(dec, size, st, a), chunks) == Drain(dec, size, st, a + Concat(chunks))
    decreases |chunks|
  {
    hide Drain, Feed, StepOk, Incremental;
    if chunks == [] {
      assert a + [] == a;
    } else {
      var before, last := chunks[..|chunks| - 1], chunks[|chunks| - 1];
      ChunkingIsInvisible(dec, size, st, a, before);
      DrainSplits(dec, size, st, a + Concat(before), last);
      assert a + Concat(before) + last == a + Concat(chunks);
    }
  }
}
