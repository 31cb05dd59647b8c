/** From handshake transcripts to sessions: `Handshake::initiate`, `respond` and `finalize`. */
module Handshakes {
  import opened Options
  import opened Noise
  import opened Sessions

  function Serial(k: Private): nat {
    if k.Ephemeral? then k.serial else 0
  }

  /** The placeholder of `initiate`: all-zero keys, receiver index 0. */
  function HalfSession(secret: Secret, index: nat, n: nat): Session {
    Session(secret.peer, index, Zero, 0, Zero, Half(n))
  }

  /** The responder receives with the first derived key and sends with the second. */
  function RespondSession(secret: Secret, i: IncomingInitiation, index: nat, m: nat): Session {
    var c := NewResponse(i, index, secret, Ephemeral(m)).0.chainingKey;
    Session(secret.peer, index, Kdf(c, Empty, 2), i.index, Kdf(c, Empty, 1), Responder(m))
  }

  /** The initiator sends with the first derived key and receives with the second. */
  function FinalizeSession(o: OutgoingInitiation, secret: Secret, p: Shake, serial: nat): Option<Session>
    requires p.Response?
  {
    var r := ParseResponse(o, secret, p);
    if r.None? then None else
    var c := r.value.chainingKey;
    Some(Session(secret.peer, o.index, Kdf(c, Empty, 1), r.value.index, Kdf(c, Empty, 2),
                 Initiator(Serial(o.ephemeral), Serial(p.ephemeral.of), serial)))
  }

  /** Two ends of one conversation: swapped indices, swapped keys. */
  predicate Mirror(s: Session, t: Session) {
    && s.senderIndex == t.receiverIndex && s.receiverIndex == t.senderIndex
    && s.senderKey == t.receiverKey && s.receiverKey == t.senderKey
  }

  /** An undisturbed exchange leaves mirrored sessions at the two ends. */
  lemma HonestExchangeMirrors(
    index: nat, a: Secret, n: nat, stamp: nat, index': nat, b: Secret, m: nat, serial: nat)
    requires a.peer == b.local && b.peer == a.local && a.psk == b.psk
    ensures var (o, p) := NewInitiation(index, a, Ephemeral(n), stamp);
      var i := ParseInitiation(b.local, p);
      i.Some? &&
      var q := NewResponse(i.value, index', b, Ephemeral(m)).1;
      var s := FinalizeSession(o, a, q, serial);
      s.Some? && Mirror(s.value, RespondSession(b, i.value, index', m))
  {
    InitiationAgrees(index, a, Ephemeral(n), stamp, b.local);
    ResponseAgrees(index, a, Ephemeral(n), stamp, index', b, Ephemeral(m));
  }

  /** Which key is which: after an exchange the initiator sends, and the responder
      receives, under the first output derived from the common chaining key, and
      the other way round under the second. */
  lemma KeysByDirection(
    index: nat, a: Secret, n: nat, stamp: nat, index': nat, b: Secret, m: nat, serial: nat)
    requires a.peer == b.local && b.peer == a.local && a.psk == b.psk
    ensures var (o, p) := NewInitiation(index, a, Ephemeral(n), stamp);
      var i := ParseInitiation(b.local, p);
      i.Some? &&
      var q := NewResponse(i.value, index', b, Ephemeral(m)).1;
      var s, t := FinalizeSession(o, a, q, serial), RespondSession(b, i.value, index', m);
      var chain := ExchangeDerives(a, Ephemeral(n), Ephemeral(m), b.psk, 1);
      && s.Some?
      && Derived(s.value.senderKey) == Derived(t.receiverKey) == chain + [(Empty, 1)]
      && Derived(s.value.receiverKey) == Derived(t.senderKey) == chain + [(Empty, 2)]
      && s.value.peer == b.local && s.value.senderIndex == index && s.value.receiverIndex == index'
      && t.peer == a.local && t.senderIndex == index' && t.receiverIndex == index
  {
    hide NewInitiation, NewResponse, ParseInitiation, ParseResponse, Absorbed, Derived, Root;
    HonestExchangeMirrors(index, a, n, stamp, index', b, m, serial);
    ExchangeTranscript(index, a, Ephemeral(n), stamp, index', b, Ephemeral(m));
    InitiationAgrees(index, a, Ephemeral(n), stamp, b.local);
    InitiationTranscript(index, a, Ephemeral(n), stamp);
    var i := ParseInitiation(b.local, NewInitiation(index, a, Ephemeral(n), stamp).1).value;
    var c := NewResponse(i, index', b, Ephemeral(m)).0.chainingKey;
    DerivesOne(c, Empty, 1);
    DerivesOne(c, Empty, 2);
  }
}
