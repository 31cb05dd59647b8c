/** The Noise IKpsk2 handshake of WireGuard over symbolic cryptography.

    Hash, key derivation, sealing and MAC are free constructors: equal outputs
    come from equal inputs, and opening is matching on the constructor. A
    Diffie-Hellman value is the unordered pair of the two private keys. */
module Noise {

  import opened Options

  /** A private key; `Ephemeral(n)` is the n-th one drawn in a run. */
  datatype Private = Static(device: nat) | Ephemeral(serial: nat)

  datatype Public = Public(of: Private)

  datatype Term =
    | Construction | Identifier | LabelMac1 | Zero | Empty
    | Num(n: nat)
    | Psk(id: nat)
    | Stamp(at: nat)
    | Text(bytes: seq<nat>)
    | Key(key: Public)
    | Shared(parts: set<Private>)
    | Hash(left: Term, right: Term)
    | Kdf(from: Term, input: Term, output: nat)
    | Seal(under: Term, counter: nat, message: Term, aad: Term)
    | Mac(over: Term, fields: seq<Term>)

  function Dh(mine: Private, theirs: Public): Term {
    Shared({mine, theirs.of})
  }

  function Open(key: Term, counter: nat, sealed: Term, aad: Term): Option<Term> {
    if sealed.Seal? && sealed.under == key && sealed.counter == counter && sealed.aad == aad
    then Some(sealed.message) else None
  }

  /** What a device holds for one peer: its own key, the peer's public key, the pre-shared key. */
  datatype Secret = Secret(local: nat, peer: nat, psk: Term)

  function StaticKey(device: nat): Public {
    Public(Static(device))
  }

  datatype Shake =
    | Initiation(senderIndex: nat, ephemeral: Public, staticKey: Term, timestamp: Term, mac1: Term)
    | Response(senderIndex: nat, receiverIndex: nat, ephemeral: Public, empty: Term, mac1: Term)

  /** The part of a message that mac1 covers. */
  function MacFields(p: Shake): seq<Term> {
    match p
    case Initiation(i, e, s, t, _) => [Num(1), Num(i), Key(e), s, t]
    case Response(i, r, e, m, _) => [Num(2), Num(i), Num(r), Key(e), m]
  }

  function Mac1(peer: nat, p: Shake): Term {
    Mac(Hash(LabelMac1, Key(StaticKey(peer))), MacFields(p))
  }

  predicate ValidMac1(local: nat, p: Shake) {
    p.mac1 == Mac1(local, p)
  }

  datatype OutgoingInitiation =
    OutgoingInitiation(index: nat, hash: Term, chainingKey: Term, ephemeral: Private)

  datatype IncomingInitiation =
    IncomingInitiation(index: nat, hash: Term, chainingKey: Term, timestamp: Term,
                       ephemeral: Public, staticKey: Public)

  datatype OutgoingResponse = OutgoingResponse(hash: Term, chainingKey: Term)

  datatype IncomingResponse =
    IncomingResponse(index: nat, ephemeral: Public, hash: Term, chainingKey: Term)

  /** The first message: state kept by the initiator and packet sent. */
  function NewInitiation(index: nat, secret: Secret, e: Private, stamp: nat): (OutgoingInitiation, Shake) {
    var c := Hash(Construction, Empty);
    var h := Hash(Hash(c, Identifier), Key(StaticKey(secret.peer)));
    var c := Kdf(c, Key(Public(e)), 1);
    var h := Hash(h, Key(Public(e)));
    var dh := Dh(e, StaticKey(secret.peer));
    var k := Kdf(c, dh, 2);
    var c := Kdf(c, dh, 1);
    var staticKey := Seal(k, 0, Key(StaticKey(secret.local)), h);
    var h := Hash(h, staticKey);
    var dh := Dh(Static(secret.local), StaticKey(secret.peer));
    var k := Kdf(c, dh, 2);
    var c := Kdf(c, dh, 1);
    var timestamp := Seal(k, 0, Stamp(stamp), h);
    var h := Hash(h, timestamp);
    var p := Initiation(index, Public(e), staticKey, timestamp, Zero);
    (OutgoingInitiation(index, h, c, e),
     Initiation(index, Public(e), staticKey, timestamp, Mac1(secret.peer, p)))
  }

  /** The first message as its addressee reads it. */
  function ParseInitiation(local: nat, p: Shake): Option<IncomingInitiation>
    requires p.Initiation?
  {
    var c := Hash(Construction, Empty);
    var h := Hash(Hash(c, Identifier), Key(StaticKey(local)));
    var c := Kdf(c, Key(p.ephemeral), 1);
    var h := Hash(h, Key(p.ephemeral));
    var dh := Dh(Static(local), p.ephemeral);
    var k := Kdf(c, dh, 2);
    var c := Kdf(c, dh, 1);
    var plain := Open(k, 0, p.staticKey, h);
    if plain.None? || !plain.value.Key? then None else
    var peer := plain.value.key;
    var h := Hash(h, p.staticKey);
    var dh := Dh(Static(local), peer);
    var k := Kdf(c, dh, 2);
    var c := Kdf(c, dh, 1);
    var stamp := Open(k, 0, p.timestamp, h);
    if stamp.None? || !stamp.value.Stamp? then None else
    Some(IncomingInitiation(p.senderIndex, Hash(h, p.timestamp), c, stamp.value, p.ephemeral, peer))
  }

  /** The second message: state of the responder and packet sent. */
  function NewResponse(i: IncomingInitiation, index: nat, secret: Secret, e: Private): (OutgoingResponse, Shake) {
    var c := Kdf(i.chainingKey, Key(Public(e)), 1);
    var h := Hash(i.hash, Key(Public(e)));
    var c := Kdf(c, Dh(e, i.ephemeral), 1);
    var c := Kdf(c, Dh(e, StaticKey(secret.peer)), 1);
    var t := Kdf(c, secret.psk, 2);
    var k := Kdf(c, secret.psk, 3);
    var c := Kdf(c, secret.psk, 1);
    var h := Hash(h, t);
    var empty := Seal(k, 0, Empty, h);
    var p := Response(index, i.index, Public(e), empty, Zero);
    (OutgoingResponse(Hash(h, empty), c),
     Response(index, i.index, Public(e), empty, Mac1(secret.peer, p)))
  }

  /** The second message as the initiator reads it. The receiver index it carries is not looked at. */
  function ParseResponse(o: OutgoingInitiation, secret: Secret, p: Shake): Option<IncomingResponse>
    requires p.Response?
  {
    var c := Kdf(o.chainingKey, Key(p.ephemeral), 1);
    var h := Hash(o.hash, Key(p.ephemeral));
    var c := Kdf(c, Dh(o.ephemeral, p.ephemeral), 1);
    var c := Kdf(c, Dh(Static(secret.local), p.ephemeral), 1);
    var t := Kdf(c, secret.psk, 2);
    var k := Kdf(c, secret.psk, 3);
    var c := Kdf(c, secret.psk, 1);
    var h := Hash(h, t);
    var plain := Open(k, 0, p.empty, h);
    if plain != Some(Empty) then None
    else Some(IncomingResponse(p.senderIndex, p.ephemeral, Hash(h, p.empty), c))
  }

  /** The plain fields of a response, and what reading it takes over from them. */
  lemma ResponseFields(i: IncomingInitiation, index: nat, secret: Secret, e: Private)
    ensures var p := NewResponse(i, index, secret, e).1;
      p.Response? && p.senderIndex == index && p.receiverIndex == i.index && p.ephemeral == Public(e)
    ensures forall o, s :: var r := ParseResponse(o, s, NewResponse(i, index, secret, e).1);
      r.Some? ==> r.value.index == index
  {}

  lemma DhCommutes(a: Private, b: Private)
    ensures Dh(a, Public(b)) == Dh(b, Public(a))
  {
    assert {a, b} == {b, a};
  }

  /** An initiation is readable by its addressee and by nobody else, and the
      reader ends with the sender's hash and chaining key. */
  lemma InitiationAgrees(index: nat, secret: Secret, e: Private, stamp: nat, reader: nat)
    ensures var (out, p) := NewInitiation(index, secret, e, stamp);
      ParseInitiation(reader, p) ==
        if reader != secret.peer then None
        else Some(IncomingInitiation(index, out.hash, out.chainingKey, Stamp(stamp), Public(e),
                                     StaticKey(secret.local)))
  {
    DhCommutes(e, Static(secret.peer));
    DhCommutes(Static(secret.local), Static(secret.peer));
  }

  /** After the response both ends hold the same hash and chaining key. The
      initiator reads the response exactly when the pre-shared keys agree. */
  lemma ResponseAgrees(index: nat, a: Secret, e: Private, stamp: nat, index': nat, b: Secret, e': Private)
    requires a.peer == b.local && b.peer == a.local
    ensures var (out, p) := NewInitiation(index, a, e, stamp);
      var incoming := ParseInitiation(b.local, p);
      incoming.Some? &&
      var (out', p') := NewResponse(incoming.value, index', b, e');
      ParseResponse(out, a, p') ==
        if a.psk != b.psk then None
        else Some(IncomingResponse(index', Public(e'), out'.hash, out'.chainingKey))
  {
    InitiationAgrees(index, a, e, stamp, b.local);
    DhCommutes(e, e');
    DhCommutes(Static(a.local), e');
  }

  /** The transcript of an initiation determines everything in it but the index. */
  lemma InitiationHashIsInjective(i: nat, s: Secret, e: Private, t: nat, i': nat, s': Secret, e': Private, t': nat)
    requires NewInitiation(i, s, e, t).0.hash == NewInitiation(i', s', e', t').0.hash
    ensures e == e' && s.peer == s'.peer && s.local == s'.local && t == t'
  {}

  /** A response is readable only against the initiation it answers: reading it
      forces equal transcripts and chaining keys, although no index is compared. */
  lemma ReadingBinds(o: OutgoingInitiation, a: Secret, i: IncomingInitiation, index: nat, b: Secret, e: Private)
    requires ParseResponse(o, a, NewResponse(i, index, b, e).1).Some?
    ensures o.hash == i.hash && o.chainingKey == i.chainingKey && a.psk == b.psk
    ensures ParseResponse(o, a, NewResponse(i, index, b, e).1).value.chainingKey
         == NewResponse(i, index, b, e).0.chainingKey
  {}

  /** `x` went into the key derivations that led to `c`. */
  predicate FeedsInto(x: Term, c: Term) {
    c.Kdf? && (c.input == x || FeedsInto(x, c.from))
  }

  lemma FeedsOn(x: Term, c: Term, input: Term, output: nat)
    requires FeedsInto(x, c)
    ensures FeedsInto(x, Kdf(c, input, output))
  {}

  /** The final chaining key depends on all four Diffie-Hellman values of the two
      static and two ephemeral keys, and on the pre-shared key. */
  lemma KeysDependOnAllSecrets(index: nat, a: Secret, e: Private, stamp: nat, index': nat, b: Secret, e': Private)
    requires a.peer == b.local && b.peer == a.local
    ensures var i := ParseInitiation(b.local, NewInitiation(index, a, e, stamp).1);
      i.Some? &&
      var c := NewResponse(i.value, index', b, e').0.chainingKey;
      && FeedsInto(Dh(e, StaticKey(b.local)), c) && FeedsInto(Dh(Static(a.local), StaticKey(b.local)), c)
      && FeedsInto(Dh(e, Public(e')), c) && FeedsInto(Dh(Static(a.local), Public(e')), c)
      && FeedsInto(b.psk, c)
  {
    InitiationAgrees(index, a, e, stamp, b.local);
    DhCommutes(e, e');
    DhCommutes(Static(a.local), e');
    var es, ss := Dh(e, StaticKey(b.local)), Dh(Static(a.local), StaticKey(b.local));
    var c0 := NewInitiation(index, a, e, stamp).0.chainingKey;
    assert FeedsInto(es, c0) && FeedsInto(ss, c0);
    var c1 := Kdf(c0, Key(Public(e')), 1);
    var c2 := Kdf(c1, Dh(e', Public(e)), 1);
    var c3 := Kdf(c2, Dh(e', StaticKey(a.local)), 1);
    FeedsOn(es, c0, Key(Public(e')), 1);
    FeedsOn(ss, c0, Key(Public(e')), 1);
    FeedsOn(es, c1, Dh(e', Public(e)), 1);
    FeedsOn(ss, c1, Dh(e', Public(e)), 1);
    FeedsOn(es, c2, Dh(e', StaticKey(a.local)), 1);
    FeedsOn(ss, c2, Dh(e', StaticKey(a.local)), 1);
  }

  // ---------- the primitives ----------

  /** A Diffie-Hellman value determines the two private keys and nothing else. */
  lemma DhIsThePair(a: Private, b: Private, c: Private, d: Private)
    ensures Dh(a, Public(b)) == Dh(c, Public(d)) <==> {a, b} == {c, d}
  {}

  /** What is sealed opens under its key, counter and associated data only. */
  lemma OpensExactly(key: Term, counter: nat, sealed: Term, aad: Term, m: Term)
    ensures Open(key, counter, sealed, aad) == Some(m) <==> sealed == Seal(key, counter, m, aad)
  {}

  /** mac1 is keyed by the addressee and covers the whole message before it. */
  lemma MacCoversMessage(a: nat, p: Shake, b: nat, q: Shake)
    ensures Mac1(a, p) == Mac1(b, q) <==> a == b && WithoutMac(p) == WithoutMac(q)
    ensures Mac1(a, p).Mac? && Mac1(a, p).over == Hash(LabelMac1, Key(Public(Static(a))))
  {}

  function WithoutMac(p: Shake): Shake {
    match p
    case Initiation(i, e, s, t, _) => Initiation(i, e, s, t, Zero)
    case Response(i, r, e, m, _) => Response(i, r, e, m, Zero)
  }

  // ---------- transcripts ----------

  /** What a transcript hash has absorbed, from its start on. */
  function Absorbed(h: Term): seq<Term> {
    if h.Hash? then Absorbed(h.left) + [h.right] else [h]
  }

  /** The key derivations that led to `c`, each with its input and the output taken. */
  function Derived(c: Term): seq<(Term, nat)> {
    if c.Kdf? then Derived(c.from) + [(c.input, c.output)] else []
  }

  /** Where the derivations started. */
  function Root(c: Term): Term {
    if c.Kdf? then Root(c.from) else c
  }

  /** `sealed` is `m` under the key that `derivations` lead to, with nonce 0 and
      bound to the transcript `absorbed`. */
  predicate SealedAt(sealed: Term, m: Term, derivations: seq<(Term, nat)>, absorbed: seq<Term>) {
    && sealed.Seal? && sealed.counter == 0 && sealed.message == m
    && Derived(sealed.under) == derivations && Root(sealed.under) == Hash(Construction, Empty)
    && Absorbed(sealed.aad) == absorbed
  }

  lemma AbsorbsOne(h: Term, x: Term)
    ensures Absorbed(Hash(h, x)) == Absorbed(h) + [x]
  {}

  lemma DerivesOne(c: Term, x: Term, output: nat)
    ensures Derived(Kdf(c, x, output)) == Derived(c) + [(x, output)] && Root(Kdf(c, x, output)) == Root(c)
  {}

  /** What an initiation has absorbed and derived when it is sent, step by step. */
  function InitiationAbsorbs(secret: Secret, e: Private, p: Shake): seq<Term>
    requires p.Initiation?
  {
    [Construction, Empty, Identifier, Key(Public(Static(secret.peer))), Key(Public(e)), p.staticKey, p.timestamp]
  }

  function InitiationDerives(secret: Secret, e: Private): seq<(Term, nat)> {
    [(Key(Public(e)), 1), (Shared({e, Static(secret.peer)}), 1),
     (Shared({Static(secret.local), Static(secret.peer)}), 1)]
  }

  /** The transcript of an initiation: the hash has absorbed both identities'
      parts and both seals in order, chaining keys are first outputs, sealing keys
      second outputs, and each seal is bound to the transcript before it. */
  lemma InitiationTranscript(index: nat, secret: Secret, e: Private, stamp: nat)
    ensures var (out, p) := NewInitiation(index, secret, e, stamp);
      var es, ss := Shared({e, Static(secret.peer)}), Shared({Static(secret.local), Static(secret.peer)});
      && out.index == index && out.ephemeral == e
      && p.Initiation? && p.senderIndex == index && p.ephemeral == Public(e) && ValidMac1(secret.peer, p)
      && Absorbed(out.hash) == InitiationAbsorbs(secret, e, p)
      && Derived(out.chainingKey) == InitiationDerives(secret, e) && Root(out.chainingKey) == Hash(Construction, Empty)
      && SealedAt(p.staticKey, Key(Public(Static(secret.local))),
                  [(Key(Public(e)), 1), (es, 2)], InitiationAbsorbs(secret, e, p)[..5])
      && SealedAt(p.timestamp, Stamp(stamp),
                  [(Key(Public(e)), 1), (es, 1), (ss, 2)], InitiationAbsorbs(secret, e, p)[..6])
  {
    hide NewInitiation, Absorbed, Derived, Root, ValidMac1;
    InitiationFields(index, secret, e, stamp);
    var (out, p) := NewInitiation(index, secret, e, stamp);
    InitiationHashes(secret, e, p.staticKey, p.timestamp);
    InitiationKeys(secret, e);
    var all := InitiationAbsorbs(secret, e, p);
    assert all[..5] == [Construction, Empty, Identifier, Key(Public(Static(secret.peer))), Key(Public(e))];
    assert all[..6] == all[..5] + [p.staticKey];
  }

  lemma InitiationHashes(secret: Secret, e: Private, s: Term, t: Term)
    ensures var h0 := Hash(Hash(Construction, Empty), Identifier);
      var h2 := Hash(Hash(h0, Key(Public(Static(secret.peer)))), Key(Public(e)));
      var start := [Construction, Empty, Identifier, Key(Public(Static(secret.peer))), Key(Public(e))];
      && Absorbed(h2) == start && Absorbed(Hash(h2, s)) == start + [s]
      && Absorbed(Hash(Hash(h2, s), t)) == start + [s, t]
  {
    hide Absorbed;
    var h0 := Hash(Hash(Construction, Empty), Identifier);
    var h1 := Hash(h0, Key(Public(Static(secret.peer))));
    var h2 := Hash(h1, Key(Public(e)));
    StartAbsorbs();
    AbsorbsOne(h0, Key(Public(Static(secret.peer))));
    AbsorbsOne(h1, Key(Public(e)));
    AbsorbsOne(h2, s);
    AbsorbsOne(Hash(h2, s), t);
  }

  lemma InitiationKeys(secret: Secret, e: Private)
    ensures var es, ss := Shared({e, Static(secret.peer)}), Shared({Static(secret.local), Static(secret.peer)});
      var c1 := Kdf(Hash(Construction, Empty), Key(Public(e)), 1);
      var c2 := Kdf(c1, es, 1);
      && Derived(Kdf(c1, es, 2)) == [(Key(Public(e)), 1), (es, 2)]
      && Derived(Kdf(c2, ss, 1)) == InitiationDerives(secret, e)
      && Derived(Kdf(c2, ss, 2)) == [(Key(Public(e)), 1), (es, 1), (ss, 2)]
      && Root(Kdf(c1, es, 2)) == Root(Kdf(c2, ss, 1)) == Root(Kdf(c2, ss, 2)) == Hash(Construction, Empty)
  {
    hide Derived, Root;
    var es, ss := Shared({e, Static(secret.peer)}), Shared({Static(secret.local), Static(secret.peer)});
    var c0 := Hash(Construction, Empty);
    var c1 := Kdf(c0, Key(Public(e)), 1);
    var c2 := Kdf(c1, es, 1);
    StartAbsorbs();
    DerivesOne(c0, Key(Public(e)), 1);
    DerivesOne(c1, es, 1);
    DerivesOne(c1, es, 2);
    DerivesOne(c2, ss, 1);
    DerivesOne(c2, ss, 2);
  }

  lemma StartAbsorbs()
    ensures Absorbed(Hash(Hash(Construction, Empty), Identifier)) == [Construction, Empty, Identifier]
    ensures Derived(Hash(Construction, Empty)) == [] && Root(Hash(Construction, Empty)) == Hash(Construction, Empty)
  {
    AbsorbsOne(Construction, Empty);
    AbsorbsOne(Hash(Construction, Empty), Identifier);
  }

  lemma InitiationFields(index: nat, secret: Secret, e: Private, stamp: nat)
    ensures var (out, p) := NewInitiation(index, secret, e, stamp);
      var es, ss := Shared({e, Static(secret.peer)}), Shared({Static(secret.local), Static(secret.peer)});
      var c0, h0 := Hash(Construction, Empty), Hash(Hash(Construction, Empty), Identifier);
      var h2 := Hash(Hash(h0, Key(Public(Static(secret.peer)))), Key(Public(e)));
      var c1 := Kdf(c0, Key(Public(e)), 1);
      && p.Initiation? && out.index == index == p.senderIndex && out.ephemeral == e && p.ephemeral == Public(e)
      && ValidMac1(secret.peer, p)
      && p.staticKey == Seal(Kdf(c1, es, 2), 0, Key(Public(Static(secret.local))), h2)
      && p.timestamp == Seal(Kdf(Kdf(c1, es, 1), ss, 2), 0, Stamp(stamp), Hash(h2, p.staticKey))
      && out.hash == Hash(Hash(h2, p.staticKey), p.timestamp)
      && out.chainingKey == Kdf(Kdf(c1, es, 1), ss, 1)
  {}

  function ResponseDerives(i: IncomingInitiation, secret: Secret, e: Private, output: nat): seq<(Term, nat)> {
    [(Key(Public(e)), 1), (Shared({e, i.ephemeral.of}), 1), (Shared({e, Static(secret.peer)}), 1),
     (secret.psk, output)]
  }

  /** The transcript of a response goes on from the initiation's: it absorbs the
      ephemeral key, the second output of the derivation with the pre-shared key,
      and the empty seal, whose key is the third output and which is bound to the
      transcript before it. */
  lemma ResponseTranscript(i: IncomingInitiation, index: nat, secret: Secret, e: Private)
    requires Root(i.chainingKey) == Hash(Construction, Empty)
    ensures var (out, p) := NewResponse(i, index, secret, e);
      && p.Response? && p.senderIndex == index && p.receiverIndex == i.index && p.ephemeral == Public(e)
      && ValidMac1(secret.peer, p)
      && (exists t ::
            && Derived(t) == Derived(i.chainingKey) + ResponseDerives(i, secret, e, 2)
            && Root(t) == Hash(Construction, Empty)
            && Absorbed(out.hash) == Absorbed(i.hash) + [Key(Public(e)), t, p.empty]
            && SealedAt(p.empty, Empty, Derived(i.chainingKey) + ResponseDerives(i, secret, e, 3),
                        Absorbed(i.hash) + [Key(Public(e)), t]))
      && Derived(out.chainingKey) == Derived(i.chainingKey) + ResponseDerives(i, secret, e, 1)
      && Root(out.chainingKey) == Hash(Construction, Empty)
  {
    var (out, p) := NewResponse(i, index, secret, e);
    var ee, se := Shared({e, i.ephemeral.of}), Shared({e, Static(secret.peer)});
    var c1 := Kdf(i.chainingKey, Key(Public(e)), 1);
    var c2 := Kdf(c1, ee, 1);
    var c3 := Kdf(c2, se, 1);
    var t := Kdf(c3, secret.psk, 2);
    var h1 := Hash(i.hash, Key(Public(e)));
    ResponseSteps(i, index, secret, e);
    hide NewResponse, Absorbed, Derived, Root, ValidMac1;
    DerivesOne(i.chainingKey, Key(Public(e)), 1);
    DerivesOne(c1, ee, 1);
    DerivesOne(c2, se, 1);
    DerivesOne(c3, secret.psk, 1);
    DerivesOne(c3, secret.psk, 2);
    DerivesOne(c3, secret.psk, 3);
    AbsorbsOne(i.hash, Key(Public(e)));
    AbsorbsOne(h1, t);
    AbsorbsOne(Hash(h1, t), p.empty);
    assert Absorbed(out.hash) == Absorbed(i.hash) + [Key(Public(e)), t, p.empty];
  }

  lemma ResponseSteps(i: IncomingInitiation, index: nat, secret: Secret, e: Private)
    ensures var (out, p) := NewResponse(i, index, secret, e);
      var c3 := Kdf(Kdf(Kdf(i.chainingKey, Key(Public(e)), 1), Shared({e, i.ephemeral.of}), 1),
                    Shared({e, Static(secret.peer)}), 1);
      var h2 := Hash(Hash(i.hash, Key(Public(e))), Kdf(c3, secret.psk, 2));
      && p.Response? && p.senderIndex == index && p.receiverIndex == i.index && p.ephemeral == Public(e)
      && ValidMac1(secret.peer, p)
      && p.empty == Seal(Kdf(c3, secret.psk, 3), 0, Empty, h2)
      && out.hash == Hash(h2, p.empty) && out.chainingKey == Kdf(c3, secret.psk, 1)
  {}

  /** The whole exchange, at both ends: ten absorbed parts, and a chaining key from
      seven first outputs, in the order of the protocol. */
  lemma ExchangeTranscript(index: nat, a: Secret, e: Private, stamp: nat, index': nat, b: Secret, e': Private)
    requires a.peer == b.local && b.peer == a.local
    ensures var (out, p) := NewInitiation(index, a, e, stamp);
      var i := ParseInitiation(b.local, p);
      i.Some? &&
      var (out', p') := NewResponse(i.value, index', b, e');
      && p'.Response?
      && (exists t :: Derived(t) == ExchangeDerives(a, e, e', b.psk, 2) && Absorbed(out'.hash) ==
            [Construction, Empty, Identifier, Key(Public(Static(b.local))), Key(Public(e)), p.staticKey, p.timestamp,
             Key(Public(e')), t, p'.empty])
      && Derived(out'.chainingKey) == ExchangeDerives(a, e, e', b.psk, 1)
      && (a.psk == b.psk ==>
            ParseResponse(out, a, p') == Some(IncomingResponse(index', Public(e'), out'.hash, out'.chainingKey)))
  {
    hide NewInitiation, NewResponse, ParseInitiation, ParseResponse, Absorbed, Derived, Root, SealedAt;
    InitiationAgrees(index, a, e, stamp, b.local);
    InitiationTranscript(index, a, e, stamp);
    ResponseAgrees(index, a, e, stamp, index', b, e');
    var (out, p) := NewInitiation(index, a, e, stamp);
    var i := ParseInitiation(b.local, p).value;
    ResponseTranscript(i, index', b, e');
    var (out', p') := NewResponse(i, index', b, e');
    assert {e', e} == {e, e'} && {e', Static(a.local)} == {Static(a.local), e'};
    var t :| Derived(t) == Derived(i.chainingKey) + ResponseDerives(i, b, e', 2)
      && Absorbed(out'.hash) == Absorbed(i.hash) + [Key(Public(e')), t, p'.empty];
    assert Derived(t) == ExchangeDerives(a, e, e', b.psk, 2);
  }

  function ExchangeDerives(a: Secret, e: Private, e': Private, psk: Term, output: nat): seq<(Term, nat)> {
    [(Key(Public(e)), 1), (Shared({e, Static(a.peer)}), 1), (Shared({Static(a.local), Static(a.peer)}), 1),
     (Key(Public(e')), 1), (Shared({e, e'}), 1), (Shared({Static(a.local), e'}), 1), (psk, output)]
  }
}
