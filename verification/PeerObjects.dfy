/** The objects of a peer: the shared session index, its four session slots and
    its handshake, each updated in place and specified by the values they hold. */
module PeerObjects {
  import opened Options
  import opened Noise
  import opened Sessions
  import opened Handshakes

  class SessionIndex {
    var index: nat
    var indexes: map<nat, Session>
    var keys: map<nat, set<nat>>

    function View(): IndexView
      reads this
    {
      IndexView(indexes, keys)
    }

    constructor (start: nat)
      requires start < INDEXES
      ensures index == start && View() == IndexView(map[], map[]) && Inverse(View())
    {
      index, indexes, keys := start, map[], map[];
    }

    /** A wrapping 32-bit counter: the k-th call yields `start + k` modulo 2^32. */
    method NextIndex() returns (i: nat)
      modifies this`index
      ensures i == old(index) && index == (old(index) + 1) % INDEXES
    {
      i := index;
      index := (index + 1) % INDEXES;
    }

    method InsertSession(s: Session)
      modifies this`indexes, this`keys
      ensures View() == Insert(old(View()), s)
    {
      var of := if s.peer in keys then keys[s.peer] else {};
      keys := keys[s.peer := of + {s.senderIndex}];
      indexes := indexes[s.senderIndex := s];
    }

    method GetByIndex(i: nat) returns (r: Option<Session>)
      ensures r.Some? <==> i in indexes
      ensures r.Some? ==> r.value == indexes[i]
    {
      r := if i in indexes then Some(indexes[i]) else None;
    }

    /** The unwrap of the key's entry cannot fail while the maps are inverse. */
    method RemoveSession(s: Session) returns (r: Option<Session>)
      requires Inverse(View())
      modifies this`indexes, this`keys
      ensures View() == Remove(old(View()), s.senderIndex)
      ensures r == if s.senderIndex in old(indexes) then Some(old(indexes)[s.senderIndex]) else None
    {
      if s.senderIndex !in indexes {
        return None;
      }
      var found := indexes[s.senderIndex];
      RemoveInverse(View(), s.senderIndex);
      indexes := indexes - {s.senderIndex};
      keys := keys[found.peer := keys[found.peer] - {s.senderIndex}];
      r := Some(found);
    }

    method RemoveKey(key: nat)
      modifies this`indexes, this`keys
      ensures View() == RemoveByKey(old(View()), key)
    {
      if key !in keys {
        assert keys - {key} == keys;
        return;
      }
      var todo := keys[key];
      keys := keys - {key};
      while todo != {}
        invariant todo <= old(keys)[key]
        invariant indexes == old(indexes) - (old(keys)[key] - todo)
        invariant keys == old(keys) - {key}
        decreases |todo|
      {
        var i :| i in todo;
        todo := todo - {i};
        indexes := indexes - {i};
      }
    }

    method Clear()
      modifies this`indexes, this`keys
      ensures View() == IndexView(map[], map[])
    {
      indexes, keys := map[], map[];
    }
  }

  class ActiveSession {
    const index: SessionIndex
    var uninit: Option<Session>
    var previous: Option<Session>
    var current: Option<Session>
    var next: Option<Session>

    function View(): Slots
      reads this
    {
      Slots(uninit, previous, current, next)
    }

    function Contents(): Bank
      reads this, index
    {
      Bank(index.View(), View())
    }

    constructor (index: SessionIndex)
      ensures this.index == index && View() == Slots(None, None, None, None)
    {
      this.index := index;
      uninit, previous, current, next := None, None, None, None;
    }

    method Drop(o: Option<Session>)
      requires Inverse(index.View())
      modifies index`indexes, index`keys
      ensures index.View() == Deactivate(old(index.View()), o)
      ensures Inverse(index.View())
    {
      DeactivateKeeps(index.View(), o);
      if o.Some? {
        var _ := index.RemoveSession(o.value);
      }
    }

    method PrepareUninitSlot(s: Session)
      requires Inverse(index.View())
      modifies this`uninit, index`indexes, index`keys
      ensures Contents() == PrepareUninit(old(Contents()), s)
    {
      var was := uninit;
      uninit := None;
      Drop(was);
      index.InsertSession(s);
      uninit := Some(s);
    }

    method CompleteUninitSlot(s: Session) returns (done: bool)
      requires Inverse(index.View())
      modifies this`uninit, this`previous, this`current, index`indexes, index`keys
      ensures done == Matches(old(uninit), s)
      ensures Contents() == CompleteUninit(old(Contents()), s)
    {
      if !(uninit.Some? && uninit.value.senderIndex == s.senderIndex) {
        return false;
      }
      hide Inverse, SlotsApart, SlotsIndexed;
      var was := uninit;
      uninit := None;
      Drop(was);
      InsertInverse(index.View(), s);
      index.InsertSession(s);
      was := previous;
      previous := None;
      Drop(was);
      previous := current;
      current := Some(s);
      done := true;
    }

    method PrepareNextSlot(s: Session)
      requires Inverse(index.View())
      modifies this`previous, this`next, index`indexes, index`keys
      ensures Contents() == PrepareNext(old(Contents()), s)
    {
      if next.Some? {
        var was, moved := previous, next;
        next, previous := None, None;
        Drop(was);
        previous := moved;
      }
      index.InsertSession(s);
      next := Some(s);
    }

    method CompleteNextSlot(s: Session) returns (done: bool)
      requires Inverse(index.View())
      modifies this`previous, this`current, this`next, index`indexes, index`keys
      ensures done == Matches(old(next), s)
      ensures Contents() == CompleteNext(old(Contents()), s)
    {
      if !(next.Some? && next.value.senderIndex == s.senderIndex) {
        return false;
      }
      var was := next;
      next := None;
      Drop(was);
      was := previous;
      previous := None;
      Drop(was);
      index.InsertSession(s);
      previous := current;
      current := Some(s);
      done := true;
    }
  }

  class Handshake {
    const secret: Secret
    const index: SessionIndex
    var state: Option<OutgoingInitiation>

    constructor (secret: Secret, index: SessionIndex)
      ensures this.secret == secret && this.index == index && state == None
    {
      this.secret, this.index, state := secret, index, None;
    }

    /** A new initiation replaces the pending one. `n` is the fresh ephemeral key. */
    method Initiate(n: nat, stamp: nat) returns (s: Session, p: Shake)
      modifies this, index`index
      ensures var made := NewInitiation(old(index.index), secret, Ephemeral(n), stamp);
        state == Some(made.0) && p == made.1
      ensures s == HalfSession(secret, old(index.index), n)
      ensures index.index == (old(index.index) + 1) % INDEXES
    {
      var i := index.NextIndex();
      var (out, packet) := NewInitiation(i, secret, Ephemeral(n), stamp);
      s := HalfSession(secret, i, n);
      state := Some(out);
      p := packet;
    }

    /** Answering leaves a pending initiation of one's own alone. */
    method Respond(i: IncomingInitiation, m: nat) returns (s: Session, p: Shake)
      modifies index`index
      ensures p == NewResponse(i, old(index.index), secret, Ephemeral(m)).1
      ensures s == RespondSession(secret, i, old(index.index), m)
      ensures index.index == (old(index.index) + 1) % INDEXES
    {
      var local := index.NextIndex();
      var (out, packet) := NewResponse(i, local, secret, Ephemeral(m));
      s := Session(secret.peer, local, Kdf(out.chainingKey, Empty, 2), i.index,
                   Kdf(out.chainingKey, Empty, 1), Responder(m));
      p := packet;
    }

    /** The pending initiation is read, not consumed: a second response is read the same way. */
    method Finalize(p: Shake, serial: nat) returns (r: Option<Session>)
      requires p.Response?
      ensures r.Some? <==> state.Some? && ParseResponse(state.value, secret, p).Some?
      ensures r.Some? ==>
        && r.value.peer == secret.peer
        && r.value.senderIndex == state.value.index && r.value.receiverIndex == p.senderIndex
        && r.value.senderKey.Kdf? && r.value.receiverKey.Kdf? && r.value.senderKey != r.value.receiverKey
      ensures r == if state.None? then None else FinalizeSession(state.value, secret, p, serial)
    {
      match state
      case None => r := None;
      case Some(o) =>
        var response := ParseResponse(o, secret, p);
        if response.None? {
          return None;
        }
        var c := response.value.chainingKey;
        r := Some(Session(secret.peer, o.index, Kdf(c, Empty, 1), response.value.index, Kdf(c, Empty, 2),
                          Initiator(Serial(o.ephemeral), Serial(p.ephemeral.of), serial)));
    }
  }
}
