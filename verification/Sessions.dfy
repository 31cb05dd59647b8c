/** Sessions, the index they are found by, and the four slots of a peer.

    `IndexView` and `Bank` are the values the two classes hold; the functions on
    them specify the methods, and the lemmas say what the functions achieve. */
module Sessions {
  import opened Options
  import opened Noise

  /** How many values a 32-bit session index has. */
  const INDEXES: nat := 0x1_0000_0000

  /** The shared cells (send counter and replay filter) of a session, which all
      its clones point to. `Half` is the placeholder made by `initiate` n,
      `Responder(m)` the session made by `respond` m, `Initiator(n, m, serial)`
      the one made when a `finalize` read answer m to initiation n. */
  datatype Cell = Half(n: nat) | Responder(m: nat) | Initiator(n: nat, m: nat, serial: nat)

  datatype Session = Session(
    peer: nat, senderIndex: nat, senderKey: Term, receiverIndex: nat, receiverKey: Term, cell: Cell)

  /** A transport packet, with its payload as a term or as bytes. */
  datatype TransportData<P> = TransportData(receiverIndex: nat, counter: nat, payload: P)

  // ---------- the index ----------

  datatype IndexView = IndexView(indexes: map<nat, Session>, keys: map<nat, set<nat>>)

  function Keyed(v: IndexView, key: nat): set<nat> {
    if key in v.keys then v.keys[key] else {}
  }

  function Insert(v: IndexView, s: Session): IndexView {
    IndexView(v.indexes[s.senderIndex := s],
              v.keys[s.peer := Keyed(v, s.peer) + {s.senderIndex}])
  }

  function Remove(v: IndexView, i: nat): IndexView {
    if i !in v.indexes then v else
    var key := v.indexes[i].peer;
    IndexView(v.indexes - {i}, v.keys[key := Keyed(v, key) - {i}])
  }

  function RemoveByKey(v: IndexView, key: nat): IndexView {
    IndexView(v.indexes - Keyed(v, key), v.keys - {key})
  }

  /** The two maps are inverse to each other. */
  ghost predicate Inverse(v: IndexView) {
    && (forall i :: i in v.indexes ==> v.indexes[i].senderIndex == i && i in Keyed(v, v.indexes[i].peer))
    && (forall key, i :: key in v.keys && i in v.keys[key] ==> i in v.indexes && v.indexes[i].peer == key)
  }

  /** Inserting keeps the maps inverse exactly when the index is not in use under another key. */
  lemma InsertInverse(v: IndexView, s: Session)
    requires Inverse(v)
    ensures Inverse(Insert(v, s)) <==>
            (s.senderIndex in v.indexes ==> v.indexes[s.senderIndex].peer == s.peer)
  {
    var w := Insert(v, s);
    if s.senderIndex in v.indexes && v.indexes[s.senderIndex].peer != s.peer {
      var key := v.indexes[s.senderIndex].peer;
      assert key in w.keys && s.senderIndex in w.keys[key];
      assert w.indexes[s.senderIndex].peer != key;
    } else {
      forall i | i in w.indexes
        ensures w.indexes[i].senderIndex == i && i in Keyed(w, w.indexes[i].peer)
      {
      }
    }
  }

  lemma RemoveInverse(v: IndexView, i: nat)
    requires Inverse(v)
    ensures Inverse(Remove(v, i))
    ensures i in v.indexes ==> v.indexes[i].peer in v.keys
  {}

  /** `remove_by_key` drops that key's sessions and no others. */
  lemma RemoveByKeyExact(v: IndexView, key: nat)
    requires Inverse(v)
    ensures Inverse(RemoveByKey(v, key))
    ensures RemoveByKey(v, key).indexes == map i | i in v.indexes && v.indexes[i].peer != key :: v.indexes[i]
  {
    var w := RemoveByKey(v, key);
    assert forall i :: i in v.indexes ==> (i in Keyed(v, key) <==> v.indexes[i].peer == key);
    forall i | i in w.indexes ensures i in Keyed(w, w.indexes[i].peer) {
      assert i in Keyed(v, v.indexes[i].peer);
    }
    forall k, i | k in w.keys && i in w.keys[k] ensures i in w.indexes && w.indexes[i].peer == k {
      assert i in v.indexes && v.indexes[i].peer == k;
    }
  }

  datatype IndexOp = InsertOp(s: Session) | RemoveOp(i: nat) | RemoveByKeyOp(key: nat) | ClearOp

  function ApplyOp(v: IndexView, op: IndexOp): IndexView {
    match op
    case InsertOp(s) => Insert(v, s)
    case RemoveOp(i) => Remove(v, i)
    case RemoveByKeyOp(key) => RemoveByKey(v, key)
    case ClearOp => IndexView(map[], map[])
  }

  function ApplyOps(v: IndexView, ops: seq<IndexOp>): IndexView {
    if ops == [] then v else ApplyOp(ApplyOps(v, ops[..|ops| - 1]), ops[|ops| - 1])
  }

  ghost predicate OwnedBy(v: IndexView, owner: nat -> nat) {
    forall i :: i in v.indexes ==> v.indexes[i].peer == owner(i)
  }

  /** However the four operations are mixed, the maps stay inverse as long as an
      index is never reused under another key. */
  lemma {:induction false} RunKeepsInverse(ops: seq<IndexOp>, owner: nat -> nat)
    requires forall k :: 0 <= k < |ops| && ops[k].InsertOp? ==> ops[k].s.peer == owner(ops[k].s.senderIndex)
    ensures Inverse(ApplyOps(IndexView(map[], map[]), ops))
    ensures OwnedBy(ApplyOps(IndexView(map[], map[]), ops), owner)
  {
    if ops != [] {
      var before := ApplyOps(IndexView(map[], map[]), ops[..|ops| - 1]);
      RunKeepsInverse(ops[..|ops| - 1], owner);
      match ops[|ops| - 1]
      case InsertOp(s) => InsertInverse(before, s);
      case RemoveOp(i) => RemoveInverse(before, i);
      case RemoveByKeyOp(key) => RemoveByKeyExact(before, key);
      case ClearOp =>
    }
  }

  // ---------- the slots ----------

  datatype Slots = Slots(
    uninit: Option<Session>, previous: Option<Session>, current: Option<Session>, next: Option<Session>)

  datatype Bank = Bank(index: IndexView, slots: Slots)

  function Deactivate(v: IndexView, o: Option<Session>): IndexView {
    if o.Some? then Remove(v, o.value.senderIndex) else v
  }

  function PrepareUninit(b: Bank, s: Session): Bank {
    Bank(Insert(Deactivate(b.index, b.slots.uninit), s), b.slots.(uninit := Some(s)))
  }

  /** Whether `s` is the session waited for in `slot`. */
  predicate Matches(slot: Option<Session>, s: Session) {
    slot.Some? && slot.value.senderIndex == s.senderIndex
  }

  function CompleteUninit(b: Bank, s: Session): Bank {
    if !Matches(b.slots.uninit, s) then b else
    Bank(Deactivate(Insert(Deactivate(b.index, b.slots.uninit), s), b.slots.previous),
         Slots(None, b.slots.current, Some(s), b.slots.next))
  }

  function PrepareNext(b: Bank, s: Session): Bank {
    if b.slots.next.Some? then
      Bank(Insert(Deactivate(b.index, b.slots.previous), s),
           b.slots.(previous := b.slots.next, next := Some(s)))
    else
      Bank(Insert(b.index, s), b.slots.(next := Some(s)))
  }

  function CompleteNext(b: Bank, s: Session): Bank {
    if !Matches(b.slots.next, s) then b else
    Bank(Insert(Deactivate(Deactivate(b.index, b.slots.next), b.slots.previous), s),
         Slots(b.slots.uninit, b.slots.current, Some(s), None))
  }

  predicate Holds(o: Option<Session>, i: nat) {
    o.Some? && o.value.senderIndex == i
  }

  /** Index `i` sits in one of the slots. */
  predicate InSlots(t: Slots, i: nat) {
    Holds(t.uninit, i) || Holds(t.previous, i) || Holds(t.current, i) || Holds(t.next, i)
  }

  predicate Apart(a: Option<Session>, b: Option<Session>) {
    a.Some? && b.Some? ==> a.value.senderIndex != b.value.senderIndex
  }

  /** No index is in two slots. */
  predicate SlotsApart(t: Slots) {
    && Apart(t.uninit, t.previous) && Apart(t.uninit, t.current) && Apart(t.uninit, t.next)
    && Apart(t.previous, t.current) && Apart(t.previous, t.next) && Apart(t.current, t.next)
  }

  predicate Indexed(m: map<nat, Session>, o: Option<Session>) {
    o.Some? ==> o.value.senderIndex in m && m[o.value.senderIndex] == o.value
  }

  /** Every slot is found under its index. */
  predicate SlotsIndexed(m: map<nat, Session>, t: Slots) {
    Indexed(m, t.uninit) && Indexed(m, t.previous) && Indexed(m, t.current) && Indexed(m, t.next)
  }

  /** The index changes by exactly the change of the slots: what leaves a slot
      leaves the index, what enters one enters it, other peers' entries stay. */
  ghost predicate Follows(m: map<nat, Session>, t: Slots, m': map<nat, Session>, t': Slots) {
    && SlotsIndexed(m', t')
    && (forall i :: i in m' ==> InSlots(t', i) || (!InSlots(t, i) && i in m && m[i] == m'[i]))
    && (forall i :: i in m && !InSlots(t, i) ==> i in m' && m'[i] == m[i])
  }

  ghost predicate Ready(b: Bank) {
    SlotsApart(b.slots) && SlotsIndexed(b.index.indexes, b.slots) && Inverse(b.index)
  }

  /** What each of the four operations guarantees. */
  ghost predicate Sound(b: Bank, b': Bank) {
    Ready(b') && Follows(b.index.indexes, b.slots, b'.index.indexes, b'.slots)
  }

  /** Deactivating on the index map alone. */
  function Without(m: map<nat, Session>, o: Option<Session>): map<nat, Session> {
    if o.Some? then m - {o.value.senderIndex} else m
  }

  lemma DeactivateKeeps(v: IndexView, o: Option<Session>)
    requires Inverse(v)
    ensures Inverse(Deactivate(v, o))
    ensures Deactivate(v, o).indexes == Without(v.indexes, o)
  {}

  lemma PrepareUninitFollows(m: map<nat, Session>, t: Slots, s: Session)
    requires SlotsApart(t) && SlotsIndexed(m, t) && s.senderIndex !in m
    ensures Follows(m, t, Without(m, t.uninit)[s.senderIndex := s], t.(uninit := Some(s)))
    ensures SlotsApart(t.(uninit := Some(s)))
  {}

  lemma PrepareUninitSound(b: Bank, s: Session)
    requires Ready(b) && s.senderIndex !in b.index.indexes
    ensures Sound(b, PrepareUninit(b, s))
  {
    assert Inverse(PrepareUninit(b, s).index) by {
      DeactivateKeeps(b.index, b.slots.uninit);
      InsertInverse(Deactivate(b.index, b.slots.uninit), s);
    }
    PrepareUninitFollows(b.index.indexes, b.slots, s);
  }

  lemma CompleteUninitFollows(m: map<nat, Session>, t: Slots, s: Session)
    requires SlotsApart(t) && SlotsIndexed(m, t) && Matches(t.uninit, s)
    ensures Follows(m, t, Without(Without(m, t.uninit)[s.senderIndex := s], t.previous),
                    Slots(None, t.current, Some(s), t.next))
    ensures SlotsApart(Slots(None, t.current, Some(s), t.next))
  {}

  lemma CompleteUninitSound(b: Bank, s: Session)
    requires Ready(b)
    ensures Sound(b, CompleteUninit(b, s))
  {
    if Matches(b.slots.uninit, s) {
      var v := Deactivate(b.index, b.slots.uninit);
      assert Inverse(CompleteUninit(b, s).index) by {
        DeactivateKeeps(b.index, b.slots.uninit);
        InsertInverse(v, s);
        DeactivateKeeps(Insert(v, s), b.slots.previous);
      }
      CompleteUninitFollows(b.index.indexes, b.slots, s);
    }
  }

  lemma PrepareNextFollows(m: map<nat, Session>, t: Slots, s: Session)
    requires SlotsApart(t) && SlotsIndexed(m, t) && s.senderIndex !in m
    ensures var m' := if t.next.Some? then Without(m, t.previous) else m;
      var t' := t.(previous := if t.next.Some? then t.next else t.previous, next := Some(s));
      SlotsApart(t') && Follows(m, t, m'[s.senderIndex := s], t')
  {}

  lemma PrepareNextSound(b: Bank, s: Session)
    requires Ready(b) && s.senderIndex !in b.index.indexes
    ensures Sound(b, PrepareNext(b, s))
  {
    var v := if b.slots.next.Some? then Deactivate(b.index, b.slots.previous) else b.index;
    assert Inverse(PrepareNext(b, s).index) by {
      DeactivateKeeps(b.index, b.slots.previous);
      InsertInverse(v, s);
    }
    PrepareNextFollows(b.index.indexes, b.slots, s);
  }

  lemma CompleteNextFollows(m: map<nat, Session>, t: Slots, s: Session)
    requires SlotsApart(t) && SlotsIndexed(m, t) && Matches(t.next, s)
    ensures Follows(m, t, Without(Without(m, t.next), t.previous)[s.senderIndex := s],
                    Slots(t.uninit, t.current, Some(s), None))
    ensures SlotsApart(Slots(t.uninit, t.current, Some(s), None))
  {}

  lemma CompleteNextSound(b: Bank, s: Session)
    requires Ready(b)
    ensures Sound(b, CompleteNext(b, s))
  {
    if Matches(b.slots.next, s) {
      var v := Deactivate(b.index, b.slots.next);
      assert Inverse(CompleteNext(b, s).index) by {
        DeactivateKeeps(b.index, b.slots.next);
        DeactivateKeeps(v, b.slots.previous);
        InsertInverse(Deactivate(v, b.slots.previous), s);
      }
      CompleteNextFollows(b.index.indexes, b.slots, s);
    }
  }
}
