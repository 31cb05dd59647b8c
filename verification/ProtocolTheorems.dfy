/** What the protocol guarantees at the end of every run. */
module ProtocolTheorems {
  import opened Options
  import opened Counting
  import opened Noise
  import opened Sessions
  import opened Handshakes
  import opened Protocol
  import opened ProtocolInvariant
  import opened ProtocolSteps
  import ReplayWindow

  lemma MirrorOf(cfg: Config, log: seq<Event>, alloc: map<nat, nat>, l: Link, s: Session)
    requires LogOk(cfg, log, alloc) && Good(cfg, log, l, s) && s.cell.Initiator?
    ensures var m := s.cell.m; Mirror(s, ResponderOf(cfg, m, log[m])) && log[m].link == Flip(l)
  {
    assert EventOk(cfg, log, alloc, s.cell.m);
  }

  // ---------- keys ----------

  /** A transport key belongs to one session in one direction. */
  lemma KeyNamesSession(
    cfg: Config, log: seq<Event>, installed: map<nat, Session>, l: Link, s: Session, l': Link, s': Session)
    requires LiveKeyed(cfg, log, installed, l, s) && LiveKeyed(cfg, log, installed, l', s')
    requires s.senderKey == s'.senderKey || s.receiverKey == s'.receiverKey
    ensures s == s'
  {
    var m, m' := s.cell.m, s'.cell.m;
    assert ChainOf(cfg, m, log[m]) == ChainOf(cfg, m', log[m']);
    ChainNamesAnswer(cfg, m, log[m], m', log[m']);
  }

  lemma ChainNamesAnswer(cfg: Config, m: nat, e: Event, m': nat, e': Event)
    requires e.Resp? && e'.Resp? && ChainOf(cfg, m, e) == ChainOf(cfg, m', e')
    ensures m == m'
  {}

  /** A packet carries its counter in the header and is sealed with it as nonce. */
  lemma PacketIsSealed(s: Session, counter: nat, data: seq<nat>)
    ensures var p := EncryptData(s, counter, data);
      && p.receiverIndex == s.receiverIndex && p.counter == counter
      && p.payload == Seal(s.senderKey, counter, Text(data), Empty)
      && Open(s.senderKey, p.counter, p.payload, Empty) == Some(Text(data))
  {}

  /** What a session can read: packets with its index, sealed under its receiving
      key with the counter of the header as nonce, and nothing else. */
  lemma DecryptExactly(s: Session, p: TransportData<Term>, data: seq<nat>)
    ensures DecryptData(s, p) == Some(data) <==>
      p.receiverIndex == s.senderIndex && p.payload == Seal(s.receiverKey, p.counter, Text(data), Empty)
  {}

  /** Every packet of every run is sealed under its session's sending key, with the
      counter of its header as nonce, and so opens for the session at the other end. */
  lemma SentIsSealed(cfg: Config, actions: seq<Action>, k: nat)
    requires Configured(cfg) && k < |Run(cfg, actions).sends|
    ensures var x := Run(cfg, actions).sends[k];
      && x.packet.receiverIndex == x.session.receiverIndex
      && x.packet.payload == Seal(x.session.senderKey, x.packet.counter, Text(x.data), Empty)
      && Open(x.session.senderKey, x.packet.counter, x.packet.payload, Empty) == Some(Text(x.data))
      && (forall t :: Mirror(x.session, t) ==> DecryptData(t, x.packet) == Some(x.data))
  {
    hide Run, LogOk, PacketsOk, InboxOk, PeersOk, IndexOk, CreatedOk, HeldOk, WritesOk, CellsOk;
    var w := Run(cfg, actions);
    RunKeeps(cfg, actions);
    assert SentOk(w.held, w.nonces, w.sends[k]);
    PacketIsSealed(w.sends[k].session, w.sends[k].packet.counter, w.sends[k].data);
  }

  /** No key and nonce ever seal two packets. */
  lemma NoncesNeverRepeat(cfg: Config, actions: seq<Action>, j: nat, k: nat)
    requires Configured(cfg) && j < k < |Run(cfg, actions).sends|
    ensures var p, q := Run(cfg, actions).sends[j].packet.payload, Run(cfg, actions).sends[k].packet.payload;
      p.Seal? && q.Seal? && (p.under != q.under || p.counter != q.counter)
  {
    hide Run, Inv;
    var w := Run(cfg, actions);
    RunKeeps(cfg, actions);
    SendsDiffer(cfg, w, j, k);
    SentIsSealed(cfg, actions, j);
    SentIsSealed(cfg, actions, k);
  }

  lemma SendsDiffer(cfg: Config, w: World, j: nat, k: nat)
    requires Inv(cfg, w) && j < k < |w.sends|
    ensures w.sends[j].session.senderKey != w.sends[k].session.senderKey
         || w.sends[j].packet.counter != w.sends[k].packet.counter
  {
    hide LogOk, PacketsOk, InboxOk, PeersOk, IndexOk, CreatedOk, WritesOk, CellsOk, LiveKeyed;
    var x, y := w.sends[j], w.sends[k];
    assert SentOk(w.held, w.nonces, x) && SentOk(w.held, w.nonces, y);
    if x.session.senderKey == y.session.senderKey {
      KeyNamesSession(cfg, w.log, w.installed, x.link, x.session, y.link, y.session);
    }
  }

  // ---------- placeholders ----------

  ghost predicate FullyKeyed(o: Option<Session>) {
    o.Some? ==> o.value.senderKey.Kdf? && o.value.receiverKey.Kdf? && o.value.senderKey != o.value.receiverKey
  }

  predicate Unkeyed(o: Option<Session>) {
    o.Some? ==> o.value.senderKey == Zero && o.value.receiverKey == Zero && o.value.receiverIndex == 0
  }

  /** The all-zero placeholder lives in `uninit` only, and nothing is ever
      encrypted under it. */
  lemma PlaceholderStaysUninit(cfg: Config, actions: seq<Action>)
    requires Configured(cfg)
    ensures var w := Run(cfg, actions);
      && (forall l :: l in w.peers ==>
            && FullyKeyed(w.peers[l].slots.previous)
            && FullyKeyed(w.peers[l].slots.current)
            && FullyKeyed(w.peers[l].slots.next)
            && Unkeyed(w.peers[l].slots.uninit))
      && (forall k :: 0 <= k < |w.sends| ==>
            w.sends[k].packet.payload.Seal? && w.sends[k].packet.payload.under.Kdf?)
  {
    var w := Run(cfg, actions);
    RunKeeps(cfg, actions);
    hide Run, LogOk, PacketsOk, InboxOk, IndexOk, CreatedOk, WritesOk, CellsOk, ChainOf, PacketOk, RespondSession;
    forall l | l in w.peers
      ensures FullyKeyed(w.peers[l].slots.previous) && FullyKeyed(w.peers[l].slots.current)
      ensures FullyKeyed(w.peers[l].slots.next)
      ensures Unkeyed(w.peers[l].slots.uninit)
    {
      SlotKeys(cfg, w.log, w.installed, l, w.peers[l]);
    }
    forall k | 0 <= k < |w.sends|
      ensures w.sends[k].packet.payload.Seal? && w.sends[k].packet.payload.under.Kdf?
    {
      assert SentOk(w.held, w.nonces, w.sends[k]);
      KeyedKeys(cfg, w.log, w.installed, w.sends[k].link, w.sends[k].session);
    }
  }

  lemma KeyedKeys(cfg: Config, log: seq<Event>, installed: map<nat, Session>, l: Link, s: Session)
    requires LiveKeyed(cfg, log, installed, l, s)
    ensures FullyKeyed(Some(s))
  {}

  lemma SlotKeys(cfg: Config, log: seq<Event>, installed: map<nat, Session>, l: Link, p: Peer)
    requires PeerOk(cfg, log, installed, l, p)
    ensures FullyKeyed(p.slots.previous) && FullyKeyed(p.slots.current) && FullyKeyed(p.slots.next)
    ensures Unkeyed(p.slots.uninit)
  {
    hide ChainOf, PacketOk;
  }

  // ---------- the index ----------

  /** The sessions a device finds by index are exactly those in its peers'
      slots; no two slots share an index and a peer has at most four. */
  lemma IndexIsExact(cfg: Config, actions: seq<Action>, d: nat)
    requires Configured(cfg) && d in cfg.start
    ensures var w := Run(cfg, actions);
      && d in w.index && w.peers.Keys == cfg.psk.Keys
      && (forall i :: i in w.index[d].indexes ==>
            var l := Link(d, w.index[d].indexes[i].peer);
            l in w.peers && InSlots(w.peers[l].slots, i))
      && (forall l :: l in w.peers && l.dev == d ==>
            SlotsIndexed(w.index[d].indexes, w.peers[l].slots) && SlotsApart(w.peers[l].slots))
      && (forall l, k, i | l in w.peers && k in w.peers && l.dev == d && k.dev == d ::
            InSlots(w.peers[l].slots, i) && InSlots(w.peers[k].slots, i) ==> l == k)
      && (forall p :: |Keyed(w.index[d], p)| <= 4)
  {
    var w := Run(cfg, actions);
    RunKeeps(cfg, actions);
    hide Run, LogOk, PacketsOk, InboxOk, CreatedOk, HeldOk, SendsOk, WritesOk, CellsOk, Good, PacketOk, PeerOk;
    forall l | l in w.peers && l.dev == d ensures SlotsApart(w.peers[l].slots) {
      BankReady(cfg, w, l);
    }
    forall l, k, i | l in w.peers && k in w.peers && l.dev == d && k.dev == d
      && InSlots(w.peers[l].slots, i) && InSlots(w.peers[k].slots, i)
      ensures l == k
    {
      PeersApart(cfg, w.log, w.alloc, w.installed, l, w.peers[l], k, w.peers[k], i);
    }
    forall p ensures |Keyed(w.index[d], p)| <= 4 {
      AtMostFour(w.index[d], w.peers, d, p);
    }
  }

  function Indices(o: Option<Session>): set<nat> {
    if o.Some? then {o.value.senderIndex} else {}
  }

  lemma AtMostOneEach(x: Option<Session>, y: Option<Session>)
    ensures |Indices(x) + Indices(y)| <= 2
  {}

  lemma AtMostFour(v: IndexView, peers: map<Link, Peer>, d: nat, p: nat)
    requires Inverse(v)
    requires forall i :: i in v.indexes ==>
      Link(d, v.indexes[i].peer) in peers && InSlots(peers[Link(d, v.indexes[i].peer)].slots, i)
    ensures |Keyed(v, p)| <= 4
  {
    if Keyed(v, p) != {} {
      var i :| i in Keyed(v, p);
      assert i in v.indexes && v.indexes[i].peer == p;
      var t := peers[Link(d, p)].slots;
      var a, b := Indices(t.uninit) + Indices(t.previous), Indices(t.current) + Indices(t.next);
      forall j | j in Keyed(v, p) ensures j in a + b {
        assert j in v.indexes && v.indexes[j].peer == p;
      }
      AtMostOneEach(t.uninit, t.previous);
      AtMostOneEach(t.current, t.next);
      assert |a + b| <= |a| + |b|;
      SubsetCount(Keyed(v, p), a + b);
    }
  }

  /** The session is `current` or `previous`. */
  predicate Kept(t: Slots, s: Session) {
    t.current == Some(s) || t.previous == Some(s)
  }

  predicate OnSlots(a: Action) {
    a.InstallInitiation? || a.InstallResponse? || a.Complete? || a.Promote?
  }

  /** The action moves a session of `l` into `previous`, and what was there out. */
  predicate Evicts(w: World, l: Link, a: Action) {
    l in w.peers && l.dev in w.index &&
    match a
    case InstallResponse(k) => k == l && w.peers[l].answering.Some? && w.peers[l].slots.next.Some?
    case Complete(k, s) => k == l && (l, s) in w.finalized && Matches(w.peers[l].slots.uninit, s)
    case Promote(k, j, s) => k == l && InData(l, j, s) in w.inbox && Matches(w.peers[l].slots.next, s)
    case _ => false
  }

  /** The current session stays or becomes the previous one, and without an
      eviction both stay. */
  predicate Moved(t: Slots, t': Slots, evicted: bool) {
    && (evicted ==> t'.current == t.current || t'.previous == t.current)
    && (!evicted ==> t'.current == t.current && t'.previous == t.previous)
  }

  lemma SlotStepMoves(cfg: Config, w: World, a: Action, l: Link)
    requires OnSlots(a) && l in w.peers
    ensures l in Step(cfg, w, a).peers && Moved(w.peers[l].slots, Step(cfg, w, a).peers[l].slots, Evicts(w, l, a))
  {
    hide Insert, Deactivate;
  }

  lemma DrawKeepsSlots(cfg: Config, w: World, a: Action, l: Link)
    requires (a.Initiate? || a.Respond?) && l in w.peers
    ensures l in Step(cfg, w, a).peers && Step(cfg, w, a).peers[l].slots == w.peers[l].slots
  {
    hide NewInitiation, NewResponse, RespondSession;
  }

  lemma QuietStepKeepsPeers(cfg: Config, w: World, a: Action)
    requires !OnSlots(a) && !a.Initiate? && !a.Respond?
    ensures Step(cfg, w, a).peers == w.peers
  {
    hide DoDeliverShake, DoFinalize, DoTake, DoSend, DoDeliverData, DoReceive;
  }

  lemma StepMoves(cfg: Config, w: World, a: Action, l: Link)
    requires l in w.peers
    ensures l in Step(cfg, w, a).peers && Moved(w.peers[l].slots, Step(cfg, w, a).peers[l].slots, Evicts(w, l, a))
  {
    hide Step;
    if OnSlots(a) {
      SlotStepMoves(cfg, w, a, l);
    } else if a.Initiate? || a.Respond? {
      DrawKeepsSlots(cfg, w, a, l);
    } else {
      QuietStepKeepsPeers(cfg, w, a);
    }
  }

  /** How many of the later actions evict a session of `l`. */
  ghost function Evictions(cfg: Config, past: seq<Action>, later: seq<Action>, l: Link): nat
    requires Configured(cfg)
    decreases |later|
  {
    if later == [] then 0 else
    var n := |later| - 1;
    Evictions(cfg, past, later[..n], l) + if Evicts(Run(cfg, past + later[..n]), l, later[n]) then 1 else 0
  }

  lemma {:induction false} OneEvictionKeeps(
    cfg: Config, past: seq<Action>, later: seq<Action>, l: Link, s: Session)
    requires Configured(cfg)
    requires var w := Run(cfg, past); l in w.peers && w.peers[l].slots.current == Some(s)
    ensures var w := Run(cfg, past + later);
      && l in w.peers
      && (Evictions(cfg, past, later, l) == 0 ==> w.peers[l].slots.current == Some(s))
      && (Evictions(cfg, past, later, l) == 1 ==> Kept(w.peers[l].slots, s))
    decreases |later|
  {
    hide Run, Step, Evicts;
    if later == [] {
      assert past + later == past;
    } else {
      var n := |later| - 1;
      OneEvictionKeeps(cfg, past, later[..n], l, s);
      assert past + later == past + later[..n] + [later[n]];
      RunSnoc(cfg, past + later[..n], later[n]);
      StepMoves(cfg, Run(cfg, past + later[..n]), later[n], l);
    }
  }

  /** Packets under replaced keys still arrive: over every run, a session that was
      current is found by its index until its link evicts a second session. */
  lemma ReplacedSessionStillReceives(cfg: Config, past: seq<Action>, later: seq<Action>, l: Link, s: Session)
    requires Configured(cfg)
    requires var w := Run(cfg, past); l in w.peers && w.peers[l].slots.current == Some(s)
    requires Evictions(cfg, past, later, l) <= 1
    ensures var w := Run(cfg, past + later);
      l.dev in w.index && Indexed(w.index[l.dev].indexes, Some(s))
  {
    hide Run, LogOk, PacketsOk, InboxOk, PeersOk, CreatedOk, HeldOk, SendsOk, WritesOk, CellsOk, Inverse, Evictions;
    var w := Run(cfg, past + later);
    OneEvictionKeeps(cfg, past, later, l, s);
    RunKeeps(cfg, past + later);
    assert SlotsIndexed(w.index[l.dev].indexes, w.peers[l].slots);
  }

  // ---------- sessions that wait ----------

  /** The session is in a slot that can receive. */
  predicate InUse(t: Slots, s: Session) {
    t.next == Some(s) || Kept(t, s)
  }

  lemma WaitingStep(cfg: Config, w: World, a: Action, l: Link, s: Session)
    requires l in w.peers && w.peers[l].slots.next == Some(s)
    requires a.Promote? && Evicts(w, l, a) ==> a.s == s
    ensures var w' := Step(cfg, w, a);
      && l in w'.peers
      && (!Evicts(w, l, a) ==> w'.peers[l].slots.next == Some(s))
      && (Evicts(w, l, a) ==> InUse(w'.peers[l].slots, s))
      && (Evicts(w, l, a) && a.InstallResponse? ==> w'.peers[l].slots.previous == Some(s))
  {
    hide Step, Evicts;
    if OnSlots(a) {
      WaitingSlotStep(cfg, w, a, l, s);
    } else {
      NoEviction(w, l, a);
      if a.Initiate? || a.Respond? {
        DrawKeepsSlots(cfg, w, a, l);
      } else {
        QuietStepKeepsPeers(cfg, w, a);
      }
    }
  }

  lemma NoEviction(w: World, l: Link, a: Action)
    requires !OnSlots(a)
    ensures !Evicts(w, l, a)
  {}

  lemma WaitingSlotStep(cfg: Config, w: World, a: Action, l: Link, s: Session)
    requires OnSlots(a) && l in w.peers && w.peers[l].slots.next == Some(s)
    requires a.Promote? && Evicts(w, l, a) ==> a.s == s
    ensures var w' := Step(cfg, w, a);
      && l in w'.peers
      && (!Evicts(w, l, a) ==> w'.peers[l].slots.next == Some(s))
      && (Evicts(w, l, a) ==> InUse(w'.peers[l].slots, s))
      && (Evicts(w, l, a) && a.InstallResponse? ==> w'.peers[l].slots.previous == Some(s))
  {
    hide Insert, Deactivate, DoInitiate, DoRespond, DoDeliverShake, DoFinalize, DoTake, DoSend, DoDeliverData;
    hide DoReceive;
  }

  lemma EvictsByOffer(w: World, l: Link, a: Action)
    requires a.Promote? && Evicts(w, l, a)
    ensures a.l == l && InData(l, a.k, a.s) in w.inbox && Matches(w.peers[l].slots.next, a.s)
  {}

  lemma PromotesItself(cfg: Config, w: World, l: Link, k: nat, s: Session, t: Session)
    requires Inv(cfg, w) && l in w.peers && w.peers[l].slots.next == Some(s)
    requires InData(l, k, t) in w.inbox && Matches(w.peers[l].slots.next, t)
    ensures t == s
  {
    hide LogOk, PacketsOk, PeersOk, PeerOk, IndexOk, CreatedOk, HeldOk, SendsOk, WritesOk, CellsOk, Good;
    assert InboundOk(cfg, w.log, w.installed, w.sends, InData(l, k, t));
    BankReady(cfg, w, l);
    NextIsStaged(cfg, w.log, w.alloc, w.installed, l, w.peers[l], t);
  }

  lemma {:induction false} OneEvictionKeepsNext(
    cfg: Config, past: seq<Action>, later: seq<Action>, l: Link, s: Session)
    requires Configured(cfg)
    requires var w := Run(cfg, past); l in w.peers && w.peers[l].slots.next == Some(s)
    ensures var w := Run(cfg, past + later);
      && l in w.peers
      && (Evictions(cfg, past, later, l) == 0 ==> w.peers[l].slots.next == Some(s))
      && (Evictions(cfg, past, later, l) == 1 ==> InUse(w.peers[l].slots, s))
    decreases |later|
  {
    hide Run, Step, Evicts, Inv;
    if later == [] {
      assert past + later == past;
    } else {
      var n := |later| - 1;
      var w, a := Run(cfg, past + later[..n]), later[n];
      OneEvictionKeepsNext(cfg, past, later[..n], l, s);
      assert past + later == past + later[..n] + [a];
      RunSnoc(cfg, past + later[..n], a);
      RunKeeps(cfg, past + later[..n]);
      StepMoves(cfg, w, a, l);
      if w.peers[l].slots.next == Some(s) {
        if a.Promote? && Evicts(w, l, a) {
          EvictsByOffer(w, l, a);
          PromotesItself(cfg, w, l, a.k, s, a.s);
        }
        WaitingStep(cfg, w, a, l, s);
      }
    }
  }

  /** An answered session can receive before and after it is replaced: over every
      run, a session in `next` is found by its index until its link evicts a
      second session. */
  lemma AnsweredSessionStillReceives(cfg: Config, past: seq<Action>, later: seq<Action>, l: Link, s: Session)
    requires Configured(cfg)
    requires var w := Run(cfg, past); l in w.peers && w.peers[l].slots.next == Some(s)
    requires Evictions(cfg, past, later, l) <= 1
    ensures var w := Run(cfg, past + later);
      l.dev in w.index && Indexed(w.index[l.dev].indexes, Some(s))
  {
    hide Run, LogOk, PacketsOk, InboxOk, PeersOk, CreatedOk, HeldOk, SendsOk, WritesOk, CellsOk, Inverse, Evictions;
    var w := Run(cfg, past + later);
    OneEvictionKeepsNext(cfg, past, later, l, s);
    RunKeeps(cfg, past + later);
    assert SlotsIndexed(w.index[l.dev].indexes, w.peers[l].slots);
  }

  lemma SecondAnswerMoves(w: World, l: Link, s: Session)
    requires l in w.peers && l.dev in w.index && w.peers[l].slots.next == Some(s) && w.peers[l].answering.Some?
    ensures var w', p := DoInstallResponse(w, l), w.peers[l];
      l in w'.peers && w'.peers[l].slots ==
        Slots(p.slots.uninit, Some(s), p.slots.current, Some(p.answering.value.session))
  {
    hide Insert, Deactivate;
  }

  /** Answering again makes the session that waited in `next` the previous one. */
  lemma SecondAnswerKeepsFirst(cfg: Config, actions: seq<Action>, l: Link, s: Session)
    requires Configured(cfg)
    requires var w := Run(cfg, actions);
      l in w.peers && w.peers[l].slots.next == Some(s) && w.peers[l].answering.Some?
    ensures var w, w' := Run(cfg, actions), Run(cfg, actions + [InstallResponse(l)]);
      && l in w'.peers && l.dev in w'.index
      && w'.peers[l].slots.previous == Some(s) && Indexed(w'.index[l.dev].indexes, Some(s))
      && w'.peers[l].slots.next == Some(w.peers[l].answering.value.session)
      && w'.peers[l].slots.current == w.peers[l].slots.current
  {
    hide Run, Inv, PeerOk, Inverse, SlotsApart, DoInstallResponse;
    var w, w' := Run(cfg, actions), Run(cfg, actions + [InstallResponse(l)]);
    RunSnoc(cfg, actions, InstallResponse(l));
    RunKeeps(cfg, actions);
    RunKeeps(cfg, actions + [InstallResponse(l)]);
    BankReady(cfg, w, l);
    SecondAnswerMoves(w, l, s);
    BankReady(cfg, w', l);
  }

  /** The action puts another placeholder into `uninit` of `l`, or completes it. */
  predicate Resolves(w: World, l: Link, a: Action) {
    l in w.peers && l.dev in w.index &&
    match a
    case InstallInitiation(k) => k == l && w.peers[l].starting.Some?
    case Complete(k, s) => k == l && (l, s) in w.finalized && Matches(w.peers[l].slots.uninit, s)
    case _ => false
  }

  lemma PlaceholderStep(cfg: Config, w: World, a: Action, l: Link)
    requires l in w.peers && !Resolves(w, l, a)
    ensures l in Step(cfg, w, a).peers && Step(cfg, w, a).peers[l].slots.uninit == w.peers[l].slots.uninit
  {
    hide DoDeliverShake, DoFinalize, DoTake, DoSend, DoDeliverData, DoReceive;
    hide Insert, Deactivate, NewInitiation, NewResponse, RespondSession;
  }

  ghost predicate Unresolved(cfg: Config, past: seq<Action>, later: seq<Action>, l: Link)
    requires Configured(cfg)
  {
    forall i :: 0 <= i < |later| ==> !Resolves(Run(cfg, past + later[..i]), l, later[i])
  }

  /** An initiation stays answerable: over every run its placeholder is found by
      its index until it is completed or another initiation is installed. */
  lemma {:induction false} PlaceholderWaits(cfg: Config, past: seq<Action>, later: seq<Action>, l: Link, s: Session)
    requires Configured(cfg) && Unresolved(cfg, past, later, l)
    requires var w := Run(cfg, past); l in w.peers && w.peers[l].slots.uninit == Some(s)
    ensures var w := Run(cfg, past + later);
      && l in w.peers && w.peers[l].slots.uninit == Some(s)
      && l.dev in w.index && Indexed(w.index[l.dev].indexes, Some(s))
    decreases |later|
  {
    hide Run, Step, Resolves, LogOk, PacketsOk, InboxOk, PeersOk, CreatedOk, HeldOk, SendsOk, WritesOk, CellsOk;
    hide Inverse;
    var w := Run(cfg, past + later);
    if later == [] {
      assert past + later == past;
    } else {
      var n := |later| - 1;
      var front := later[..n];
      forall i | 0 <= i < n ensures !Resolves(Run(cfg, past + front[..i]), l, front[i]) {
        assert front[..i] == later[..i] && front[i] == later[i];
      }
      PlaceholderWaits(cfg, past, front, l, s);
      assert past + later == past + front + [later[n]];
      RunSnoc(cfg, past + front, later[n]);
      PlaceholderStep(cfg, Run(cfg, past + front), later[n], l);
    }
    RunKeeps(cfg, past + later);
    assert SlotsIndexed(w.index[l.dev].indexes, w.peers[l].slots);
  }

  // ---------- evicted sessions ----------

  lemma EvictedFromSlots(
    cfg: Config, log: seq<Event>, installed: map<nat, Session>, w: World, a: Action, l: Link, s: Session)
    requires Evicts(w, l, a) && PeerOk(cfg, log, installed, l, w.peers[l])
    requires w.peers[l].slots.previous == Some(s)
    ensures l in Step(cfg, w, a).peers && !InSlots(Step(cfg, w, a).peers[l].slots, s.senderIndex)
  {
    hide Insert, Deactivate, Good, PacketOk;
  }

  /** ... and that second eviction does remove it: it is no longer found. */
  lemma EvictionForgets(cfg: Config, actions: seq<Action>, a: Action, l: Link, s: Session)
    requires Configured(cfg)
    requires var w := Run(cfg, actions); Evicts(w, l, a) && w.peers[l].slots.previous == Some(s)
    ensures var w := Run(cfg, actions + [a]); l.dev in w.index && s.senderIndex !in w.index[l.dev].indexes
  {
    var w, w' := Run(cfg, actions), Run(cfg, actions + [a]);
    RunKeeps(cfg, actions);
    RunKeeps(cfg, actions + [a]);
    RunSnoc(cfg, actions, a);
    Forgotten(cfg, w, a, l, s);
  }

  lemma Forgotten(cfg: Config, w: World, a: Action, l: Link, s: Session)
    requires Inv(cfg, w) && Inv(cfg, Step(cfg, w, a))
    requires l in w.peers && Evicts(w, l, a) && w.peers[l].slots.previous == Some(s)
    ensures var w' := Step(cfg, w, a); l.dev in w'.index && s.senderIndex !in w'.index[l.dev].indexes
  {
    hide Step, LogOk, PacketsOk, InboxOk, PeersOk, PeerOk, CreatedOk, HeldOk, SendsOk, WritesOk, CellsOk, Good, Evicts;
    hide Inverse, SlotsApart, SlotsIndexed, InSlots;
    var w', i := Step(cfg, w, a), s.senderIndex;
    BankReady(cfg, w, l);
    EvictedFromSlots(cfg, w.log, w.installed, w, a, l, s);
    PreviousIsGood(cfg, w.log, w.installed, l, w.peers[l]);
    EvictionDrawsNothing(cfg, w, a, l);
    if i in w'.index[l.dev].indexes {
      var k := Link(l.dev, w'.index[l.dev].indexes[i].peer);
      IndexedIsLive(cfg, w', l.dev, i);
      SameIndex(cfg, w'.log, w'.alloc, l, s, k, w'.index[l.dev].indexes[i]);
    }
  }

  lemma PreviousIsGood(cfg: Config, log: seq<Event>, installed: map<nat, Session>, l: Link, p: Peer)
    requires PeerOk(cfg, log, installed, l, p) && p.slots.previous.Some?
    ensures Good(cfg, log, l, p.slots.previous.value)
  {
    hide Good, PacketOk;
  }

  lemma EvictionDrawsNothing(cfg: Config, w: World, a: Action, l: Link)
    requires Evicts(w, l, a)
    ensures Step(cfg, w, a).log == w.log && Step(cfg, w, a).alloc == w.alloc
  {}

  // ---------- data ----------

  /** What is written was sent: a write at one end is, byte for byte, a non-empty
      payload that the other end sent to it, from the mirror of the session it is
      received in. */
  lemma WrittenWasSent(cfg: Config, actions: seq<Action>, i: nat)
    requires Configured(cfg) && i < |Run(cfg, actions).writes|
    ensures var w := Run(cfg, actions);
      var x := w.writes[i];
      && x.k < |w.sends|
      && w.sends[x.k].link == Flip(x.link)
      && w.sends[x.k].data == x.data && x.data != []
      && w.sends[x.k].packet.counter <= ReplayWindow.REJECT_AFTER_MESSAGES
      && Mirror(x.session, w.sends[x.k].session)
  {
    var w := Run(cfg, actions);
    RunKeeps(cfg, actions);
    WriteTraced(cfg, w, i);
  }

  lemma WriteTraced(cfg: Config, w: World, i: nat)
    requires Inv(cfg, w) && i < |w.writes|
    ensures var x := w.writes[i];
      && x.k < |w.sends|
      && w.sends[x.k].link == Flip(x.link)
      && w.sends[x.k].data == x.data && x.data != []
      && w.sends[x.k].packet.counter <= ReplayWindow.REJECT_AFTER_MESSAGES
      && Mirror(x.session, w.sends[x.k].session)
      && LiveKeyed(cfg, w.log, w.installed, x.link, x.session)
  {
    hide LogOk, PacketsOk, PeersOk, IndexOk, CreatedOk, Good;
    var x := w.writes[i];
    assert WriteOk(w.inbox, w.sends, w.filters, x);
    assert InboundOk(cfg, w.log, w.installed, w.sends, InData(x.link, x.k, x.session));
    var y := w.sends[x.k];
    assert SentOk(w.held, w.nonces, y);
    KeyPairsUp(cfg, w.log, w.alloc, w.installed, x.link, x.session, y.link, y.session);
  }

  /** Equal keys at the two ends of a packet make the sessions mirrors. */
  lemma KeyPairsUp(
    cfg: Config, log: seq<Event>, alloc: map<nat, nat>, installed: map<nat, Session>, l: Link, s: Session,
    from: Link, t: Session)
    requires LogOk(cfg, log, alloc)
    requires Live(cfg, log, installed, l, s) && LiveKeyed(cfg, log, installed, from, t)
    requires s.receiverKey == t.senderKey
    ensures LiveKeyed(cfg, log, installed, l, s) && from == Flip(l) && Mirror(s, t)
  {
    KeyedKeys(cfg, log, installed, from, t);
    var m, m' := s.cell.m, t.cell.m;
    ChainNamesAnswer(cfg, m, log[m], m', log[m']);
    if s.cell.Initiator? {
      MirrorOf(cfg, log, alloc, l, s);
    } else {
      MirrorOf(cfg, log, alloc, from, t);
    }
  }

  /** No packet is written twice, however often the network delivers it. */
  lemma WrittenAtMostOnce(cfg: Config, actions: seq<Action>, i: nat, j: nat)
    requires Configured(cfg) && i < j < |Run(cfg, actions).writes|
    ensures var w := Run(cfg, actions); w.writes[i].k != w.writes[j].k
  {
    var w := Run(cfg, actions);
    RunKeeps(cfg, actions);
    WritesDiffer(cfg, w, i, j);
  }

  lemma WritesDiffer(cfg: Config, w: World, i: nat, j: nat)
    requires Inv(cfg, w) && i < j < |w.writes|
    ensures w.writes[i].k != w.writes[j].k
  {
    WriteTraced(cfg, w, i);
    WriteTraced(cfg, w, j);
    hide LogOk, PacketsOk, InboxOk, PeersOk, IndexOk, CreatedOk, HeldOk, SendsOk, LiveKeyed;
    var x, y := w.writes[i], w.writes[j];
    if x.k == y.k {
      KeyNamesSession(cfg, w.log, w.installed, x.link, x.session, y.link, y.session);
    }
  }
}
