/** Every action keeps the invariant. */
module ProtocolSteps {
  import opened Options
  import opened Noise
  import opened Sessions
  import opened Handshakes
  import opened Protocol
  import opened ProtocolInvariant
  import ReplayWindow

  // ---------- growing histories ----------

  ghost predicate Extends(log: seq<Event>, log': seq<Event>) {
    |log| <= |log'| && forall n :: 0 <= n < |log| ==> log'[n] == log[n]
  }

  ghost predicate Grows(m: map<nat, Session>, m': map<nat, Session>) {
    forall n :: n in m ==> n in m' && m'[n] == m[n]
  }

  lemma PacketsGrow(cfg: Config, log: seq<Event>, log': seq<Event>, shakes: set<Shake>)
    requires Extends(log, log') && PacketsOk(cfg, log, shakes)
    ensures PacketsOk(cfg, log', shakes)
  {
    forall p | p in shakes ensures PacketOk(cfg, log', p) {
      assert PacketOk(cfg, log, p);
    }
  }

  lemma GoodGrows(cfg: Config, log: seq<Event>, log': seq<Event>, l: Link, s: Session)
    requires Extends(log, log') && Good(cfg, log, l, s)
    ensures Good(cfg, log', l, s)
  {}

  lemma InboxGrows(
    cfg: Config, log: seq<Event>, log': seq<Event>, installed: map<nat, Session>, installed': map<nat, Session>,
    sends: seq<Sent>, sends': seq<Sent>, inbox: set<Inbound>)
    requires Extends(log, log') && Grows(installed, installed') && sends <= sends'
    requires InboxOk(cfg, log, installed, sends, inbox)
    ensures InboxOk(cfg, log', installed', sends', inbox)
  {
    forall e | e in inbox ensures InboundOk(cfg, log', installed', sends', e) {
      assert InboundOk(cfg, log, installed, sends, e);
    }
  }

  lemma HeldGrows(
    cfg: Config, log: seq<Event>, log': seq<Event>, installed: map<nat, Session>, installed': map<nat, Session>,
    held: set<(Link, Session)>)
    requires Extends(log, log') && Grows(installed, installed') && HeldOk(cfg, log, installed, held)
    ensures HeldOk(cfg, log', installed', held)
  {
    forall l, s | (l, s) in held ensures LiveKeyed(cfg, log', installed', l, s) {
      assert LiveKeyed(cfg, log, installed, l, s);
    }
  }

  lemma PeerGrows(cfg: Config, log: seq<Event>, log': seq<Event>, installed: map<nat, Session>, l: Link, p: Peer)
    requires Extends(log, log') && PeerOk(cfg, log, installed, l, p)
    ensures PeerOk(cfg, log', installed, l, p)
  {
    hide InitPacket, RespPacket, OutOf, HalfOf, ResponderOf, InitiatorOf;
  }

  lemma PeersGrow(
    cfg: Config, log: seq<Event>, log': seq<Event>, installed: map<nat, Session>,
    peers: map<Link, Peer>, l: Link, p: Peer)
    requires Extends(log, log') && PeersOk(cfg, log, installed, peers)
    requires PeerOk(cfg, log', installed, l, p)
    ensures PeersOk(cfg, log', installed, peers[l := p])
  {
    var peers' := peers[l := p];
    forall k | k in peers' ensures PeerOk(cfg, log', installed, k, peers'[k]) {
      if k != l {
        PeerGrows(cfg, log, log', installed, k, peers[k]);
      }
    }
  }

  /** Only the slots matter to the index. */
  lemma SameSlots(index: map<nat, IndexView>, peers: map<Link, Peer>, l: Link, p: Peer)
    requires IndexOk(index, peers) && l in peers && p.slots == peers[l].slots
    ensures IndexOk(index, peers[l := p])
  {}

  // ---------- drawing an index ----------

  /** An index drawn now differs from that of every session of the device. */
  lemma FreshIndex(cfg: Config, log: seq<Event>, alloc: map<nat, nat>, l: Link, s: Session)
    requires LogOk(cfg, log, alloc) && Good(cfg, log, l, s) && l.dev in alloc && alloc[l.dev] < INDEXES
    ensures s.senderIndex != IndexAt(cfg, l.dev, alloc[l.dev])
  {
    var o := Origin(s.cell);
    assert EventOk(cfg, log, alloc, o);
    if s.senderIndex == IndexAt(cfg, l.dev, alloc[l.dev]) {
      IndexAtInjective(cfg, l.dev, log[o].rank, alloc[l.dev]);
    }
  }

  lemma FreshForPeer(
    cfg: Config, log: seq<Event>, alloc: map<nat, nat>, installed: map<nat, Session>, l: Link, p: Peer,
    s: Session)
    requires LogOk(cfg, log, alloc) && PeerOk(cfg, log, installed, l, p)
    requires l.dev in alloc && alloc[l.dev] < INDEXES && s.senderIndex == IndexAt(cfg, l.dev, alloc[l.dev])
    ensures ApartFromSlots(Some(s), p.slots)
    ensures Apart(Some(s), SessionOf(p.starting)) && Apart(Some(s), SessionOf(p.answering))
  {
    var all := [p.slots.uninit, p.slots.previous, p.slots.current, p.slots.next,
                SessionOf(p.starting), SessionOf(p.answering)];
    forall k | 0 <= k < |all| ensures Apart(Some(s), all[k]) {
      if all[k].Some? {
        FreshIndex(cfg, log, alloc, l, all[k].value);
      }
    }
    assert Apart(Some(s), all[0]) && Apart(Some(s), all[1]) && Apart(Some(s), all[2]);
    assert Apart(Some(s), all[3]) && Apart(Some(s), all[4]) && Apart(Some(s), all[5]);
  }

  lemma LogGrows(cfg: Config, log: seq<Event>, alloc: map<nat, nat>, e: Event)
    requires LogOk(cfg, log, alloc)
    requires e.link in cfg.psk && e.link.dev in alloc && e.rank == alloc[e.link.dev] < INDEXES
    requires e.Resp? ==> IsInit(log, e.of, Flip(e.link)) && e.incoming == IncomingOf(cfg, e.of, log[e.of])
    ensures LogOk(cfg, log + [e], alloc[e.link.dev := e.rank + 1])
  {
    var log', alloc' := log + [e], alloc[e.link.dev := e.rank + 1];
    forall n | 0 <= n < |log'| ensures EventOk(cfg, log', alloc', n) {
      if n < |log| {
        assert EventOk(cfg, log, alloc, n);
      }
    }
    forall n, m | 0 <= n < m < |log'| && log'[n].link.dev == log'[m].link.dev
      ensures log'[n].rank != log'[m].rank
    {
      if m == |log| {
        assert EventOk(cfg, log, alloc, n);
      }
    }
  }

  lemma AnswerIsGood(cfg: Config, log: seq<Event>, e: Event)
    requires e.Resp?
    ensures var s := ResponderOf(cfg, |log|, e); Good(cfg, log + [e], e.link, s) && s.cell == Responder(|log|)
  {}

  lemma CreatedGrows(
    cfg: Config, log: seq<Event>, e: Event, installed: map<nat, Session>,
    finalized: set<(Link, Session)>, created: set<(Link, Session)>, created': set<(Link, Session)>)
    requires CreatedOk(cfg, log, installed, finalized, created)
    requires created' == if e.Resp? then created + {(e.link, ResponderOf(cfg, |log|, e))} else created
    ensures CreatedOk(cfg, log + [e], installed, finalized, created')
  {
    var log' := log + [e];
    hide Good, ResponderOf;
    forall l, s | (l, s) in created' ensures RecordOk(cfg, log', finalized, l, s) {
      if (l, s) in created {
        assert RecordOk(cfg, log, finalized, l, s);
        GoodGrows(cfg, log, log', l, s);
      } else {
        AnswerIsGood(cfg, log, e);
      }
    }
    forall l, s | (l, s) in finalized ensures Good(cfg, log', l, s) {
      GoodGrows(cfg, log, log', l, s);
    }
    forall n | n in installed ensures Good(cfg, log', log'[n].link, installed[n]) {
      GoodGrows(cfg, log, log', log[n].link, installed[n]);
    }
  }

  lemma CellsGrow(log: seq<Event>, log': seq<Event>, nonces: map<Cell, nat>, filters: map<Cell, seq<nat>>)
    requires CellsOk(log, nonces, filters) && |log| <= |log'|
    ensures CellsOk(log', nonces, filters)
  {}

  /** The world after a drawing, whichever it was. */
  function Drawn(w: World, e: Event, p: Peer, created: set<(Link, Session)>): World {
    w.(log := w.log + [e], alloc := w.alloc[e.link.dev := e.rank + 1],
       peers := w.peers[e.link := p], created := created)
  }

  lemma DrawKeeps(cfg: Config, w: World, e: Event, p: Peer, created: set<(Link, Session)>)
    requires Inv(cfg, w)
    requires e.link in w.peers && CanDraw(w, e.link) && e.rank == w.alloc[e.link.dev]
    requires e.Resp? ==> IsInit(w.log, e.of, Flip(e.link)) && e.incoming == IncomingOf(cfg, e.of, w.log[e.of])
    requires created == if e.Resp? then w.created + {(e.link, ResponderOf(cfg, |w.log|, e))} else w.created
    requires p.slots == w.peers[e.link].slots && PeerOk(cfg, w.log + [e], w.installed, e.link, p)
    ensures Inv(cfg, Drawn(w, e, p, created))
  {
    hide LogOk, PacketsOk, InboxOk, PeersOk, PeerOk, IndexOk, CreatedOk, HeldOk, SendsOk, WritesOk, CellsOk;
    var log' := w.log + [e];
    LogGrows(cfg, w.log, w.alloc, e);
    PeersGrow(cfg, w.log, log', w.installed, w.peers, e.link, p);
    PacketsGrow(cfg, w.log, log', w.shakes);
    InboxGrows(cfg, w.log, log', w.installed, w.installed, w.sends, w.sends, w.inbox);
    HeldGrows(cfg, w.log, log', w.installed, w.installed, w.held);
    SameSlots(w.index, w.peers, e.link, p);
    CreatedGrows(cfg, w.log, e, w.installed, w.finalized, w.created, created);
    CellsGrow(w.log, log', w.nonces, w.filters);
  }

  lemma StartedPeer(cfg: Config, log: seq<Event>, alloc: map<nat, nat>, installed: map<nat, Session>, e: Event, p: Peer)
    requires LogOk(cfg, log, alloc) && e.Init? && PeerOk(cfg, log, installed, e.link, p)
    requires e.link.dev in alloc && e.rank == alloc[e.link.dev] < INDEXES && |log| !in installed
    ensures PeerOk(cfg, log + [e], installed, e.link,
                   p.(pending := Some(OutOf(cfg, |log|, e)),
                      starting := Some(Made(HalfOf(cfg, |log|, e), InitPacket(cfg, |log|, e)))))
  {
    PeerGrows(cfg, log, log + [e], installed, e.link, p);
    FreshForPeer(cfg, log, alloc, installed, e.link, p, HalfOf(cfg, |log|, e));
  }

  lemma NotYetInstalled(cfg: Config, w: World)
    requires Inv(cfg, w)
    ensures |w.log| !in w.installed
  {
    hide LogOk, PacketsOk, InboxOk, PeersOk, IndexOk, HeldOk, SendsOk, WritesOk, CellsOk;
  }

  lemma InitiateKeeps(cfg: Config, w: World, l: Link, stamp: nat)
    requires Inv(cfg, w)
    ensures Inv(cfg, DoInitiate(cfg, w, l, stamp))
  {
    hide LogOk, PacketsOk, InboxOk, PeerOk, IndexOk, CreatedOk, HeldOk, SendsOk, WritesOk, CellsOk;
    if l in w.peers && w.peers[l].starting.None? && CanDraw(w, l) {
      assert PeerOk(cfg, w.log, w.installed, l, w.peers[l]);
      NotYetInstalled(cfg, w);
      var n, p, e := |w.log|, w.peers[l], Init(l, w.alloc[l.dev], stamp);
      var p' := p.(pending := Some(OutOf(cfg, n, e)),
                   starting := Some(Made(HalfOf(cfg, n, e), InitPacket(cfg, n, e))));
      StartedPeer(cfg, w.log, w.alloc, w.installed, e, p);
      DrawKeeps(cfg, w, e, p', w.created);
    }
  }

  lemma AnsweringPeer(
    cfg: Config, log: seq<Event>, alloc: map<nat, nat>, installed: map<nat, Session>, e: Event, p: Peer)
    requires LogOk(cfg, log, alloc) && e.Resp? && PeerOk(cfg, log, installed, e.link, p)
    requires e.link.dev in alloc && e.rank == alloc[e.link.dev] < INDEXES
    ensures PeerOk(cfg, log + [e], installed, e.link,
                   p.(answering := Some(Made(ResponderOf(cfg, |log|, e), RespPacket(cfg, |log|, e)))))
  {
    PeerGrows(cfg, log, log + [e], installed, e.link, p);
    FreshForPeer(cfg, log, alloc, installed, e.link, p, ResponderOf(cfg, |log|, e));
  }

  lemma RespondKeeps(cfg: Config, w: World, l: Link, incoming: IncomingInitiation)
    requires Inv(cfg, w)
    ensures Inv(cfg, DoRespond(cfg, w, l, incoming))
  {
    hide LogOk, PacketsOk, PeerOk, IndexOk, CreatedOk, HeldOk, SendsOk, WritesOk, CellsOk;
    if l in w.peers && InInitiation(l, incoming) in w.inbox && w.peers[l].answering.None? && CanDraw(w, l) {
      var m, p, e := |w.log|, w.peers[l], Resp(l, w.alloc[l.dev], Serial(incoming.ephemeral.of), incoming);
      assert InboundOk(cfg, w.log, w.installed, w.sends, InInitiation(l, incoming));
      assert PeerOk(cfg, w.log, w.installed, l, p);
      var s := ResponderOf(cfg, m, e);
      AnsweringPeer(cfg, w.log, w.alloc, w.installed, e, p);
      DrawKeeps(cfg, w, e, p.(answering := Some(Made(s, RespPacket(cfg, m, e)))), w.created + {(l, s)});
    }
  }

  // ---------- operating on the slots ----------

  function SlotAt(t: Slots, i: nat): Session
    requires InSlots(t, i)
  {
    if Holds(t.uninit, i) then t.uninit.value
    else if Holds(t.previous, i) then t.previous.value
    else if Holds(t.current, i) then t.current.value
    else t.next.value
  }

  lemma SlotGood(cfg: Config, log: seq<Event>, installed: map<nat, Session>, l: Link, p: Peer, i: nat)
    requires PeerOk(cfg, log, installed, l, p) && InSlots(p.slots, i)
    ensures Good(cfg, log, l, SlotAt(p.slots, i)) && SlotAt(p.slots, i).senderIndex == i
    ensures SlotAt(p.slots, i).peer == l.peer
  {}

  /** Two peers of a device never share an index. */
  lemma PeersApart(
    cfg: Config, log: seq<Event>, alloc: map<nat, nat>, installed: map<nat, Session>, l: Link, p: Peer,
    k: Link, q: Peer, i: nat)
    requires LogOk(cfg, log, alloc) && PeerOk(cfg, log, installed, l, p) && PeerOk(cfg, log, installed, k, q)
    requires l.dev == k.dev && InSlots(p.slots, i) && InSlots(q.slots, i)
    ensures l == k
  {
    hide LogOk, PeerOk;
    SlotGood(cfg, log, installed, l, p, i);
    SlotGood(cfg, log, installed, k, q, i);
    SameIndex(cfg, log, alloc, l, SlotAt(p.slots, i), k, SlotAt(q.slots, i));
  }

  lemma OthersStayIndexed(
    cfg: Config, log: seq<Event>, alloc: map<nat, nat>, installed: map<nat, Session>, m: map<nat, Session>,
    peers: map<Link, Peer>, l: Link, b: Bank, k: Link)
    requires LogOk(cfg, log, alloc) && PeersOk(cfg, log, installed, peers)
    requires l in peers && k in peers && k != l && k.dev == l.dev
    requires Follows(m, peers[l].slots, b.index.indexes, b.slots) && SlotsIndexed(m, peers[k].slots)
    ensures SlotsIndexed(b.index.indexes, peers[k].slots)
  {
    hide LogOk, PeerOk;
    forall i | i in m && InSlots(peers[k].slots, i) ensures i in b.index.indexes && b.index.indexes[i] == m[i] {
      if InSlots(peers[l].slots, i) {
        PeersApart(cfg, log, alloc, installed, l, peers[l], k, peers[k], i);
      }
    }
  }

  lemma EntriesStaySlotted(
    cfg: Config, log: seq<Event>, installed: map<nat, Session>, m: map<nat, Session>, peers: map<Link, Peer>,
    l: Link, b: Bank, p: Peer, i: nat)
    requires l in peers && PeerOk(cfg, log, installed, l, p) && p.slots == b.slots && i in b.index.indexes
    requires Follows(m, peers[l].slots, b.index.indexes, b.slots)
    requires forall j :: j in m ==> Link(l.dev, m[j].peer) in peers && InSlots(peers[Link(l.dev, m[j].peer)].slots, j)
    ensures var k := Link(l.dev, b.index.indexes[i].peer);
      k in peers[l := p] && InSlots(peers[l := p][k].slots, i)
  {
    hide PeerOk;
    if InSlots(b.slots, i) {
      SlotGood(cfg, log, installed, l, p, i);
      assert b.index.indexes[i] == SlotAt(b.slots, i);
    }
  }

  /** A sound operation of one peer on the shared index leaves the index exact for all peers. */
  lemma BankKeepsIndex(
    cfg: Config, log: seq<Event>, alloc: map<nat, nat>, installed: map<nat, Session>,
    installed': map<nat, Session>, index: map<nat, IndexView>, peers: map<Link, Peer>, l: Link, b: Bank,
    p: Peer)
    requires LogOk(cfg, log, alloc) && PeersOk(cfg, log, installed, peers) && IndexOk(index, peers)
    requires l in peers && Sound(Bank(index[l.dev], peers[l].slots), b)
    requires p.slots == b.slots && PeerOk(cfg, log, installed', l, p)
    ensures IndexOk(index[l.dev := b.index], peers[l := p])
  {
    hide LogOk, PeersOk, PeerOk, Inverse, SlotsApart, SlotsIndexed, Follows, InSlots;
    var index', peers', m := index[l.dev := b.index], peers[l := p], index[l.dev].indexes;
    forall k | k in peers' ensures k.dev in index' && SlotsIndexed(index'[k.dev].indexes, peers'[k].slots) {
      if k == l {
        FollowsIndexes(m, peers[l].slots, b.index.indexes, b.slots);
      } else if k.dev == l.dev {
        OthersStayIndexed(cfg, log, alloc, installed, m, peers, l, b, k);
      }
    }
    forall i | i in b.index.indexes
      ensures Link(l.dev, b.index.indexes[i].peer) in peers'
      ensures InSlots(peers'[Link(l.dev, b.index.indexes[i].peer)].slots, i)
    {
      EntriesStaySlotted(cfg, log, installed', m, peers, l, b, p, i);
    }
  }

  lemma FollowsIndexes(m: map<nat, Session>, t: Slots, m': map<nat, Session>, t': Slots)
    requires Follows(m, t, m', t')
    ensures SlotsIndexed(m', t')
  {}

  /** The index waited for by a started or answered handshake is not in use. */
  lemma MadeIsUnindexed(
    cfg: Config, log: seq<Event>, alloc: map<nat, nat>, installed: map<nat, Session>,
    index: map<nat, IndexView>, peers: map<Link, Peer>, l: Link, s: Session)
    requires LogOk(cfg, log, alloc) && PeersOk(cfg, log, installed, peers) && IndexOk(index, peers)
    requires l in peers && Good(cfg, log, l, s) && ApartFromSlots(Some(s), peers[l].slots)
    ensures s.senderIndex !in index[l.dev].indexes
  {
    hide LogOk, PeerOk, Inverse, SlotsApart;
    var i := s.senderIndex;
    if i in index[l.dev].indexes {
      var k := Link(l.dev, index[l.dev].indexes[i].peer);
      SlotGood(cfg, log, installed, k, peers[k], i);
      SameIndex(cfg, log, alloc, l, s, k, SlotAt(peers[k].slots, i));
    }
  }

  lemma PeersUpdated(
    cfg: Config, log: seq<Event>, installed: map<nat, Session>, peers: map<Link, Peer>, l: Link, p: Peer)
    requires PeersOk(cfg, log, installed, peers) && PeerOk(cfg, log, installed, l, p)
    ensures PeersOk(cfg, log, installed, peers[l := p])
  {
    hide PeerOk;
  }

  lemma PacketAdded(cfg: Config, log: seq<Event>, shakes: set<Shake>, p: Shake)
    requires PacketsOk(cfg, log, shakes) && PacketOk(cfg, log, p)
    ensures PacketsOk(cfg, log, shakes + {p})
  {
    hide PacketOk;
  }

  lemma OperateKeeps(cfg: Config, w: World, l: Link, b: Bank, p: Peer, shakes: set<Shake>, installed: map<nat, Session>)
    requires Inv(cfg, w) && l in w.peers && l.dev in w.index
    requires Sound(BankOf(w, l), b)
    requires PeerOk(cfg, w.log, installed, l, p.(slots := b.slots))
    requires PeersOk(cfg, w.log, installed, w.peers[l := p.(slots := b.slots)])
    requires PacketsOk(cfg, w.log, shakes)
    requires InboxOk(cfg, w.log, installed, w.sends, w.inbox)
    requires HeldOk(cfg, w.log, installed, w.held)
    requires CreatedOk(cfg, w.log, installed, w.finalized, w.created)
    ensures Inv(cfg, Operated(w, l, b, p, shakes, installed))
  {
    hide LogOk, PacketsOk, InboxOk, PeersOk, PeerOk, IndexOk, CreatedOk, HeldOk, SendsOk, WritesOk, CellsOk, Sound;
    BankKeepsIndex(cfg, w.log, w.alloc, w.installed, installed, w.index, w.peers, l, b, p.(slots := b.slots));
  }

  lemma BankReady(cfg: Config, w: World, l: Link)
    requires Inv(cfg, w) && l in w.peers
    ensures l.dev in w.index && Ready(BankOf(w, l)) && PeerOk(cfg, w.log, w.installed, l, w.peers[l])
  {
    hide LogOk, PacketsOk, InboxOk, CreatedOk, HeldOk, SendsOk, WritesOk, CellsOk, PacketOk, Good, Inverse;
    assert PeerOk(cfg, w.log, w.installed, l, w.peers[l]);
  }

  /** What is started moves into `uninit`. */
  function Starts(p: Peer): Peer
    requires p.starting.Some?
  {
    p.(starting := None, slots := p.slots.(uninit := Some(p.starting.value.session)))
  }

  lemma StartedInstalls(cfg: Config, log: seq<Event>, installed: map<nat, Session>, l: Link, p: Peer)
    requires PeerOk(cfg, log, installed, l, p) && p.starting.Some?
    ensures PeerOk(cfg, log, installed, l, Starts(p))
    ensures PacketOk(cfg, log, p.starting.value.packet)
    ensures Good(cfg, log, l, p.starting.value.session)
    ensures ApartFromSlots(Some(p.starting.value.session), p.slots)
  {
    hide Good, PacketOk;
  }

  lemma InstallInitiationKeeps(cfg: Config, w: World, l: Link)
    requires Inv(cfg, w)
    ensures Inv(cfg, DoInstallInitiation(w, l))
  {
    hide LogOk, PacketsOk, InboxOk, PeersOk, PeerOk, IndexOk, CreatedOk, HeldOk, SendsOk, WritesOk, CellsOk;
    hide Sound, Ready, PacketOk, Good, ApartFromSlots;
    if l in w.peers && l.dev in w.index && w.peers[l].starting.Some? {
      var p, made := w.peers[l], w.peers[l].starting.value;
      var b := PrepareUninit(BankOf(w, l), made.session);
      BankReady(cfg, w, l);
      StartedInstalls(cfg, w.log, w.installed, l, p);
      MadeIsUnindexed(cfg, w.log, w.alloc, w.installed, w.index, w.peers, l, made.session);
      PrepareUninitSound(BankOf(w, l), made.session);
      PeersUpdated(cfg, w.log, w.installed, w.peers, l, Starts(p));
      PacketAdded(cfg, w.log, w.shakes, made.packet);
      OperateKeeps(cfg, w, l, b, p.(starting := None), w.shakes + {made.packet}, w.installed);
    }
  }

  /** What is answered moves into `next`, and what was there into `previous`. */
  function Answers(p: Peer): Peer
    requires p.answering.Some?
  {
    var t := p.slots;
    p.(answering := None,
       slots := t.(previous := if t.next.Some? then t.next else t.previous, next := Some(p.answering.value.session)))
  }

  lemma AnsweredInstalls(cfg: Config, log: seq<Event>, installed: map<nat, Session>, l: Link, p: Peer)
    requires PeerOk(cfg, log, installed, l, p) && p.answering.Some?
    ensures PeerOk(cfg, log, installed, l, Answers(p))
    ensures PacketOk(cfg, log, p.answering.value.packet)
    ensures Good(cfg, log, l, p.answering.value.session)
    ensures ApartFromSlots(Some(p.answering.value.session), p.slots)
  {
    hide Good, PacketOk;
  }

  lemma InstallResponseKeeps(cfg: Config, w: World, l: Link)
    requires Inv(cfg, w)
    ensures Inv(cfg, DoInstallResponse(w, l))
  {
    hide LogOk, PacketsOk, InboxOk, PeersOk, PeerOk, IndexOk, CreatedOk, HeldOk, SendsOk, WritesOk, CellsOk;
    hide Sound, Ready, PacketOk, Good, ApartFromSlots;
    if l in w.peers && l.dev in w.index && w.peers[l].answering.Some? {
      var p, made := w.peers[l], w.peers[l].answering.value;
      var b := PrepareNext(BankOf(w, l), made.session);
      BankReady(cfg, w, l);
      AnsweredInstalls(cfg, w.log, w.installed, l, p);
      MadeIsUnindexed(cfg, w.log, w.alloc, w.installed, w.index, w.peers, l, made.session);
      PrepareNextSound(BankOf(w, l), made.session);
      PeersUpdated(cfg, w.log, w.installed, w.peers, l, Answers(p));
      PacketAdded(cfg, w.log, w.shakes, made.packet);
      OperateKeeps(cfg, w, l, b, p.(answering := None), w.shakes + {made.packet}, w.installed);
    }
  }

  // ---------- completing an initiation ----------

  lemma InstalledPeer(
    cfg: Config, log: seq<Event>, alloc: map<nat, nat>, installed: map<nat, Session>, l: Link, p: Peer,
    n: nat, s: Session)
    requires LogOk(cfg, log, alloc) && PeerOk(cfg, log, installed, l, p)
    requires n !in installed && s.cell.Initiator? && s.cell.n == n
    requires HalfApart(SessionOf(p.starting), n) && HalfApart(p.slots.uninit, n)
    ensures PeerOk(cfg, log, installed[n := s], l, p)
  {
    hide LogOk, Good, PacketOk;
  }

  predicate HalfApart(o: Option<Session>, n: nat) {
    o.Some? ==> o.value.cell != Half(n)
  }

  /** A peer after its `uninit` session has been completed by `s`. */
  function Completes(p: Peer, s: Session): Peer {
    p.(slots := Slots(None, p.slots.current, Some(s), p.slots.next))
  }

  lemma UninitIsPlaceholder(
    cfg: Config, log: seq<Event>, alloc: map<nat, nat>, installed: map<nat, Session>, l: Link, p: Peer,
    s: Session)
    requires LogOk(cfg, log, alloc) && PeerOk(cfg, log, installed, l, p)
    requires s.cell.Initiator? && Good(cfg, log, l, s) && Matches(p.slots.uninit, s)
    ensures s.cell.n !in installed
    ensures HalfApart(SessionOf(p.starting), s.cell.n)
  {
    hide LogOk, PacketOk;
    SameIndex(cfg, log, alloc, l, s, l, p.slots.uninit.value);
  }

  lemma CompletedPeer(
    cfg: Config, log: seq<Event>, alloc: map<nat, nat>, installed: map<nat, Session>, l: Link, p: Peer,
    s: Session)
    requires LogOk(cfg, log, alloc) && PeerOk(cfg, log, installed, l, p)
    requires s.cell.Initiator? && Good(cfg, log, l, s) && Matches(p.slots.uninit, s)
    ensures s.cell.n !in installed
    ensures PeerOk(cfg, log, installed[s.cell.n := s], l, Completes(p, s))
  {
    hide LogOk, Good, PacketOk;
    var q := p.(slots := p.slots.(uninit := None));
    UninitIsPlaceholder(cfg, log, alloc, installed, l, p, s);
    InstalledPeer(cfg, log, alloc, installed, l, q, s.cell.n, s);
  }

  lemma OthersUnaffected(
    cfg: Config, log: seq<Event>, alloc: map<nat, nat>, installed: map<nat, Session>, peers: map<Link, Peer>,
    l: Link, p: Peer, s: Session)
    requires LogOk(cfg, log, alloc) && PeersOk(cfg, log, installed, peers)
    requires s.cell.Initiator? && Good(cfg, log, l, s) && s.cell.n !in installed
    requires PeerOk(cfg, log, installed[s.cell.n := s], l, p)
    ensures PeersOk(cfg, log, installed[s.cell.n := s], peers[l := p])
  {
    hide LogOk, PeerOk;
    var peers' := peers[l := p];
    forall k | k in peers' ensures PeerOk(cfg, log, installed[s.cell.n := s], k, peers'[k]) {
      if k != l {
        OtherPeer(cfg, log, installed, k, peers[k], l, s);
        InstalledPeer(cfg, log, alloc, installed, k, peers[k], s.cell.n, s);
      }
    }
  }

  lemma OtherPeer(cfg: Config, log: seq<Event>, installed: map<nat, Session>, k: Link, q: Peer, l: Link, s: Session)
    requires PeerOk(cfg, log, installed, k, q) && s.cell.Initiator? && Good(cfg, log, l, s) && k != l
    ensures HalfApart(SessionOf(q.starting), s.cell.n) && HalfApart(q.slots.uninit, s.cell.n)
  {
    hide PacketOk;
  }

  lemma InstallRecorded(
    cfg: Config, log: seq<Event>, installed: map<nat, Session>, finalized: set<(Link, Session)>,
    created: set<(Link, Session)>, l: Link, s: Session)
    requires CreatedOk(cfg, log, installed, finalized, created) && (l, s) in finalized
    ensures s.cell.Initiator? && Good(cfg, log, l, s)
    ensures CreatedOk(cfg, log, installed[s.cell.n := s], finalized, created)
  {}

  lemma CompleteKeeps(cfg: Config, w: World, l: Link, s: Session)
    requires Inv(cfg, w)
    ensures Inv(cfg, DoComplete(w, l, s))
  {
    hide LogOk, PacketsOk, InboxOk, PeersOk, PeerOk, IndexOk, CreatedOk, HeldOk, SendsOk, WritesOk, CellsOk;
    hide Sound, Ready, Good;
    if l in w.peers && l.dev in w.index && (l, s) in w.finalized && Matches(w.peers[l].slots.uninit, s) {
      InstallRecorded(cfg, w.log, w.installed, w.finalized, w.created, l, s);
      var p, installed' := w.peers[l], w.installed[s.cell.n := s];
      BankReady(cfg, w, l);
      CompleteUninitSound(BankOf(w, l), s);
      CompletedPeer(cfg, w.log, w.alloc, w.installed, l, p, s);
      OthersUnaffected(cfg, w.log, w.alloc, w.installed, w.peers, l, Completes(p, s), s);
      InboxGrows(cfg, w.log, w.log, w.installed, installed', w.sends, w.sends, w.inbox);
      HeldGrows(cfg, w.log, w.log, w.installed, installed', w.held);
      OperateKeeps(cfg, w, l, CompleteUninit(BankOf(w, l), s), p, w.shakes, installed');
    }
  }

  // ---------- handshake packets ----------

  /** Whatever is staged is in order, so staging keeps the invariant. */
  lemma StageKeeps(cfg: Config, w: World, e: Inbound)
    requires Inv(cfg, w) && InboundOk(cfg, w.log, w.installed, w.sends, e)
    ensures Inv(cfg, w.(inbox := w.inbox + {e}))
  {
    hide LogOk, PacketsOk, PeersOk, IndexOk, CreatedOk, HeldOk, SendsOk, InboundOk;
    assert WritesOk(w.inbox + {e}, w.sends, w.filters, w.writes) by {
      forall i | 0 <= i < |w.writes| ensures WriteOk(w.inbox + {e}, w.sends, w.filters, w.writes[i]) {
        assert WriteOk(w.inbox, w.sends, w.filters, w.writes[i]);
      }
    }
  }

  /** An initiation that passes the mac1 check of a device is readable there:
      the device never meets the parse error it has no handling for. */
  lemma DeliveredInitiationParses(cfg: Config, log: seq<Event>, d: nat, p: Shake)
    requires PacketOk(cfg, log, p) && p.Initiation? && ValidMac1(d, p)
    ensures var n := p.ephemeral.of.serial;
      log[n].link.peer == d && ParseInitiation(d, p) == Some(IncomingOf(cfg, n, log[n]))
  {
    var n := p.ephemeral.of.serial;
    var e := log[n];
    InitiationAgrees(IndexOf(cfg, e), SecretOf(cfg, e.link), Ephemeral(n), e.stamp, d);
  }

  lemma DeliverShakeKeeps(cfg: Config, w: World, d: nat, p: Shake)
    requires Inv(cfg, w)
    ensures Inv(cfg, DoDeliverShake(w, d, p))
  {
    hide LogOk, InboxOk, PeersOk, IndexOk, CreatedOk, HeldOk, SendsOk, WritesOk, CellsOk;
    hide NewInitiation, NewResponse, ParseInitiation;
    if p in w.shakes && d in w.index && ValidMac1(d, p) {
      assert PacketOk(cfg, w.log, p);
      match p
      case Initiation(_, _, _, _, _) =>
        DeliveredInitiationParses(cfg, w.log, d, p);
        var i := ParseInitiation(d, p).value;
        StageKeeps(cfg, w, InInitiation(Link(d, i.staticKey.of.device), i));
      case Response(_, receiver, _, _, _) =>
        if receiver in w.index[d].indexes {
          StageKeeps(cfg, w, InResponse(Link(d, w.index[d].indexes[receiver].peer), p));
        }
    }
  }

  lemma OutFields(cfg: Config, n: nat, e: Event)
    requires e.Init?
    ensures OutOf(cfg, n, e).index == IndexOf(cfg, e)
  {}

  /** A response that `finalize` can read answers the pending initiation, and
      the session made from it is the one the log prescribes. */
  lemma FinalizeGood(
    cfg: Config, log: seq<Event>, alloc: map<nat, nat>, l: Link, o: OutgoingInitiation, p: Shake, serial: nat)
    requires LogOk(cfg, log, alloc) && PendingOk(cfg, log, l, Some(o))
    requires p.Response? && PacketOk(cfg, log, p)
    requires FinalizeSession(o, SecretOf(cfg, l), p, serial).Some?
    ensures var s := FinalizeSession(o, SecretOf(cfg, l), p, serial).value;
      s.cell.Initiator? && Good(cfg, log, l, s) && SamePsk(cfg, l)
  {
    hide NewResponse, ParseResponse, NewInitiation;
    var n, m := o.ephemeral.serial, p.ephemeral.of.serial;
    var f := log[m];
    assert EventOk(cfg, log, alloc, m);
    ResponseFields(f.incoming, IndexOf(cfg, f), SecretOf(cfg, f.link), Ephemeral(m));
    OutFields(cfg, n, log[n]);
    ReadingBinds(o, SecretOf(cfg, l), f.incoming, IndexOf(cfg, f), SecretOf(cfg, f.link), Ephemeral(m));
    var e, g := log[n], log[f.of];
    InitiationHashIsInjective(IndexOf(cfg, e), SecretOf(cfg, e.link), Ephemeral(n), e.stamp,
                              IndexOf(cfg, g), SecretOf(cfg, g.link), Ephemeral(f.of), g.stamp);
  }

  lemma FinalizedRecorded(
    cfg: Config, log: seq<Event>, installed: map<nat, Session>, finalized: set<(Link, Session)>,
    created: set<(Link, Session)>, l: Link, s: Session)
    requires CreatedOk(cfg, log, installed, finalized, created)
    requires s.cell.Initiator? && Good(cfg, log, l, s) && SamePsk(cfg, l)
    ensures CreatedOk(cfg, log, installed, finalized + {(l, s)}, created + {(l, s)})
  {
    hide Good, ResponderOf, SamePsk;
  }

  lemma FinalizeKeeps(cfg: Config, w: World, l: Link, p: Shake)
    requires Inv(cfg, w)
    ensures Inv(cfg, DoFinalize(cfg, w, l, p))
  {
    hide LogOk, PacketsOk, PeersOk, PeerOk, IndexOk, CreatedOk, HeldOk, SendsOk, WritesOk, CellsOk;
    hide Good, PacketOk, FinalizeSession, PendingOk, SamePsk;
    if l in w.peers && p.Response? && InResponse(l, p) in w.inbox && w.peers[l].pending.Some? {
      assert InboundOk(cfg, w.log, w.installed, w.sends, InResponse(l, p));
      BankReady(cfg, w, l);
      assert PendingOk(cfg, w.log, l, w.peers[l].pending) by {
        PeerPending(cfg, w.log, w.installed, l, w.peers[l]);
      }
      var s := FinalizeSession(w.peers[l].pending.value, SecretOf(cfg, l), p, w.serial);
      if s.Some? {
        FinalizeGood(cfg, w.log, w.alloc, l, w.peers[l].pending.value, p, w.serial);
        FinalizedRecorded(cfg, w.log, w.installed, w.finalized, w.created, l, s.value);
      }
    }
  }

  lemma PeerPending(cfg: Config, log: seq<Event>, installed: map<nat, Session>, l: Link, p: Peer)
    requires PeerOk(cfg, log, installed, l, p)
    ensures PendingOk(cfg, log, l, p.pending)
  {
    hide Good, PacketOk, PendingOk;
  }

  // ---------- data packets ----------

  lemma TakeKeeps(cfg: Config, w: World, l: Link)
    requires Inv(cfg, w)
    ensures Inv(cfg, DoTake(w, l))
  {
    hide LogOk, PacketsOk, InboxOk, PeersOk, IndexOk, CreatedOk, WritesOk, CellsOk, Good, PacketOk;
    if l in w.peers && w.peers[l].slots.current.Some? {
      BankReady(cfg, w, l);
      var held' := w.held + {(l, w.peers[l].slots.current.value)};
      assert SendsOk(held', w.nonces, w.sends) by {
        forall k | 0 <= k < |w.sends| ensures SentOk(held', w.nonces, w.sends[k]) {
          assert SentOk(w.held, w.nonces, w.sends[k]);
        }
      }
    }
  }

  lemma SendRecorded(
    held: set<(Link, Session)>, nonces: map<Cell, nat>, sends: seq<Sent>, l: Link, s: Session, data: seq<nat>)
    requires SendsOk(held, nonces, sends) && (l, s) in held && Nonce(nonces, s.cell) < NONCES
    ensures var c := Nonce(nonces, s.cell);
      SendsOk(held, nonces[s.cell := c + 1], sends + [Sent(l, s, data, EncryptData(s, c, data))])
  {
    var c := Nonce(nonces, s.cell);
    var nonces', sends' := nonces[s.cell := c + 1], sends + [Sent(l, s, data, EncryptData(s, c, data))];
    forall k | 0 <= k < |sends'| ensures SentOk(held, nonces', sends'[k]) {
      if k < |sends| {
        assert SentOk(held, nonces, sends[k]);
      }
    }
    forall k | 0 <= k < |sends| ensures sends[k].session.cell == s.cell ==> sends[k].packet.counter < c {
      assert SentOk(held, nonces, sends[k]);
    }
  }

  lemma WritesStay(inbox: set<Inbound>, sends: seq<Sent>, x: Sent, filters: map<Cell, seq<nat>>, writes: seq<Write>)
    requires WritesOk(inbox, sends, filters, writes)
    ensures WritesOk(inbox, sends + [x], filters, writes)
  {
    forall i | 0 <= i < |writes| ensures WriteOk(inbox, sends + [x], filters, writes[i]) {
      assert WriteOk(inbox, sends, filters, writes[i]);
    }
  }

  lemma HeldIsKnown(
    cfg: Config, log: seq<Event>, installed: map<nat, Session>, held: set<(Link, Session)>, l: Link, s: Session)
    requires HeldOk(cfg, log, installed, held) && (l, s) in held
    ensures Known(log, s.cell)
  {}

  lemma NonceUsed(log: seq<Event>, nonces: map<Cell, nat>, filters: map<Cell, seq<nat>>, c: Cell, n: nat)
    requires CellsOk(log, nonces, filters) && Known(log, c)
    ensures CellsOk(log, nonces[c := n], filters)
  {}

  lemma FilterUsed(log: seq<Event>, nonces: map<Cell, nat>, filters: map<Cell, seq<nat>>, c: Cell, h: seq<nat>)
    requires CellsOk(log, nonces, filters) && Known(log, c)
    ensures CellsOk(log, nonces, filters[c := h])
  {}

  lemma SendKeeps(cfg: Config, w: World, l: Link, s: Session, data: seq<nat>)
    requires Inv(cfg, w)
    ensures Inv(cfg, DoSend(w, l, s, data))
  {
    hide LogOk, PacketsOk, InboxOk, PeersOk, IndexOk, CreatedOk, HeldOk, SendsOk, WritesOk, CellsOk, EncryptData;
    if (l, s) in w.held && Nonce(w.nonces, s.cell) < NONCES {
      var x := Sent(l, s, data, EncryptData(s, Nonce(w.nonces, s.cell), data));
      SendRecorded(w.held, w.nonces, w.sends, l, s, data);
      HeldIsKnown(cfg, w.log, w.installed, w.held, l, s);
      NonceUsed(w.log, w.nonces, w.filters, s.cell, Nonce(w.nonces, s.cell) + 1);
      WritesStay(w.inbox, w.sends, x, w.filters, w.writes);
      InboxGrows(cfg, w.log, w.log, w.installed, w.installed, w.sends, w.sends + [x], w.inbox);
    }
  }

  /** A session found by index is in a slot of its peer. */
  lemma IndexedIsLive(cfg: Config, w: World, d: nat, i: nat)
    requires Inv(cfg, w) && d in w.index && i in w.index[d].indexes
    ensures var s := w.index[d].indexes[i];
      s.senderIndex == i && Live(cfg, w.log, w.installed, Link(d, s.peer), s)
  {
    hide LogOk, PacketsOk, InboxOk, CreatedOk, HeldOk, SendsOk, WritesOk, CellsOk, PeerOk, Live;
    var l := Link(d, w.index[d].indexes[i].peer);
    SlotLive(cfg, w.log, w.installed, l, w.peers[l], i);
    assert SlotsIndexed(w.index[d].indexes, w.peers[l].slots);
  }

  lemma SlotLive(cfg: Config, log: seq<Event>, installed: map<nat, Session>, l: Link, p: Peer, i: nat)
    requires PeerOk(cfg, log, installed, l, p) && InSlots(p.slots, i)
    ensures Live(cfg, log, installed, l, SlotAt(p.slots, i)) && SlotAt(p.slots, i).senderIndex == i
  {
    hide Good, PacketOk;
  }

  lemma DeliverDataKeeps(cfg: Config, w: World, d: nat, k: nat)
    requires Inv(cfg, w)
    ensures Inv(cfg, DoDeliverData(w, d, k))
  {
    hide LogOk, PacketsOk, InboxOk, PeersOk, IndexOk, CreatedOk, HeldOk, SendsOk, WritesOk, CellsOk, Live;
    if k < |w.sends| && d in w.index {
      var i := w.sends[k].packet.receiverIndex;
      if i in w.index[d].indexes && w.sends[k].packet.counter <= ReplayWindow.REJECT_AFTER_MESSAGES {
        var s := w.index[d].indexes[i];
        IndexedIsLive(cfg, w, d, i);
        StageKeeps(cfg, w, InData(Link(d, s.peer), k, s));
      }
    }
  }

  /** A peer after its `next` session has been completed. */
  function Promotes(p: Peer, s: Session): Peer {
    p.(slots := Slots(p.slots.uninit, p.slots.current, Some(s), None))
  }

  lemma NextIsStaged(
    cfg: Config, log: seq<Event>, alloc: map<nat, nat>, installed: map<nat, Session>, l: Link, p: Peer,
    s: Session)
    requires LogOk(cfg, log, alloc) && PeerOk(cfg, log, installed, l, p)
    requires Good(cfg, log, l, s) && Matches(p.slots.next, s)
    ensures p.slots.next == Some(s) && s.cell.Responder?
  {
    hide LogOk, PacketOk;
    SameIndex(cfg, log, alloc, l, p.slots.next.value, l, s);
  }

  lemma PromotedPeer(cfg: Config, log: seq<Event>, installed: map<nat, Session>, l: Link, p: Peer, s: Session)
    requires PeerOk(cfg, log, installed, l, p) && p.slots.next == Some(s) && s.cell.Responder?
    ensures PeerOk(cfg, log, installed, l, Promotes(p, s))
  {
    hide Good, PacketOk;
  }

  lemma PromoteKeeps(cfg: Config, w: World, l: Link, k: nat, s: Session)
    requires Inv(cfg, w)
    ensures Inv(cfg, DoPromote(w, l, k, s))
  {
    hide LogOk, PacketsOk, PeersOk, PeerOk, IndexOk, CreatedOk, HeldOk, SendsOk, WritesOk, CellsOk;
    hide Sound, Ready, Good;
    if l in w.peers && l.dev in w.index && InData(l, k, s) in w.inbox {
      var p, b := w.peers[l], BankOf(w, l);
      if Matches(p.slots.next, s) {
        assert InboundOk(cfg, w.log, w.installed, w.sends, InData(l, k, s));
        BankReady(cfg, w, l);
        NextIsStaged(cfg, w.log, w.alloc, w.installed, l, p, s);
        PromotedPeer(cfg, w.log, w.installed, l, p, s);
        CompleteNextSound(b, s);
        PeersUpdated(cfg, w.log, w.installed, w.peers, l, Promotes(p, s));
        OperateKeeps(cfg, w, l, CompleteNext(b, s), p, w.shakes, w.installed);
      } else {
        assert w.index[l.dev := b.index] == w.index && w.peers[l := p.(slots := b.slots)] == w.peers;
      }
    }
  }

  lemma WriteRecorded(inbox: set<Inbound>, sends: seq<Sent>, filters: map<Cell, seq<nat>>, writes: seq<Write>, x: Write)
    requires WritesOk(inbox, sends, filters, writes)
    requires x.k < |sends| && InData(x.link, x.k, x.session) in inbox
    requires DecryptData(x.session, sends[x.k].packet) == Some(x.data) && x.data != []
    requires ReplayWindow.Admits(Filter(filters, x.session.cell), sends[x.k].packet.counter)
    ensures var h := Filter(filters, x.session.cell);
      WritesOk(inbox, sends, filters[x.session.cell := h + [sends[x.k].packet.counter]], writes + [x])
  {
    hide DecryptData, ReplayWindow.Admits;
    var c, h := sends[x.k].packet.counter, Filter(filters, x.session.cell);
    var filters', writes' := filters[x.session.cell := h + [c]], writes + [x];
    ReplayWindow.AdmitsIsNew(h, c);
    forall i | 0 <= i < |writes'| ensures WriteOk(inbox, sends, filters', writes'[i]) {
      if i < |writes| {
        assert WriteOk(inbox, sends, filters, writes[i]);
      }
    }
    forall i | 0 <= i < |writes| && writes[i].session.cell == x.session.cell
      ensures sends[writes[i].k].packet.counter != c
    {
      assert WriteOk(inbox, sends, filters, writes[i]);
    }
  }

  lemma StagedIsKnown(
    cfg: Config, log: seq<Event>, installed: map<nat, Session>, sends: seq<Sent>, inbox: set<Inbound>, l: Link,
    k: nat, s: Session)
    requires InboxOk(cfg, log, installed, sends, inbox) && InData(l, k, s) in inbox
    ensures Known(log, s.cell)
  {
    assert InboundOk(cfg, log, installed, sends, InData(l, k, s));
  }

  lemma ReceiveKeeps(cfg: Config, w: World, l: Link, k: nat, s: Session)
    requires Inv(cfg, w)
    ensures Inv(cfg, DoReceive(w, l, k, s))
  {
    hide LogOk, PacketsOk, InboxOk, PeersOk, IndexOk, CreatedOk, HeldOk, SendsOk, WritesOk, CellsOk;
    hide DecryptData, ReplayWindow.Admits;
    var w' := DoReceive(w, l, k, s);
    if w' != w {
      var data := DecryptData(s, w.sends[k].packet).value;
      WriteRecorded(w.inbox, w.sends, w.filters, w.writes, Write(l, s, data, k));
      StagedIsKnown(cfg, w.log, w.installed, w.sends, w.inbox, l, k, s);
      FilterUsed(w.log, w.nonces, w.filters, s.cell, w'.filters[s.cell]);
    }
  }

  // ---------- runs ----------

  lemma StepKeeps(cfg: Config, w: World, a: Action)
    requires Inv(cfg, w)
    ensures Inv(cfg, Step(cfg, w, a))
  {
    hide Inv;
    match a
    case Initiate(l, stamp) => InitiateKeeps(cfg, w, l, stamp);
    case InstallInitiation(l) => InstallInitiationKeeps(cfg, w, l);
    case DeliverShake(d, p) => DeliverShakeKeeps(cfg, w, d, p);
    case Respond(l, incoming) => RespondKeeps(cfg, w, l, incoming);
    case InstallResponse(l) => InstallResponseKeeps(cfg, w, l);
    case Finalize(l, p) => FinalizeKeeps(cfg, w, l, p);
    case Complete(l, s) => CompleteKeeps(cfg, w, l, s);
    case Take(l) => TakeKeeps(cfg, w, l);
    case Send(l, s, data) => SendKeeps(cfg, w, l, s, data);
    case DeliverData(d, k) => DeliverDataKeeps(cfg, w, d, k);
    case Promote(l, k, s) => PromoteKeeps(cfg, w, l, k, s);
    case Receive(l, k, s) => ReceiveKeeps(cfg, w, l, k, s);
  }

  lemma StartKeeps(cfg: Config)
    requires Configured(cfg)
    ensures Inv(cfg, Start(cfg))
  {
    hide Good, PacketOk;
  }

  lemma RunSnoc(cfg: Config, actions: seq<Action>, a: Action)
    requires Configured(cfg)
    ensures Run(cfg, actions + [a]) == Step(cfg, Run(cfg, actions), a)
  {
    hide Step, Start;
    assert (actions + [a])[..|actions|] == actions;
  }

  /** The invariant holds at the end of every run. */
  lemma {:induction false} RunKeeps(cfg: Config, actions: seq<Action>)
    requires Configured(cfg)
    ensures Inv(cfg, Run(cfg, actions))
  {
    hide Inv, Step, Start;
    if actions == [] {
      StartKeeps(cfg);
    } else {
      RunKeeps(cfg, actions[..|actions| - 1]);
      StepKeeps(cfg, Run(cfg, actions[..|actions| - 1]), actions[|actions| - 1]);
    }
  }
}
