/** What every reachable world satisfies, one predicate per part of the world. */
module ProtocolInvariant {
  import opened Options
  import opened Noise
  import opened Sessions
  import opened Handshakes
  import opened Protocol
  import ReplayWindow

  // ---------- what the log determines ----------

  function IndexOf(cfg: Config, e: Event): nat {
    IndexAt(cfg, e.link.dev, e.rank)
  }

  function OutOf(cfg: Config, n: nat, e: Event): OutgoingInitiation
    requires e.Init?
  {
    NewInitiation(IndexOf(cfg, e), SecretOf(cfg, e.link), Ephemeral(n), e.stamp).0
  }

  function InitPacket(cfg: Config, n: nat, e: Event): Shake
    requires e.Init?
  {
    NewInitiation(IndexOf(cfg, e), SecretOf(cfg, e.link), Ephemeral(n), e.stamp).1
  }

  /** Initiation n as its addressee reads it. */
  function IncomingOf(cfg: Config, n: nat, e: Event): IncomingInitiation
    requires e.Init?
  {
    var o := OutOf(cfg, n, e);
    IncomingInitiation(o.index, o.hash, o.chainingKey, Stamp(e.stamp), Public(Ephemeral(n)), StaticKey(e.link.dev))
  }

  function RespPacket(cfg: Config, m: nat, e: Event): Shake
    requires e.Resp?
  {
    NewResponse(e.incoming, IndexOf(cfg, e), SecretOf(cfg, e.link), Ephemeral(m)).1
  }

  /** The chaining key both ends derive their transport keys from. */
  function ChainOf(cfg: Config, m: nat, e: Event): Term
    requires e.Resp?
  {
    NewResponse(e.incoming, IndexOf(cfg, e), SecretOf(cfg, e.link), Ephemeral(m)).0.chainingKey
  }

  function ResponderOf(cfg: Config, m: nat, e: Event): Session
    requires e.Resp?
  {
    RespondSession(SecretOf(cfg, e.link), e.incoming, IndexOf(cfg, e), m)
  }

  function InitiatorOf(cfg: Config, n: nat, e: Event, m: nat, f: Event, serial: nat): Session
    requires e.Init? && f.Resp?
  {
    var c := ChainOf(cfg, m, f);
    Session(e.link.peer, IndexOf(cfg, e), Kdf(c, Empty, 1), IndexOf(cfg, f), Kdf(c, Empty, 2), Initiator(n, m, serial))
  }

  function HalfOf(cfg: Config, n: nat, e: Event): Session {
    HalfSession(SecretOf(cfg, e.link), IndexOf(cfg, e), n)
  }

  ghost predicate IsInit(log: seq<Event>, n: nat, l: Link) {
    n < |log| && log[n].Init? && log[n].link == l
  }

  ghost predicate IsResp(log: seq<Event>, m: nat, l: Link) {
    m < |log| && log[m].Resp? && log[m].link == l
  }

  // ---------- the log ----------

  ghost predicate EventOk(cfg: Config, log: seq<Event>, alloc: map<nat, nat>, n: nat)
    requires n < |log|
  {
    var e := log[n];
    && e.link in cfg.psk
    && e.link.dev in alloc && e.rank < alloc[e.link.dev]
    && (e.Resp? ==> e.of < n && IsInit(log, e.of, Flip(e.link)) && e.incoming == IncomingOf(cfg, e.of, log[e.of]))
  }

  ghost predicate LogOk(cfg: Config, log: seq<Event>, alloc: map<nat, nat>) {
    && (forall d :: d in alloc ==> alloc[d] <= INDEXES)
    && (forall n :: 0 <= n < |log| ==> EventOk(cfg, log, alloc, n))
    && (forall n, m :: 0 <= n < m < |log| && log[n].link.dev == log[m].link.dev ==> log[n].rank != log[m].rank)
  }

  lemma IndexAtInjective(cfg: Config, d: nat, r: nat, r': nat)
    requires r < INDEXES && r' < INDEXES && IndexAt(cfg, d, r) == IndexAt(cfg, d, r')
    ensures r == r'
  {}

  /** The indices a device draws are those of a wrapping 32-bit counter. */
  lemma IndexAtCounts(cfg: Config, d: nat, rank: nat)
    requires d in cfg.start
    ensures IndexAt(cfg, d, 0) == cfg.start[d] % 0x1_0000_0000
    ensures IndexAt(cfg, d, rank + 1) == (IndexAt(cfg, d, rank) + 1) % 0x1_0000_0000
  {}

  /** A device's index names one event. */
  lemma IndexNamesEvent(cfg: Config, log: seq<Event>, alloc: map<nat, nat>, n: nat, m: nat)
    requires LogOk(cfg, log, alloc) && n < |log| && m < |log|
    requires log[n].link.dev == log[m].link.dev && IndexOf(cfg, log[n]) == IndexOf(cfg, log[m])
    ensures n == m
  {
    assert EventOk(cfg, log, alloc, n) && EventOk(cfg, log, alloc, m);
    IndexAtInjective(cfg, log[n].link.dev, log[n].rank, log[m].rank);
  }

  // ---------- sessions ----------

  /** A session of link `l` is what the log says it must be. */
  ghost predicate Good(cfg: Config, log: seq<Event>, l: Link, s: Session) {
    match s.cell
    case Half(n) => IsInit(log, n, l) && s == HalfOf(cfg, n, log[n])
    case Responder(m) => IsResp(log, m, l) && s == ResponderOf(cfg, m, log[m])
    case Initiator(n, m, serial) =>
      && IsInit(log, n, l) && IsResp(log, m, Flip(l)) && log[m].of == n
      && s == InitiatorOf(cfg, n, log[n], m, log[m], serial)
  }

  /** ... and if it is an initiator's, it is the one that was installed. */
  ghost predicate Live(cfg: Config, log: seq<Event>, installed: map<nat, Session>, l: Link, s: Session) {
    && Good(cfg, log, l, s)
    && (s.cell.Initiator? ==> s.cell.n in installed && installed[s.cell.n] == s)
  }

  ghost predicate LiveKeyed(cfg: Config, log: seq<Event>, installed: map<nat, Session>, l: Link, s: Session) {
    Live(cfg, log, installed, l, s) && !s.cell.Half?
  }

  /** The event that drew a session's index. */
  function Origin(c: Cell): nat {
    match c
    case Half(n) => n
    case Responder(m) => m
    case Initiator(n, _, _) => n
  }

  /** On one device, an index leads to one event, and so to one peer. */
  lemma SameIndex(cfg: Config, log: seq<Event>, alloc: map<nat, nat>, l: Link, s: Session, l': Link, s': Session)
    requires LogOk(cfg, log, alloc) && Good(cfg, log, l, s) && Good(cfg, log, l', s')
    requires l.dev == l'.dev && s.senderIndex == s'.senderIndex
    ensures Origin(s.cell) == Origin(s'.cell) && l == l'
    ensures s.cell.Responder? ==> s == s'
    ensures s.cell.Half? && s'.cell.Half? ==> s == s'
  {
    IndexNamesEvent(cfg, log, alloc, Origin(s.cell), Origin(s'.cell));
  }

  // ---------- packets and staged events ----------

  ghost predicate PacketOk(cfg: Config, log: seq<Event>, p: Shake) {
    p.ephemeral.of.Ephemeral? &&
    var n := p.ephemeral.of.serial;
    n < |log| &&
    match p
    case Initiation(_, _, _, _, _) => log[n].Init? && p == InitPacket(cfg, n, log[n])
    case Response(_, _, _, _, _) => log[n].Resp? && p == RespPacket(cfg, n, log[n])
  }

  ghost predicate PacketsOk(cfg: Config, log: seq<Event>, shakes: set<Shake>) {
    forall p :: p in shakes ==> PacketOk(cfg, log, p)
  }

  ghost predicate InboundOk(cfg: Config, log: seq<Event>, installed: map<nat, Session>, sends: seq<Sent>, e: Inbound) {
    match e
    case InInitiation(l, i) =>
      && i.ephemeral.of.Ephemeral?
      && IsInit(log, i.ephemeral.of.serial, Flip(l))
      && i == IncomingOf(cfg, i.ephemeral.of.serial, log[i.ephemeral.of.serial])
    case InResponse(l, p) => p.Response? && PacketOk(cfg, log, p)
    case InData(l, k, s) =>
      && k < |sends|
      && sends[k].packet.receiverIndex == s.senderIndex
      && sends[k].packet.counter <= ReplayWindow.REJECT_AFTER_MESSAGES
      && Live(cfg, log, installed, l, s)
  }

  ghost predicate InboxOk(
    cfg: Config, log: seq<Event>, installed: map<nat, Session>, sends: seq<Sent>, inbox: set<Inbound>) {
    forall e :: e in inbox ==> InboundOk(cfg, log, installed, sends, e)
  }

  // ---------- one peer ----------

  ghost predicate PendingOk(cfg: Config, log: seq<Event>, l: Link, o: Option<OutgoingInitiation>) {
    o.Some? ==>
      && o.value.ephemeral.Ephemeral?
      && IsInit(log, o.value.ephemeral.serial, l)
      && o.value == OutOf(cfg, o.value.ephemeral.serial, log[o.value.ephemeral.serial])
  }

  /** A placeholder of an initiation that has not been completed. */
  ghost predicate HalfOk(cfg: Config, log: seq<Event>, installed: map<nat, Session>, l: Link, o: Option<Session>) {
    o.Some? ==> o.value.cell.Half? && Good(cfg, log, l, o.value) && o.value.cell.n !in installed
  }

  ghost predicate KeyedOk(cfg: Config, log: seq<Event>, installed: map<nat, Session>, l: Link, o: Option<Session>) {
    o.Some? ==> LiveKeyed(cfg, log, installed, l, o.value)
  }

  ghost predicate ResponderOk(cfg: Config, log: seq<Event>, l: Link, o: Option<Session>) {
    o.Some? ==> o.value.cell.Responder? && Good(cfg, log, l, o.value)
  }

  function SessionOf(o: Option<Made>): Option<Session> {
    if o.Some? then Some(o.value.session) else None
  }

  /** What is being started or answered has an index of its own. */
  predicate ApartFromSlots(o: Option<Session>, t: Slots) {
    Apart(o, t.uninit) && Apart(o, t.previous) && Apart(o, t.current) && Apart(o, t.next)
  }

  ghost predicate PeerOk(cfg: Config, log: seq<Event>, installed: map<nat, Session>, l: Link, p: Peer) {
    && PendingOk(cfg, log, l, p.pending)
    && HalfOk(cfg, log, installed, l, SessionOf(p.starting))
    && (p.starting.Some? ==> p.starting.value.packet.Initiation? && PacketOk(cfg, log, p.starting.value.packet))
    && ResponderOk(cfg, log, l, SessionOf(p.answering))
    && (p.answering.Some? ==> p.answering.value.packet.Response? && PacketOk(cfg, log, p.answering.value.packet))
    && HalfOk(cfg, log, installed, l, p.slots.uninit)
    && KeyedOk(cfg, log, installed, l, p.slots.previous)
    && KeyedOk(cfg, log, installed, l, p.slots.current)
    && ResponderOk(cfg, log, l, p.slots.next)
    && SlotsApart(p.slots)
    && ApartFromSlots(SessionOf(p.starting), p.slots)
    && ApartFromSlots(SessionOf(p.answering), p.slots)
    && Apart(SessionOf(p.starting), SessionOf(p.answering))
  }

  ghost predicate PeersOk(cfg: Config, log: seq<Event>, installed: map<nat, Session>, peers: map<Link, Peer>) {
    forall l :: l in peers ==> PeerOk(cfg, log, installed, l, peers[l])
  }

  // ---------- the index ----------

  /** The indexed sessions of every device are exactly those in its peers' slots. */
  ghost predicate IndexOk(index: map<nat, IndexView>, peers: map<Link, Peer>) {
    && (forall d :: d in index ==> Inverse(index[d]))
    && (forall l :: l in peers ==> l.dev in index && SlotsIndexed(index[l.dev].indexes, peers[l].slots))
    && (forall d, i :: d in index && i in index[d].indexes ==>
          var l := Link(d, index[d].indexes[i].peer);
          l in peers && InSlots(peers[l].slots, i))
  }

  // ---------- histories ----------

  predicate SamePsk(cfg: Config, l: Link) {
    SecretOf(cfg, l).psk == SecretOf(cfg, Flip(l)).psk
  }

  ghost predicate RecordOk(cfg: Config, log: seq<Event>, finalized: set<(Link, Session)>, l: Link, s: Session) {
    Good(cfg, log, l, s) && !s.cell.Half? && (s.cell.Initiator? ==> (l, s) in finalized && SamePsk(cfg, l))
  }

  /** Every answer's session, every finalized and every installed one is on record,
      and nothing else is. */
  ghost predicate CreatedOk(
    cfg: Config, log: seq<Event>, installed: map<nat, Session>, finalized: set<(Link, Session)>,
    created: set<(Link, Session)>) {
    && (forall m :: 0 <= m < |log| && log[m].Resp? ==> (log[m].link, ResponderOf(cfg, m, log[m])) in created)
    && (forall l, s :: (l, s) in finalized ==> s.cell.Initiator? && Good(cfg, log, l, s) && (l, s) in created)
    && (forall n :: n in installed ==>
          n < |log| && installed[n].cell.Initiator? && installed[n].cell.n == n
          && Good(cfg, log, log[n].link, installed[n]) && (log[n].link, installed[n]) in created)
    && (forall l, s :: (l, s) in created ==> RecordOk(cfg, log, finalized, l, s))
  }

  ghost predicate HeldOk(cfg: Config, log: seq<Event>, installed: map<nat, Session>, held: set<(Link, Session)>) {
    forall l, s :: (l, s) in held ==> LiveKeyed(cfg, log, installed, l, s)
  }

  ghost predicate SentOk(held: set<(Link, Session)>, nonces: map<Cell, nat>, x: Sent) {
    && (x.link, x.session) in held
    && x.packet == EncryptData(x.session, x.packet.counter, x.data)
    && x.packet.counter < Nonce(nonces, x.session.cell) <= NONCES
  }

  ghost predicate SendsOk(held: set<(Link, Session)>, nonces: map<Cell, nat>, sends: seq<Sent>) {
    && (forall k :: 0 <= k < |sends| ==> SentOk(held, nonces, sends[k]))
    && (forall j, k :: 0 <= j < k < |sends| && sends[j].session.cell == sends[k].session.cell ==>
          sends[j].packet.counter < sends[k].packet.counter)
  }

  ghost predicate WriteOk(inbox: set<Inbound>, sends: seq<Sent>, filters: map<Cell, seq<nat>>, x: Write) {
    && InData(x.link, x.k, x.session) in inbox
    && x.k < |sends|
    && sends[x.k].packet.counter in Filter(filters, x.session.cell)
    && DecryptData(x.session, sends[x.k].packet) == Some(x.data) && x.data != []
  }

  ghost predicate WritesOk(inbox: set<Inbound>, sends: seq<Sent>, filters: map<Cell, seq<nat>>, writes: seq<Write>) {
    && (forall i :: 0 <= i < |writes| ==> WriteOk(inbox, sends, filters, writes[i]))
    && (forall i, j :: 0 <= i < j < |writes| && writes[i].session.cell == writes[j].session.cell ==>
          sends[writes[i].k].packet.counter != sends[writes[j].k].packet.counter)
  }

  ghost predicate Known(log: seq<Event>, c: Cell) {
    Origin(c) < |log|
  }

  /** No counter or filter is in use before the index of its session is drawn. */
  ghost predicate CellsOk(log: seq<Event>, nonces: map<Cell, nat>, filters: map<Cell, seq<nat>>) {
    && (forall c :: c in nonces ==> Known(log, c))
    && (forall c :: c in filters ==> Known(log, c))
  }

  ghost predicate Inv(cfg: Config, w: World) {
    && Shaped(cfg, w)
    && LogOk(cfg, w.log, w.alloc)
    && PacketsOk(cfg, w.log, w.shakes)
    && InboxOk(cfg, w.log, w.installed, w.sends, w.inbox)
    && PeersOk(cfg, w.log, w.installed, w.peers)
    && IndexOk(w.index, w.peers)
    && CreatedOk(cfg, w.log, w.installed, w.finalized, w.created)
    && HeldOk(cfg, w.log, w.installed, w.held)
    && SendsOk(w.held, w.nonces, w.sends)
    && WritesOk(w.inbox, w.sends, w.filters, w.writes)
    && CellsOk(w.log, w.nonces, w.filters)
  }
}
