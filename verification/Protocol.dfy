/** The whole protocol as a state machine: any number of devices, each with any
    number of peers, over a network that drops, duplicates, reorders and
    misdirects but does not forge.

    An action is one stretch of code between two lock acquisitions; a run is any
    sequence of actions, so every interleaving of the tasks of every peer is a
    run. Packets stay on the network for ever and may be delivered to any device,
    any number of times, in any order, or never. Staged events may be handled in
    any order. */
module Protocol {
  import opened Options
  import opened Noise
  import opened Sessions
  import opened Handshakes
  import ReplayWindow

  const NONCES: nat := 0x1_0000_0000_0000_0000

  /** The state that `dev` keeps for `peer`. */
  datatype Link = Link(dev: nat, peer: nat)

  function Flip(l: Link): Link {
    Link(l.peer, l.dev)
  }

  /** The registered peers with their pre-shared keys, and where each device's index counter starts. */
  datatype Config = Config(psk: map<Link, Term>, start: map<nat, nat>)

  predicate Configured(cfg: Config) {
    forall l :: l in cfg.psk ==> l.dev in cfg.start
  }

  function SecretOf(cfg: Config, l: Link): Secret {
    Secret(l.dev, l.peer, if l in cfg.psk then cfg.psk[l] else Zero)
  }

  /** The index handed out by the rank-th `next_index` of a device. */
  function IndexAt(cfg: Config, dev: nat, rank: nat): nat {
    ((if dev in cfg.start then cfg.start[dev] else 0) + rank) % INDEXES
  }

  /** Every drawing of an index and an ephemeral key. The n-th event drew `Ephemeral(n)`. */
  datatype Event =
    | Init(link: Link, rank: nat, stamp: nat)
    | Resp(link: Link, rank: nat, of: nat, incoming: IncomingInitiation)

  datatype Made = Made(session: Session, packet: Shake)

  /** One peer: the pending initiation, an initiation or answer made but not yet
      installed, and the slots. */
  datatype Peer = Peer(
    pending: Option<OutgoingInitiation>, starting: Option<Made>, answering: Option<Made>, slots: Slots)

  function EncryptData(s: Session, counter: nat, data: seq<nat>): TransportData<Term> {
    TransportData(s.receiverIndex, counter, Seal(s.senderKey, counter, Text(data), Empty))
  }

  function DecryptData(s: Session, p: TransportData<Term>): Option<seq<nat>> {
    if s.senderIndex != p.receiverIndex then None else
    var plain := Open(s.receiverKey, p.counter, p.payload, Empty);
    if plain.Some? && plain.value.Text? then Some(plain.value.bytes) else None
  }

  /** A transport packet on the wire, with who sent it from which session. */
  datatype Sent = Sent(link: Link, session: Session, data: seq<nat>, packet: TransportData<Term>)

  /** What a device stages for a peer's inbound loop. `InData` names the k-th transport packet. */
  datatype Inbound =
    | InInitiation(link: Link, incoming: IncomingInitiation)
    | InResponse(link: Link, packet: Shake)
    | InData(link: Link, k: nat, session: Session)

  /** A write to the TUN device: what came out of the k-th transport packet. */
  datatype Write = Write(link: Link, session: Session, data: seq<nat>, k: nat)

  datatype World = World(
    log: seq<Event>,
    alloc: map<nat, nat>,
    index: map<nat, IndexView>,
    peers: map<Link, Peer>,
    shakes: set<Shake>,
    inbox: set<Inbound>,
    /** sessions returned by `finalize`, and all sessions with keys ever made */
    finalized: set<(Link, Session)>,
    created: set<(Link, Session)>,
    serial: nat,
    /** the session that completed initiation n */
    installed: map<nat, Session>,
    /** sessions read out of a `current` slot by the outbound loop */
    held: set<(Link, Session)>,
    nonces: map<Cell, nat>,
    sends: seq<Sent>,
    filters: map<Cell, seq<nat>>,
    writes: seq<Write>)

  predicate Shaped(cfg: Config, w: World) {
    && Configured(cfg)
    && w.peers.Keys == cfg.psk.Keys
    && w.index.Keys == cfg.start.Keys
    && w.alloc.Keys == cfg.start.Keys
  }

  function Start(cfg: Config): (w: World)
    requires Configured(cfg)
    ensures Shaped(cfg, w)
  {
    World([], map d | d in cfg.start :: 0, map d | d in cfg.start :: IndexView(map[], map[]),
          map l | l in cfg.psk :: Peer(None, None, None, Slots(None, None, None, None)),
          {}, {}, {}, {}, 0, map[], {}, map[], [], map[], [])
  }

  function BankOf(w: World, l: Link): Bank
    requires l in w.peers && l.dev in w.index
  {
    Bank(w.index[l.dev], w.peers[l].slots)
  }

  /** The world after link `l`, now `p`, has turned its bank into `b`. */
  function Operated(w: World, l: Link, b: Bank, p: Peer, shakes: set<Shake>, installed: map<nat, Session>): World {
    w.(index := w.index[l.dev := b.index], peers := w.peers[l := p.(slots := b.slots)],
       shakes := shakes, installed := installed)
  }

  function Nonce(nonces: map<Cell, nat>, c: Cell): nat {
    if c in nonces then nonces[c] else 0
  }

  function Filter(filters: map<Cell, seq<nat>>, c: Cell): seq<nat> {
    if c in filters then filters[c] else []
  }

  datatype Action =
    | Initiate(l: Link, stamp: nat)
    | InstallInitiation(l: Link)
    | DeliverShake(d: nat, p: Shake)
    | Respond(l: Link, incoming: IncomingInitiation)
    | InstallResponse(l: Link)
    | Finalize(l: Link, p: Shake)
    | Complete(l: Link, s: Session)
    | Take(l: Link)
    | Send(l: Link, s: Session, data: seq<nat>)
    | DeliverData(d: nat, k: nat)
    | Promote(l: Link, k: nat, s: Session)
    | Receive(l: Link, k: nat, s: Session)

  /** Whether fewer than 2^32 indices have been drawn by the device of `l`. */
  predicate CanDraw(w: World, l: Link) {
    l.dev in w.alloc && w.alloc[l.dev] < INDEXES
  }

  /** The handshake loop draws an index and an ephemeral key and overwrites the pending initiation. */
  function DoInitiate(cfg: Config, w: World, l: Link, stamp: nat): World {
    if l !in w.peers || w.peers[l].starting.Some? || !CanDraw(w, l) then w else
    var n, rank := |w.log|, w.alloc[l.dev];
    var secret, i := SecretOf(cfg, l), IndexAt(cfg, l.dev, rank);
    var (out, packet) := NewInitiation(i, secret, Ephemeral(n), stamp);
    w.(log := w.log + [Init(l, rank, stamp)],
       alloc := w.alloc[l.dev := rank + 1],
       peers := w.peers[l := w.peers[l].(pending := Some(out),
                                          starting := Some(Made(HalfSession(secret, i, n), packet)))])
  }

  /** The handshake loop installs the placeholder, then sends the packet. */
  function DoInstallInitiation(w: World, l: Link): World {
    if l !in w.peers || l.dev !in w.index || w.peers[l].starting.None? then w else
    var made := w.peers[l].starting.value;
    Operated(w, l, PrepareUninit(BankOf(w, l), made.session), w.peers[l].(starting := None),
             w.shakes + {made.packet}, w.installed)
  }

  /** The device's inbound loop on a handshake packet: check mac1, parse, find the peer. */
  function Route(w: World, d: nat, p: Shake): Option<Inbound> {
    if p !in w.shakes || d !in w.index || !ValidMac1(d, p) then None else
    match p
    case Initiation(_, _, _, _, _) =>
      var i := ParseInitiation(d, p);
      if i.Some? && i.value.staticKey.of.Static? && Link(d, i.value.staticKey.of.device) in w.peers
      then Some(InInitiation(Link(d, i.value.staticKey.of.device), i.value)) else None
    case Response(_, receiver, _, _, _) =>
      if receiver in w.index[d].indexes && Link(d, w.index[d].indexes[receiver].peer) in w.peers
      then Some(InResponse(Link(d, w.index[d].indexes[receiver].peer), p)) else None
  }

  /** ... and stage an event for it. */
  function DoDeliverShake(w: World, d: nat, p: Shake): (w': World)
    ensures w'.peers == w.peers
  {
    var e := Route(w, d, p);
    if e.Some? then w.(inbox := w.inbox + {e.value}) else w
  }

  /** The inbound loop answers a staged initiation. */
  function DoRespond(cfg: Config, w: World, l: Link, incoming: IncomingInitiation): World {
    if l !in w.peers || InInitiation(l, incoming) !in w.inbox || w.peers[l].answering.Some? || !CanDraw(w, l)
    then w else
    var m, rank := |w.log|, w.alloc[l.dev];
    var secret, i := SecretOf(cfg, l), IndexAt(cfg, l.dev, rank);
    var s := RespondSession(secret, incoming, i, m);
    var packet := NewResponse(incoming, i, secret, Ephemeral(m)).1;
    w.(log := w.log + [Resp(l, rank, Serial(incoming.ephemeral.of), incoming)],
       alloc := w.alloc[l.dev := rank + 1],
       peers := w.peers[l := w.peers[l].(answering := Some(Made(s, packet)))],
       created := w.created + {(l, s)})
  }

  /** The inbound loop installs the answer's session as `next`, then sends the packet. */
  function DoInstallResponse(w: World, l: Link): World {
    if l !in w.peers || l.dev !in w.index || w.peers[l].answering.None? then w else
    var made := w.peers[l].answering.value;
    Operated(w, l, PrepareNext(BankOf(w, l), made.session), w.peers[l].(answering := None),
             w.shakes + {made.packet}, w.installed)
  }

  /** The inbound loop reads a staged response against the pending initiation. */
  function DoFinalize(cfg: Config, w: World, l: Link, p: Shake): (w': World)
    ensures w'.peers == w.peers
  {
    if l !in w.peers || !p.Response? || InResponse(l, p) !in w.inbox || w.peers[l].pending.None? then w else
    var s := FinalizeSession(w.peers[l].pending.value, SecretOf(cfg, l), p, w.serial);
    if s.None? then w else
    w.(finalized := w.finalized + {(l, s.value)}, created := w.created + {(l, s.value)}, serial := w.serial + 1)
  }

  /** The inbound loop offers a finalized session to the `uninit` slot. */
  function DoComplete(w: World, l: Link, s: Session): World {
    if l !in w.peers || l.dev !in w.index || (l, s) !in w.finalized || !Matches(w.peers[l].slots.uninit, s)
    then w else
    Operated(w, l, CompleteUninit(BankOf(w, l), s), w.peers[l], w.shakes,
             if s.cell.Initiator? then w.installed[s.cell.n := s] else w.installed)
  }

  /** The outbound loop clones the current session. */
  function DoTake(w: World, l: Link): (w': World)
    ensures w'.peers == w.peers
  {
    if l !in w.peers || w.peers[l].slots.current.None? then w else
    w.(held := w.held + {(l, w.peers[l].slots.current.value)})
  }

  /** The outbound loop encrypts with a session it has cloned, maybe long replaced. */
  function DoSend(w: World, l: Link, s: Session, data: seq<nat>): (w': World)
    ensures w'.peers == w.peers
  {
    if (l, s) !in w.held || Nonce(w.nonces, s.cell) >= NONCES then w else
    var c := Nonce(w.nonces, s.cell);
    w.(nonces := w.nonces[s.cell := c + 1],
       sends := w.sends + [Sent(l, s, data, EncryptData(s, c, data))])
  }

  /** The inbound loop of a device on the k-th transport packet, addressed to it
      or not: bound the counter, find the session by index, stage an event. */
  function DoDeliverData(w: World, d: nat, k: nat): (w': World)
    ensures w'.peers == w.peers
  {
    if k >= |w.sends| || d !in w.index then w else
    var p := w.sends[k].packet;
    if p.receiverIndex !in w.index[d].indexes || p.counter > ReplayWindow.REJECT_AFTER_MESSAGES then w else
    var s := w.index[d].indexes[p.receiverIndex];
    if Link(d, s.peer) !in w.peers then w else
    w.(inbox := w.inbox + {InData(Link(d, s.peer), k, s)})
  }

  /** The inbound loop offers the event's session to the `next` slot, before anything is decrypted. */
  function DoPromote(w: World, l: Link, k: nat, s: Session): World {
    if l !in w.peers || l.dev !in w.index || InData(l, k, s) !in w.inbox then w else
    Operated(w, l, CompleteNext(BankOf(w, l), s), w.peers[l], w.shakes, w.installed)
  }

  /** The inbound loop checks for replay, decrypts, and writes non-empty data. */
  function DoReceive(w: World, l: Link, k: nat, s: Session): (w': World)
    ensures w'.peers == w.peers
  {
    if InData(l, k, s) !in w.inbox || k >= |w.sends| then w else
    var p, h := w.sends[k].packet, Filter(w.filters, s.cell);
    if !ReplayWindow.Admits(h, p.counter) then w else
    var data := DecryptData(s, p);
    if data.None? || data.value == [] then w else
    w.(filters := w.filters[s.cell := h + [p.counter]], writes := w.writes + [Write(l, s, data.value, k)])
  }

  function Step(cfg: Config, w: World, a: Action): World {
    match a
    case Initiate(l, stamp) => DoInitiate(cfg, w, l, stamp)
    case InstallInitiation(l) => DoInstallInitiation(w, l)
    case DeliverShake(d, p) => DoDeliverShake(w, d, p)
    case Respond(l, incoming) => DoRespond(cfg, w, l, incoming)
    case InstallResponse(l) => DoInstallResponse(w, l)
    case Finalize(l, p) => DoFinalize(cfg, w, l, p)
    case Complete(l, s) => DoComplete(w, l, s)
    case Take(l) => DoTake(w, l)
    case Send(l, s, data) => DoSend(w, l, s, data)
    case DeliverData(d, k) => DoDeliverData(w, d, k)
    case Promote(l, k, s) => DoPromote(w, l, k, s)
    case Receive(l, k, s) => DoReceive(w, l, k, s)
  }

  function Run(cfg: Config, actions: seq<Action>): World
    requires Configured(cfg)
  {
    if actions == [] then Start(cfg)
    else Step(cfg, Run(cfg, actions[..|actions| - 1]), actions[|actions| - 1])
  }
}
