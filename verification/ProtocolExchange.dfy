/** The guarantees are not empty: from every reachable world an undisturbed
    exchange between two acquainted peers goes through and its data is written at
    the other end. */
module ProtocolExchange {
  import opened Options
  import opened Noise
  import opened Sessions
  import opened Handshakes
  import opened Protocol
  import opened ProtocolInvariant
  import opened ProtocolSteps
  import ReplayWindow

  /** Two devices that know each other and share a pre-shared key. */
  ghost predicate Acquainted(cfg: Config, a: nat, b: nat) {
    && Configured(cfg) && a != b && a in cfg.start && b in cfg.start
    && Link(a, b) in cfg.psk && Link(b, a) in cfg.psk && cfg.psk[Link(a, b)] == cfg.psk[Link(b, a)]
  }

  /** The two loops concerned are idle and both devices have indices left. */
  ghost predicate Idle(cfg: Config, w: World, a: nat, b: nat) {
    && Acquainted(cfg, a, b) && Shaped(cfg, w)
    && CanDraw(w, Link(a, b)) && CanDraw(w, Link(b, a))
    && w.peers[Link(a, b)].starting.None? && w.peers[Link(b, a)].answering.None?
  }

  /** Initiation n, from `a` with index i, to be answered by `b` with index j. */
  datatype Plan = Plan(a: nat, b: nat, n: nat, i: nat, j: nat, stamp: nat) {
    function There(): Link {
      Link(a, b)
    }

    function Back(): Link {
      Link(b, a)
    }
  }

  function PlanAt(cfg: Config, w: World, a: nat, b: nat, stamp: nat): Plan
    requires a in w.alloc && b in w.alloc
  {
    Plan(a, b, |w.log|, IndexAt(cfg, a, w.alloc[a]), IndexAt(cfg, b, w.alloc[b]), stamp)
  }

  // ---------- the messages and sessions of an exchange ----------

  function Out(cfg: Config, x: Plan): (OutgoingInitiation, Shake) {
    NewInitiation(x.i, SecretOf(cfg, x.There()), Ephemeral(x.n), x.stamp)
  }

  function In(cfg: Config, x: Plan): IncomingInitiation {
    var o := Out(cfg, x).0;
    IncomingInitiation(o.index, o.hash, o.chainingKey, Stamp(x.stamp), Public(Ephemeral(x.n)), StaticKey(x.a))
  }

  function Answer(cfg: Config, x: Plan): Shake {
    NewResponse(In(cfg, x), x.j, SecretOf(cfg, x.Back()), Ephemeral(x.n + 1)).1
  }

  function Placeholder(cfg: Config, x: Plan): Session {
    HalfSession(SecretOf(cfg, x.There()), x.i, x.n)
  }

  function Responding(cfg: Config, x: Plan): Session {
    RespondSession(SecretOf(cfg, x.Back()), In(cfg, x), x.j, x.n + 1)
  }

  function Initiating(cfg: Config, x: Plan, serial: nat): Session {
    var c := NewResponse(In(cfg, x), x.j, SecretOf(cfg, x.Back()), Ephemeral(x.n + 1)).0.chainingKey;
    Session(x.b, x.i, Kdf(c, Empty, 1), x.j, Kdf(c, Empty, 2), Initiator(x.n, x.n + 1, serial))
  }

  lemma OfferIsReadable(cfg: Config, x: Plan)
    ensures Out(cfg, x).0.index == x.i && Out(cfg, x).0.ephemeral == Ephemeral(x.n)
    ensures var p := Out(cfg, x).1; p.Initiation? && ValidMac1(x.b, p) && ParseInitiation(x.b, p) == Some(In(cfg, x))
  {
    hide ParseInitiation;
    InitiationAgrees(x.i, SecretOf(cfg, x.There()), Ephemeral(x.n), x.stamp, x.b);
  }

  lemma AnswerIsTagged(cfg: Config, x: Plan)
    ensures var q := Answer(cfg, x);
      q.Response? && ValidMac1(x.a, q) && q.receiverIndex == x.i && q.ephemeral == Public(Ephemeral(x.n + 1))
  {
    hide NewInitiation;
    OfferIsReadable(cfg, x);
  }

  /** The initiator reads the answer and derives the mirror of the responder's session. */
  lemma AnswerIsReadable(cfg: Config, x: Plan, serial: nat)
    requires Acquainted(cfg, x.a, x.b)
    ensures var q := Answer(cfg, x);
      && q.Response?
      && FinalizeSession(Out(cfg, x).0, SecretOf(cfg, x.There()), q, serial) == Some(Initiating(cfg, x, serial))
  {
    hide NewInitiation, NewResponse, ParseInitiation, ParseResponse;
    OfferIsReadable(cfg, x);
    AnswerIsTagged(cfg, x);
    var there, back := SecretOf(cfg, x.There()), SecretOf(cfg, x.Back());
    ResponseAgrees(x.i, there, Ephemeral(x.n), x.stamp, x.j, back, Ephemeral(x.n + 1));
  }

  lemma EndsMirror(cfg: Config, x: Plan, serial: nat)
    ensures Mirror(Initiating(cfg, x, serial), Responding(cfg, x))
  {
    hide NewResponse;
    OfferIsReadable(cfg, x);
  }

  // ---------- initiation and answer ----------

  /** Nothing has been sent or received between `v` and `w`. */
  predicate Quiet(v: World, w: World) {
    && w.sends == v.sends && w.writes == v.writes && w.nonces == v.nonces && w.filters == v.filters
  }

  /** Device d has drawn n indices between `v` and `w`. */
  predicate Drew(v: World, w: World, d: nat, n: nat) {
    d in v.alloc && d in w.alloc && w.alloc[d] == v.alloc[d] + n
  }

  /** The initiator waits for the answer. */
  predicate Waiting(cfg: Config, x: Plan, w: World) {
    && x.a in w.index && x.There() in w.peers
    && w.peers[x.There()].pending == Some(Out(cfg, x).0)
    && w.peers[x.There()].starting.None?
    && w.peers[x.There()].slots.uninit == Some(Placeholder(cfg, x))
    && x.i in w.index[x.a].indexes && w.index[x.a].indexes[x.i] == Placeholder(cfg, x)
  }

  /** What was drawn by the initiation, and what was left alone. */
  predicate Begun(x: Plan, v: World, w: World) {
    && x.Back() in v.peers && x.Back() in w.peers && w.peers[x.Back()] == v.peers[x.Back()]
    && x.There() in v.peers && x.There() in w.peers
    && w.peers[x.There()].answering == v.peers[x.There()].answering
    && Drew(v, w, x.a, 1) && Drew(v, w, x.b, 0)
    && |w.log| == x.n + 1 && w.serial == v.serial && w.created == v.created
  }

  ghost predicate Started(cfg: Config, x: Plan, v: World, w: World) {
    && Quiet(v, w) && Begun(x, v, w)
    && w.peers[x.There()].pending == Some(Out(cfg, x).0)
    && w.peers[x.There()].starting == Some(Made(Placeholder(cfg, x), Out(cfg, x).1))
  }

  lemma Begin(cfg: Config, x: Plan, v: World)
    requires Idle(cfg, v, x.a, x.b) && x == PlanAt(cfg, v, x.a, x.b, x.stamp)
    ensures Started(cfg, x, v, DoInitiate(cfg, v, x.There(), x.stamp))
  {
    hide NewInitiation;
  }

  ghost predicate Offered(cfg: Config, x: Plan, v: World, w: World) {
    && Waiting(cfg, x, w) && Quiet(v, w) && Begun(x, v, w)
    && Out(cfg, x).1 in w.shakes
  }

  lemma Offer(cfg: Config, x: Plan, v: World, w: World)
    requires x.a != x.b && Shaped(cfg, w) && Started(cfg, x, v, w)
    ensures Offered(cfg, x, v, DoInstallInitiation(w, x.There()))
  {
    hide Out, Placeholder, Deactivate;
    assert Placeholder(cfg, x).senderIndex == x.i by {
      SessionFields(cfg, x, 0);
    }
  }

  /** What was drawn and created by initiation and answer, and what was left alone. */
  ghost predicate Counted(cfg: Config, x: Plan, v: World, w: World) {
    && x.Back() in v.peers && x.Back() in w.peers && w.peers[x.Back()].starting == v.peers[x.Back()].starting
    && x.There() in v.peers && x.There() in w.peers
    && w.peers[x.There()].answering == v.peers[x.There()].answering
    && Drew(v, w, x.a, 1) && Drew(v, w, x.b, 1)
    && |w.log| == x.n + 2 && w.serial == v.serial
    && w.created == v.created + {(x.Back(), Responding(cfg, x))}
  }

  ghost predicate Answered(cfg: Config, x: Plan, v: World, w: World) {
    && Waiting(cfg, x, w) && Quiet(v, w) && Counted(cfg, x, v, w) && Prepared(cfg, x, w)
    && Answer(cfg, x) in w.shakes
  }

  /** The responder's session is ready to be promoted. */
  predicate Prepared(cfg: Config, x: Plan, w: World) {
    && x.b in w.index && x.Back() in w.peers
    && w.peers[x.Back()].slots.next == Some(Responding(cfg, x))
    && x.j in w.index[x.b].indexes && w.index[x.b].indexes[x.j] == Responding(cfg, x)
  }

  /** The answer is made but not installed. */
  ghost predicate Replied(cfg: Config, x: Plan, v: World, w: World) {
    && Waiting(cfg, x, w) && Quiet(v, w) && Counted(cfg, x, v, w)
    && x.Back() in w.peers && w.peers[x.Back()].answering == Some(Made(Responding(cfg, x), Answer(cfg, x)))
  }

  lemma Notice(cfg: Config, x: Plan, v: World, w: World)
    requires Idle(cfg, v, x.a, x.b) && Shaped(cfg, w) && Offered(cfg, x, v, w)
    ensures DoDeliverShake(w, x.b, Out(cfg, x).1) == w.(inbox := w.inbox + {InInitiation(x.Back(), In(cfg, x))})
  {
    hide NewInitiation, ParseInitiation, ValidMac1;
    OfferIsReadable(cfg, x);
  }

  lemma StillWaiting(cfg: Config, x: Plan, w: World, w': World)
    requires Waiting(cfg, x, w) && w'.index == w.index
    requires x.There() in w'.peers && w'.peers[x.There()] == w.peers[x.There()]
    ensures Waiting(cfg, x, w')
  {
    hide Out, Placeholder;
  }

  lemma Replies(cfg: Config, x: Plan, w: World)
    requires x.Back() in w.peers && w.peers[x.Back()].answering.None? && InInitiation(x.Back(), In(cfg, x)) in w.inbox
    requires CanDraw(w, x.Back()) && x.j == IndexAt(cfg, x.b, w.alloc[x.b]) && |w.log| == x.n + 1
    ensures var w', k := DoRespond(cfg, w, x.Back(), In(cfg, x)), x.Back();
      && w' == w.(log := w'.log, alloc := w'.alloc, peers := w'.peers, created := w'.created)
      && |w'.log| == |w.log| + 1 && w'.alloc == w.alloc[x.b := w.alloc[x.b] + 1]
      && w'.peers == w.peers[k := w.peers[k].(answering := Some(Made(Responding(cfg, x), Answer(cfg, x))))]
      && w'.created == w.created + {(k, Responding(cfg, x))}
  {
    hide In, NewResponse;
  }

  lemma Reply(cfg: Config, x: Plan, v: World, w: World)
    requires Idle(cfg, v, x.a, x.b) && x == PlanAt(cfg, v, x.a, x.b, x.stamp) && Offered(cfg, x, v, w)
    requires InInitiation(x.Back(), In(cfg, x)) in w.inbox
    ensures Replied(cfg, x, v, DoRespond(cfg, w, x.Back(), In(cfg, x)))
  {
    hide In, Responding, Answer, DoRespond, Waiting;
    Replies(cfg, x, w);
    StillWaiting(cfg, x, w, DoRespond(cfg, w, x.Back(), In(cfg, x)));
  }

  lemma Accept(cfg: Config, x: Plan, v: World, w: World)
    requires x.a != x.b && Shaped(cfg, w) && Replied(cfg, x, v, w)
    ensures Answered(cfg, x, v, DoInstallResponse(w, x.Back()))
  {
    hide Out, Placeholder, Responding, Answer, Deactivate;
    assert Responding(cfg, x).senderIndex == x.j by {
      SessionFields(cfg, x, 0);
    }
  }

  lemma SessionFields(cfg: Config, x: Plan, serial: nat)
    ensures var s := Responding(cfg, x); s.senderIndex == x.j && s.peer == x.a && s.cell == Responder(x.n + 1)
    ensures var s := Placeholder(cfg, x); s.senderIndex == x.i && s.peer == x.b
    ensures var s := Initiating(cfg, x, serial);
      s.senderIndex == x.i && s.peer == x.b && s.receiverIndex == x.j && s.cell == Initiator(x.n, x.n + 1, serial)
  {}

  // ---------- finalizing ----------

  lemma Hear(cfg: Config, x: Plan, v: World, w: World)
    requires Shaped(cfg, w) && Acquainted(cfg, x.a, x.b) && Answered(cfg, x, v, w)
    ensures Answer(cfg, x).Response?
    ensures DoDeliverShake(w, x.a, Answer(cfg, x)) == w.(inbox := w.inbox + {InResponse(x.There(), Answer(cfg, x))})
  {
    hide Out, Answer, ValidMac1, ParseInitiation, Responding, Initiating;
    AnswerIsTagged(cfg, x);
  }

  lemma Derive(cfg: Config, x: Plan, v: World, w: World)
    requires Acquainted(cfg, x.a, x.b) && Answered(cfg, x, v, w)
    requires InResponse(x.There(), Answer(cfg, x)) in w.inbox
    ensures var l, s := x.There(), Initiating(cfg, x, v.serial);
      DoFinalize(cfg, w, l, Answer(cfg, x))
        == w.(finalized := w.finalized + {(l, s)}, created := w.created + {(l, s)}, serial := w.serial + 1)
  {
    hide Out, Answer, Responding, Initiating, FinalizeSession;
    AnswerIsReadable(cfg, x, v.serial);
  }

  /** Both sessions are there and the initiator's loop holds its own. */
  ghost predicate Connected(cfg: Config, x: Plan, v: World, w: World) {
    var l, k, s := x.There(), x.Back(), Initiating(cfg, x, v.serial);
    && Quiet(v, w) && Prepared(cfg, x, w) && Drew(v, w, x.a, 1) && Drew(v, w, x.b, 1) && |w.log| == x.n + 2
    && l in v.peers && l in w.peers && w.peers[l].answering == v.peers[l].answering
    && k in v.peers && k in w.peers && w.peers[k].starting == v.peers[k].starting
    && w.peers[l].slots.current == Some(s) && (l, s) in w.held
    && w.created == v.created + {(k, Responding(cfg, x)), (l, s)}
  }

  lemma Completed(w: World, l: Link, s: Session)
    requires l in w.peers && l.dev in w.index && (l, s) in w.finalized && Matches(w.peers[l].slots.uninit, s)
    ensures var w', p := DoTake(DoComplete(w, l, s), l), w.peers[l];
      && w' == w.(index := w'.index, peers := w'.peers, installed := w'.installed, held := w.held + {(l, s)})
      && w'.peers == w.peers[l := p.(slots := Slots(None, p.slots.current, Some(s), p.slots.next))]
      && w'.index.Keys == w.index.Keys && forall d :: d in w.index && d != l.dev ==> w'.index[d] == w.index[d]
  {
    hide Insert, Deactivate;
  }

  lemma StillPrepared(cfg: Config, x: Plan, w: World, w': World)
    requires Prepared(cfg, x, w) && x.b in w'.index && w'.index[x.b] == w.index[x.b]
    requires x.Back() in w'.peers && w'.peers[x.Back()] == w.peers[x.Back()]
    ensures Prepared(cfg, x, w')
  {
    hide Responding;
  }

  lemma Connect(cfg: Config, x: Plan, v: World, w: World)
    requires x.a != x.b && Waiting(cfg, x, w) && Prepared(cfg, x, w) && Quiet(v, w)
    requires Drew(v, w, x.a, 1) && Drew(v, w, x.b, 1)
    requires x.There() in v.peers && w.peers[x.There()].answering == v.peers[x.There()].answering
    requires x.Back() in v.peers && w.peers[x.Back()].starting == v.peers[x.Back()].starting
    requires |w.log| == x.n + 2 && (x.There(), Initiating(cfg, x, v.serial)) in w.finalized
    requires w.created == v.created + {(x.Back(), Responding(cfg, x)), (x.There(), Initiating(cfg, x, v.serial))}
    ensures var l, s := x.There(), Initiating(cfg, x, v.serial);
      Connected(cfg, x, v, DoTake(DoComplete(w, l, s), l))
  {
    hide Out, Responding, Placeholder, Initiating, DoComplete, DoTake;
    SessionFields(cfg, x, v.serial);
    var l, s := x.There(), Initiating(cfg, x, v.serial);
    Completed(w, l, s);
    StillPrepared(cfg, x, w, DoTake(DoComplete(w, l, s), l));
  }

  lemma Close(cfg: Config, x: Plan, v: World, w: World)
    requires Shaped(cfg, w) && Acquainted(cfg, x.a, x.b) && Answered(cfg, x, v, w)
    ensures Answer(cfg, x).Response?
    ensures var l, q, s := x.There(), Answer(cfg, x), Initiating(cfg, x, v.serial);
      Connected(cfg, x, v, DoTake(DoComplete(DoFinalize(cfg, DoDeliverShake(w, x.a, q), l, q), l, s), l))
  {
    hide Out, Responding, Placeholder, Initiating, Answer, DoDeliverShake, DoFinalize, DoComplete, DoTake;
    Hear(cfg, x, v, w);
    var q := Answer(cfg, x);
    var w1 := DoDeliverShake(w, x.a, q);
    Derive(cfg, x, v, w1);
    Connect(cfg, x, v, DoFinalize(cfg, w1, x.There(), q));
  }

  // ---------- data ----------

  /** The sessions of a new exchange have counters and filters of their own. */
  lemma CellsAreFresh(cfg: Config, v: World, n: nat, m: nat, serial: nat)
    requires Inv(cfg, v) && |v.log| <= n && |v.log| <= m
    ensures Nonce(v.nonces, Initiator(n, m, serial)) == 0 && Filter(v.filters, Responder(m)) == []
  {
    hide LogOk, PacketsOk, InboxOk, PeersOk, IndexOk, CreatedOk, HeldOk, SendsOk, WritesOk;
    assert !Known(v.log, Initiator(n, m, serial)) && !Known(v.log, Responder(m));
  }

  lemma Sends(w: World, l: Link, s: Session, data: seq<nat>)
    requires (l, s) in w.held && Nonce(w.nonces, s.cell) < NONCES
    ensures var w', c := DoSend(w, l, s, data), Nonce(w.nonces, s.cell);
      && w' == w.(nonces := w'.nonces, sends := w.sends + [Sent(l, s, data, EncryptData(s, c, data))])
      && Nonce(w'.nonces, s.cell) == c + 1
  {
    hide EncryptData;
  }

  lemma Stages(w: World, d: nat, k: nat)
    requires d in w.index && k < |w.sends| && w.sends[k].packet.counter <= ReplayWindow.REJECT_AFTER_MESSAGES
    requires w.sends[k].packet.receiverIndex in w.index[d].indexes
    requires Link(d, w.index[d].indexes[w.sends[k].packet.receiverIndex].peer) in w.peers
    ensures var t := w.index[d].indexes[w.sends[k].packet.receiverIndex];
      DoDeliverData(w, d, k) == w.(inbox := w.inbox + {InData(Link(d, t.peer), k, t)})
  {}

  lemma Switches(w: World, k: Link, i: nat, t: Session)
    requires k in w.peers && k.dev in w.index && InData(k, i, t) in w.inbox && w.peers[k].slots.next == Some(t)
    ensures var w', p := DoPromote(w, k, i, t), w.peers[k];
      && w' == w.(index := w'.index, peers := w'.peers)
      && w'.peers == w.peers[k := p.(slots := Slots(p.slots.uninit, p.slots.current, Some(t), None))]
  {
    hide Insert, Deactivate;
  }

  lemma Writes(w: World, k: Link, i: nat, t: Session, data: seq<nat>)
    requires InData(k, i, t) in w.inbox && i < |w.sends|
    requires DecryptData(t, w.sends[i].packet) == Some(data) && data != []
    requires ReplayWindow.Admits(Filter(w.filters, t.cell), w.sends[i].packet.counter)
    ensures var w' := DoReceive(w, k, i, t);
      w' == w.(filters := w'.filters, writes := w.writes + [Write(k, t, data, i)])
  {
    hide DecryptData, ReplayWindow.Admits;
  }

  /** The data is written, and both ends hold the mirrored sessions as current. */
  ghost predicate Delivered(cfg: Config, x: Plan, data: seq<nat>, v: World, w: World) {
    var l, k, s, t := x.There(), x.Back(), Initiating(cfg, x, v.serial), Responding(cfg, x);
    && w.writes == v.writes + [Write(k, t, data, |v.sends|)]
    && l in w.peers && w.peers[l].slots.current == Some(s)
    && k in w.peers && w.peers[k].slots.current == Some(t)
  }

  lemma Deliver(cfg: Config, x: Plan, data: seq<nat>, v: World, w: World)
    requires x.a != x.b && Connected(cfg, x, v, w) && data != []
    requires Nonce(v.nonces, Initiator(x.n, x.n + 1, v.serial)) == 0 && Filter(v.filters, Responder(x.n + 1)) == []
    ensures var l, k, s, t := x.There(), x.Back(), Initiating(cfg, x, v.serial), Responding(cfg, x);
      var i := |v.sends|;
      Delivered(cfg, x, data, v,
                DoReceive(DoPromote(DoDeliverData(DoSend(w, l, s, data), x.b, i), k, i, t), k, i, t))
  {
    hide Out, Responding, Initiating, DoSend, DoDeliverData, DoPromote, DoReceive;
    SessionFields(cfg, x, v.serial);
    EndsMirror(cfg, x, v.serial);
    var l, k, s, t := x.There(), x.Back(), Initiating(cfg, x, v.serial), Responding(cfg, x);
    var i := |v.sends|;
    var w1 := DoSend(w, l, s, data);
    Sends(w, l, s, data);
    var w2 := DoDeliverData(w1, x.b, i);
    Stages(w1, x.b, i);
    var w3 := DoPromote(w2, k, i, t);
    Switches(w2, k, i, t);
    assert ReplayWindow.Admits([], 0);
    Writes(w3, k, i, t, data);
  }

  // ---------- runs ----------

  function Opening(cfg: Config, x: Plan): seq<Action> {
    [Initiate(x.There(), x.stamp), InstallInitiation(x.There()),
     DeliverShake(x.b, Out(cfg, x).1), Respond(x.Back(), In(cfg, x)), InstallResponse(x.Back())]
  }

  function Closing(cfg: Config, x: Plan, serial: nat): seq<Action> {
    [DeliverShake(x.a, Answer(cfg, x)), Finalize(x.There(), Answer(cfg, x)),
     Complete(x.There(), Initiating(cfg, x, serial)), Take(x.There())]
  }

  function Transfer(cfg: Config, x: Plan, serial: nat, i: nat, data: seq<nat>): seq<Action> {
    var t := Responding(cfg, x);
    [Send(x.There(), Initiating(cfg, x, serial), data), DeliverData(x.b, i),
     Promote(x.Back(), i, t), Receive(x.Back(), i, t)]
  }

  lemma RunShaped(cfg: Config, actions: seq<Action>)
    requires Configured(cfg)
    ensures Shaped(cfg, Run(cfg, actions))
  {
    hide Run, LogOk, PacketsOk, InboxOk, PeersOk, IndexOk, CreatedOk, HeldOk, SendsOk, WritesOk, CellsOk;
    RunKeeps(cfg, actions);
  }

  lemma RunPrefix(cfg: Config, past: seq<Action>, later: seq<Action>, n: nat)
    requires Configured(cfg) && n < |later|
    ensures Run(cfg, past + later[..n + 1]) == Step(cfg, Run(cfg, past + later[..n]), later[n])
    ensures Shaped(cfg, Run(cfg, past + later[..n]))
  {
    hide Step, Run, Shaped;
    assert past + later[..n + 1] == past + later[..n] + [later[n]];
    RunSnoc(cfg, past + later[..n], later[n]);
    RunShaped(cfg, past + later[..n]);
  }

  lemma RunFour(cfg: Config, past: seq<Action>, p: Action, q: Action, r: Action, s: Action)
    requires Configured(cfg)
    ensures Run(cfg, past + [p, q, r, s]) == Step(cfg, Step(cfg, Step(cfg, Step(cfg, Run(cfg, past), p), q), r), s)
  {
    hide Step, Run;
    RunSnoc(cfg, past, p);
    RunSnoc(cfg, past + [p], q);
    RunSnoc(cfg, past + [p] + [q], r);
    RunSnoc(cfg, past + [p] + [q] + [r], s);
    assert past + [p, q, r, s] == past + [p] + [q] + [r] + [s];
  }

  lemma OpeningRuns(cfg: Config, past: seq<Action>, x: Plan)
    requires Configured(cfg)
    requires var v := Run(cfg, past); Idle(cfg, v, x.a, x.b) && x == PlanAt(cfg, v, x.a, x.b, x.stamp)
    ensures Answered(cfg, x, Run(cfg, past), Run(cfg, past + Opening(cfg, x)))
  {
    hide Out, In, Answer, Responding, Initiating, Started, Replied, Offered, Answered, Run, PlanAt, Shaped;
    hide DoInitiate, DoInstallInitiation, DoDeliverShake, DoRespond, DoInstallResponse;
    var v, ys := Run(cfg, past), Opening(cfg, x);
    assert past + ys[..0] == past && ys[..5] == ys;
    RunPrefix(cfg, past, ys, 0);
    Begin(cfg, x, v);
    RunPrefix(cfg, past, ys, 1);
    Offer(cfg, x, v, Run(cfg, past + ys[..1]));
    RunPrefix(cfg, past, ys, 2);
    Notice(cfg, x, v, Run(cfg, past + ys[..2]));
    RunPrefix(cfg, past, ys, 3);
    StillOffered(cfg, x, v, Run(cfg, past + ys[..2]), InInitiation(x.Back(), In(cfg, x)));
    Reply(cfg, x, v, Run(cfg, past + ys[..3]));
    RunPrefix(cfg, past, ys, 4);
    Accept(cfg, x, v, Run(cfg, past + ys[..4]));
  }

  lemma StillOffered(cfg: Config, x: Plan, v: World, w: World, e: Inbound)
    requires Offered(cfg, x, v, w)
    ensures Offered(cfg, x, v, w.(inbox := w.inbox + {e}))
  {}

  lemma ClosingRuns(cfg: Config, past: seq<Action>, x: Plan, v: World)
    requires Configured(cfg) && Acquainted(cfg, x.a, x.b) && Answered(cfg, x, v, Run(cfg, past))
    ensures Connected(cfg, x, v, Run(cfg, past + Closing(cfg, x, v.serial)))
  {
    hide Answer, Responding, Initiating, Answered, Connected, Run, Shaped;
    hide DoDeliverShake, DoFinalize, DoComplete, DoTake;
    var w, ys := Run(cfg, past), Closing(cfg, x, v.serial);
    RunShaped(cfg, past);
    RunFour(cfg, past, ys[0], ys[1], ys[2], ys[3]);
    Close(cfg, x, v, w);
  }

  lemma TransferRuns(cfg: Config, past: seq<Action>, x: Plan, v: World, data: seq<nat>)
    requires Configured(cfg) && x.a != x.b && Connected(cfg, x, v, Run(cfg, past)) && data != []
    requires Nonce(v.nonces, Initiator(x.n, x.n + 1, v.serial)) == 0 && Filter(v.filters, Responder(x.n + 1)) == []
    ensures Delivered(cfg, x, data, v, Run(cfg, past + Transfer(cfg, x, v.serial, |v.sends|, data)))
  {
    hide Responding, Initiating, Connected, Delivered, Run, Shaped, Nonce, Filter;
    hide DoSend, DoDeliverData, DoPromote, DoReceive;
    var w, ys := Run(cfg, past), Transfer(cfg, x, v.serial, |v.sends|, data);
    RunFour(cfg, past, ys[0], ys[1], ys[2], ys[3]);
    Deliver(cfg, x, data, v, w);
  }

  /** The whole exchange, planned in world `v`. */
  function Exchange(cfg: Config, x: Plan, v: World, data: seq<nat>): seq<Action> {
    Opening(cfg, x) + Closing(cfg, x, v.serial) + Transfer(cfg, x, v.serial, |v.sends|, data)
  }

  /** Recovery: whatever has happened before, in every world in which the two loops
      concerned are idle and indices are left, an undisturbed exchange between two
      acquainted devices ends with mirrored current sessions and writes any data. */
  lemma ExchangeDelivers(cfg: Config, past: seq<Action>, a: nat, b: nat, stamp: nat, data: seq<nat>)
    requires Configured(cfg) && Idle(cfg, Run(cfg, past), a, b) && data != []
    ensures var v := Run(cfg, past);
      var x := PlanAt(cfg, v, a, b, stamp);
      var s, t, w := Initiating(cfg, x, v.serial), Responding(cfg, x), Run(cfg, past + Exchange(cfg, x, v, data));
      && w.writes == v.writes + [Write(Link(b, a), t, data, |v.sends|)]
      && Link(a, b) in w.peers && w.peers[Link(a, b)].slots.current == Some(s)
      && Link(b, a) in w.peers && w.peers[Link(b, a)].slots.current == Some(t)
      && Mirror(s, t)
  {
    hide Responding, Initiating, Answered, Connected, Run, Shaped, Opening, Closing, Transfer, Inv, IndexAt;
    var v := Run(cfg, past);
    var x := PlanAt(cfg, v, a, b, stamp);
    var o, c, d := Opening(cfg, x), Closing(cfg, x, v.serial), Transfer(cfg, x, v.serial, |v.sends|, data);
    OpeningRuns(cfg, past, x);
    ClosingRuns(cfg, past + o, x, v);
    RunKeeps(cfg, past);
    CellsAreFresh(cfg, v, x.n, x.n + 1, v.serial);
    TransferRuns(cfg, past + o + c, x, v, data);
    assert past + o + c + d == past + Exchange(cfg, x, v, data);
    EndsMirror(cfg, x, v.serial);
  }
}
