/** Agreement of the two ends. The inbound loop promotes a responder's session
    before it decrypts the packet that calls for it, so on a network that may
    deliver a packet anywhere agreement holds for some runs only: this module
    says for which, and what is true of all. */
module ProtocolAgreement {
  import opened Options
  import opened Noise
  import opened Sessions
  import opened Handshakes
  import opened Protocol
  import opened ProtocolInvariant
  import opened ProtocolSteps
  import opened ProtocolTheorems

  // ---------- on every run ----------

  /** The other end of `l` has made a session that mirrors `s`. */
  ghost predicate HasMirror(w: World, l: Link, s: Session) {
    exists t :: (Flip(l), t) in w.created && Mirror(s, t)
  }

  /** The initiator at the other end of `l` has finalized answer m. */
  ghost predicate Finished(w: World, l: Link, m: nat) {
    exists t :: (Flip(l), t) in w.finalized && t.cell.Initiator? && t.cell.m == m
  }

  lemma FinishedIsMirror(cfg: Config, w: World, l: Link, s: Session, t: Session)
    requires Inv(cfg, w) && (l, s) in w.created && s.cell.Responder?
    requires (Flip(l), t) in w.finalized && t.cell.Initiator? && t.cell.m == s.cell.m
    ensures (Flip(l), t) in w.created && Mirror(s, t)
  {
    hide PacketsOk, InboxOk, PeersOk, IndexOk, HeldOk, SendsOk, WritesOk, CellsOk, ChainOf, NewResponse, LogOk;
    assert RecordOk(cfg, w.log, w.finalized, l, s);
    MirrorOf(cfg, w.log, w.alloc, Flip(l), t);
  }

  lemma MirrorIsFinished(cfg: Config, w: World, l: Link, s: Session, t: Session)
    requires Inv(cfg, w) && (l, s) in w.created && s.cell.Responder?
    requires (Flip(l), t) in w.created && Mirror(s, t)
    ensures (Flip(l), t) in w.finalized && t.cell.Initiator? && t.cell.m == s.cell.m
  {
    hide LogOk, PacketsOk, InboxOk, PeersOk, IndexOk, HeldOk, SendsOk, WritesOk, CellsOk, Good, Mirror;
    assert RecordOk(cfg, w.log, w.finalized, l, s) && RecordOk(cfg, w.log, w.finalized, Flip(l), t);
    MirrorsShareAnswer(cfg, w.log, l, s, t);
  }

  lemma MirrorsShareAnswer(cfg: Config, log: seq<Event>, l: Link, s: Session, t: Session)
    requires Good(cfg, log, l, s) && s.cell.Responder? && Good(cfg, log, Flip(l), t) && !t.cell.Half? && Mirror(s, t)
    ensures t.cell.Initiator? && t.cell.m == s.cell.m
  {
    hide NewResponse;
    var m, m' := s.cell.m, t.cell.m;
    if t.cell.Initiator? {
      assert ChainOf(cfg, m, log[m]) == ChainOf(cfg, m', log[m']);
      ChainNamesAnswer(cfg, m, log[m], m', log[m']);
    }
  }

  lemma InitiatorHasMirror(cfg: Config, w: World, l: Link, s: Session)
    requires Inv(cfg, w) && (l, s) in w.created && s.cell.Initiator?
    ensures HasMirror(w, l, s)
  {
    hide LogOk, PacketsOk, InboxOk, PeersOk, IndexOk, HeldOk, SendsOk, WritesOk, CellsOk, ChainOf, NewResponse;
    assert RecordOk(cfg, w.log, w.finalized, l, s);
    MirrorOf(cfg, w.log, w.alloc, l, s);
    assert (Flip(l), ResponderOf(cfg, s.cell.m, w.log[s.cell.m])) in w.created;
  }

  /** On every run and for every session with keys ever made, in a slot or not: an
      initiator's session has a mirror at the other end, a responder's session has
      one exactly if the initiator has finalized the answer. */
  lemma MirrorExactly(cfg: Config, actions: seq<Action>, l: Link, s: Session)
    requires Configured(cfg) && (l, s) in Run(cfg, actions).created
    ensures !s.cell.Half?
    ensures var w := Run(cfg, actions);
      HasMirror(w, l, s) <==> s.cell.Initiator? || Finished(w, l, s.cell.m)
  {
    hide Run, HasMirror, Finished;
    RunKeeps(cfg, actions);
    MirrorExactlyAt(cfg, Run(cfg, actions), l, s);
  }

  lemma MirrorExactlyAt(cfg: Config, w: World, l: Link, s: Session)
    requires Inv(cfg, w) && (l, s) in w.created
    ensures !s.cell.Half?
    ensures HasMirror(w, l, s) <==> s.cell.Initiator? || Finished(w, l, s.cell.m)
  {
    hide LogOk, PacketsOk, InboxOk, PeersOk, IndexOk, HeldOk, SendsOk, WritesOk, CellsOk, Good, Mirror;
    assert RecordOk(cfg, w.log, w.finalized, l, s);
    if s.cell.Initiator? {
      InitiatorHasMirror(cfg, w, l, s);
    } else {
      if t :| (Flip(l), t) in w.finalized && t.cell.Initiator? && t.cell.m == s.cell.m {
        FinishedIsMirror(cfg, w, l, s, t);
      }
      if t :| (Flip(l), t) in w.created && Mirror(s, t) {
        MirrorIsFinished(cfg, w, l, s, t);
      }
    }
  }

  lemma LiveIsCreated(cfg: Config, w: World, l: Link, s: Session)
    requires Inv(cfg, w) && LiveKeyed(cfg, w.log, w.installed, l, s)
    ensures (l, s) in w.created
  {
    hide LogOk, PacketsOk, InboxOk, PeersOk, IndexOk, HeldOk, SendsOk, WritesOk, CellsOk;
    hide ResponderOf, InitiatorOf;
  }

  /** The same for a session that is current: on every run, however its promotion
      came about, it has a mirror exactly if the initiator's end has finalized. */
  lemma CurrentMirrorExactly(cfg: Config, actions: seq<Action>, l: Link, s: Session)
    requires Configured(cfg)
    requires var w := Run(cfg, actions); l in w.peers && w.peers[l].slots.current == Some(s)
    ensures !s.cell.Half?
    ensures var w := Run(cfg, actions);
      HasMirror(w, l, s) <==> s.cell.Initiator? || Finished(w, l, s.cell.m)
  {
    hide Run, HasMirror, Finished, Inv;
    var w := Run(cfg, actions);
    RunKeeps(cfg, actions);
    CurrentIsCreated(cfg, w, l, s);
    MirrorExactlyAt(cfg, w, l, s);
  }

  lemma CurrentIsCreated(cfg: Config, w: World, l: Link, s: Session)
    requires Inv(cfg, w) && l in w.peers && w.peers[l].slots.current == Some(s)
    ensures (l, s) in w.created
  {
    hide LogOk, PacketsOk, InboxOk, IndexOk, CreatedOk, HeldOk, SendsOk, WritesOk, CellsOk, Good, PacketOk;
    assert PeerOk(cfg, w.log, w.installed, l, w.peers[l]);
    LiveIsCreated(cfg, w, l, s);
  }

  /** A packet that opens under the session it is staged for was sent from a mirror
      of that session: decrypting before promoting would confirm the session. */
  lemma OpenedHasMirror(cfg: Config, actions: seq<Action>, l: Link, k: nat, s: Session)
    requires Configured(cfg)
    requires var w := Run(cfg, actions);
      InData(l, k, s) in w.inbox && k < |w.sends| && DecryptData(s, w.sends[k].packet).Some?
    ensures var w := Run(cfg, actions);
      && w.sends[k].link == Flip(l) && Mirror(s, w.sends[k].session)
      && (Flip(l), w.sends[k].session) in w.created && HasMirror(w, l, s)
  {
    var w := Run(cfg, actions);
    RunKeeps(cfg, actions);
    OpenedPairsUp(cfg, w, l, k, s);
    LiveIsCreated(cfg, w, Flip(l), w.sends[k].session);
  }

  lemma OpenedPairsUp(cfg: Config, w: World, l: Link, k: nat, s: Session)
    requires Inv(cfg, w) && InData(l, k, s) in w.inbox && k < |w.sends| && DecryptData(s, w.sends[k].packet).Some?
    ensures LiveKeyed(cfg, w.log, w.installed, l, s) && Mirror(s, w.sends[k].session)
    ensures w.sends[k].link == Flip(l) && LiveKeyed(cfg, w.log, w.installed, Flip(l), w.sends[k].session)
  {
    hide LogOk, PacketsOk, PeersOk, IndexOk, CreatedOk, WritesOk, CellsOk, Good;
    assert InboundOk(cfg, w.log, w.installed, w.sends, InData(l, k, s));
    var x := w.sends[k];
    assert SentOk(w.held, w.nonces, x);
    KeyPairsUp(cfg, w.log, w.alloc, w.installed, l, s, x.link, x.session);
  }

  /** A transport packet addressed to the device of the responder's session it is
      staged for was sent from a mirror of that session too. */
  lemma AddressedPairsUp(
    cfg: Config, log: seq<Event>, alloc: map<nat, nat>, installed: map<nat, Session>, l: Link, s: Session,
    from: Link, t: Session)
    requires LogOk(cfg, log, alloc) && Good(cfg, log, l, s) && s.cell.Responder?
    requires LiveKeyed(cfg, log, installed, from, t) && from.peer == l.dev && t.receiverIndex == s.senderIndex
    ensures from == Flip(l) && Mirror(s, t)
  {
    hide NewResponse, ChainOf;
    var m := s.cell.m;
    match t.cell
    case Responder(m') =>
      assert EventOk(cfg, log, alloc, m');
      IndexNamesEvent(cfg, log, alloc, m, log[m'].of);
      assert false;
    case Initiator(n', m', _) =>
      IndexNamesEvent(cfg, log, alloc, m, m');
      MirrorOf(cfg, log, alloc, from, t);
  }

  lemma RecordMeansSamePsk(cfg: Config, w: World, l: Link, s: Session)
    requires Inv(cfg, w) && (l, s) in w.created && s.cell.Initiator?
    ensures SamePsk(cfg, l)
  {
    hide LogOk, PacketsOk, InboxOk, PeersOk, IndexOk, HeldOk, SendsOk, WritesOk, CellsOk, Good, SamePsk;
    assert RecordOk(cfg, w.log, w.finalized, l, s);
  }

  lemma OneEndInitiated(
    cfg: Config, log: seq<Event>, installed: map<nat, Session>, l: Link, s: Session, k: Link, t: Session)
    requires LiveKeyed(cfg, log, installed, l, s) && LiveKeyed(cfg, log, installed, k, t) && Mirror(s, t)
    ensures s.cell.Initiator? || t.cell.Initiator?
  {
    hide ChainOf, NewResponse;
  }

  lemma WriteMeansSamePsk(cfg: Config, w: World, i: nat)
    requires Inv(cfg, w) && i < |w.writes|
    ensures SamePsk(cfg, w.writes[i].link)
  {
    hide LogOk, PacketsOk, InboxOk, PeersOk, IndexOk, CreatedOk, WritesOk, CellsOk, LiveKeyed, Mirror;
    var x := w.writes[i];
    WriteTraced(cfg, w, i);
    var y := w.sends[x.k];
    assert SentOk(w.held, w.nonces, y);
    OneEndInitiated(cfg, w.log, w.installed, x.link, x.session, y.link, y.session);
    LiveIsCreated(cfg, w, x.link, x.session);
    LiveIsCreated(cfg, w, y.link, y.session);
    if x.session.cell.Initiator? {
      RecordMeansSamePsk(cfg, w, x.link, x.session);
    } else {
      RecordMeansSamePsk(cfg, w, y.link, y.session);
    }
  }

  /** Peers with different pre-shared keys never get anything across: on every run
      no answer is finalized between them and nothing is written. */
  lemma UnequalKeysNeverTalk(cfg: Config, actions: seq<Action>, l: Link)
    requires Configured(cfg) && l in cfg.psk && Flip(l) in cfg.psk && cfg.psk[l] != cfg.psk[Flip(l)]
    ensures var w := Run(cfg, actions);
      && (forall s :: (l, s) !in w.finalized)
      && (forall i :: 0 <= i < |w.writes| ==> w.writes[i].link != l)
  {
    hide Run, LogOk, PacketsOk, InboxOk, PeersOk, IndexOk, HeldOk, SendsOk, WritesOk, CellsOk, Good;
    var w := Run(cfg, actions);
    RunKeeps(cfg, actions);
    forall s | (l, s) in w.finalized ensures false {
      RecordMeansSamePsk(cfg, w, l, s);
    }
    forall i | 0 <= i < |w.writes| ensures w.writes[i].link != l {
      WriteMeansSamePsk(cfg, w, i);
    }
  }

  // ---------- on the runs where agreement holds ----------

  /** The packet that calls for a promotion was addressed to this device, or it
      opens under the session to be promoted. */
  predicate Vouched(w: World, a: Action) {
    a.Promote? && InData(a.l, a.k, a.s) in w.inbox && a.k < |w.sends| ==>
      w.sends[a.k].link.peer == a.l.dev || DecryptData(a.s, w.sends[a.k].packet).Some?
  }

  /** A run in which this is so whenever a session is offered for promotion. */
  ghost predicate VouchedRun(cfg: Config, actions: seq<Action>)
    requires Configured(cfg)
  {
    forall i :: 0 <= i < |actions| ==> Vouched(Run(cfg, actions[..i]), actions[i])
  }

  /** A run in which no transport packet strays. */
  ghost predicate AddressedRun(cfg: Config, actions: seq<Action>)
    requires Configured(cfg)
  {
    forall i :: 0 <= i < |actions| ==> Addressed(Run(cfg, actions[..i]), actions[i])
  }

  predicate Addressed(w: World, a: Action) {
    a.DeliverData? && a.k < |w.sends| ==> w.sends[a.k].link.peer == a.d
  }

  ghost predicate CurrentsMirrored(w: World) {
    forall l :: l in w.peers && w.peers[l].slots.current.Some? ==> HasMirror(w, l, w.peers[l].slots.current.value)
  }

  lemma VouchedHasMirror(cfg: Config, w: World, l: Link, k: nat, s: Session)
    requires Inv(cfg, w) && InData(l, k, s) in w.inbox && s.cell.Responder? && Vouched(w, Promote(l, k, s))
    ensures HasMirror(w, l, s)
  {
    hide LogOk, PacketsOk, PeersOk, IndexOk, CreatedOk, WritesOk, CellsOk, Good, Mirror;
    assert InboundOk(cfg, w.log, w.installed, w.sends, InData(l, k, s));
    var x := w.sends[k];
    assert SentOk(w.held, w.nonces, x);
    if x.link.peer == l.dev {
      AddressedPairsUp(cfg, w.log, w.alloc, w.installed, l, s, x.link, x.session);
    } else {
      OpenedPairsUp(cfg, w, l, k, s);
    }
    LiveIsCreated(cfg, w, Flip(l), x.session);
  }

  /** Whatever is made current now comes from a completion or a promotion. */
  lemma NewCurrent(cfg: Config, w: World, a: Action, l: Link)
    requires l in w.peers && l in Step(cfg, w, a).peers
    requires Step(cfg, w, a).peers[l].slots.current != w.peers[l].slots.current
    ensures a.Complete? || a.Promote?
    ensures a.l == l && Step(cfg, w, a).peers[l].slots.current == Some(a.s)
    ensures a.Complete? ==> (l, a.s) in w.finalized
    ensures a.Promote? ==> InData(l, a.k, a.s) in w.inbox && Matches(w.peers[l].slots.next, a.s)
  {
    if a.Initiate? || a.Respond? {
      DrawKeepsSlots(cfg, w, a, l);
    } else if !OnSlots(a) {
      QuietStepKeepsPeers(cfg, w, a);
    } else {
      hide Insert, Deactivate, DoInitiate, DoRespond, DoDeliverShake, DoFinalize, DoTake, DoSend, DoDeliverData;
      hide DoReceive;
    }
  }

  lemma CreatedOnlyGrows(cfg: Config, w: World, a: Action)
    ensures w.created <= Step(cfg, w, a).created && Step(cfg, w, a).peers.Keys >= w.peers.Keys
  {
    hide NewInitiation, NewResponse, RespondSession, FinalizeSession, Insert, Deactivate;
  }

  lemma MirrorStays(w: World, w': World, l: Link, s: Session)
    requires HasMirror(w, l, s) && w.created <= w'.created
    ensures HasMirror(w', l, s)
  {
    var t :| (Flip(l), t) in w.created && Mirror(s, t);
    assert (Flip(l), t) in w'.created;
  }

  lemma NewCurrentHasMirror(cfg: Config, w: World, a: Action, l: Link)
    requires Inv(cfg, w) && l in w.peers && Vouched(w, a)
    requires l in Step(cfg, w, a).peers && Step(cfg, w, a).peers[l].slots.current != w.peers[l].slots.current
    ensures Step(cfg, w, a).peers[l].slots.current.Some?
    ensures HasMirror(w, l, Step(cfg, w, a).peers[l].slots.current.value)
  {
    hide Step, LogOk, PacketsOk, PeersOk, PeerOk, IndexOk, HeldOk, SendsOk, WritesOk, CellsOk, Good, HasMirror;
    NewCurrent(cfg, w, a, l);
    if a.Complete? {
      InitiatorHasMirror(cfg, w, l, a.s);
    } else {
      assert InboundOk(cfg, w.log, w.installed, w.sends, InData(l, a.k, a.s));
      BankReady(cfg, w, l);
      NextIsStaged(cfg, w.log, w.alloc, w.installed, l, w.peers[l], a.s);
      VouchedHasMirror(cfg, w, l, a.k, a.s);
    }
  }

  lemma StepKeepsMirrors(cfg: Config, w: World, a: Action)
    requires Inv(cfg, w) && CurrentsMirrored(w) && Vouched(w, a) && Inv(cfg, Step(cfg, w, a))
    ensures CurrentsMirrored(Step(cfg, w, a))
  {
    hide Step, LogOk, PacketsOk, InboxOk, PeersOk, IndexOk, CreatedOk, HeldOk, SendsOk, WritesOk, CellsOk;
    hide HasMirror, Vouched;
    var w' := Step(cfg, w, a);
    CreatedOnlyGrows(cfg, w, a);
    forall l | l in w'.peers && w'.peers[l].slots.current.Some?
      ensures HasMirror(w', l, w'.peers[l].slots.current.value)
    {
      if w'.peers[l].slots.current != w.peers[l].slots.current {
        NewCurrentHasMirror(cfg, w, a, l);
      }
      MirrorStays(w, w', l, w'.peers[l].slots.current.value);
    }
  }

  lemma {:induction false} RunKeepsMirrors(cfg: Config, actions: seq<Action>)
    requires Configured(cfg) && VouchedRun(cfg, actions)
    ensures CurrentsMirrored(Run(cfg, actions))
    decreases |actions|
  {
    hide Step, HasMirror, Vouched, Inv;
    if actions == [] {
    } else {
      var n := |actions| - 1;
      var front := actions[..n];
      assert actions == front + [actions[n]];
      forall i | 0 <= i < n ensures Vouched(Run(cfg, front[..i]), front[i]) {
        assert front[..i] == actions[..i] && front[i] == actions[i];
      }
      RunKeepsMirrors(cfg, front);
      RunKeeps(cfg, front);
      RunKeeps(cfg, actions);
      StepKeepsMirrors(cfg, Run(cfg, front), actions[n]);
    }
  }

  /** Agreement: in every run whose promotions are vouched for, a session that is
      current at one end has a mirror that the other end has made: swapped
      indices, swapped keys. */
  lemma CurrentHasMirror(cfg: Config, actions: seq<Action>, l: Link, s: Session)
    requires Configured(cfg) && VouchedRun(cfg, actions)
    requires var w := Run(cfg, actions); l in w.peers && w.peers[l].slots.current == Some(s)
    ensures exists t :: (Flip(l), t) in Run(cfg, actions).created && Mirror(s, t)
  {
    hide Run, VouchedRun;
    RunKeepsMirrors(cfg, actions);
    assert HasMirror(Run(cfg, actions), l, s);
  }

  // ---------- runs without stray packets ----------

  ghost predicate StagedWhereSent(w: World) {
    forall l, k: nat, s :: InData(l, k, s) in w.inbox ==> k < |w.sends| && w.sends[k].link.peer == l.dev
  }

  lemma StepKeepsStaged(cfg: Config, w: World, a: Action)
    requires StagedWhereSent(w) && Addressed(w, a)
    ensures StagedWhereSent(Step(cfg, w, a))
  {
    hide NewInitiation, NewResponse, RespondSession, FinalizeSession, Insert, Deactivate, EncryptData;
    hide ValidMac1, ParseInitiation, DecryptData;
  }

  /** If no transport packet strays, every promotion is vouched for. */
  lemma {:induction false} AddressedIsVouched(cfg: Config, actions: seq<Action>)
    requires Configured(cfg) && AddressedRun(cfg, actions)
    ensures StagedWhereSent(Run(cfg, actions)) && VouchedRun(cfg, actions)
    decreases |actions|
  {
    hide Step;
    if actions != [] {
      var n := |actions| - 1;
      var front := actions[..n];
      forall i | 0 <= i < n ensures Addressed(Run(cfg, front[..i]), front[i]) {
        assert front[..i] == actions[..i] && front[i] == actions[i];
      }
      AddressedIsVouched(cfg, front);
      StepKeepsStaged(cfg, Run(cfg, front), actions[n]);
      forall i | 0 <= i < |actions| ensures Vouched(Run(cfg, actions[..i]), actions[i]) {
        if i < n {
          assert front[..i] == actions[..i] && front[i] == actions[i];
        }
      }
    }
  }

  /** So agreement holds in every run in which no transport packet strays. */
  lemma AgreementWithoutStrays(cfg: Config, actions: seq<Action>, l: Link, s: Session)
    requires Configured(cfg) && AddressedRun(cfg, actions)
    requires var w := Run(cfg, actions); l in w.peers && w.peers[l].slots.current == Some(s)
    ensures exists t :: (Flip(l), t) in Run(cfg, actions).created && Mirror(s, t)
  {
    hide Run, VouchedRun, AddressedRun;
    AddressedIsVouched(cfg, actions);
    CurrentHasMirror(cfg, actions, l, s);
  }
}
