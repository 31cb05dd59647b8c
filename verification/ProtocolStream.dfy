/** Conversations: packets are numbered without gaps, and between mirrored
    sessions every further packet gets through, however much has been said. */
module ProtocolStream {
  import opened Options
  import opened Noise
  import opened Sessions
  import opened Handshakes
  import opened Protocol
  import opened ProtocolInvariant
  import opened ProtocolSteps
  import opened ProtocolTheorems
  import opened ProtocolExchange
  import ReplayWindow

  // ---------- numbering ----------

  /** How many packets were sent with a session's counter. */
  function SendCount(sends: seq<Sent>, c: Cell): nat {
    if sends == [] then 0
    else SendCount(sends[..|sends| - 1], c) + if sends[|sends| - 1].session.cell == c then 1 else 0
  }

  ghost predicate Numbered(nonces: map<Cell, nat>, sends: seq<Sent>) {
    && (forall c :: Nonce(nonces, c) == SendCount(sends, c))
    && (forall k :: 0 <= k < |sends| ==> sends[k].packet.counter == SendCount(sends[..k], sends[k].session.cell))
  }

  /** What the data path keeps is as it was. */
  predicate SameData(w: World, w': World) {
    w'.nonces == w.nonces && w'.sends == w.sends && w'.filters == w.filters && w'.writes == w.writes
  }

  lemma SlotsKeepData(cfg: Config, w: World, a: Action)
    requires OnSlots(a)
    ensures SameData(w, Step(cfg, w, a))
  {
    hide PrepareUninit, CompleteUninit, PrepareNext, CompleteNext, Matches;
    hide DoInitiate, DoRespond, DoDeliverShake, DoFinalize, DoTake, DoSend, DoDeliverData, DoReceive;
  }

  lemma DrawsKeepData(cfg: Config, w: World, a: Action)
    requires a.Initiate? || a.Respond?
    ensures SameData(w, Step(cfg, w, a))
  {
    hide NewInitiation, NewResponse, RespondSession, HalfSession, IndexAt, DoInstallInitiation, DoDeliverShake;
    hide DoInstallResponse, DoFinalize, DoComplete, DoTake, DoSend, DoDeliverData, DoPromote, DoReceive;
  }

  lemma OthersKeepData(cfg: Config, w: World, a: Action)
    requires a.DeliverShake? || a.Finalize? || a.Take? || a.DeliverData?
    ensures SameData(w, Step(cfg, w, a))
  {
    hide Route, FinalizeSession, DoInitiate, DoInstallInitiation, DoRespond, DoInstallResponse, DoComplete, DoSend;
    hide DoPromote, DoReceive;
  }

  lemma DataMovesByLoops(cfg: Config, w: World, a: Action)
    requires !a.Send? && !a.Receive?
    ensures SameData(w, Step(cfg, w, a))
  {
    hide Step;
    if OnSlots(a) {
      SlotsKeepData(cfg, w, a);
    } else if a.Initiate? || a.Respond? {
      DrawsKeepData(cfg, w, a);
    } else {
      OthersKeepData(cfg, w, a);
    }
  }

  lemma OnlySendSends(cfg: Config, w: World, a: Action)
    requires !a.Send?
    ensures Step(cfg, w, a).nonces == w.nonces && Step(cfg, w, a).sends == w.sends
  {
    if a.Receive? {
      ReceiveSendsNothing(w, a.l, a.k, a.s);
    } else {
      hide Step;
      DataMovesByLoops(cfg, w, a);
    }
  }

  lemma ReceiveSendsNothing(w: World, l: Link, k: nat, s: Session)
    ensures var w' := DoReceive(w, l, k, s); w'.nonces == w.nonces && w'.sends == w.sends
  {
    hide DecryptData, ReplayWindow.Admits;
  }

  lemma SendNumbers(w: World, l: Link, s: Session, data: seq<nat>)
    requires Numbered(w.nonces, w.sends)
    ensures Numbered(DoSend(w, l, s, data).nonces, DoSend(w, l, s, data).sends)
  {
    var w' := DoSend(w, l, s, data);
    if (l, s) in w.held && Nonce(w.nonces, s.cell) < NONCES {
      var n := |w.sends|;
      assert w'.sends[..n] == w.sends;
      forall c ensures Nonce(w'.nonces, c) == SendCount(w'.sends, c) {
        assert Nonce(w.nonces, c) == SendCount(w.sends, c);
      }
      forall k | 0 <= k < n
        ensures w'.sends[k].packet.counter == SendCount(w'.sends[..k], w'.sends[k].session.cell)
      {
        assert w'.sends[..k] == w.sends[..k];
      }
    }
  }

  lemma {:induction false} RunNumbers(cfg: Config, actions: seq<Action>)
    requires Configured(cfg)
    ensures Numbered(Run(cfg, actions).nonces, Run(cfg, actions).sends)
    decreases |actions|
  {
    hide Numbered, DoSend;
    if actions == [] {
      NothingNumbered();
    } else {
      var n := |actions| - 1;
      var w, a := Run(cfg, actions[..n]), actions[n];
      RunNumbers(cfg, actions[..n]);
      if a.Send? {
        SendNumbers(w, a.l, a.s, a.data);
      } else {
        hide Step;
        OnlySendSends(cfg, w, a);
      }
    }
  }

  lemma NothingNumbered()
    ensures Numbered(map[], [])
  {}

  /** A session numbers its packets 0, 1, 2, ... without gaps, over every run and
      whatever else is sent in between. */
  lemma CountersAreConsecutive(cfg: Config, actions: seq<Action>, k: nat)
    requires Configured(cfg) && k < |Run(cfg, actions).sends|
    ensures var sends := Run(cfg, actions).sends;
      sends[k].packet.counter == SendCount(sends[..k], sends[k].session.cell)
  {
    RunNumbers(cfg, actions);
  }

  // ---------- filters ----------

  /** Counter c got into a filter by the i-th write. */
  predicate TracedTo(sends: seq<Sent>, writes: seq<Write>, i: nat, x: Cell, c: nat) {
    && i < |writes| && writes[i].session.cell == x
    && writes[i].k < |sends| && sends[writes[i].k].packet.counter == c
  }

  ghost predicate Traced(sends: seq<Sent>, filters: map<Cell, seq<nat>>, writes: seq<Write>) {
    forall x, c :: c in Filter(filters, x) ==> exists i :: TracedTo(sends, writes, i, x, c)
  }

  lemma TracesStay(
    sends: seq<Sent>, sends': seq<Sent>, filters: map<Cell, seq<nat>>, writes: seq<Write>)
    requires Traced(sends, filters, writes) && sends <= sends'
    ensures Traced(sends', filters, writes)
  {
    forall x, c | c in Filter(filters, x) ensures exists i :: TracedTo(sends', writes, i, x, c) {
      var i :| TracedTo(sends, writes, i, x, c);
      assert TracedTo(sends', writes, i, x, c);
    }
  }

  lemma ReceiveTraces(w: World, l: Link, k: nat, s: Session)
    requires Traced(w.sends, w.filters, w.writes)
    ensures var w' := DoReceive(w, l, k, s); Traced(w'.sends, w'.filters, w'.writes)
  {
    hide DecryptData, ReplayWindow.Admits;
    var w' := DoReceive(w, l, k, s);
    if w' != w {
      var n, d := |w.writes|, w.sends[k].packet.counter;
      assert TracedTo(w'.sends, w'.writes, n, s.cell, d);
      forall x, c | c in Filter(w'.filters, x) ensures exists i :: TracedTo(w'.sends, w'.writes, i, x, c) {
        if c in Filter(w.filters, x) {
          var i :| TracedTo(w.sends, w.writes, i, x, c);
          assert TracedTo(w'.sends, w'.writes, i, x, c);
        }
      }
    }
  }

  lemma OnlyReceiveWrites(cfg: Config, w: World, a: Action)
    requires !a.Receive?
    ensures Step(cfg, w, a).filters == w.filters && Step(cfg, w, a).writes == w.writes
    ensures w.sends <= Step(cfg, w, a).sends
  {
    if a.Send? {
      SendWritesNothing(w, a.l, a.s, a.data);
    } else {
      hide Step;
      DataMovesByLoops(cfg, w, a);
    }
  }

  lemma SendWritesNothing(w: World, l: Link, s: Session, data: seq<nat>)
    ensures var w' := DoSend(w, l, s, data); w'.filters == w.filters && w'.writes == w.writes && w.sends <= w'.sends
  {
    hide EncryptData;
  }

  lemma {:induction false} RunTraces(cfg: Config, actions: seq<Action>)
    requires Configured(cfg)
    ensures var w := Run(cfg, actions); Traced(w.sends, w.filters, w.writes)
    decreases |actions|
  {
    hide Traced, DoReceive;
    if actions == [] {
      NothingTraced();
    } else {
      var n := |actions| - 1;
      var w, a := Run(cfg, actions[..n]), actions[n];
      RunTraces(cfg, actions[..n]);
      if a.Receive? {
        ReceiveTraces(w, a.l, a.k, a.s);
      } else {
        hide Step;
        OnlyReceiveWrites(cfg, w, a);
        TracesStay(w.sends, Step(cfg, w, a).sends, w.filters, w.writes);
      }
    }
  }

  lemma NothingTraced()
    ensures Traced([], map[], [])
  {}

  // ---------- mirrored sessions ----------

  /** A session's counter names the session. */
  lemma CellNamesSession(cfg: Config, log: seq<Event>, l: Link, s: Session, l': Link, s': Session)
    requires Good(cfg, log, l, s) && Good(cfg, log, l', s') && s.cell == s'.cell
    ensures s == s'
  {
    hide ResponderOf, InitiatorOf, HalfOf;
  }

  /** What a session's filter holds was sent by the session at the other end. */
  lemma FilteredWasSent(cfg: Config, w: World, l: Link, s: Session, t: Session, i: nat, c: nat)
    requires Inv(cfg, w) && LiveKeyed(cfg, w.log, w.installed, l, s) && LiveKeyed(cfg, w.log, w.installed, Flip(l), t)
    requires Mirror(s, t) && TracedTo(w.sends, w.writes, i, t.cell, c)
    ensures w.sends[w.writes[i].k].session == s && c < Nonce(w.nonces, s.cell)
  {
    hide LogOk, PacketsOk, InboxOk, PeersOk, IndexOk, CreatedOk, WritesOk, CellsOk, Good;
    var y := w.writes[i];
    WriteTraced(cfg, w, i);
    CellNamesSession(cfg, w.log, Flip(l), t, y.link, y.session);
    var x := w.sends[y.k];
    assert SentOk(w.held, w.nonces, x);
    KeyNamesSession(cfg, w.log, w.installed, l, s, x.link, x.session);
  }

  /** So the next counter of the other end is admitted. */
  lemma NextIsAdmitted(cfg: Config, w: World, l: Link, s: Session, t: Session)
    requires Inv(cfg, w) && LiveKeyed(cfg, w.log, w.installed, l, s) && LiveKeyed(cfg, w.log, w.installed, Flip(l), t)
    requires Mirror(s, t) && Traced(w.sends, w.filters, w.writes)
    ensures ReplayWindow.Admits(Filter(w.filters, t.cell), Nonce(w.nonces, s.cell))
  {
    hide Inv, LiveKeyed, Mirror, ReplayWindow.Next, Filter, Nonce;
    var h, n := Filter(w.filters, t.cell), Nonce(w.nonces, s.cell);
    forall c | c in h ensures c < n {
      var i :| TracedTo(w.sends, w.writes, i, t.cell, c);
      FilteredWasSent(cfg, w, l, s, t, i, c);
    }
    ReplayWindow.AboveAll(h, n);
  }

  /** Session `s` is held for sending at `l`, and its mirror `t` is found at the other end. */
  ghost predicate Talking(w: World, l: Link, s: Session, t: Session) {
    && (l, s) in w.held && Flip(l) in w.peers && l.peer in w.index && Mirror(s, t)
    && t.senderIndex in w.index[l.peer].indexes && w.index[l.peer].indexes[t.senderIndex] == t
  }

  lemma TalkingIsLive(cfg: Config, w: World, l: Link, s: Session, t: Session)
    requires Inv(cfg, w) && Talking(w, l, s, t)
    ensures LiveKeyed(cfg, w.log, w.installed, l, s) && LiveKeyed(cfg, w.log, w.installed, Flip(l), t)
    ensures t.peer == l.dev
  {
    hide LogOk, PacketsOk, InboxOk, PeersOk, IndexOk, CreatedOk, SendsOk, WritesOk, CellsOk, Good;
    IndexedIsLive(cfg, w, l.peer, t.senderIndex);
    KeyPairsUp(cfg, w.log, w.alloc, w.installed, Link(l.peer, t.peer), t, l, s);
  }

  /** One packet on its way: sent, delivered, offered for promotion, received. */
  function Sending(l: Link, s: Session, t: Session, data: seq<nat>, i: nat): seq<Action> {
    [Send(l, s, data), DeliverData(l.peer, i), Promote(Flip(l), i, t), Receive(Flip(l), i, t)]
  }

  lemma Arrives(cfg: Config, w: World, l: Link, s: Session, t: Session, data: seq<nat>)
    requires Inv(cfg, w) && Traced(w.sends, w.filters, w.writes) && Talking(w, l, s, t) && data != []
    requires Nonce(w.nonces, s.cell) <= ReplayWindow.REJECT_AFTER_MESSAGES
    ensures var k, i := Flip(l), |w.sends|;
      var w3 := DoPromote(DoDeliverData(DoSend(w, l, s, data), l.peer, i), k, i, t);
      var w' := DoReceive(w3, k, i, t);
      && w'.writes == w.writes + [Write(k, t, data, i)] && |w'.sends| == i + 1
      && w'.held == w.held && Nonce(w'.nonces, s.cell) == Nonce(w.nonces, s.cell) + 1
      && w'.index == w3.index && k in w'.peers && w'.peers == w3.peers
      && (w'.index == w.index || w'.peers[k].slots.current == Some(t))
  {
    hide Inv, DoSend, DoDeliverData, DoPromote, DoReceive, Traced, LiveKeyed, ReplayWindow.Admits, EncryptData;
    hide DecryptData, Nonce;
    var k, i := Flip(l), |w.sends|;
    TalkingIsLive(cfg, w, l, s, t);
    NextIsAdmitted(cfg, w, l, s, t);
    var c := Nonce(w.nonces, s.cell);
    PacketIsSealed(s, c, data);
    Sends(w, l, s, data);
    var w1 := DoSend(w, l, s, data);
    DecryptExactly(t, w1.sends[i].packet, data);
    Stages(w1, l.peer, i);
    var w2 := DoDeliverData(w1, l.peer, i);
    Offers(w2, k, i, t);
    Writes(DoPromote(w2, k, i, t), k, i, t, data);
  }

  /** An offer either promotes the session or changes nothing. */
  lemma Offers(w: World, k: Link, i: nat, t: Session)
    requires k in w.peers && k.dev in w.index && InData(k, i, t) in w.inbox
    ensures var w' := DoPromote(w, k, i, t);
      && w' == w.(index := w'.index, peers := w'.peers) && k in w'.peers
      && ((w'.index == w.index) || w'.peers[k].slots.current == Some(t))
  {
    hide Insert, Deactivate;
    var w' := DoPromote(w, k, i, t);
    if !Matches(w.peers[k].slots.next, t) {
      assert w'.index == w.index;
    }
  }

  lemma StillTalking(cfg: Config, w: World, w': World, l: Link, s: Session, t: Session)
    requires Talking(w, l, s, t) && Inv(cfg, w') && w'.held == w.held && Flip(l) in w'.peers
    requires w'.index == w.index || w'.peers[Flip(l)].slots.current == Some(t)
    ensures Talking(w', l, s, t)
  {
    hide LogOk, PacketsOk, InboxOk, PeersOk, CreatedOk, HeldOk, SendsOk, WritesOk, CellsOk, Inverse, Mirror;
    assert SlotsIndexed(w'.index[l.peer].indexes, w'.peers[Flip(l)].slots);
  }

  /** In every reachable world the next packet between mirrored sessions gets
      through, unless the counters are used up. */
  lemma NextPacketArrives(cfg: Config, past: seq<Action>, l: Link, s: Session, t: Session, data: seq<nat>)
    requires Configured(cfg) && Talking(Run(cfg, past), l, s, t) && data != []
    requires Nonce(Run(cfg, past).nonces, s.cell) <= ReplayWindow.REJECT_AFTER_MESSAGES
    ensures var w := Run(cfg, past);
      var w' := Run(cfg, past + Sending(l, s, t, data, |w.sends|));
      && w'.writes == w.writes + [Write(Flip(l), t, data, |w.sends|)] && |w'.sends| == |w.sends| + 1
      && Nonce(w'.nonces, s.cell) == Nonce(w.nonces, s.cell) + 1
      && Talking(w', l, s, t)
  {
    hide Run, Inv, Talking, Traced, Nonce, DoSend, DoDeliverData, DoPromote, DoReceive;
    var w := Run(cfg, past);
    var ys := Sending(l, s, t, data, |w.sends|);
    RunKeeps(cfg, past);
    RunKeeps(cfg, past + ys);
    RunTraces(cfg, past);
    Arrives(cfg, w, l, s, t, data);
    RunFour(cfg, past, ys[0], ys[1], ys[2], ys[3]);
    StillTalking(cfg, w, Run(cfg, past + ys), l, s, t);
  }

  // ---------- reordering ----------

  /** Packet k is from the session of packet i and 1023 or more ahead of it. */
  predicate FarAhead(w: World, i: nat, k: nat)
    requires i < |w.sends|
  {
    && k < |w.sends| && w.sends[k].session == w.sends[i].session
    && w.sends[k].packet.counter >= w.sends[i].packet.counter + 1023
  }

  /** Packet i has not been written, is not number 1024, and nothing written from
      its session is 1023 or more ahead of it. */
  ghost predicate InTime(w: World, i: nat)
    requires i < |w.sends|
  {
    && w.sends[i].packet.counter != 1024
    && (forall j :: 0 <= j < |w.writes| ==> w.writes[j].k != i)
    && (forall j :: 0 <= j < |w.writes| ==> !FarAhead(w, i, w.writes[j].k))
  }

  lemma InTimeIsAdmitted(cfg: Config, w: World, i: nat, t: Session)
    requires Inv(cfg, w) && Traced(w.sends, w.filters, w.writes) && i < |w.sends| && InTime(w, i)
    requires var x := w.sends[i];
      && LiveKeyed(cfg, w.log, w.installed, x.link, x.session)
      && LiveKeyed(cfg, w.log, w.installed, Flip(x.link), t) && Mirror(x.session, t)
    ensures ReplayWindow.Admits(Filter(w.filters, t.cell), w.sends[i].packet.counter)
  {
    hide Inv, LiveKeyed, Mirror, ReplayWindow.Admits, ReplayWindow.Stale, Filter;
    var h, x := Filter(w.filters, t.cell), w.sends[i];
    forall d: nat | d in h ensures d != x.packet.counter && d < x.packet.counter + 1023 {
      var j: nat :| TracedTo(w.sends, w.writes, j, t.cell, d);
      FilteredWasSent(cfg, w, x.link, x.session, t, j, d);
      if d == x.packet.counter {
        SamePacket(cfg, w, i, w.writes[j].k);
      }
      assert !FarAhead(w, i, w.writes[j].k);
    }
    ReplayWindow.AdmitsExactly(h, x.packet.counter);
  }

  lemma SamePacket(cfg: Config, w: World, i: nat, j: nat)
    requires Inv(cfg, w) && i < |w.sends| && j < |w.sends|
    requires w.sends[i].session == w.sends[j].session && w.sends[i].packet.counter == w.sends[j].packet.counter
    ensures i == j
  {
    hide Inv;
    if i < j {
      SendsDiffer(cfg, w, i, j);
    } else if j < i {
      SendsDiffer(cfg, w, j, i);
    }
  }

  lemma LateArrives(cfg: Config, w: World, i: nat, t: Session)
    requires Inv(cfg, w) && Traced(w.sends, w.filters, w.writes) && i < |w.sends|
    requires var x := w.sends[i];
      && Talking(w, x.link, x.session, t) && x.data != [] && InTime(w, i)
      && x.packet.counter <= ReplayWindow.REJECT_AFTER_MESSAGES
    ensures var x, k := w.sends[i], Flip(w.sends[i].link);
      DoReceive(DoPromote(DoDeliverData(w, x.link.peer, i), k, i, t), k, i, t).writes
        == w.writes + [Write(k, t, x.data, i)]
  {
    hide Inv, DoDeliverData, DoPromote, DoReceive, Traced, LiveKeyed, ReplayWindow.Admits, InTime;
    var x, k := w.sends[i], Flip(w.sends[i].link);
    TalkingIsLive(cfg, w, x.link, x.session, t);
    InTimeIsAdmitted(cfg, w, i, t);
    SentFields(cfg, w, i);
    Stages(w, x.link.peer, i);
    var w1 := DoDeliverData(w, x.link.peer, i);
    Offers(w1, k, i, t);
    Writes(DoPromote(w1, k, i, t), k, i, t, x.data);
  }

  lemma SentFields(cfg: Config, w: World, i: nat)
    requires Inv(cfg, w) && i < |w.sends|
    ensures var x := w.sends[i];
      && x.packet.receiverIndex == x.session.receiverIndex
      && forall t :: Mirror(x.session, t) ==> DecryptData(t, x.packet) == Some(x.data)
  {
    hide LogOk, PacketsOk, InboxOk, PeersOk, IndexOk, CreatedOk, HeldOk, WritesOk, CellsOk;
    assert SentOk(w.held, w.nonces, w.sends[i]);
  }

  /** Loss and reordering: in every reachable world, a packet that was sent at any
      time before is written when it arrives in time, whatever overtook it. */
  lemma LatePacketArrives(cfg: Config, past: seq<Action>, i: nat, t: Session)
    requires Configured(cfg) && i < |Run(cfg, past).sends|
    requires var w := Run(cfg, past);
      var x := w.sends[i];
      && Talking(w, x.link, x.session, t) && x.data != [] && InTime(w, i)
      && x.packet.counter <= ReplayWindow.REJECT_AFTER_MESSAGES
    ensures var w := Run(cfg, past);
      var x, k := w.sends[i], Flip(w.sends[i].link);
      Run(cfg, past + [DeliverData(x.link.peer, i), Promote(k, i, t), Receive(k, i, t)]).writes
        == w.writes + [Write(k, t, x.data, i)]
  {
    hide Run, Inv, Talking, Traced, InTime, DoDeliverData, DoPromote, DoReceive;
    var w := Run(cfg, past);
    var x, k := w.sends[i], Flip(w.sends[i].link);
    RunKeeps(cfg, past);
    RunTraces(cfg, past);
    LateArrives(cfg, w, i, t);
    var p, q, r := DeliverData(x.link.peer, i), Promote(k, i, t), Receive(k, i, t);
    RunSnoc(cfg, past, p);
    RunSnoc(cfg, past + [p], q);
    RunSnoc(cfg, past + [p] + [q], r);
    assert past + [p, q, r] == past + [p] + [q] + [r];
  }

  // ---------- streams ----------

  /** A whole conversation in one direction, and what it writes. */
  function Stream(l: Link, s: Session, t: Session, datas: seq<seq<nat>>, i: nat): seq<Action>
    decreases |datas|
  {
    if datas == [] then [] else Sending(l, s, t, datas[0], i) + Stream(l, s, t, datas[1..], i + 1)
  }

  function Arrivals(k: Link, t: Session, datas: seq<seq<nat>>, i: nat): seq<Write>
    decreases |datas|
  {
    if datas == [] then [] else [Write(k, t, datas[0], i)] + Arrivals(k, t, datas[1..], i + 1)
  }

  /** Any number of packets: from every reachable world with mirrored sessions, a
      stream of data is written at the other end, complete and in order, as long
      as counters last. */
  lemma {:induction false} StreamArrives(
    cfg: Config, past: seq<Action>, l: Link, s: Session, t: Session, datas: seq<seq<nat>>)
    requires Configured(cfg) && Talking(Run(cfg, past), l, s, t)
    requires forall j :: 0 <= j < |datas| ==> datas[j] != []
    requires Nonce(Run(cfg, past).nonces, s.cell) + |datas| <= ReplayWindow.REJECT_AFTER_MESSAGES + 1
    ensures var w := Run(cfg, past);
      var w' := Run(cfg, past + Stream(l, s, t, datas, |w.sends|));
      w'.writes == w.writes + Arrivals(Flip(l), t, datas, |w.sends|) && Talking(w', l, s, t)
    decreases |datas|
  {
    hide Run, Talking, Nonce, Sending;
    var w := Run(cfg, past);
    var i := |w.sends|;
    if datas == [] {
      assert past + [] == past;
    } else {
      var first, rest := Sending(l, s, t, datas[0], i), Stream(l, s, t, datas[1..], i + 1);
      NextPacketArrives(cfg, past, l, s, t, datas[0]);
      StreamArrives(cfg, past + first, l, s, t, datas[1..]);
      assert past + first + rest == past + Stream(l, s, t, datas, i);
    }
  }
}
