/** Where agreement ends: a transport packet that strays to a device with a
    matching index makes a session current that the other end knows nothing of. */
module ProtocolStray {
  import opened Options
  import opened Noise
  import opened Handshakes
  import opened Protocol
  import opened ProtocolInvariant
  import opened ProtocolSteps
  import opened ProtocolAgreement
  import opened ProtocolExchange

  /** The first exchange, from `a` to `b`, and the second, from `b` to `a`. */
  function First(cfg: Config, a: nat, b: nat): Plan {
    Plan(a, b, 0, IndexAt(cfg, a, 0), IndexAt(cfg, b, 0), 0)
  }

  function Second(cfg: Config, a: nat, b: nat): Plan {
    Plan(b, a, 2, IndexAt(cfg, b, 1), IndexAt(cfg, a, 1), 1)
  }

  /** `a` and `b` connect and `a` sends to `b`. */
  function Talk(cfg: Config, a: nat, b: nat, data: seq<nat>): seq<Action> {
    var x := First(cfg, a, b);
    Opening(cfg, x) + Closing(cfg, x, 0) + [Send(Link(a, b), Initiating(cfg, x, 0), data)]
  }

  /** Then `b` initiates, the answer of `a` is lost, and the data packet comes back to `a`. */
  function Straying(cfg: Config, a: nat, b: nat, data: seq<nat>): seq<Action> {
    var y := Second(cfg, a, b);
    Talk(cfg, a, b, data) + Opening(cfg, y) + [DeliverData(a, 0), Promote(Link(a, b), 0, Responding(cfg, y))]
  }

  ghost predicate Talked(cfg: Config, a: nat, b: nat, data: seq<nat>, w: World) {
    var x, l, k := First(cfg, a, b), Link(a, b), Link(b, a);
    var s := Initiating(cfg, x, 0);
    && w.sends == [Sent(l, s, data, EncryptData(s, 0, data))]
    && a in w.alloc && w.alloc[a] == 1 && b in w.alloc && w.alloc[b] == 1 && |w.log| == 2
    && l in w.peers && w.peers[l].answering.None? && k in w.peers && w.peers[k].starting.None?
    && w.created == {(k, Responding(cfg, x)), (l, s)}
  }

  lemma StartsIdle(cfg: Config, a: nat, b: nat)
    requires Acquainted(cfg, a, b)
    ensures Run(cfg, []) == Start(cfg) && Idle(cfg, Start(cfg), a, b)
    ensures First(cfg, a, b) == PlanAt(cfg, Start(cfg), a, b, 0)
  {}

  lemma ConnectsFirst(cfg: Config, a: nat, b: nat)
    requires Acquainted(cfg, a, b)
    ensures var x := First(cfg, a, b); Connected(cfg, x, Start(cfg), Run(cfg, Opening(cfg, x) + Closing(cfg, x, 0)))
  {
    hide Run, Idle, IndexAt, Opening, Closing, Answered, Connected;
    var x := First(cfg, a, b);
    StartsIdle(cfg, a, b);
    OpeningRuns(cfg, [], x);
    assert [] + Opening(cfg, x) == Opening(cfg, x);
    ClosingRuns(cfg, Opening(cfg, x), x, Start(cfg));
  }

  lemma Talks(cfg: Config, a: nat, b: nat, data: seq<nat>)
    requires Acquainted(cfg, a, b)
    ensures Talked(cfg, a, b, data, Run(cfg, Talk(cfg, a, b, data)))
  {
    hide Run, Opening, Closing, Responding, Initiating, DoSend, IndexAt, EncryptData;
    var x, l := First(cfg, a, b), Link(a, b);
    var past, s := Opening(cfg, x) + Closing(cfg, x, 0), Initiating(cfg, x, 0);
    ConnectsFirst(cfg, a, b);
    RunSnoc(cfg, past, Send(l, s, data));
    SessionFields(cfg, x, 0);
    Sends(Run(cfg, past), l, s, data);
  }

  lemma Reopens(cfg: Config, a: nat, b: nat, data: seq<nat>)
    requires Acquainted(cfg, a, b)
    ensures var past, y := Talk(cfg, a, b, data), Second(cfg, a, b);
      Answered(cfg, y, Run(cfg, past), Run(cfg, past + Opening(cfg, y)))
  {
    hide Run, Opening, Answered, Talk, Responding, Initiating, IndexAt, LogOk, PacketsOk, InboxOk, PeersOk, IndexOk;
    hide CreatedOk, HeldOk, SendsOk, WritesOk, CellsOk;
    var past, y := Talk(cfg, a, b, data), Second(cfg, a, b);
    Talks(cfg, a, b, data);
    RunKeeps(cfg, past);
    OpeningRuns(cfg, past, y);
  }

  /** The stray packet is taken for one of the answered session, which becomes current. */
  lemma Strays(cfg: Config, a: nat, b: nat, data: seq<nat>, v: World, w: World)
    requires Acquainted(cfg, a, b) && IndexAt(cfg, b, 0) == IndexAt(cfg, a, 1)
    requires Talked(cfg, a, b, data, v) && Answered(cfg, Second(cfg, a, b), v, w)
    ensures var l, t := Link(a, b), Responding(cfg, Second(cfg, a, b));
      var w' := DoPromote(DoDeliverData(w, a, 0), l, 0, t);
      l in w'.peers && w'.peers[l].slots.current == Some(t) && w'.created == w.created
  {
    hide Responding, Initiating, Out, Answer, Placeholder, IndexAt, DoDeliverData, DoPromote, Waiting;
    var x, y := First(cfg, a, b), Second(cfg, a, b);
    SessionFields(cfg, x, 0);
    SessionFields(cfg, y, 0);
    Stages(w, a, 0);
    Switches(DoDeliverData(w, a, 0), Link(a, b), 0, Responding(cfg, y));
  }

  /** Two responder's sessions never mirror each other. */
  lemma RespondersDiffer(cfg: Config, x: Plan, y: Plan)
    ensures !Mirror(Responding(cfg, y), Responding(cfg, x))
  {
    hide NewResponse;
  }

  /** Agreement fails on the open network: for any two acquainted devices whose
      index counters are one apart there is a run after which `a` has a current
      session for `b` that mirrors nothing `b` has ever made. */
  lemma StrayBreaksAgreement(cfg: Config, a: nat, b: nat, data: seq<nat>)
    requires Acquainted(cfg, a, b) && IndexAt(cfg, b, 0) == IndexAt(cfg, a, 1)
    ensures var w, l, t := Run(cfg, Straying(cfg, a, b, data)), Link(a, b), Responding(cfg, Second(cfg, a, b));
      l in w.peers && w.peers[l].slots.current == Some(t) && !HasMirror(w, l, t)
  {
    hide Run, Talk, Talked, Opening, Answered, Responding, Initiating, IndexAt, DoDeliverData, DoPromote, Mirror;
    var x, y, l, t := First(cfg, a, b), Second(cfg, a, b), Link(a, b), Responding(cfg, Second(cfg, a, b));
    var talk, past := Talk(cfg, a, b, data), Talk(cfg, a, b, data) + Opening(cfg, y);
    Talks(cfg, a, b, data);
    Reopens(cfg, a, b, data);
    RunSnoc(cfg, past, DeliverData(a, 0));
    RunSnoc(cfg, past + [DeliverData(a, 0)], Promote(l, 0, t));
    assert past + [DeliverData(a, 0)] + [Promote(l, 0, t)] == Straying(cfg, a, b, data);
    Strays(cfg, a, b, data, Run(cfg, talk), Run(cfg, past));
    CreatedByThen(cfg, a, b, data, Run(cfg, talk), Run(cfg, past));
    RespondersDiffer(cfg, x, y);
  }

  lemma CreatedByThen(cfg: Config, a: nat, b: nat, data: seq<nat>, v: World, w: World)
    requires Talked(cfg, a, b, data, v) && Answered(cfg, Second(cfg, a, b), v, w)
    ensures var x, y, l, k := First(cfg, a, b), Second(cfg, a, b), Link(a, b), Link(b, a);
      w.created == {(k, Responding(cfg, x)), (l, Initiating(cfg, x, 0)), (l, Responding(cfg, y))}
  {
    hide Responding, Initiating, Out, Answer, Placeholder, IndexAt, Waiting, Prepared;
  }

  /** Two devices with one pre-shared key, whose counters start at 0 and 1. */
  function TwoDevices(): Config {
    Config(map[Link(0, 1) := Zero, Link(1, 0) := Zero], map[0 := 0, 1 := 1])
  }

  /** A concrete run of this kind. */
  lemma StrayExample()
    ensures Configured(TwoDevices())
    ensures var w := Run(TwoDevices(), Straying(TwoDevices(), 0, 1, [7]));
      && Link(0, 1) in w.peers && w.peers[Link(0, 1)].slots.current.Some?
      && !HasMirror(w, Link(0, 1), w.peers[Link(0, 1)].slots.current.value)
  {
    hide Run, Straying, HasMirror, Responding;
    assert Acquainted(TwoDevices(), 0, 1) && IndexAt(TwoDevices(), 1, 0) == IndexAt(TwoDevices(), 0, 1);
    StrayBreaksAgreement(TwoDevices(), 0, 1, [7]);
  }
}
