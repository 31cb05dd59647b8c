/** The data path of a peer's inbound loop for one session, over the ring bitmap. */
module InboundData {
  import opened Options
  import opened ReplayWindow
  import opened NonceFilters

  /** A transport packet as it reaches the session, with what `decrypt_data` makes of it. */
  datatype Arrival = Arrival(counter: u64, plain: Option<seq<nat>>)

  /** It passes the device's counter bound, decrypts, and is no keepalive. */
  predicate IsData(a: Arrival) {
    a.counter <= LAST_COUNTER && a.plain.Some? && a.plain.value != []
  }

  function DataCounters(s: seq<Arrival>): seq<nat> {
    if s == [] then []
    else DataCounters(s[..|s| - 1]) + (if IsData(s[|s| - 1]) then [s[|s| - 1].counter as nat] else [])
  }

  /** One packet: replay check, decryption, write to the TUN, accept. */
  method HandleTransportData(filter: NonceFilter, a: Arrival) returns (written: bool)
    requires filter.Valid()
    modifies filter, filter.words
    ensures filter.Valid()
    ensures written <==>
      && a.counter <= 0xFFFF_FFFF_FFFF_DFFF && a.plain.Some? && a.plain.value != []
      && Admits(old(filter.history), a.counter as nat)
    ensures filter.history == if written then old(filter.history) + [a.counter as nat] else old(filter.history)
  {
    if a.counter > LAST_COUNTER {
      return false;
    }
    var ok := filter.CanAccept(a.counter);
    if !ok {
      return false;
    }
    match a.plain
    case None => written := false;
    case Some(data) =>
      if data == [] {
        return false;
      }
      written := true;
      var _ := filter.Accept(a.counter);
  }

  /** The loop. Packets that do not decrypt and keepalives leave no trace: the
      writes are those of the plain replay rule on the data packets alone, and no
      counter is written twice. */
  method LoopInbound(filter: NonceFilter, arrivals: seq<Arrival>) returns (tun: seq<Arrival>)
    requires filter.Valid()
    modifies filter, filter.words
    ensures filter.Valid()
    ensures filter.history == ReceiveAll(old(filter.history), DataCounters(arrivals))
    ensures filter.history == old(filter.history) + DataCounters(tun)
    ensures |DataCounters(tun)| == |tun| && Distinct(DataCounters(tun))
    ensures forall a :: a in tun ==>
      a in arrivals && a.counter <= 0xFFFF_FFFF_FFFF_DFFF && a.plain.Some? && a.plain.value != []
  {
    hide ReceiveAll, DataCounters, Admits;
    tun := [];
    ghost var h := filter.history;
    NoArrivals(h);
    assert arrivals[..0] == [];
    for n := 0 to |arrivals|
      invariant filter.Valid()
      invariant filter.history == ReceiveAll(h, DataCounters(arrivals[..n]))
      invariant filter.history == h + DataCounters(tun)
      invariant |DataCounters(tun)| == |tun|
      invariant forall a :: a in tun ==> a in arrivals && IsData(a)
    {
      OneArrival(h, arrivals[..n], arrivals[n]);
      assert arrivals[..n + 1] == arrivals[..n] + [arrivals[n]];
      var written := HandleTransportData(filter, arrivals[n]);
      if written {
        CountersSnoc(tun, arrivals[n]);
        tun := tun + [arrivals[n]];
      }
    }
    assert arrivals[..|arrivals|] == arrivals;
    forall i, j | 0 <= i < j < |tun| ensures DataCounters(tun)[i] != DataCounters(tun)[j] {
      assert filter.history[|h| + i] != filter.history[|h| + j];
    }
  }

  lemma NoArrivals(h: seq<nat>)
    ensures DataCounters([]) == [] && ReceiveAll(h, []) == h
  {}

  lemma CountersSnoc(s: seq<Arrival>, a: Arrival)
    ensures DataCounters(s + [a]) == DataCounters(s) + (if IsData(a) then [a.counter as nat] else [])
  {
    assert (s + [a])[..|s|] == s;
  }

  lemma OneArrival(h: seq<nat>, s: seq<Arrival>, a: Arrival)
    ensures ReceiveAll(h, DataCounters(s + [a])) ==
      (var g := ReceiveAll(h, DataCounters(s)); if IsData(a) then Receive(g, a.counter as nat) else g)
  {
    CountersSnoc(s, a);
    var c, cs := a.counter as nat, DataCounters(s);
    if IsData(a) {
      ReceiveAllSplit(h, cs, [c]);
      assert [c][1..] == [];
      assert ReceiveAll(ReceiveAll(h, cs), [c]) == Receive(ReceiveAll(h, cs), c);
    } else {
      assert cs + [] == cs;
    }
  }
}
