/** The peer table of a device: peers by key, by CIDR and by session index. */
module PeerLists {
  import opened Options
  import opened Division
  import opened Sessions
  import opened PeerObjects

  datatype Ip = Ip(v6: bool, addr: nat)

  /** A network: its prefix length and the bits of the prefix. */
  datatype Cidr = Cidr(v6: bool, len: nat, prefix: int)

  function Width(v6: bool): nat {
    if v6 then 128 else 32
  }

  function Pow2(k: nat): (p: nat)
    ensures p > 0
  {
    if k == 0 then 1 else 2 * Pow2(k - 1)
  }

  /** `Cidr::new`: the host bits are cut off. A mask beyond the width panics in the source. */
  function Truncate(ip: Ip, len: nat): Cidr
    requires len <= Width(ip.v6)
  {
    Cidr(ip.v6, len, ip.addr / Pow2(Width(ip.v6) - len))
  }

  predicate Contains(c: Cidr, ip: Ip) {
    c.v6 == ip.v6 && c.len <= Width(ip.v6) && Truncate(ip, c.len) == c
  }

  /** A network is a range: the addresses that share its first `len` bits. */
  lemma ContainsExactly(ip: Ip, len: nat, other: Ip)
    requires len <= if ip.v6 then 128 else 32
    ensures var size := Pow2((if ip.v6 then 128 else 32) - len);
      var lo := ip.addr - ip.addr % size;
      Contains(Truncate(ip, len), other) <==> other.v6 == ip.v6 && lo <= other.addr < lo + size
  {
    SameBlock(ip.addr, other.addr, Pow2(Width(ip.v6) - len));
  }

  function V4(a: nat, b: nat, c: nat, d: nat): Ip {
    Ip(false, a * 0x100_0000 + b * 0x1_0000 + c * 0x100 + d)
  }

  lemma SixteenBits()
    ensures Pow2(8) == 256 && Pow2(16) == 65536
  {
    assert Pow2(4) == 16;
    assert Pow2(8) == 256;
    assert Pow2(12) == 4096;
  }

  /** 10.2.3.4/16 holds 10.2.0.0 to 10.2.255.255, 10.2.3.4/32 one address only. */
  lemma NetworkExamples()
    ensures var net := Truncate(V4(10, 2, 3, 4), 16);
      && Contains(net, V4(10, 2, 0, 0)) && Contains(net, V4(10, 2, 255, 255))
      && !Contains(net, V4(10, 3, 0, 0)) && !Contains(net, V4(10, 1, 255, 255))
      && net == Truncate(V4(10, 2, 0, 0), 16)
    ensures forall ip :: Contains(Truncate(V4(10, 2, 3, 4), 32), ip) <==> ip == V4(10, 2, 3, 4)
  {
    SixteenBits();
    forall ip ensures Contains(Truncate(V4(10, 2, 3, 4), 32), ip) <==> ip == V4(10, 2, 3, 4) {
      ContainsExactly(V4(10, 2, 3, 4), 32, ip);
    }
  }

  /** The longest entry of a table that contains an address, looking at prefixes up to `len`. */
  function LongestMatch(table: map<Cidr, nat>, ip: Ip, len: nat): Option<Cidr>
    requires len <= Width(ip.v6)
    decreases len
  {
    if Truncate(ip, len) in table then Some(Truncate(ip, len))
    else if len == 0 then None
    else LongestMatch(table, ip, len - 1)
  }

  lemma {:induction false} LongestMatchIsLongest(table: map<Cidr, nat>, ip: Ip, len: nat)
    requires len <= Width(ip.v6)
    ensures var r := LongestMatch(table, ip, len);
      && (r.Some? ==> r.value in table && Contains(r.value, ip) && r.value.len <= len)
      && forall c :: c in table && Contains(c, ip) && c.len <= len ==> r.Some? && c.len <= r.value.len
    decreases len
  {
    if Truncate(ip, len) !in table && len > 0 {
      LongestMatchIsLongest(table, ip, len - 1);
    }
  }

  // ---------- the linear scan ----------

  /** Peer `k` owns a prefix that contains `ip`, and no registered prefix that does is longer. */
  ghost predicate OwnsLongest(peers: map<nat, set<Cidr>>, k: nat, ip: Ip) {
    k in peers && exists c :: c in peers[k] && Contains(c, ip) && IsLongest(peers, c, ip)
  }

  ghost predicate IsLongest(peers: map<nat, set<Cidr>>, c: Cidr, ip: Ip) {
    forall k, d :: k in peers && d in peers[k] && Contains(d, ip) ==> d.len <= c.len
  }

  ghost predicate Routable(peers: map<nat, set<Cidr>>, ip: Ip) {
    exists k, c :: k in peers && c in peers[k] && Contains(c, ip)
  }

  /** No prefix is listed by two peers. */
  ghost predicate Disjoint(peers: map<nat, set<Cidr>>) {
    forall k, k' :: k in peers && k' in peers && k != k' ==> peers[k] !! peers[k']
  }

  /** With disjoint prefixes the owner is unique, so a lookup has only one right answer. */
  lemma OwnerIsUnique(peers: map<nat, set<Cidr>>, k: nat, k': nat, ip: Ip)
    requires Disjoint(peers) && OwnsLongest(peers, k, ip) && OwnsLongest(peers, k', ip)
    ensures k == k'
  {
    var c :| c in peers[k] && Contains(c, ip) && IsLongest(peers, c, ip);
    var c' :| c' in peers[k'] && Contains(c', ip) && IsLongest(peers, c', ip);
    assert c == c';
  }

  class PeerList {
    var peers: map<nat, set<Cidr>>
    var ips: map<Cidr, nat>
    const sessions: SessionIndex

    /** The CIDR table lists every registered prefix, under a peer that has it. */
    ghost predicate Valid()
      reads this
    {
      && (forall c :: c in ips ==> ips[c] in peers && c in peers[ips[c]])
      && (forall k, c :: k in peers && c in peers[k] ==> c in ips)
    }

    constructor (sessions: SessionIndex)
      ensures Valid() && peers == map[] && this.sessions == sessions
    {
      this.sessions, peers, ips := sessions, map[], map[];
    }

    /** The first registration of a key fixes its prefixes; registering again claims them again. */
    method Insert(key: nat, allowed: set<Cidr>)
      requires Valid()
      modifies this
      ensures Valid()
      ensures peers == if key in old(peers) then old(peers) else old(peers)[key := allowed]
      ensures forall c :: c in peers[key] ==> c in ips && ips[c] == key
      ensures forall c :: c in old(ips) && c !in peers[key] ==> c in ips && ips[c] == old(ips)[c]
    {
      if key !in peers {
        peers := peers[key := allowed];
      }
      var todo := peers[key];
      while todo != {}
        invariant key in peers && todo <= peers[key]
        invariant forall c :: c in peers[key] - todo ==> c in ips && ips[c] == key
        invariant forall c :: c in ips ==>
          (c in peers[key] && ips[c] == key) || (c in old(ips) && ips[c] == old(ips)[c])
        invariant forall c :: c in old(ips) ==> c in ips
        invariant forall c :: c in old(ips) && c !in peers[key] ==> ips[c] == old(ips)[c]
        invariant peers == if key in old(peers) then old(peers) else old(peers)[key := allowed]
        decreases |todo|
      {
        var c :| c in todo;
        todo := todo - {c};
        ips := ips[c := key];
      }
    }

    method Clear()
      modifies this, sessions
      ensures Valid() && peers == map[] && ips == map[]
      ensures sessions.View() == IndexView(map[], map[])
    {
      peers, ips := map[], map[];
      sessions.Clear();
    }

    /** The table lookup finds what a scan over all peers and prefixes finds. */
    method GetByIp(ip: Ip) returns (r: Option<nat>)
      requires Valid()
      ensures r.Some? <==> Routable(peers, ip)
      ensures r.Some? ==> OwnsLongest(peers, r.value, ip)
      ensures r.Some? && Disjoint(peers) ==> forall k :: OwnsLongest(peers, k, ip) ==> k == r.value
    {
      LongestMatchIsLongest(ips, ip, Width(ip.v6));
      var m := LongestMatch(ips, ip, Width(ip.v6));
      if m.None? {
        return None;
      }
      r := Some(ips[m.value]);
      assert m.value in peers[r.value] && IsLongest(peers, m.value, ip);
      if Disjoint(peers) {
        forall k | OwnsLongest(peers, k, ip) ensures k == r.value {
          OwnerIsUnique(peers, k, r.value, ip);
        }
      }
    }

    /** A session index leads to the session and to the peer whose key it carries. */
    method GetSessionByIndex(i: nat) returns (r: Option<(Session, nat)>)
      ensures r.Some? <==> i in sessions.indexes && sessions.indexes[i].peer in peers
      ensures r.Some? ==> r.value.0 == sessions.indexes[i] && r.value.1 == sessions.indexes[i].peer
      ensures r.Some? && Inverse(sessions.View()) ==> r.value.0.senderIndex == i
    {
      var s := sessions.GetByIndex(i);
      r := if s.Some? && s.value.peer in peers then Some((s.value, s.value.peer)) else None;
    }
  }
}
