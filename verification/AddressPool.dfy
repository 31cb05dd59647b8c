/** Address assignment in a network: `generate_ip` and the config request around it. */
module AddressPool {
  import opened Options
  import opened Counting

  /** The outcome of a config request, as far as the address is concerned. */
  datatype Reply = Address(a: nat) | PeerNotFound | Exhausted

  type Peers = map<nat, Option<nat>>

  function Taken(peers: Peers): (t: set<nat>)
    ensures forall k :: k in peers && peers[k].Some? ==> peers[k].value in t
    ensures forall a :: a in t ==> exists k :: k in peers && peers[k] == Some(a)
  {
    set k | k in peers && peers[k].Some? :: peers[k].value
  }

  function Holders(peers: Peers): set<nat> {
    set k | k in peers && peers[k].Some?
  }

  /** Addresses are pairwise distinct. */
  ghost predicate OneEach(peers: Peers) {
    forall k, k' :: k in Holders(peers) && k' in Holders(peers) && k != k' ==> peers[k].value != peers[k'].value
  }

  ghost predicate Inside(base: nat, size: nat, peers: Peers) {
    forall a :: a in Taken(peers) ==> base + 2 <= a < base + size
  }

  /** The m addresses from offset 2 up. */
  function Block(base: nat, m: nat): (s: set<nat>)
    ensures forall a :: a in s <==> base + 2 <= a < base + 2 + m
    ensures |s| == m
  {
    if m == 0 then {} else Block(base, m - 1) + {base + 1 + m}
  }

  /** The assigned addresses are a block without gaps. */
  ghost predicate Dense(base: nat, peers: Peers) {
    Taken(peers) == Block(base, |Taken(peers)|)
  }

  class Network {
    const base: nat
    const size: nat
    var peers: Peers

    constructor (base: nat, size: nat, peers: Peers)
      ensures this.base == base && this.size == size && this.peers == peers
    {
      this.base, this.size, this.peers := base, size, peers;
    }

    /** The lowest address at offset 2 or more that no peer holds. */
    method GenerateIp() returns (r: Option<nat>)
      ensures r.Some? ==> base + 2 <= r.value < base + size && r.value !in Taken(peers)
      ensures r.Some? ==> forall a :: base + 2 <= a < r.value ==> a in Taken(peers)
      ensures r.None? ==> forall a :: base + 2 <= a < base + size ==> a in Taken(peers)
    {
      var taken := Taken(peers);
      var offset := 2;
      while offset < size
        invariant 2 <= offset
        invariant forall a :: base + 2 <= a < base + offset ==> a in taken
      {
        if base + offset !in taken {
          return Some(base + offset);
        }
        offset := offset + 1;
      }
      r := None;
    }

    /** A peer that has an address keeps it; a new one gets the lowest free address. */
    method ReqConfig(key: nat) returns (r: Reply)
      modifies this`peers
      ensures r.PeerNotFound? <==> key !in old(peers)
      ensures r.Address? ==> peers == old(peers)[key := Some(r.a)]
      ensures !r.Address? ==> peers == old(peers)
      ensures key in old(peers) && old(peers)[key].Some? ==> r == Address(old(peers)[key].value)
      ensures r.Address? && old(peers)[key].None? ==>
        && base + 2 <= r.a < base + size && r.a !in Taken(old(peers))
        && forall a :: base + 2 <= a < r.a ==> a in Taken(old(peers))
      ensures r.Exhausted? ==> |Holders(peers)| + 2 >= size
      ensures old(OneEach(peers)) ==> OneEach(peers)
      ensures old(Inside(base, size, peers)) ==> Inside(base, size, peers)
      ensures old(Dense(base, peers)) ==> Dense(base, peers)
    {
      if key !in peers {
        return PeerNotFound;
      }
      if peers[key].Some? {
        assert peers[key := Some(peers[key].value)] == peers;
        return Address(peers[key].value);
      }
      hide Taken, Holders, OneEach, Inside, Dense;
      var gen := GenerateIp();
      if gen.None? {
        Pigeonhole(base, size, peers);
        return Exhausted;
      }
      StaysApart(base, size, peers, key, gen.value);
      if Dense(base, peers) {
        StaysDense(base, peers, key, gen.value);
      }
      peers := peers[key := gen];
      r := Address(gen.value);
    }
  }

  /** There are no more addresses than holders. */
  lemma {:induction false} TakenCount(peers: Peers)
    ensures |Taken(peers)| <= |Holders(peers)|
    decreases |Holders(peers)|
  {
    hide Taken;
    if Taken(peers) != {} {
      var a :| a in Taken(peers);
      var k :| k in peers && peers[k] == Some(a);
      var rest := peers - {k};
      assert Holders(rest) == Holders(peers) - {k};
      TakenCount(rest);
      forall x | x in Taken(peers) ensures x in Taken(rest) + {a} {
        var j :| j in peers && peers[j] == Some(x);
        assert j != k ==> j in rest && rest[j] == Some(x);
      }
      SubsetCount(Taken(peers), Taken(rest) + {a});
    }
  }

  /** If every address from offset 2 up is taken, the peers fill the network. */
  lemma Pigeonhole(base: nat, size: nat, peers: Peers)
    requires forall a :: base + 2 <= a < base + size ==> a in Taken(peers)
    ensures |Holders(peers)| + 2 >= size
  {
    if size > 2 {
      SubsetCount(Block(base, size - 2), Taken(peers));
      TakenCount(peers);
    }
  }

  lemma NowTaken(peers: Peers, key: nat, a: nat)
    requires key in peers && peers[key].None?
    ensures Taken(peers[key := Some(a)]) == Taken(peers) + {a}
  {
    hide Taken;
    var peers' := peers[key := Some(a)];
    forall x | x in Taken(peers) + {a} ensures x in Taken(peers') {
      if x != a {
        var k :| k in peers && peers[k] == Some(x);
        assert k in peers' && peers'[k] == Some(x);
      } else {
        assert key in peers' && peers'[key] == Some(a);
      }
    }
    forall x | x in Taken(peers') ensures x in Taken(peers) + {a} {
      var k :| k in peers' && peers'[k] == Some(x);
      assert k != key ==> k in peers && peers[k] == Some(x);
    }
  }

  /** Taking the lowest free address keeps a block a block. */
  lemma StaysDense(base: nat, peers: Peers, key: nat, a: nat)
    requires key in peers && peers[key].None? && base + 2 <= a && a !in Taken(peers)
    requires forall x :: base + 2 <= x < a ==> x in Taken(peers)
    requires Dense(base, peers)
    ensures Dense(base, peers[key := Some(a)])
  {
    hide Taken;
    NowTaken(peers, key, a);
    var m := |Taken(peers)|;
    assert base + 2 + m !in Taken(peers);
    assert a == base + 2 + m;
    assert Block(base, m + 1) == Block(base, m) + {a};
  }

  lemma StaysApart(base: nat, size: nat, peers: Peers, key: nat, a: nat)
    requires key in peers && peers[key].None? && base + 2 <= a < base + size && a !in Taken(peers)
    ensures OneEach(peers) ==> OneEach(peers[key := Some(a)])
    ensures Inside(base, size, peers) ==> Inside(base, size, peers[key := Some(a)])
  {
    hide Taken;
    NowTaken(peers, key, a);
  }

  lemma EmptyPool(base: nat, size: nat, peers: Peers)
    requires Taken(peers) == {}
    ensures OneEach(peers) && Inside(base, size, peers) && Dense(base, peers)
  {
    assert forall k :: k in peers ==> peers[k].None?;
  }

  /** A network that starts without addresses hands them out in a row: after any
      requests the holders have exactly the addresses from offset 2 up. */
  method ServeAll(n: Network, keys: seq<nat>) returns (replies: seq<Reply>)
    requires Taken(n.peers) == {}
    modifies n
    ensures |replies| == |keys| && OneEach(n.peers)
    ensures Dense(n.base, n.peers) && Inside(n.base, n.size, n.peers)
    ensures forall i :: 0 <= i < |keys| && replies[i].Address? ==>
        keys[i] in n.peers && n.peers[keys[i]] == Some(replies[i].a)
  {
    hide Taken, Holders, OneEach, Dense, Inside;
    EmptyPool(n.base, n.size, n.peers);
    replies := [];
    for j := 0 to |keys|
      invariant |replies| == j
      invariant OneEach(n.peers) && Inside(n.base, n.size, n.peers) && Dense(n.base, n.peers)
      invariant forall i :: 0 <= i < j && replies[i].Address? ==>
        keys[i] in n.peers && n.peers[keys[i]] == Some(replies[i].a)
    {
      var r := n.ReqConfig(keys[j]);
      replies := replies + [r];
    }
  }
}
