/** What the replay filter of a session promises, stated on the plain list of
    accepted counters (the "history"), with no bitmap in sight.

    `Admits` is the decision, `Receive` one guarded accept and `ReceiveAll` a
    whole run of arrivals. NonceFilter.dfy proves that the ring bitmap takes
    exactly these decisions. */
module ReplayWindow {

  /** MAX_REPLAY_SIZE */
  const WINDOW: nat := 1024

  /** u64::MAX - (1 << 13): the device drops transport packets above it. */
  const REJECT_AFTER_MESSAGES: nat := 0xFFFF_FFFF_FFFF_FFFF - 8192

  /** One past the largest accepted counter. */
  function Next(h: seq<nat>): nat {
    if h == [] then 0
    else
      var n := Next(h[..|h| - 1]);
      var c := h[|h| - 1];
      if c < n then n else c + 1
  }

  /** Counter 0's bit is left behind in the slot of counter 1024: the first
      counter to reach 1024 came less than a window past `Next`, so the ring was
      advanced one by one over a slot that `advance` does not clear, and 0 had
      been accepted by then. */
  predicate Stale(h: seq<nat>) {
    h != [] &&
    var before, c := h[..|h| - 1], h[|h| - 1];
    Stale(before) || (Next(before) <= WINDOW <= c < Next(before) + WINDOW && 0 in before)
  }

  /** The decision of `can_accept`. */
  predicate Admits(h: seq<nat>, c: nat) {
    || Next(h) <= c
    || (Next(h) < c + WINDOW && c !in h && !(c == WINDOW && Stale(h)))
  }

  ghost predicate Distinct<T>(s: seq<T>) {
    forall i, j :: 0 <= i < j < |s| ==> s[i] != s[j]
  }

  lemma {:induction false} NextBounds(h: seq<nat>, c: nat)
    requires c in h
    ensures c < Next(h)
  {
    if c != h[|h| - 1] {
      NextBounds(h[..|h| - 1], c);
    }
  }

  lemma {:induction false} AboveAll(h: seq<nat>, c: nat)
    requires forall d :: d in h ==> d < c
    ensures Next(h) <= c
  {
    if h != [] {
      var front := h[..|h| - 1];
      assert h[|h| - 1] in h;
      forall d | d in front ensures d < c {
        assert d in h;
      }
      AboveAll(front, c);
    }
  }

  lemma {:induction false} StaleIsPastWindow(h: seq<nat>)
    requires Stale(h)
    ensures WINDOW < Next(h) && 0 in h
  {
    if Stale(h[..|h| - 1]) {
      StaleIsPastWindow(h[..|h| - 1]);
    }
  }

  /** Distinct counters below n are at most n many. */
  lemma {:induction false} DistinctBelow(h: seq<nat>, n: nat)
    requires Distinct(h)
    requires forall c :: c in h ==> c < n
    ensures |h| <= n
  {
    DistinctCount(h);
    BoundedCount((set c: nat | c in h), n);
  }

  lemma {:induction false} DistinctCount(h: seq<nat>)
    requires Distinct(h)
    ensures |set c: nat | c in h| == |h|
  {
    if h != [] {
      var before := h[..|h| - 1];
      DistinctCount(before);
      assert (set c: nat | c in h) == (set c: nat | c in before) + {h[|h| - 1]};
    }
  }

  lemma {:induction false} BoundedCount(s: set<nat>, n: nat)
    requires forall c :: c in s ==> c < n
    ensures |s| <= n
  {
    if n == 0 {
      assert s == {};
    } else {
      BoundedCount(s - {n - 1}, n - 1);
    }
  }

  /** The history grown by one counter. */
  lemma OneMore(h: seq<nat>, c: nat)
    ensures Next(h + [c]) == if c < Next(h) then Next(h) else c + 1
    ensures Stale(h + [c]) == (Stale(h) || (Next(h) <= WINDOW <= c < Next(h) + WINDOW && 0 in h))
  {
    assert (h + [c])[..|h|] == h;
  }

  /** One arrival: accepted if admitted, dropped otherwise. */
  function Receive(h: seq<nat>, c: nat): seq<nat> {
    if Admits(h, c) then h + [c] else h
  }

  function ReceiveAll(h: seq<nat>, arrivals: seq<nat>): seq<nat>
    decreases |arrivals|
  {
    if arrivals == [] then h else ReceiveAll(Receive(h, arrivals[0]), arrivals[1..])
  }

  lemma AdmitsIsNew(h: seq<nat>, c: nat)
    requires Admits(h, c)
    ensures c !in h
  {
    if c in h {
      NextBounds(h, c);
    }
  }

  /** The rule without its bookkeeping: a counter is admitted exactly if it is new,
      no accepted counter is 1023 or more above it, and it is not 1024 with a stale
      slot. */
  lemma AdmitsExactly(h: seq<nat>, c: nat)
    ensures Admits(h, c) <==> c !in h && (forall d :: d in h ==> d < c + 1023) && !(c == 1024 && Stale(h))
  {
    if Admits(h, c) {
      AdmitsIsNew(h, c);
      forall d | d in h ensures d < c + 1023 {
        NextBounds(h, d);
      }
      if Stale(h) {
        StaleIsPastWindow(h);
      }
    } else if forall d :: d in h ==> d < c + 1023 {
      AboveAll(h, c + 1023);
    }
  }

  /** No counter is accepted twice, whatever arrives in whatever order. */
  lemma {:induction false} NeverTwice(h: seq<nat>, arrivals: seq<nat>)
    requires Distinct(h)
    ensures Distinct(ReceiveAll(h, arrivals))
    decreases |arrivals|
  {
    if arrivals != [] {
      if Admits(h, arrivals[0]) {
        AdmitsIsNew(h, arrivals[0]);
      }
      NeverTwice(Receive(h, arrivals[0]), arrivals[1..]);
    }
  }

  /** Nothing is accepted that did not arrive, and an accepted counter stays accepted. */
  lemma {:induction false} OnlyArrivals(h: seq<nat>, arrivals: seq<nat>)
    ensures h <= ReceiveAll(h, arrivals)
    ensures forall c :: c in ReceiveAll(h, arrivals) ==> c in h || c in arrivals
    decreases |arrivals|
  {
    if arrivals != [] {
      OnlyArrivals(Receive(h, arrivals[0]), arrivals[1..]);
    }
  }

  lemma {:induction false} ReceiveAllSplit(h: seq<nat>, a: seq<nat>, b: seq<nat>)
    ensures ReceiveAll(h, a + b) == ReceiveAll(ReceiveAll(h, a), b)
    decreases |a|
  {
    if a == [] {
      assert a + b == b;
    } else {
      assert (a + b)[1..] == a[1..] + b;
      ReceiveAllSplit(Receive(h, a[0]), a[1..], b);
    }
  }

  /** Reordering by less than a window loses nothing: a counter other than 1024
      that arrives when every counter accepted before it lies less than a window
      above it has been accepted once the run is over. */
  lemma {:induction false} LateArrivalIsKept(h: seq<nat>, before: seq<nat>, c: nat, after: seq<nat>)
    requires c != WINDOW
    requires forall x :: x in ReceiveAll(h, before) ==> x < c + WINDOW - 1
    ensures c in ReceiveAll(h, before + [c] + after)
  {
    var g := ReceiveAll(h, before);
    NextIsAttained(g);
    assert Receive(g, c) == ReceiveAll(g, [c]) by {
      assert [c][1..] == [];
    }
    ReceiveAllSplit(h, before, [c]);
    ReceiveAllSplit(h, before + [c], after);
    OnlyArrivals(Receive(g, c), after);
  }

  lemma {:induction false} NextIsAttained(h: seq<nat>)
    ensures h != [] ==> Next(h) - 1 in h
  {
    if h != [] {
      NextIsAttained(h[..|h| - 1]);
    }
  }

  /** The counter 1024 is the one never-accepted counter inside the window that
      can be refused, and it is refused exactly when `Stale` holds. */
  lemma RefusedNewCounter(h: seq<nat>, c: nat)
    requires c !in h && Next(h) < c + WINDOW
    ensures !Admits(h, c) <==> c == WINDOW && Stale(h)
  {
    if Stale(h) {
      StaleIsPastWindow(h);
    }
  }

  /** Counter 0, then 1025 after 1023: 1024 is refused although it never arrived. */
  lemma RefusalExample()
    ensures Stale([0, 1023, 1025])
    ensures 1024 !in [0, 1023, 1025] && Next([0, 1023, 1025]) == 1026
    ensures !Admits([0, 1023, 1025], 1024)
    ensures !Stale([1, 1023, 1025]) && Admits([1, 1023, 1025], 1024)
  {
    assert [0, 1023, 1025][..2] == [0, 1023] && [0, 1023][..1] == [0] && [0][..0] == [];
    assert [1, 1023, 1025][..2] == [1, 1023] && [1, 1023][..1] == [1] && [1][..0] == [];
  }
}
