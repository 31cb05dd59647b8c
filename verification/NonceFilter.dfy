/** The replay filter itself: a 1024-bit ring of sixteen 64-bit words whose
    phase moves with `next`. Its contracts are stated on the history of accepted
    counters, see ReplayWindow.dfy. */
module NonceFilters {
  import opened ReplayWindow

  newtype u64 = x: int | 0 <= x < 0x1_0000_0000_0000_0000

  const LAST_COUNTER: u64 := REJECT_AFTER_MESSAGES as u64

  /** The ring slot `offset` places before the phase. */
  function Slot(phase: nat, offset: nat): (k: nat)
    requires phase < WINDOW && offset <= WINDOW
    ensures k < WINDOW
  {
    if phase >= offset then phase - offset else WINDOW + phase - offset
  }

  class NonceFilter {
    var next: u64
    var accepted: u64
    /** Bit b of word w is words[w, b]. */
    const words: array2<bool>
    var phase: nat
    /** Every counter passed to `Accept`, in order. */
    ghost var history: seq<nat>

    ghost predicate Shape()
      reads this`phase
    {
      words.Length0 == 16 && words.Length1 == 64 && phase < WINDOW
    }

    ghost predicate SlotBit(k: nat)
      requires words.Length0 == 16 && words.Length1 == 64 && k < WINDOW
      reads words
    {
      words[k / 64, k % 64]
    }

    /** Counters i in the window [next - 1024, next) that lie in `h`, and 1024 if `stale`. */
    ghost predicate Marked(i: int, h: seq<nat>, stale: bool) {
      (i >= 0 && i in h) || (i == WINDOW && stale)
    }

    /** The ring, read back from the phase, spells the window of `h`. */
    ghost predicate Holds(h: seq<nat>, stale: bool)
      requires Shape()
      reads this`next, this`phase, words
    {
      forall o: nat :: 1 <= o <= WINDOW ==>
        SlotBit(Slot(phase, o)) == Marked(next as int - o, h, stale)
    }

    ghost predicate Valid()
      reads this, words
    {
      && Shape()
      && next as int == Next(history)
      && next <= LAST_COUNTER + 1
      && accepted as int == |history|
      && Distinct(history)
      && Holds(history, Stale(history))
    }

    constructor ()
      ensures Valid() && history == [] && fresh(words)
    {
      next, accepted, phase := 0, 0, 0;
      words := new bool[16, 64]((_, _) => false);
      history := [];
    }

    /** Word and bit of counter `i`, counted back from the phase. */
    method BitmapIndex(i: u64) returns (word: nat, bit: nat)
      requires Shape() && i <= next && next as int - i as int <= WINDOW
      ensures word < 16 && bit < 64
      ensures word * 64 + bit == Slot(phase, next as int - i as int)
    {
      var offset := (next - i) as nat;
      var k := if phase >= offset then phase - offset else WINDOW + phase - offset;
      word := k / 64;
      bit := k - word * 64;
    }

    method IsSet(i: u64) returns (r: bool)
      requires Shape() && i <= next && next as int - i as int <= WINDOW
      ensures r == SlotBit(Slot(phase, next as int - i as int))
    {
      var word, bit := BitmapIndex(i);
      r := words[word, bit];
    }

    method Set(i: u64)
      requires Shape() && i <= next && next as int - i as int <= WINDOW
      modifies words
      ensures forall k: nat :: k < WINDOW ==>
        SlotBit(k) == (k == Slot(phase, next as int - i as int) || old(SlotBit(k)))
    {
      var word, bit := BitmapIndex(i);
      words[word, bit] := true;
    }

    method Unset(i: u64)
      requires Shape() && i <= next && next as int - i as int <= WINDOW
      modifies words
      ensures forall k: nat :: k < WINDOW ==>
        SlotBit(k) == (k != Slot(phase, next as int - i as int) && old(SlotBit(k)))
    {
      var word, bit := BitmapIndex(i);
      words[word, bit] := false;
    }

    /** Whether a counter may still be accepted: exactly `Admits` of the history. */
    method CanAccept(counter: u64) returns (r: bool)
      requires Valid()
      ensures r == Admits(history, counter as nat)
    {
      if counter >= next {
        return true;
      }
      if counter + WINDOW as u64 <= next {
        return false;
      }
      var used := IsSet(counter);
      r := !used;
    }

    /** One step of the ring. Slot 1024 keeps counter 0's bit: the guard is
        `next > 1024`. */
    method Advance(ghost h: seq<nat>, ghost stale: bool)
      requires Shape() && next <= LAST_COUNTER
      requires forall c :: c in h ==> c < next as int
      requires Holds(h, stale)
      requires next as int == WINDOW ==> stale == (0 in h)
      modifies this`next, this`phase, words
      ensures Shape() && next == old(next) + 1
      ensures Holds(h, stale)
    {
      hide SlotBit;
      assert SlotBit(Slot(phase, WINDOW)) == Marked(next as int - WINDOW, h, stale);
      if next > WINDOW as u64 {
        Unset(next - WINDOW as u64);
      }
      assert SlotBit(phase) == Marked(next as int, h, stale);
      ghost var was := phase;
      next := next + 1;
      phase := (phase + 1) % WINDOW;
      forall o: nat | 1 <= o <= WINDOW
        ensures SlotBit(Slot(phase, o)) == Marked(next as int - o, h, stale)
      {
        assert Slot(phase, o) == Slot(was, o - 1);
      }
    }

    /** Starts over with an empty ring in which `counter` is the last slot. */
    method Wipe(counter: u64)
      requires Shape() && counter <= LAST_COUNTER
      modifies this`next, this`phase, words
      ensures Shape() && next == counter + 1
      ensures forall k: nat :: k < WINDOW ==> !SlotBit(k)
    {
      forall w, b | 0 <= w < words.Length0 && 0 <= b < words.Length1 {
        words[w, b] := false;
      }
      phase := 0;
      next := counter + 1;
    }

    /** Moves the window so that it ends with `counter`: by a wipe when it lies a
        window or more ahead, otherwise step by step. */
    method CatchUp(counter: u64, ghost h: seq<nat>, ghost stale: bool) returns (ghost advances: nat)
      requires Shape() && next <= counter <= LAST_COUNTER
      requires Holds(h, stale)
      requires forall c :: c in h ==> c < next as int
      requires next as int <= WINDOW ==> stale == (0 in h)
      modifies this`next, this`phase, words
      ensures Shape() && next == counter + 1
      ensures Holds(h, stale && (counter - old(next)) as int < WINDOW)
      ensures advances <= WINDOW
    {
      hide SlotBit;
      advances := 0;
      if counter > next && (counter - next) as int >= WINDOW {
        Wipe(counter);
        return;
      }
      while next < counter
        invariant Shape() && old(next) <= next <= counter
        invariant advances == next as int - old(next) as int
        invariant Holds(h, stale)
      {
        Advance(h, stale);
        advances := advances + 1;
      }
      Advance(h, stale);
      advances := advances + 1;
    }

    /** Sets the bit of a counter inside the window. */
    method Mark(counter: u64, ghost h: seq<nat>, ghost stale: bool)
      requires Shape() && Holds(h, stale)
      requires counter < next && next as int - counter as int <= WINDOW
      modifies words
      ensures Holds(h + [counter as nat], stale)
    {
      hide SlotBit;
      Set(counter);
    }

    /** The stale mark only matters while 1024 is inside the window. */
    lemma HoldsFor(h: seq<nat>, stale: bool, stale': bool)
      requires Shape() && Holds(h, stale)
      requires stale == stale' || next as int <= WINDOW || 2 * WINDOW < next as int
      ensures Holds(h, stale')
    {}

    /** The ring's part of accepting `counter`. */
    method Record(counter: u64, ghost h: seq<nat>) returns (ghost advances: nat)
      requires Shape() && next as int == Next(h) && Holds(h, Stale(h))
      requires counter <= LAST_COUNTER && Distinct(h) && Admits(h, counter as nat)
      modifies this`next, this`phase, words
      ensures Shape() && Holds(h + [counter as nat], Stale(h + [counter as nat]))
      ensures next == if counter < old(next) then old(next) else counter + 1
      ensures advances <= WINDOW
    {
      hide SlotBit, Next, Stale, Admits;
      Accepting(h, counter as nat);
      ghost var stale := Carry(h);
      HoldsFor(h, Stale(h), stale);
      advances := 0;
      if counter >= next {
        advances := CatchUp(counter, h, stale);
        stale := stale && (counter - old(next)) as int < WINDOW;
      }
      Mark(counter, h, stale);
      HoldsFor(h + [counter as nat], stale, Stale(h + [counter as nat]));
    }

    /** Accepts an admitted counter. `advances` counts the ring steps taken. */
    method Accept(counter: u64) returns (ghost advances: nat)
      requires Valid() && counter <= LAST_COUNTER
      requires Admits(history, counter as nat)
      modifies this, words
      ensures Valid()
      ensures history == old(history) + [counter as nat]
      ensures advances <= WINDOW
    {
      hide SlotBit, Next, Stale, Admits, Holds;
      Accepting(history, counter as nat);
      accepted := accepted + 1;
      advances := Record(counter, history);
      history := history + [counter as nat];
    }
  }

  /** The stale mark as the ring carries it: before the window is full it is
      counter 0's own bit. */
  ghost predicate Carry(h: seq<nat>) {
    if Next(h) <= WINDOW then 0 in h else Stale(h)
  }

  /** What accepting `c` does to the history. */
  lemma Accepting(h: seq<nat>, c: nat)
    requires Distinct(h) && Admits(h, c)
    ensures Distinct(h + [c]) && |h| <= Next(h)
    ensures forall x :: x in h ==> x < Next(h)
    ensures Next(h + [c]) == if c < Next(h) then Next(h) else c + 1
    ensures c < Next(h) ==> Next(h) < c + WINDOW
    ensures Stale(h) ==> WINDOW < Next(h)
    ensures c < Next(h) ==> Carry(h) == Stale(h + [c]) || Next(h) <= WINDOW
    ensures Next(h) <= c ==>
      (Carry(h) && c - Next(h) < WINDOW) == Stale(h + [c]) || c < WINDOW || 2 * WINDOW <= c
  {
    hide Next, Stale;
    AdmitsIsNew(h, c);
    forall x | x in h ensures x < Next(h) {
      NextBounds(h, x);
    }
    DistinctBelow(h, Next(h));
    if Stale(h) {
      StaleIsPastWindow(h);
    }
    OneMore(h, c);
  }
}
