/** When a peer starts a handshake: `HandshakeMonitor` and `can_handshake` over
    clocks that are stored in whole milliseconds. Time is in nanoseconds. */
module RekeyMonitor {

  const MS: nat := 1_000_000
  const SECOND: nat := 1_000_000_000
  const REKEY_AFTER_MESSAGES: nat := 0x1000_0000_0000_0000
  const REKEY_AFTER_TIME: nat := 120 * SECOND
  const REJECT_AFTER_TIME: nat := 180 * SECOND
  const REKEY_ATTEMPT_TIME: nat := 90 * SECOND
  const REKEY_TIMEOUT: nat := 5 * SECOND

  /** `AtomicInstant`: whole milliseconds since an epoch. */
  datatype Stamp = Stamp(epoch: nat, ms: nat) {
    function Std(): nat {
      epoch + ms * MS
    }

    function SetNow(now: nat): Stamp {
      Stamp(epoch, Reading(epoch, now))
    }

    function Add(d: nat): Stamp {
      Stamp(epoch, ms + d / MS)
    }

    function Elapsed(now: nat): nat {
      Since(Std(), now)
    }
  }

  function Since(t: nat, now: nat): nat {
    if now >= t then now - t else 0
  }

  /** The whole milliseconds from `epoch` to t. */
  function Reading(epoch: nat, t: nat): nat {
    Since(epoch, t) / MS
  }

  datatype Monitor = Monitor(lastAttempt: Stamp, lastComplete: Stamp, attemptBefore: Stamp, sent: nat)

  function NewMonitor(now: nat): Monitor
    requires now >= REJECT_AFTER_TIME
  {
    Monitor(Stamp(now - REKEY_TIMEOUT, 0), Stamp(now - REJECT_AFTER_TIME, 0), Stamp(now, 0).Add(REKEY_ATTEMPT_TIME), 0)
  }

  function Initiated(m: Monitor, now: nat): Monitor {
    m.(lastAttempt := m.lastAttempt.SetNow(now))
  }

  function ResetAttempt(m: Monitor, now: nat): Monitor {
    m.(attemptBefore := m.attemptBefore.SetNow(now).Add(REKEY_ATTEMPT_TIME))
  }

  function Completed(m: Monitor, now: nat): Monitor {
    ResetAttempt(m.(lastComplete := m.lastComplete.SetNow(now)), now)
  }

  function WillInitiateIn(m: Monitor, now: nat): nat {
    if m.attemptBefore.Std() < now || m.lastComplete.Elapsed(now) < REKEY_AFTER_TIME then now + REKEY_TIMEOUT
    else m.lastAttempt.Std() + REKEY_TIMEOUT
  }

  /** The decision, and the monitor it leaves: asking may move the attempt deadline. */
  function CanHandshake(m: Monitor, now: nat): (bool, Monitor) {
    if m.sent >= REKEY_AFTER_MESSAGES then (true, m)
    else if m.lastComplete.Elapsed(now) < REKEY_AFTER_TIME then (false, m)
    else
      var m' := if m.attemptBefore.Std() < m.lastComplete.Std() + REKEY_AFTER_TIME then ResetAttempt(m, now) else m;
      (m'.lastAttempt.Elapsed(now) >= REKEY_TIMEOUT, m')
  }

  class PeerMonitor {
    var lastAttempt: Stamp
    var lastComplete: Stamp
    var attemptBefore: Stamp
    var sent: nat

    function View(): Monitor
      reads this
    {
      Monitor(lastAttempt, lastComplete, attemptBefore, sent)
    }

    constructor (now: nat)
      requires now >= REJECT_AFTER_TIME
      ensures View() == NewMonitor(now)
    {
      lastAttempt := Stamp(now - REKEY_TIMEOUT, 0);
      lastComplete := Stamp(now - REJECT_AFTER_TIME, 0);
      attemptBefore := Stamp(now, 0).Add(REKEY_ATTEMPT_TIME);
      sent := 0;
    }

    method MarkInitiated(now: nat)
      modifies this`lastAttempt
      ensures View() == Initiated(old(View()), now)
    {
      lastAttempt := lastAttempt.SetNow(now);
    }

    method ResetDeadline(now: nat)
      modifies this`attemptBefore
      ensures View() == ResetAttempt(old(View()), now)
    {
      attemptBefore := attemptBefore.SetNow(now);
      attemptBefore := attemptBefore.Add(REKEY_ATTEMPT_TIME);
    }

    method MarkCompleted(now: nat)
      modifies this`lastComplete, this`attemptBefore
      ensures View() == Completed(old(View()), now)
      ensures lastComplete.epoch <= now ==> lastComplete.Std() <= now < lastComplete.Std() + MS
      ensures attemptBefore.epoch <= now ==>
        attemptBefore.Std() <= now + 90 * SECOND < attemptBefore.Std() + MS
    {
      lastComplete := lastComplete.SetNow(now);
      ResetDeadline(now);
    }

    /** A handshake is due if 2^60 packets were sent or both waiting times are over.
        The attempt deadline moves, to 90 seconds from now, exactly if neither the
        packets nor the quiet time decide and it lies before the end of the latter. */
    method MayHandshake(now: nat) returns (r: bool)
      modifies this`attemptBefore
      ensures (r, View()) == CanHandshake(old(View()), now)
      ensures r <==>
        || sent >= 0x1000_0000_0000_0000
        || (now >= lastComplete.Std() + 120 * SECOND && now >= lastAttempt.Std() + 5 * SECOND)
      ensures attemptBefore != old(attemptBefore) <==>
        && sent < 0x1000_0000_0000_0000
        && now >= lastComplete.Std() + 120 * SECOND > old(attemptBefore).Std()
      ensures attemptBefore != old(attemptBefore) ==>
        attemptBefore.Std() <= now + 90 * SECOND < attemptBefore.Std() + MS
    {
      if sent >= REKEY_AFTER_MESSAGES {
        return true;
      }
      if lastComplete.Elapsed(now) < REKEY_AFTER_TIME {
        return false;
      }
      if attemptBefore.Std() < lastComplete.Std() + REKEY_AFTER_TIME {
        ResetDeadline(now);
      }
      r := lastAttempt.Elapsed(now) >= REKEY_TIMEOUT;
    }
  }

  // ---------- one call ----------

  /** The decision never depends on the attempt deadline: a peer does not give up. */
  lemma DecisionExactly(m: Monitor, now: nat)
    ensures CanHandshake(m, now).0 <==>
      || m.sent >= 0x1000_0000_0000_0000
      || (now >= m.lastComplete.Std() + 120 * SECOND && now >= m.lastAttempt.Std() + 5 * SECOND)
    ensures CanHandshake(m, now).1.lastAttempt == m.lastAttempt
    ensures CanHandshake(m, now).1.lastComplete == m.lastComplete && CanHandshake(m, now).1.sent == m.sent
    ensures CanHandshake(m, now).1.attemptBefore.epoch == m.attemptBefore.epoch
  {}

  /** A new peer handshakes at once. */
  lemma NewPeerMayHandshake(now: nat)
    requires now >= REJECT_AFTER_TIME
    ensures CanHandshake(NewMonitor(now), now).0
    ensures var m := NewMonitor(now);
      && m.lastAttempt.Std() == now - 5 * SECOND && m.lastComplete.Std() == now - 180 * SECOND
      && m.attemptBefore.Std() == now + 90 * SECOND && m.sent == 0
  {}

  /** Outside the quiet time after a completion and before the attempt deadline,
      the wake-up is exactly the first instant at which a handshake is due. */
  lemma WakesWhenDue(m: Monitor, now: nat, t: nat)
    requires m.sent < REKEY_AFTER_MESSAGES && now <= t
    requires now <= m.attemptBefore.Std() && m.lastComplete.Std() + REKEY_AFTER_TIME <= now
    ensures CanHandshake(m, t).0 <==> WillInitiateIn(m, now) <= t
    ensures WillInitiateIn(m, now) == m.lastAttempt.Std() + 5 * SECOND
  {
    DecisionExactly(m, t);
  }

  /** During the quiet time after a completion and past the attempt deadline the
      loop looks again in five seconds. */
  lemma WakesInFiveSeconds(m: Monitor, now: nat)
    requires now < m.lastComplete.Std() + 120 * SECOND || m.attemptBefore.Std() < now
    ensures WillInitiateIn(m, now) == now + 5 * SECOND
  {}

  /** After a deadline has been moved it is not moved again before the next completion. */
  lemma DeadlineMovesOnce(m: Monitor, now: nat, later: nat)
    requires m.attemptBefore.epoch <= now
    requires CanHandshake(m, now).1 != m
    ensures CanHandshake(CanHandshake(m, now).1, later).1 == CanHandshake(m, now).1
  {}

  // ---------- runs ----------

  /** What happens to a monitor: the handshake loop decides and, if it goes ahead,
      later marks the initiation; the inbound loop marks answers and completions. */
  datatype Happening = Decide | LoopInitiated | Answered | Finished | PacketSent

  datatype Event = Event(at: nat, what: Happening)

  /** `armed` while the loop is between its decision and `initiated`. */
  datatype Life = Life(
    m: Monitor, armed: bool, now: nat, attempts: seq<nat>, answers: seq<nat>, decisions: seq<nat>,
    completions: seq<nat>)

  function Begin(now: nat): Life
    requires now >= REJECT_AFTER_TIME
  {
    Life(NewMonitor(now), false, now, [], [], [], [])
  }

  /** An event out of time order does not happen. */
  function Next(l: Life, e: Event): Life {
    if e.at < l.now then l else
    var l := l.(now := e.at);
    match e.what
    case Decide =>
      if l.armed then l else
      var (go, m) := CanHandshake(l.m, e.at);
      l.(m := m, armed := go, decisions := if go then l.decisions + [e.at] else l.decisions)
    case LoopInitiated =>
      if !l.armed then l
      else l.(m := Initiated(l.m, e.at), armed := false, attempts := l.attempts + [e.at])
    case Answered => l.(m := Initiated(l.m, e.at), answers := l.answers + [e.at])
    case Finished => l.(m := Completed(l.m, e.at), completions := l.completions + [e.at])
    case PacketSent => l.(m := l.m.(sent := l.m.sent + 1))
  }

  function Live(start: nat, events: seq<Event>): Life
    requires start >= REJECT_AFTER_TIME
  {
    if events == [] then Begin(start) else Next(Live(start, events[..|events| - 1]), events[|events| - 1])
  }

  predicate Spaced(epoch: nat, times: seq<nat>) {
    forall i, j :: 0 <= i < j < |times| ==> Reading(epoch, times[i]) + 5000 <= Reading(epoch, times[j])
  }

  ghost predicate Clocked(start: nat, l: Life) {
    && l.now >= start >= REJECT_AFTER_TIME
    && l.m.lastAttempt.epoch == start - REKEY_TIMEOUT && l.m.lastComplete.epoch == start - REJECT_AFTER_TIME
    && l.m.attemptBefore.epoch == start
    && l.m.lastAttempt.ms <= Reading(l.m.lastAttempt.epoch, l.now)
    && l.m.lastComplete.ms <= Reading(l.m.lastComplete.epoch, l.now)
  }

  ghost predicate Paced(l: Life) {
    && Spaced(l.m.lastAttempt.epoch, l.attempts)
    && (forall i :: 0 <= i < |l.attempts| ==> Reading(l.m.lastAttempt.epoch, l.attempts[i]) <= l.m.lastAttempt.ms)
    && (l.armed ==> forall i :: 0 <= i < |l.attempts| ==>
          Reading(l.m.lastAttempt.epoch, l.attempts[i]) + 5000 <= Reading(l.m.lastAttempt.epoch, l.now))
    && (forall i :: 0 <= i < |l.answers| ==> Reading(l.m.lastAttempt.epoch, l.answers[i]) <= l.m.lastAttempt.ms)
    && (forall i :: 0 <= i < |l.completions| ==>
          Reading(l.m.lastComplete.epoch, l.completions[i]) <= l.m.lastComplete.ms)
  }

  lemma {:induction false} ClocksAdvance(start: nat, events: seq<Event>)
    requires start >= REJECT_AFTER_TIME
    ensures Clocked(start, Live(start, events))
  {
    if events != [] {
      ClocksAdvance(start, events[..|events| - 1]);
      ClockStep(start, Live(start, events[..|events| - 1]), events[|events| - 1]);
    }
  }

  lemma ReadingGrows(epoch: nat, t: nat, t': nat)
    requires t <= t'
    ensures Reading(epoch, t) <= Reading(epoch, t')
  {}

  lemma ClockStep(start: nat, l: Life, e: Event)
    requires Clocked(start, l)
    ensures Clocked(start, Next(l, e))
  {
    hide Reading, CanHandshake;
    if e.at >= l.now {
      DecisionExactly(l.m, e.at);
      ReadingGrows(l.m.lastAttempt.epoch, l.now, e.at);
      ReadingGrows(l.m.lastComplete.epoch, l.now, e.at);
    }
  }

  lemma PaceStep(start: nat, l: Life, e: Event)
    requires Clocked(start, l) && Paced(l) && Next(l, e).m.sent < REKEY_AFTER_MESSAGES
    ensures Paced(Next(l, e))
  {
    hide Reading, CanHandshake;
    if e.at >= l.now {
      var a := l.m.lastAttempt;
      DecisionExactly(l.m, e.at);
      ReadingGrows(a.epoch, l.now, e.at);
      ReadingGrows(l.m.lastComplete.epoch, l.now, e.at);
      if e.what == Decide && !l.armed && CanHandshake(l.m, e.at).0 {
        FiveSecondsLater(a, e.at);
      }
    }
  }

  lemma FiveSecondsLater(s: Stamp, now: nat)
    requires now >= s.Std() + REKEY_TIMEOUT
    ensures s.ms + 5000 <= Reading(s.epoch, now)
  {}

  lemma {:induction false} RunIsPaced(start: nat, events: seq<Event>)
    requires start >= REJECT_AFTER_TIME && Live(start, events).m.sent < REKEY_AFTER_MESSAGES
    ensures Paced(Live(start, events))
  {
    if events != [] {
      var before := events[..|events| - 1];
      SentGrows(Live(start, before), events[|events| - 1]);
      RunIsPaced(start, before);
      ClocksAdvance(start, before);
      PaceStep(start, Live(start, before), events[|events| - 1]);
    }
  }

  lemma SentGrows(l: Life, e: Event)
    ensures l.m.sent <= Next(l, e).m.sent
  {}

  /** While fewer than 2^60 packets have been sent, any two initiations of the
      loop are at least five seconds apart on the stored clock. */
  lemma InitiationsAreSpaced(start: nat, events: seq<Event>)
    requires start >= REJECT_AFTER_TIME && Live(start, events).m.sent < REKEY_AFTER_MESSAGES
    ensures var l := Live(start, events); Spaced(l.m.lastAttempt.epoch, l.attempts)
  {
    RunIsPaced(start, events);
  }

  /** ... and no initiation is decided within two minutes of any earlier
      completion, again on the stored clock. */
  lemma NoDecisionAfterCompletion(start: nat, events: seq<Event>, e: Event, c: nat)
    requires start >= REJECT_AFTER_TIME && Live(start, events).m.sent < REKEY_AFTER_MESSAGES
    requires var l := Live(start, events); c in l.completions && |Next(l, e).decisions| > |l.decisions|
    ensures var l := Live(start, events);
      e.what == Decide && Reading(l.m.lastComplete.epoch, c) + 120_000 <= Reading(l.m.lastComplete.epoch, e.at)
  {
    RunIsPaced(start, events);
    var l := Live(start, events);
    DecisionExactly(l.m, e.at);
    var i :| 0 <= i < |l.completions| && l.completions[i] == c;
    TwoMinutesLater(l.m.lastComplete, e.at);
  }

  /** ... nor within five seconds of any earlier answer or initiation of its own. */
  lemma NoDecisionAfterAnswer(start: nat, events: seq<Event>, e: Event, c: nat)
    requires start >= REJECT_AFTER_TIME && Live(start, events).m.sent < REKEY_AFTER_MESSAGES
    requires var l := Live(start, events);
      (c in l.answers || c in l.attempts) && |Next(l, e).decisions| > |l.decisions|
    ensures var l := Live(start, events);
      e.what == Decide && Reading(l.m.lastAttempt.epoch, c) + 5000 <= Reading(l.m.lastAttempt.epoch, e.at)
  {
    RunIsPaced(start, events);
    var l := Live(start, events);
    DecisionExactly(l.m, e.at);
    FiveSecondsLater(l.m.lastAttempt, e.at);
  }

  lemma TwoMinutesLater(s: Stamp, now: nat)
    requires now >= s.Std() + REKEY_AFTER_TIME
    ensures s.ms + 120_000 <= Reading(s.epoch, now)
  {}

  /** The loop's wake-up lies at most five seconds ahead; and if it wakes at
      `later` with nothing changed, it may initiate or has slept five seconds, so
      it never spins. */
  lemma LoopNeverSpins(start: nat, events: seq<Event>, later: nat)
    requires start >= REJECT_AFTER_TIME
    requires var l := Live(start, events); l.now <= later && WillInitiateIn(l.m, l.now) <= later
    ensures var l := Live(start, events);
      && WillInitiateIn(l.m, l.now) <= l.now + 5 * SECOND
      && (CanHandshake(l.m, later).0 || later >= l.now + 5 * SECOND)
      && (WillInitiateIn(l.m, l.now) <= l.now ==> CanHandshake(l.m, l.now).0)
  {
    var l := Live(start, events);
    ClocksAdvance(start, events);
    assert l.m.lastAttempt.Std() <= l.now by {
      StoredIsPast(l.m.lastAttempt, l.now);
    }
    DecisionExactly(l.m, later);
    DecisionExactly(l.m, l.now);
  }

  lemma StoredIsPast(s: Stamp, now: nat)
    requires s.epoch <= now && s.ms <= Reading(s.epoch, now)
    ensures s.Std() <= now
  {}

  /** With 2^60 packets sent every decision is positive, so the spacing is lost. */
  lemma SpacingNeedsTheBound(m: Monitor, now: nat)
    requires m.sent >= REKEY_AFTER_MESSAGES
    ensures CanHandshake(m, now).0 && CanHandshake(Initiated(m, now), now).0
  {}
}
