/**
 The late clear: a call whose readiness test failed empties the slot without looking.
 Exactly when that wipes a connection other than the one that failed.
 */
module PoolClears {
  import opened Wrappers
  import opened Redirects
  import opened PoolKeys
  import opened PoolProtocol
  import opened PoolLocks
  import opened PoolPasses

  /** The connection that a call is testing, or is about to clear away. */
  function Suspect(pc: Pc): Option<Conn> {
    match pc
    case Readying(c) => Some(c)
    case Clearing(c) => Some(c)
    case _ => None
  }

  /** Connections are numbered in the order of their dials. */
  ghost predicate Numbered(s: State) {
    forall key :: key in s.slots ==> s.slots[key].id < s.nextId
  }

  /**
   Since the call peeked, its slot still holds the connection it saw, or is empty, or has
   had an install and holds a younger connection.
   */
  predicate Watched(slots: map<Key, Conn>, installs: map<Key, nat>, nextId: nat, k: Task) {
    Suspect(k.pc).Some? ==>
      var c, key := Suspect(k.pc).value, SlotKey(k.leg);
      && c.id < nextId && k.leg.seen <= Count(installs, key)
      && (key in slots ==>
            if k.leg.seen == Count(installs, key) then slots[key] == c else c.id < slots[key].id)
  }

  /** How a step comes to suspect a connection: it finds it in the slot, or goes on suspecting it. */
  predicate Suspects(s: State, k: Task, e: Effect) {
    Suspect(e.task.pc).Some? ==>
      && (e.task.pc.Clearing? ==> e.task.pc.conn.id in e.dead)
      && e.slot.Keep? && SlotKey(e.task.leg) == SlotKey(k.leg)
      && if Suspect(k.pc) == Suspect(e.task.pc) then e.task.leg.seen == k.leg.seen
         else
           && k.pc.Peeking? && SlotKey(k.leg) in s.slots && s.slots[SlotKey(k.leg)] == Suspect(e.task.pc).value
           && e.task.leg.seen == Count(s.installs, SlotKey(k.leg))
  }

  /** New connections are younger than all others. */
  predicate Numbers(s: State, e: Effect) {
    && (e.slot.Install? ==> e.slot.conn.id == s.nextId)
    && (e.slot.Store? ==> e.slot.key in s.slots && s.slots[e.slot.key] == e.slot.conn)
  }

  lemma AcquireSuspects(s: State, k: Task, c: Choice)
    requires AcquireStep(s, k, c).Some?
    ensures Suspects(s, k, AcquireStep(s, k, c).value) && Numbers(s, AcquireStep(s, k, c).value)
  {
    hide Free;
  }

  lemma DialSuspects(sh: Shared, s: State, t: nat, k: Task, c: Choice)
    requires DialingStep(sh, s, t, k, c).Some?
    ensures Suspects(s, k, DialingStep(sh, s, t, k, c).value) && Numbers(s, DialingStep(sh, s, t, k, c).value)
  {
  }

  lemma FallbackSuspects(sh: Shared, s: State, t: nat, k: Task, c: Choice)
    requires SlotKnown(s, k) && FallbackStep(sh, s, t, k, c).Some?
    ensures Suspects(s, k, FallbackStep(sh, s, t, k, c).value) && Numbers(s, FallbackStep(sh, s, t, k, c).value)
  {
    hide Transmission;
  }

  lemma OthersSuspect(sh: Shared, s: State, t: nat, k: Task, c: Choice)
    ensures ReadStep(sh, s, k).Some?
        ==> Suspects(s, k, ReadStep(sh, s, k).value) && Numbers(s, ReadStep(sh, s, k).value)
    ensures TransmitStep(sh, s, t, k, c).Some?
        ==> Suspects(s, k, TransmitStep(sh, s, t, k, c).value) && Numbers(s, TransmitStep(sh, s, t, k, c).value)
    ensures RecordStep(sh, t, k).Some?
        ==> Suspects(s, k, RecordStep(sh, t, k).value) && Numbers(s, RecordStep(sh, t, k).value)
  {
    hide Transmission, Advance, FilingAuthority, LookupAuthority, Free, Count, SlotKey, H2Key, OriginText;
  }

  lemma StepSuspects(sh: Shared, s: State, t: nat, c: Choice)
    requires t < |s.tasks| && EffectOf(sh, s, t, c).Some? && SlotKnown(s, s.tasks[t])
    ensures Suspects(s, s.tasks[t], EffectOf(sh, s, t, c).value) && Numbers(s, EffectOf(sh, s, t, c).value)
  {
    hide Suspects, Numbers, ReadStep, AcquireStep, DialingStep, TransmitStep, FallbackStep, RecordStep;
    var k := s.tasks[t];
    match PhaseOf(k.pc)
    case Read => OthersSuspect(sh, s, t, k, c);
    case Acquire => AcquireSuspects(s, k, c);
    case Dial => DialSuspects(sh, s, t, k, c);
    case Transmit => OthersSuspect(sh, s, t, k, c);
    case Fallback => FallbackSuspects(sh, s, t, k, c);
    case Record => OthersSuspect(sh, s, t, k, c);
  }

  lemma OwnWatched(s: State, k: Task, e: Effect)
    requires Numbered(s) && Suspects(s, k, e) && Watched(s.slots, s.installs, s.nextId, k)
    ensures Watched(SlotsAfter(s, e), InstallsAfter(s, e), s.nextId, e.task)
  {
  }

  lemma OtherWatched(s: State, e: Effect, other: Task)
    requires Numbers(s, e) && Watched(s.slots, s.installs, s.nextId, other)
    ensures Watched(SlotsAfter(s, e), InstallsAfter(s, e), if e.slot.Install? then s.nextId + 1 else s.nextId, other)
  {
  }

  ghost predicate AllWatched(s: State) {
    Numbered(s) && forall t :: 0 <= t < |s.tasks| ==> Watched(s.slots, s.installs, s.nextId, s.tasks[t])
  }

  lemma WatchStep(sh: Shared, s: State, t: nat, c: Choice)
    requires Shape(sh, s) && AllWatched(s) && t < |s.tasks| && EffectOf(sh, s, t, c).Some?
    ensures AllWatched(Apply(s, t, EffectOf(sh, s, t, c).value))
  {
    hide EffectOf, Watched, Suspects, InstallsAfter;
    var k, e := s.tasks[t], EffectOf(sh, s, t, c).value;
    var s' := Apply(s, t, e);
    StepSuspects(sh, s, t, c);
    forall i | 0 <= i < |s'.tasks|
      ensures Watched(s'.slots, s'.installs, s'.nextId, s'.tasks[i])
    {
      if i == t {
        OwnWatched(s, k, e);
        NextNumber(s, k, e);
      } else {
        OtherWatched(s, e, s.tasks[i]);
      }
    }
  }

  /** A step that suspects a connection dials none. */
  lemma NextNumber(s: State, k: Task, e: Effect)
    requires Suspects(s, k, e) && Watched(SlotsAfter(s, e), InstallsAfter(s, e), s.nextId, e.task)
    ensures Watched(SlotsAfter(s, e), InstallsAfter(s, e),
                    if e.slot.Install? then s.nextId + 1 else s.nextId, e.task)
  {
  }

  lemma {:induction false} PlayWatched(sh: Shared, s0: State, moves: seq<Move>)
    requires Init(s0) && Play(sh, s0, moves).Some?
    ensures AllWatched(Play(sh, s0, moves).value)
  {
    if moves != [] {
      var last := |moves| - 1;
      PlayWatched(sh, s0, moves[..last]);
      PlayShape(sh, s0, moves[..last]);
      WatchStep(sh, Play(sh, s0, moves[..last]).value, moves[last].task, moves[last].choice);
    }
  }

  /**
   In every reachable state a call that is about to clear its slot, when the slot is
   occupied, is about to wipe the very connection that failed its test exactly when nothing
   was installed in the slot since it peeked; otherwise it wipes a younger one.
   */
  lemma ClearsWhatItTested(sh: Shared, s: State, t: nat)
    requires Reachable(sh, s) && t < |s.tasks| && s.tasks[t].pc.Clearing? && SlotKey(s.tasks[t].leg) in s.slots
    ensures var k := s.tasks[t];
      var held := s.slots[SlotKey(k.leg)];
      && (held == k.pc.conn <==> Count(s.installs, SlotKey(k.leg)) == k.leg.seen)
      && (held != k.pc.conn ==> k.pc.conn.id < held.id)
      && k.pc.conn.id in s.dead
  {
    var s0, moves := Played(sh, s);
    PlayWatched(sh, s0, moves);
    assert Watched(s.slots, s.installs, s.nextId, s.tasks[t]);
    PlayFailed(sh, s0, moves, t);
  }

  /** A call that has the client to itself clears only what it tested. */
  lemma LoneClearsWhatItTested(sh: Shared, s: State)
    requires Reachable(sh, s) && |s.tasks| == 1 && s.tasks[0].pc.Clearing?
    ensures SlotKey(s.tasks[0].leg) in s.slots && s.slots[SlotKey(s.tasks[0].leg)] == s.tasks[0].pc.conn
  {
    var s0, moves := Played(sh, s);
    SameCalls(sh, s0, moves);
    PlayUndisturbed(sh, s0, moves);
  }

  lemma {:induction false} PlayUndisturbed(sh: Shared, s0: State, moves: seq<Move>)
    requires Init(s0) && Play(sh, s0, moves).Some? && |s0.tasks| == 1
    ensures var s := Play(sh, s0, moves).value;
      |s.tasks| == 1 && (Suspect(s.tasks[0].pc).Some? ==>
        SlotKey(s.tasks[0].leg) in s.slots && s.slots[SlotKey(s.tasks[0].leg)] == Suspect(s.tasks[0].pc).value)
  {
    hide EffectOf;
    if moves != [] {
      var last := |moves| - 1;
      PlayUndisturbed(sh, s0, moves[..last]);
      PlayShape(sh, s0, moves[..last]);
      StepSuspects(sh, Play(sh, s0, moves[..last]).value, 0, moves[last].choice);
    }
  }

  /** A connection that a call is about to clear away failed a test. */
  lemma {:induction false} PlayFailed(sh: Shared, s0: State, moves: seq<Move>, t: nat)
    requires Init(s0) && Play(sh, s0, moves).Some? && t < |Play(sh, s0, moves).value.tasks|
    requires Play(sh, s0, moves).value.tasks[t].pc.Clearing?
    ensures Play(sh, s0, moves).value.tasks[t].pc.conn.id in Play(sh, s0, moves).value.dead
  {
    hide EffectOf;
    if moves != [] {
      var last := |moves| - 1;
      var s := Play(sh, s0, moves[..last]).value;
      PlayShape(sh, s0, moves[..last]);
      if t == moves[last].task {
        StepSuspects(sh, s, t, moves[last].choice);
      } else {
        PlayFailed(sh, s0, moves[..last], t);
      }
    }
  }
}
