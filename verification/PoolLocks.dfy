/**
 Slot typing, lock ownership and deadlock freedom of the connection pool, for every
 interleaving of any number of calls.
 */
module PoolLocks {
  import opened Wrappers
  import opened Redirects
  import opened PoolKeys
  import opened PoolProtocol

  /** A connection fit for an authority: Http2 goes through the client's proxy, Http3 never does. */
  predicate Fits(sh: Shared, c: Conn, at: Authority) {
    c.at == at && c.via == if c.h3 then None else sh.proxy
  }

  /** The slot mutexes a call holds at its program counter. */
  predicate Holds(k: Task, key: Key) {
    match k.pc
    case Dialing => key == SlotKey(k.leg)
    case WantingH2 => key == SlotKey(k.leg)
    case DialingH2 => key == SlotKey(k.leg) || key == H2Key(k.leg)
    case FallbackReady(_) => key == H2Key(k.leg)
    case FallbackDialing(_) => key == H2Key(k.leg)
    case FallbackSending(_, _) => key == H2Key(k.leg)
    case _ => false
  }

  /** A hop is under way: the URL has been parsed. */
  predicate Underway(pc: Pc) {
    !pc.Routing? && !pc.Finished?
  }

  /** How a connection of the first transmission may have been come by, given how the hop was routed. */
  predicate Apt(how: How, c: Conn, routed: bool) {
    match how
    case Tested => !c.h3 && !routed
    case Running => c.h3 && routed
    case Dialled => c.h3 ==> routed
    case Untested => !c.h3 && routed
  }

  predicate TaskTyped(sh: Shared, k: Task) {
    && (Underway(k.pc) ==>
         && k.leg.url.host.Some?
         && k.leg.at == LookupAuthority(k.leg.url)
         && sh.web.parse(k.call.url) == Some(k.leg.url))
    && match k.pc
       case Readying(c) => Fits(sh, c, k.leg.at) && !c.h3 && !k.leg.h3
       case Clearing(c) => Fits(sh, c, k.leg.at) && !c.h3 && !k.leg.h3
       case WantingH2 => k.leg.h3
       case DialingH2 => k.leg.h3
       case Sending(c, how) => Fits(sh, c, k.leg.at) && Apt(how, c, k.leg.h3)
       case FallingBack => k.leg.h3
       case FallbackReady(c) => Fits(sh, c, k.leg.at) && !c.h3 && k.leg.h3
       case FallbackDialing(_) => k.leg.h3
       case FallbackSending(c, how) => Fits(sh, c, k.leg.at) && !c.h3 && k.leg.h3 && (how.Tested? || how.Dialled?)
       case _ => true
  }

  /** What a call that holds a slot knows about its contents. */
  predicate SlotKnown(s: State, k: Task) {
    match k.pc
    case Dialing => SlotKey(k.leg) !in s.slots
    case DialingH2 => H2Key(k.leg) !in s.slots
    case FallbackReady(c) => H2Key(k.leg) in s.slots && s.slots[H2Key(k.leg)] == c
    case FallbackDialing(stale) => stale <==> H2Key(k.leg) in s.slots
    case _ => true
  }

  /**
   A `#h2` slot holds nothing or an Http2 connection, a `#h3` slot nothing or an Http3
   one, each for its own authority.
   */
  ghost predicate SlotsTyped(sh: Shared, s: State) {
    forall key :: key in s.slots ==> Fits(sh, s.slots[key], key.at) && s.slots[key].h3 == key.h3
  }

  /** A mutex is recorded as held by a call exactly when that call is where it holds it. */
  ghost predicate LocksAgree(s: State) {
    && (forall key :: key in s.locks ==> s.locks[key] < |s.tasks| && Holds(s.tasks[s.locks[key]], key))
    && (forall t, key :: 0 <= t < |s.tasks| && Holds(s.tasks[t], key) ==> key in s.locks && s.locks[key] == t)
  }

  ghost predicate Shape(sh: Shared, s: State) {
    && SlotsTyped(sh, s)
    && LocksAgree(s)
    && (forall t :: 0 <= t < |s.tasks| ==> TaskTyped(sh, s.tasks[t]))
    && (forall t :: 0 <= t < |s.tasks| ==> SlotKnown(s, s.tasks[t]))
  }

  /** One step keeps its own call typed and installs only a connection fit for the slot. */
  predicate Typed(sh: Shared, s: State, k: Task, e: Effect) {
    && TaskTyped(sh, e.task)
    && SlotKnown(s.(slots := SlotsAfter(s, e)), e.task)
    && (e.slot.Store? || e.slot.Install?
        ==> Fits(sh, e.slot.conn, e.slot.key.at) && e.slot.conn.h3 == e.slot.key.h3)
    && (e.slot.Store? ==> e.slot.key in s.slots)
  }

  /**
   One step locks only what is free, keeps the books straight, and changes a slot only
   when it holds the slot or nobody does.
   */
  ghost predicate Locked(s: State, k: Task, e: Effect) {
    && (!e.slot.Keep? ==> Holds(k, e.slot.key) || Free(s, e.slot.key))
    && (e.acquire.Some? ==> Free(s, e.acquire.value))
    && (forall key :: key in e.release ==> Holds(k, key))
    && (forall key :: Holds(e.task, key)
          <==> key !in e.release && (Holds(k, key) || e.acquire == Some(key)))
  }

  lemma ReadTyped(sh: Shared, s: State, k: Task)
    requires SlotsTyped(sh, s) && TaskTyped(sh, k) && SlotKnown(s, k) && ReadStep(sh, s, k).Some?
    ensures Typed(sh, s, k, ReadStep(sh, s, k).value)
  {
  }

  lemma AcquireTyped(sh: Shared, s: State, k: Task, c: Choice)
    requires SlotsTyped(sh, s) && TaskTyped(sh, k) && SlotKnown(s, k) && AcquireStep(s, k, c).Some?
    ensures Typed(sh, s, k, AcquireStep(s, k, c).value)
  {
  }

  lemma DialTyped(sh: Shared, s: State, t: nat, k: Task, c: Choice)
    requires SlotsTyped(sh, s) && TaskTyped(sh, k) && SlotKnown(s, k) && DialingStep(sh, s, t, k, c).Some?
    ensures Typed(sh, s, k, DialingStep(sh, s, t, k, c).value)
  {
  }

  lemma TransmitTyped(sh: Shared, s: State, t: nat, k: Task, c: Choice)
    requires SlotsTyped(sh, s) && TaskTyped(sh, k) && SlotKnown(s, k) && TransmitStep(sh, s, t, k, c).Some?
    ensures Typed(sh, s, k, TransmitStep(sh, s, t, k, c).value)
  {
  }

  lemma FallbackTyped(sh: Shared, s: State, t: nat, k: Task, c: Choice)
    requires SlotsTyped(sh, s) && TaskTyped(sh, k) && SlotKnown(s, k) && FallbackStep(sh, s, t, k, c).Some?
    ensures Typed(sh, s, k, FallbackStep(sh, s, t, k, c).value)
  {
  }

  lemma RecordTyped(sh: Shared, s: State, t: nat, k: Task)
    requires SlotsTyped(sh, s) && TaskTyped(sh, k) && SlotKnown(s, k) && RecordStep(sh, t, k).Some?
    ensures Typed(sh, s, k, RecordStep(sh, t, k).value)
  {
    hide Advance, FilingAuthority, Fits;
  }

  lemma ReadLocked(sh: Shared, s: State, k: Task)
    requires TaskTyped(sh, k) && ReadStep(sh, s, k).Some?
    ensures Locked(s, k, ReadStep(sh, s, k).value)
  {
  }

  lemma AcquireLocked(sh: Shared, s: State, k: Task, c: Choice)
    requires TaskTyped(sh, k) && AcquireStep(s, k, c).Some?
    ensures Locked(s, k, AcquireStep(s, k, c).value)
  {
  }

  lemma DialLocked(sh: Shared, s: State, t: nat, k: Task, c: Choice)
    requires TaskTyped(sh, k) && DialingStep(sh, s, t, k, c).Some?
    ensures Locked(s, k, DialingStep(sh, s, t, k, c).value)
  {
    hide NewConn, LookupAuthority;
  }

  lemma TransmitLocked(sh: Shared, s: State, t: nat, k: Task, c: Choice)
    requires TaskTyped(sh, k) && TransmitStep(sh, s, t, k, c).Some?
    ensures Locked(s, k, TransmitStep(sh, s, t, k, c).value)
  {
  }

  lemma FallbackLocked(sh: Shared, s: State, t: nat, k: Task, c: Choice)
    requires TaskTyped(sh, k) && FallbackStep(sh, s, t, k, c).Some?
    ensures Locked(s, k, FallbackStep(sh, s, t, k, c).value)
  {
  }

  lemma RecordLocked(sh: Shared, s: State, t: nat, k: Task)
    requires TaskTyped(sh, k) && RecordStep(sh, t, k).Some?
    ensures Locked(s, k, RecordStep(sh, t, k).value)
  {
  }

  lemma EffectSound(sh: Shared, s: State, t: nat, c: Choice)
    requires Shape(sh, s) && t < |s.tasks| && EffectOf(sh, s, t, c).Some?
    ensures Typed(sh, s, s.tasks[t], EffectOf(sh, s, t, c).value)
    ensures Locked(s, s.tasks[t], EffectOf(sh, s, t, c).value)
  {
    var k := s.tasks[t];
    match PhaseOf(k.pc)
    case Read => ReadTyped(sh, s, k); ReadLocked(sh, s, k);
    case Acquire => AcquireTyped(sh, s, k, c); AcquireLocked(sh, s, k, c);
    case Dial => DialTyped(sh, s, t, k, c); DialLocked(sh, s, t, k, c);
    case Transmit => TransmitTyped(sh, s, t, k, c); TransmitLocked(sh, s, t, k, c);
    case Fallback => FallbackTyped(sh, s, t, k, c); FallbackLocked(sh, s, t, k, c);
    case Record => RecordTyped(sh, s, t, k); RecordLocked(sh, s, t, k);
  }

  /** A mutex that a call holds after the step is on the books as its own. */
  lemma HeldIsBooked(s: State, t: nat, e: Effect, i: nat, key: Key)
    requires LocksAgree(s) && t < |s.tasks| && Locked(s, s.tasks[t], e)
    requires i < |s.tasks| && Holds(Apply(s, t, e).tasks[i], key)
    ensures key in Apply(s, t, e).locks && Apply(s, t, e).locks[key] == i
  {
    hide Holds, SlotsAfter, InstallsAfter, Bump;
    var k := s.tasks[t];
    if i != t {
      assert Holds(s.tasks[i], key);
      assert key in s.locks && s.locks[key] == i;
      assert key in e.release ==> Holds(k, key);
    } else if Holds(s.tasks[t], key) {
      assert key in s.locks && s.locks[key] == t;
    }
  }

  /** A mutex on the books is held by the call it is booked to. */
  lemma BookedIsHeld(s: State, t: nat, e: Effect, key: Key)
    requires LocksAgree(s) && t < |s.tasks| && Locked(s, s.tasks[t], e) && key in Apply(s, t, e).locks
    ensures var s' := Apply(s, t, e); s'.locks[key] < |s'.tasks| && Holds(s'.tasks[s'.locks[key]], key)
  {
    hide Holds, SlotsAfter, InstallsAfter, Bump;
    assert key !in e.release;
    if e.acquire != Some(key) {
      assert key in s.locks && Holds(s.tasks[s.locks[key]], key);
    }
  }

  lemma ApplyLocks(s: State, t: nat, e: Effect)
    requires LocksAgree(s) && t < |s.tasks| && Locked(s, s.tasks[t], e)
    ensures LocksAgree(Apply(s, t, e))
  {
    hide Holds, Apply, Locked;
    var s' := Apply(s, t, e);
    assert |s'.tasks| == |s.tasks| by {
      SameSize(s, t, e);
    }
    forall i, key | 0 <= i < |s'.tasks| && Holds(s'.tasks[i], key)
      ensures key in s'.locks && s'.locks[key] == i
    {
      HeldIsBooked(s, t, e, i, key);
    }
    forall key | key in s'.locks
      ensures s'.locks[key] < |s'.tasks| && Holds(s'.tasks[s'.locks[key]], key)
    {
      BookedIsHeld(s, t, e, key);
    }
  }

  lemma SameSize(s: State, t: nat, e: Effect)
    requires t < |s.tasks|
    ensures |Apply(s, t, e).tasks| == |s.tasks|
  {
  }

  lemma ApplyKnown(s: State, t: nat, e: Effect, i: nat)
    requires LocksAgree(s) && t < |s.tasks| && i < |s.tasks| && i != t && SlotKnown(s, s.tasks[i])
    requires Locked(s, s.tasks[t], e)
    ensures SlotKnown(Apply(s, t, e), s.tasks[i])
  {
    var k := s.tasks[i];
    assert Holds(k, SlotKey(k.leg)) ==> SlotKey(k.leg) in s.locks && s.locks[SlotKey(k.leg)] == i;
    assert Holds(k, H2Key(k.leg)) ==> H2Key(k.leg) in s.locks && s.locks[H2Key(k.leg)] == i;
    if !e.slot.Keep? && Holds(s.tasks[t], e.slot.key) {
      assert s.locks[e.slot.key] == t;
    }
  }

  lemma ShapeStep(sh: Shared, s: State, t: nat, c: Choice)
    requires Shape(sh, s) && t < |s.tasks| && EffectOf(sh, s, t, c).Some?
    ensures Shape(sh, Apply(s, t, EffectOf(sh, s, t, c).value))
  {
    var e := EffectOf(sh, s, t, c).value;
    var s' := Apply(s, t, e);
    EffectSound(sh, s, t, c);
    ApplyLocks(s, t, e);
    assert SlotsTyped(sh, s');
    forall i | 0 <= i < |s'.tasks|
      ensures SlotKnown(s', s'.tasks[i]) && TaskTyped(sh, s'.tasks[i])
    {
      if i != t {
        ApplyKnown(s, t, e, i);
      }
    }
  }

  lemma {:induction false} PlayShape(sh: Shared, s0: State, moves: seq<Move>)
    requires Init(s0) && Play(sh, s0, moves).Some?
    ensures Shape(sh, Play(sh, s0, moves).value)
  {
    if moves != [] {
      var last := |moves| - 1;
      PlayShape(sh, s0, moves[..last]);
      ShapeStep(sh, Play(sh, s0, moves[..last]).value, moves[last].task, moves[last].choice);
    }
  }

  lemma ReachableShape(sh: Shared, s: State)
    requires Reachable(sh, s)
    ensures Shape(sh, s)
  {
    var s0, moves := Played(sh, s);
    PlayShape(sh, s0, moves);
  }

  // ----- deadlock freedom -----

  /** The mutex a call is waiting for, if it waits for one. */
  function Awaits(k: Task): Option<Key> {
    match k.pc
    case Peeking => Some(SlotKey(k.leg))
    case Clearing(_) => Some(SlotKey(k.leg))
    case Wanting => Some(SlotKey(k.leg))
    case WantingH2 => Some(H2Key(k.leg))
    case FallingBack => Some(H2Key(k.leg))
    case _ => None
  }

  /** Call `t` cannot move because call `holder` has the mutex it waits for. */
  ghost predicate WaitsFor(s: State, t: nat, holder: nat) {
    && t < |s.tasks| && holder < |s.tasks|
    && Awaits(s.tasks[t]).Some?
    && Holds(s.tasks[holder], Awaits(s.tasks[t]).value)
  }

  function WaitRank(k: Task): nat {
    match Awaits(k)
    case None => 0
    case Some(key) => if key.h3 then 2 else 1
  }

  /**
   A call waits while holding a mutex only when it holds the `#h3` slot and waits for
   the `#h2` slot of the same authority; so each edge of the wait-for graph goes to a
   lower rank and the graph has no cycle.
   */
  lemma WaitForAcyclic(sh: Shared, s: State, t: nat, holder: nat)
    requires Reachable(sh, s) && WaitsFor(s, t, holder)
    ensures WaitRank(s.tasks[holder]) < WaitRank(s.tasks[t])
    ensures Awaits(s.tasks[holder]).Some? ==>
              && Awaits(s.tasks[t]).value.h3
              && Awaits(s.tasks[holder]) == Some(Key(Awaits(s.tasks[t]).value.at, false))
  {
    ReachableShape(sh, s);
    assert TaskTyped(sh, s.tasks[holder]);
  }

  /** A call that is not finished can move unless another one holds the mutex it awaits. */
  lemma MovesOrWaits(sh: Shared, s: State, t: nat)
    requires Shape(sh, s) && t < |s.tasks| && !s.tasks[t].pc.Finished?
    ensures (exists c :: Step(sh, s, t, c).Some?) || (exists h :: WaitsFor(s, t, h))
  {
    var k := s.tasks[t];
    if Awaits(k).Some? && !Free(s, Awaits(k).value) {
      assert WaitsFor(s, t, s.locks[Awaits(k).value]);
    } else {
      assert Step(sh, s, t, No).Some?;
    }
  }

  /** From every unfinished call at most two waits lead to a call that can move. */
  lemma DeadlockFree(sh: Shared, s: State, t: nat)
    requires Reachable(sh, s) && t < |s.tasks| && !s.tasks[t].pc.Finished?
    ensures exists u, c :: 0 <= u < |s.tasks| && Step(sh, s, u, c).Some?
    decreases WaitRank(s.tasks[t])
  {
    ReachableShape(sh, s);
    MovesOrWaits(sh, s, t);
    if holder :| WaitsFor(s, t, holder) {
      WaitForAcyclic(sh, s, t, holder);
      DeadlockFree(sh, s, holder);
    } else {
      var c :| Step(sh, s, t, c).Some?;
    }
  }

  // ----- isolation -----

  /**
   In every reachable state each slot holds nothing or a connection of its own transport to
   its own authority, through the client's proxy if it is an Http2 one, and no request is ever handed to a connection
   dialled for another authority.
   */
  lemma SlotIsolation(sh: Shared, s: State)
    requires Reachable(sh, s)
    ensures forall key :: key in s.slots ==> s.slots[key].at == key.at && s.slots[key].h3 == key.h3
    ensures forall key :: key in s.slots ==> s.slots[key].via == if key.h3 then None else sh.proxy
    ensures forall t :: 0 <= t < |s.tasks| ==> SendsToItsOwn(s.tasks[t])
  {
    ReachableShape(sh, s);
    forall t | 0 <= t < |s.tasks|
      ensures SendsToItsOwn(s.tasks[t])
    {
      assert TaskTyped(sh, s.tasks[t]);
    }
  }

  /** A call about to transmit does so to the authority of its URL; a fallback goes over Http2. */
  predicate SendsToItsOwn(k: Task) {
    match k.pc
    case Sending(c, _) => k.leg.url.host.Some? && c.at == LookupAuthority(k.leg.url)
    case FallbackSending(c, _) => k.leg.url.host.Some? && c.at == LookupAuthority(k.leg.url) && !c.h3
    case _ => true
  }
}
