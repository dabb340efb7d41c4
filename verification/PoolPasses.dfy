/**
 How long the acquisition loop runs: every pass that does not leave it is charged to
 a failed readiness test of the call itself or to a connection installed by another call.
 */
module PoolPasses {
  import opened Wrappers
  import opened Redirects
  import opened PoolKeys
  import opened PoolProtocol
  import opened PoolLocks

  /** Connections installed in the call's slot since its acquisition began. */
  function Since(installs: map<Key, nat>, k: Task): int {
    Count(installs, SlotKey(k.leg)) - k.leg.base
  }

  /** After a failure and a clear, the slot must have been refilled before it can fail again. */
  predicate Refilled(slots: map<Key, Conn>, installs: map<Key, nat>, k: Task) {
    k.leg.fails == 0 || k.leg.fails <= Since(installs, k) + if SlotKey(k.leg) in slots then 0 else 1
  }

  predicate Accounted(slots: map<Key, Conn>, installs: map<Key, nat>, k: Task) {
    var g := k.leg;
    var since := Since(installs, k);
    match k.pc
    case Peeking => g.lost <= since && g.passes == g.fails + g.lost && Refilled(slots, installs, k)
    case Readying(_) => g.lost <= since && g.passes == 1 + g.fails + g.lost && g.fails <= since
    case Clearing(_) => g.lost <= since && g.passes == g.fails + g.lost && g.fails <= 1 + since
    case Wanting =>
      && g.passes == 1 + g.fails + g.lost && Refilled(slots, installs, k)
      && g.base + g.lost <= g.seen <= Count(installs, SlotKey(g))
      && (SlotKey(g) in slots ==> g.seen < Count(installs, SlotKey(g)))
    case Dialing => g.lost <= since && g.passes == 1 + g.fails + g.lost && g.fails <= 1 + since
    case WantingH2 => g.lost <= since && g.passes == 1 + g.fails + g.lost && g.fails <= 1 + since
    case DialingH2 => g.lost <= since && g.passes == 1 + g.fails + g.lost && g.fails <= 1 + since
    case _ => true
  }

  predicate AccountedAfter(s: State, e: Effect, k: Task) {
    Accounted(SlotsAfter(s, e), InstallsAfter(s, e), k)
  }

  lemma ReadAccountedAfter(sh: Shared, s: State, k: Task)
    requires TaskTyped(sh, k) && SlotKnown(s, k) && Accounted(s.slots, s.installs, k) && ReadStep(sh, s, k).Some?
    ensures AccountedAfter(s, ReadStep(sh, s, k).value, ReadStep(sh, s, k).value.task)
  {
  }

  lemma AcquireAccountedAfter(sh: Shared, s: State, k: Task, c: Choice)
    requires TaskTyped(sh, k) && SlotKnown(s, k) && Accounted(s.slots, s.installs, k) && AcquireStep(s, k, c).Some?
    ensures AccountedAfter(s, AcquireStep(s, k, c).value, AcquireStep(s, k, c).value.task)
  {
  }

  lemma DialAccountedAfter(sh: Shared, s: State, t: nat, k: Task, c: Choice)
    requires TaskTyped(sh, k) && SlotKnown(s, k) && Accounted(s.slots, s.installs, k)
    requires DialingStep(sh, s, t, k, c).Some?
    ensures AccountedAfter(s, DialingStep(sh, s, t, k, c).value, DialingStep(sh, s, t, k, c).value.task)
  {
  }

  lemma TransmitAccountedAfter(sh: Shared, s: State, t: nat, k: Task, c: Choice)
    requires TaskTyped(sh, k) && SlotKnown(s, k) && Accounted(s.slots, s.installs, k)
    requires TransmitStep(sh, s, t, k, c).Some?
    ensures AccountedAfter(s, TransmitStep(sh, s, t, k, c).value, TransmitStep(sh, s, t, k, c).value.task)
  {
  }

  lemma FallbackAccountedAfter(sh: Shared, s: State, t: nat, k: Task, c: Choice)
    requires TaskTyped(sh, k) && SlotKnown(s, k) && Accounted(s.slots, s.installs, k)
    requires FallbackStep(sh, s, t, k, c).Some?
    ensures AccountedAfter(s, FallbackStep(sh, s, t, k, c).value, FallbackStep(sh, s, t, k, c).value.task)
  {
  }

  lemma RecordAccountedAfter(sh: Shared, s: State, t: nat, k: Task)
    requires TaskTyped(sh, k) && SlotKnown(s, k) && Accounted(s.slots, s.installs, k) && RecordStep(sh, t, k).Some?
    ensures AccountedAfter(s, RecordStep(sh, t, k).value, RecordStep(sh, t, k).value.task)
  {
  }

  /** The account of another call survives the step: a slot that fills up has had an install. */
  lemma OtherAccounted(sh: Shared, s: State, k: Task, e: Effect, other: Task)
    requires Typed(sh, s, k, e) && Accounted(s.slots, s.installs, other)
    ensures AccountedAfter(s, e, other)
  {
  }

  ghost predicate AllAccounted(s: State) {
    forall t :: 0 <= t < |s.tasks| ==> Accounted(s.slots, s.installs, s.tasks[t])
  }

  lemma AccountStep(sh: Shared, s: State, t: nat, c: Choice)
    requires Shape(sh, s) && t < |s.tasks| && EffectOf(sh, s, t, c).Some? && AllAccounted(s)
    ensures AllAccounted(Apply(s, t, EffectOf(sh, s, t, c).value))
  {
    var k := s.tasks[t];
    var e := EffectOf(sh, s, t, c).value;
    var s' := Apply(s, t, e);
    EffectSound(sh, s, t, c);
    assert AccountedAfter(s, e, e.task) by {
      match PhaseOf(k.pc)
      case Read => ReadAccountedAfter(sh, s, k);
      case Acquire => AcquireAccountedAfter(sh, s, k, c);
      case Dial => DialAccountedAfter(sh, s, t, k, c);
      case Transmit => TransmitAccountedAfter(sh, s, t, k, c);
      case Fallback => FallbackAccountedAfter(sh, s, t, k, c);
      case Record => RecordAccountedAfter(sh, s, t, k);
    }
    forall i | 0 <= i < |s'.tasks|
      ensures Accounted(s'.slots, s'.installs, s'.tasks[i])
    {
      if i != t {
        OtherAccounted(sh, s, k, e, s.tasks[i]);
      }
    }
  }

  lemma {:induction false} PlayAccounted(sh: Shared, s0: State, moves: seq<Move>)
    requires Init(s0) && Play(sh, s0, moves).Some?
    ensures AllAccounted(Play(sh, s0, moves).value)
  {
    if moves != [] {
      var last := |moves| - 1;
      PlayAccounted(sh, s0, moves[..last]);
      PlayShape(sh, s0, moves[..last]);
      AccountStep(sh, Play(sh, s0, moves[..last]).value, moves[last].task, moves[last].choice);
    }
  }

  /** A call in the acquisition loop, or dialling at its end. */
  predicate InLoop(pc: Pc) {
    PhaseOf(pc) == Acquire || PhaseOf(pc) == Dial
  }

  /**
   The passes of a call through its acquisition loop are at most one plus its own failed
   readiness tests plus the passes it lost to an install by another call; the lost passes
   are at most the installs since it began, and the failures at most one more than those.
   */
  lemma PassBound(sh: Shared, s: State, t: nat)
    requires Reachable(sh, s) && t < |s.tasks| && InLoop(s.tasks[t].pc)
    ensures var g := s.tasks[t].leg;
      && g.passes <= 1 + g.fails + g.lost
      && g.lost <= Since(s.installs, s.tasks[t])
      && g.fails <= 1 + Since(s.installs, s.tasks[t])
      && g.passes <= 2 + 2 * Since(s.installs, s.tasks[t])
  {
    hide Play, Init, Accounted, Since, InLoop;
    var s0, moves := Played(sh, s);
    PlayAccounted(sh, s0, moves);
    AccountBounds(s.slots, s.installs, s.tasks[t]);
  }

  lemma AccountBounds(slots: map<Key, Conn>, installs: map<Key, nat>, k: Task)
    requires Accounted(slots, installs, k) && InLoop(k.pc)
    ensures k.leg.passes <= 1 + k.leg.fails + k.leg.lost && k.leg.passes <= 2 + 2 * Since(installs, k)
    ensures k.leg.lost <= Since(installs, k) && k.leg.fails <= 1 + Since(installs, k)
  {
  }

  /** Inside its loop a call has installed nothing itself, so without company nothing is installed. */
  lemma {:induction false} PlayLone(sh: Shared, s0: State, moves: seq<Move>)
    requires Init(s0) && Play(sh, s0, moves).Some? && |s0.tasks| == 1
    ensures var s := Play(sh, s0, moves).value;
      |s.tasks| == 1 && (InLoop(s.tasks[0].pc) ==> Since(s.installs, s.tasks[0]) == 0)
  {
    hide EffectOf, Since;
    if moves != [] {
      var last := |moves| - 1;
      PlayLone(sh, s0, moves[..last]);
      var s := Play(sh, s0, moves[..last]).value;
      LoneStep(sh, s, moves[last].choice);
    }
  }

  predicate StaysLone(s: State, k: Task, e: Effect) {
    InLoop(e.task.pc) ==> Since(InstallsAfter(s, e), e.task) == 0
  }

  lemma ReadStaysLone(sh: Shared, s: State, k: Task)
    requires (InLoop(k.pc) ==> Since(s.installs, k) == 0) && ReadStep(sh, s, k).Some?
    ensures StaysLone(s, k, ReadStep(sh, s, k).value)
  {
  }

  lemma AcquireStaysLone(sh: Shared, s: State, k: Task, c: Choice)
    requires (InLoop(k.pc) ==> Since(s.installs, k) == 0) && AcquireStep(s, k, c).Some?
    ensures StaysLone(s, k, AcquireStep(s, k, c).value)
  {
  }

  lemma DialStaysLone(sh: Shared, s: State, t: nat, k: Task, c: Choice)
    requires (InLoop(k.pc) ==> Since(s.installs, k) == 0) && DialingStep(sh, s, t, k, c).Some?
    ensures StaysLone(s, k, DialingStep(sh, s, t, k, c).value)
  {
  }

  lemma TransmitStaysLone(sh: Shared, s: State, t: nat, k: Task, c: Choice)
    requires (InLoop(k.pc) ==> Since(s.installs, k) == 0) && TransmitStep(sh, s, t, k, c).Some?
    ensures StaysLone(s, k, TransmitStep(sh, s, t, k, c).value)
  {
  }

  lemma FallbackStaysLone(sh: Shared, s: State, t: nat, k: Task, c: Choice)
    requires (InLoop(k.pc) ==> Since(s.installs, k) == 0) && FallbackStep(sh, s, t, k, c).Some?
    ensures StaysLone(s, k, FallbackStep(sh, s, t, k, c).value)
  {
  }

  lemma RecordStaysLone(sh: Shared, s: State, t: nat, k: Task)
    requires (InLoop(k.pc) ==> Since(s.installs, k) == 0) && RecordStep(sh, t, k).Some?
    ensures StaysLone(s, k, RecordStep(sh, t, k).value)
  {
  }

  lemma LoneStep(sh: Shared, s: State, c: Choice)
    requires |s.tasks| == 1 && EffectOf(sh, s, 0, c).Some?
    requires InLoop(s.tasks[0].pc) ==> Since(s.installs, s.tasks[0]) == 0
    ensures StaysLone(s, s.tasks[0], EffectOf(sh, s, 0, c).value)
  {
    var t, k := 0, s.tasks[0];
    match PhaseOf(k.pc)
    case Read => ReadStaysLone(sh, s, k);
    case Acquire => AcquireStaysLone(sh, s, k, c);
    case Dial => DialStaysLone(sh, s, t, k, c);
    case Transmit => TransmitStaysLone(sh, s, t, k, c);
    case Fallback => FallbackStaysLone(sh, s, t, k, c);
    case Record => RecordStaysLone(sh, s, t, k);
  }

  /** A call that has the client to itself goes through the loop at most twice. */
  lemma LonePassBound(sh: Shared, s: State)
    requires Reachable(sh, s) && |s.tasks| == 1 && InLoop(s.tasks[0].pc)
    ensures s.tasks[0].leg.passes <= 2
  {
    var s0, moves := Played(sh, s);
    SameCalls(sh, s0, moves);
    PlayLone(sh, s0, moves);
    PassBound(sh, s, 0);
  }

  lemma {:induction false} SameCalls(sh: Shared, s0: State, moves: seq<Move>)
    requires Play(sh, s0, moves).Some?
    ensures |Play(sh, s0, moves).value.tasks| == |s0.tasks|
  {
    if moves != [] {
      SameCalls(sh, s0, moves[..|moves| - 1]);
    }
  }
}
