/**
 Every run of the pool ends: no interleaving of finitely many calls goes on for ever,
 whatever the network does and however unfairly the calls are scheduled, and where a run
 stops every call has an outcome.
 */
module PoolProgress {
  import opened Wrappers
  import opened Redirects
  import opened PoolKeys
  import opened PoolProtocol
  import opened PoolLocks
  import opened PoolCalls

  /** Connections a call may still install: two for each hop, one by its acquisition and one by its fallback. */
  function Budget(k: Task): int {
    if k.pc.Finished? then 0
    else 2 * (MAX_HOPS - |k.hops|) - Spent(k.pc)
  }

  /** How much of its allowance for the current hop a call has used or forgone. */
  function Spent(pc: Pc): nat {
    match pc
    case Sending(_, _) => 1
    case FallingBack => 1
    case FallbackReady(_) => 1
    case FallbackDialing(_) => 1
    case FallbackSending(_, _) => 2
    case StoringCookies(_) => 2
    case StoringHints(_) => 2
    case StoringAltSvc(_) => 2
    case _ => 0
  }

  /**
   Steps left in a hop if nobody installs a connection meanwhile. A slot that is
   occupied can still fail its test and be cleared, so it counts for more than an empty one.
   */
  function PcRank(pc: Pc, occupied: bool): nat {
    match pc
    case Routing => 20
    case ReadingJar => 19
    case ReadingHints => 18
    case Peeking => if occupied then 16 else 13
    case Readying(_) => 15
    case Clearing(_) => 14
    case Wanting => if occupied then 17 else 12
    case Dialing => 11
    case WantingH2 => 10
    case DialingH2 => 9
    case Sending(_, _) => 8
    case FallingBack => 7
    case FallbackReady(_) => 6
    case FallbackDialing(_) => 5
    case FallbackSending(_, _) => 4
    case StoringCookies(_) => 3
    case StoringHints(_) => 2
    case StoringAltSvc(_) => 1
    case Finished(_) => 0
  }

  function Rank(slots: map<Key, Conn>, k: Task): int {
    20 * (MAX_HOPS - |k.hops|) + PcRank(k.pc, SlotKey(k.leg) in slots)
  }

  /** An install sets every other call back by at most this much. */
  const SETBACK := 5

  /** A step brings its own call nearer to its end, and pays for an install out of the call's budget. */
  predicate Descends(s: State, k: Task, e: Effect) {
    && Budget(e.task) + (if e.slot.Install? then 1 else 0) <= Budget(k)
    && Rank(SlotsAfter(s, e), e.task) < Rank(SlotsAfter(s, e), k)
  }

  lemma ReadDescends(sh: Shared, s: State, k: Task)
    requires PcOk(sh.web, k) && ReadStep(sh, s, k).Some?
    ensures Descends(s, k, ReadStep(sh, s, k).value)
  {
    hide LookupAuthority, Count, SlotKey, Unusable;
  }

  lemma AcquireDescends(sh: Shared, s: State, k: Task, c: Choice)
    requires PcOk(sh.web, k) && AcquireStep(s, k, c).Some?
    ensures Descends(s, k, AcquireStep(s, k, c).value)
  {
    hide Count, Unusable;
  }

  lemma DialDescends(sh: Shared, s: State, t: nat, k: Task, c: Choice)
    requires PcOk(sh.web, k) && DialingStep(sh, s, t, k, c).Some?
    ensures Descends(s, k, DialingStep(sh, s, t, k, c).value)
  {
    hide NewConn, Unusable;
  }

  lemma TransmitDescends(sh: Shared, s: State, t: nat, k: Task, c: Choice)
    requires PcOk(sh.web, k) && TransmitStep(sh, s, t, k, c).Some?
    ensures Descends(s, k, TransmitStep(sh, s, t, k, c).value)
  {
    hide Transmission, Unusable, Free;
  }

  lemma FallbackDescends(sh: Shared, s: State, t: nat, k: Task, c: Choice)
    requires PcOk(sh.web, k) && FallbackStep(sh, s, t, k, c).Some?
    ensures Descends(s, k, FallbackStep(sh, s, t, k, c).value)
  {
    hide Transmission, NewConn, Unusable;
  }

  lemma RecordDescends(sh: Shared, s: State, t: nat, k: Task)
    requires PcOk(sh.web, k) && RecordStep(sh, t, k).Some?
    ensures Descends(s, k, RecordStep(sh, t, k).value)
  {
    hide Advance, Unusable, OriginText, FilingAuthority;
  }

  lemma StepDescends(sh: Shared, s: State, t: nat, c: Choice)
    requires t < |s.tasks| && EffectOf(sh, s, t, c).Some? && PcOk(sh.web, s.tasks[t])
    ensures Descends(s, s.tasks[t], EffectOf(sh, s, t, c).value)
  {
    var k := s.tasks[t];
    match PhaseOf(k.pc)
    case Read => ReadDescends(sh, s, k);
    case Acquire => AcquireDescends(sh, s, k, c);
    case Dial => DialDescends(sh, s, t, k, c);
    case Transmit => TransmitDescends(sh, s, t, k, c);
    case Fallback => FallbackDescends(sh, s, t, k, c);
    case Record => RecordDescends(sh, s, t, k);
  }

  /** Only an install sets another call back. */
  lemma OthersRank(sh: Shared, s: State, k: Task, e: Effect, other: Task)
    requires Typed(sh, s, k, e)
    ensures Rank(SlotsAfter(s, e), other) <= Rank(s.slots, other) + if e.slot.Install? then SETBACK else 0
  {
  }

  /** What all calls together can still do: their ranks, and one setback of everybody for each install to come. */
  function Potential(slots: map<Key, Conn>, ks: seq<Task>, weight: nat): int {
    if ks == [] then 0
    else weight * Budget(ks[0]) + Rank(slots, ks[0]) + Potential(slots, ks[1..], weight)
  }

  lemma {:induction false} PotentialUpdate(slots: map<Key, Conn>, ks: seq<Task>, weight: nat, t: nat, k: Task)
    requires t < |ks|
    ensures Potential(slots, ks[t := k], weight) - Potential(slots, ks, weight)
         == weight * (Budget(k) - Budget(ks[t])) + Rank(slots, k) - Rank(slots, ks[t])
  {
    hide Budget, Rank;
    if t == 0 {
      assert ks[t := k][1..] == ks[1..];
    } else {
      assert ks[t := k][1..] == ks[1..][t - 1 := k];
      PotentialUpdate(slots, ks[1..], weight, t - 1, k);
    }
  }

  lemma {:induction false} PotentialElsewhere(sh: Shared, s: State, k: Task, e: Effect, ks: seq<Task>, weight: nat)
    requires Typed(sh, s, k, e)
    ensures Potential(SlotsAfter(s, e), ks, weight)
         <= Potential(s.slots, ks, weight) + if e.slot.Install? then SETBACK * |ks| else 0
  {
    hide Budget, Rank, Typed;
    if ks != [] {
      OthersRank(sh, s, k, e, ks[0]);
      PotentialElsewhere(sh, s, k, e, ks[1..], weight);
    }
  }

  function Left(s: State): int {
    Potential(s.slots, s.tasks, SETBACK * |s.tasks|)
  }

  lemma LeftStep(sh: Shared, s: State, t: nat, c: Choice)
    requires Shape(sh, s) && t < |s.tasks| && EffectOf(sh, s, t, c).Some? && PcOk(sh.web, s.tasks[t])
    ensures Left(Apply(s, t, EffectOf(sh, s, t, c).value)) < Left(s)
  {
    hide EffectOf, Typed, Locked, Shape, Budget, Rank, PcOk;
    var k, e, weight := s.tasks[t], EffectOf(sh, s, t, c).value, SETBACK * |s.tasks|;
    EffectSound(sh, s, t, c);
    StepDescends(sh, s, t, c);
    PotentialElsewhere(sh, s, k, e, s.tasks, weight);
    PotentialUpdate(SlotsAfter(s, e), s.tasks, weight, t, e.task);
    Paid(weight, Budget(e.task) - Budget(k), if e.slot.Install? then 1 else 0);
  }

  lemma Paid(weight: nat, change: int, installs: nat)
    requires change + installs <= 0
    ensures weight * change <= -(weight * installs)
  {
    assert weight * (change + installs) <= 0;
  }

  /** The most steps any run of `n` calls can have. */
  function StepLimit(n: nat): nat {
    100 * n * n + 220 * n
  }

  lemma {:induction false} LeftAtStart(slots: map<Key, Conn>, ks: seq<Task>, weight: nat)
    requires forall t :: 0 <= t < |ks| ==> ks[t].pc == Routing && ks[t].hops == []
    ensures Potential(slots, ks, weight) == |ks| * (20 * weight + 220)
  {
    if ks != [] {
      LeftAtStart(slots, ks[1..], weight);
      assert Budget(ks[0]) == 20 && Rank(slots, ks[0]) == 220;
    }
  }

  lemma {:induction false} PotentialNatural(web: Web, slots: map<Key, Conn>, ks: seq<Task>, weight: nat)
    requires forall t :: 0 <= t < |ks| ==> PcOk(web, ks[t])
    ensures Potential(slots, ks, weight) >= 0
  {
    hide PcOk, Budget, Rank;
    if ks != [] {
      PotentialNatural(web, slots, ks[1..], weight);
      NothingOverspent(web, slots, ks[0]);
      assert weight * Budget(ks[0]) >= 0;
    }
  }

  lemma NothingOverspent(web: Web, slots: map<Key, Conn>, k: Task)
    requires PcOk(web, k)
    ensures Budget(k) >= 0 && Rank(slots, k) >= 0
  {
    hide Unusable, SlotKey;
  }

  lemma {:induction false} PlaySpends(sh: Shared, s0: State, moves: seq<Move>)
    requires Init(s0) && Play(sh, s0, moves).Some?
    ensures var s := Play(sh, s0, moves).value;
      |s.tasks| == |s0.tasks| && Left(s) + |moves| <= Left(s0)
  {
    hide Left, Shape, Init, PcOk, EffectOf;
    if moves != [] {
      var last := |moves| - 1;
      PlaySpends(sh, s0, moves[..last]);
      PlayShape(sh, s0, moves[..last]);
      var s, t := Play(sh, s0, moves[..last]).value, moves[last].task;
      PlayCalls(sh, s0, moves[..last], t);
      LeftStep(sh, s, t, moves[last].choice);
    }
  }

  lemma PlayLimit(sh: Shared, s0: State, moves: seq<Move>)
    requires Init(s0) && Play(sh, s0, moves).Some?
    ensures |moves| <= StepLimit(|s0.tasks|)
  {
    hide PcOk, Play;
    var s, n := Play(sh, s0, moves).value, |s0.tasks|;
    PlaySpends(sh, s0, moves);
    forall t | 0 <= t < |s.tasks|
      ensures PcOk(sh.web, s.tasks[t])
    {
      PlayCalls(sh, s0, moves, t);
    }
    PotentialNatural(sh.web, s.slots, s.tasks, SETBACK * n);
    LeftAtStart(s0.slots, s0.tasks, SETBACK * n);
    assert n * (20 * (SETBACK * n) + 220) == StepLimit(n);
  }

  /**
   A run of n calls has at most 100 n^2 + 220 n steps, under every schedule and every
   behaviour of the network.
   */
  lemma EveryRunEnds(sh: Shared, r: Run)
    requires IsRun(sh, r)
    ensures |r.moves| <= StepLimit(|r.states[0].tasks|)
  {
    hide Play, Init;
    RunIsPlayed(sh, r, |r.moves|);
    PlayLimit(sh, r.states[0], r.moves[..|r.moves|]);
  }

  ghost predicate AllFinished(s: State) {
    forall t :: 0 <= t < |s.tasks| ==> s.tasks[t].pc.Finished?
  }

  /** The run goes on as the other one began. */
  predicate Extends(more: Run, r: Run) {
    r.states <= more.states && r.moves <= more.moves
  }

  /**
   However a run has gone so far, it goes on until every call has its outcome: unless all
   have, it has a longer run after it; and some run after it is over for all of them.
   */
  lemma {:induction false} EveryRunFinishes(sh: Shared, r: Run)
    requires IsRun(sh, r)
    ensures (forall more :: IsRun(sh, more) && Extends(more, r) ==> more == r) ==> AllFinished(End(r))
    ensures exists more :: IsRun(sh, more) && Extends(more, r) && AllFinished(End(more))
    decreases StepLimit(|r.states[0].tasks|) - |r.moves|
  {
    hide Step, Init;
    EveryRunEnds(sh, r);
    if t :| 0 <= t < |End(r).tasks| && !End(r).tasks[t].pc.Finished? {
      var next := NextRun(sh, r, t);
      EveryRunEnds(sh, next);
      EveryRunFinishes(sh, next);
      var more :| IsRun(sh, more) && Extends(more, next) && AllFinished(End(more));
      assert Extends(more, r);
    } else {
      assert AllFinished(End(r)) && Extends(r, r);
    }
  }

  /** While some call is not finished the run can go on. */
  lemma NextRun(sh: Shared, r: Run, t: nat) returns (more: Run)
    requires IsRun(sh, r) && t < |End(r).tasks| && !End(r).tasks[t].pc.Finished?
    ensures IsRun(sh, more) && Extends(more, r) && |more.moves| == |r.moves| + 1
    ensures more.states[0] == r.states[0]
  {
    hide Step, Init;
    var s := End(r);
    assert Reachable(sh, s);
    DeadlockFree(sh, s, t);
    var u, c :| 0 <= u < |s.tasks| && Step(sh, s, u, c).Some?;
    more := Longer(sh, r, u, c);
  }
}
