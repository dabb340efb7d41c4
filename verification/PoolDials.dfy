/**
 How often the pool dials: an amortised bound for every interleaving, although a call
 whose readiness test failed empties the slot whatever it holds by then.
 */
module PoolDials {
  import opened Wrappers
  import opened Redirects
  import opened PoolKeys
  import opened PoolProtocol
  import opened PoolLocks

  /** Readiness failures of a slot that this call has counted but not yet paid for with a dial or a clear. */
  function Debt(k: Task, key: Key): nat {
    match k.pc
    case Clearing(_) => if SlotKey(k.leg) == key then 1 else 0
    case FallbackDialing(stale) => if stale && H2Key(k.leg) == key then 1 else 0
    case _ => 0
  }

  function TotalDebt(ks: seq<Task>, key: Key): nat {
    if ks == [] then 0 else Debt(ks[0], key) + TotalDebt(ks[1..], key)
  }

  lemma {:induction false} TotalDebtUpdate(ks: seq<Task>, t: nat, k: Task, key: Key)
    requires t < |ks|
    ensures TotalDebt(ks[t := k], key) + Debt(ks[t], key) == TotalDebt(ks, key) + Debt(k, key)
  {
    if t == 0 {
      assert ks[t := k][1..] == ks[1..];
    } else {
      assert ks[t := k][1..] == ks[1..][t - 1 := k];
      TotalDebtUpdate(ks[1..], t - 1, k, key);
    }
  }

  function Occupied(slots: map<Key, Conn>, key: Key): nat {
    if key in slots then 1 else 0
  }

  /** An Http3 slot is filled exactly as often as it is occupied; an Http2 slot stays within its readiness failures. */
  predicate BalancedAt(s: State, key: Key) {
    if key.h3 then Count(s.installs, key) == Occupied(s.slots, key)
    else Count(s.installs, key) + TotalDebt(s.tasks, key) <= Count(s.failures, key) + Occupied(s.slots, key)
  }

  /** One step keeps the balance of one slot. */
  predicate PaysAt(s: State, k: Task, e: Effect, key: Key) {
    var dialled := if e.slot.Install? && e.slot.key == key then 1 else 0;
    var failed := if e.failed == Some(key) then 1 else 0;
    var before, after := Occupied(s.slots, key), Occupied(SlotsAfter(s, e), key);
    if key.h3 then dialled + before == after
    else dialled + Debt(e.task, key) + before <= failed + Debt(k, key) + after
  }

  ghost predicate Pays(s: State, k: Task, e: Effect) {
    forall key :: PaysAt(s, k, e, key)
  }

  lemma ReadPays(sh: Shared, s: State, k: Task)
    requires TaskTyped(sh, k) && SlotKnown(s, k) && ReadStep(sh, s, k).Some?
    ensures Pays(s, k, ReadStep(sh, s, k).value)
  {
  }

  lemma AcquirePays(sh: Shared, s: State, k: Task, c: Choice)
    requires TaskTyped(sh, k) && SlotKnown(s, k) && AcquireStep(s, k, c).Some?
    ensures Pays(s, k, AcquireStep(s, k, c).value)
  {
  }

  lemma DialPays(sh: Shared, s: State, t: nat, k: Task, c: Choice)
    requires TaskTyped(sh, k) && SlotKnown(s, k) && DialingStep(sh, s, t, k, c).Some?
    ensures Pays(s, k, DialingStep(sh, s, t, k, c).value)
  {
  }

  lemma TransmitPays(sh: Shared, s: State, t: nat, k: Task, c: Choice)
    requires TaskTyped(sh, k) && SlotKnown(s, k) && TransmitStep(sh, s, t, k, c).Some?
    ensures Pays(s, k, TransmitStep(sh, s, t, k, c).value)
  {
  }

  lemma FallbackPays(sh: Shared, s: State, t: nat, k: Task, c: Choice)
    requires TaskTyped(sh, k) && SlotKnown(s, k) && FallbackStep(sh, s, t, k, c).Some?
    ensures Pays(s, k, FallbackStep(sh, s, t, k, c).value)
  {
  }

  lemma RecordPays(sh: Shared, s: State, t: nat, k: Task)
    requires TaskTyped(sh, k) && SlotKnown(s, k) && RecordStep(sh, t, k).Some?
    ensures Pays(s, k, RecordStep(sh, t, k).value)
  {
  }

  lemma BalanceStep(sh: Shared, s: State, t: nat, c: Choice, key: Key)
    requires Shape(sh, s) && t < |s.tasks| && EffectOf(sh, s, t, c).Some? && BalancedAt(s, key)
    ensures BalancedAt(Apply(s, t, EffectOf(sh, s, t, c).value), key)
  {
    var k := s.tasks[t];
    var e := EffectOf(sh, s, t, c).value;
    assert Pays(s, k, e) by {
      match PhaseOf(k.pc)
      case Read => ReadPays(sh, s, k);
      case Acquire => AcquirePays(sh, s, k, c);
      case Dial => DialPays(sh, s, t, k, c);
      case Transmit => TransmitPays(sh, s, t, k, c);
      case Fallback => FallbackPays(sh, s, t, k, c);
      case Record => RecordPays(sh, s, t, k);
    }
    assert PaysAt(s, k, e, key);
    TotalDebtUpdate(s.tasks, t, e.task, key);
  }

  lemma {:induction false} NoDebtAtStart(ks: seq<Task>, key: Key)
    requires forall t :: 0 <= t < |ks| ==> ks[t].pc == Routing
    ensures TotalDebt(ks, key) == 0
  {
    if ks != [] {
      NoDebtAtStart(ks[1..], key);
    }
  }

  lemma {:induction false} PlayBalanced(sh: Shared, s0: State, moves: seq<Move>, key: Key)
    requires Init(s0) && Play(sh, s0, moves).Some?
    ensures BalancedAt(Play(sh, s0, moves).value, key)
  {
    if moves == [] {
      NoDebtAtStart(s0.tasks, key);
    } else {
      var last := |moves| - 1;
      PlayBalanced(sh, s0, moves[..last], key);
      PlayShape(sh, s0, moves[..last]);
      BalanceStep(sh, Play(sh, s0, moves[..last]).value, moves[last].task, moves[last].choice, key);
    }
  }

  lemma KeepsHttp3(sh: Shared, s: State, t: nat, c: Choice, key: Key)
    requires Shape(sh, s) && t < |s.tasks| && EffectOf(sh, s, t, c).Some? && key.h3 && key in s.slots
    ensures var slots := SlotsAfter(s, EffectOf(sh, s, t, c).value);
      key in slots && slots[key] == s.slots[key]
  {
    hide LocksAgree, SlotsTyped, NewConn, Transmission, Advance, FilingAuthority, LookupAuthority, OriginText, Count;
    var k := s.tasks[t];
    assert TaskTyped(sh, k) && SlotKnown(s, k);
  }

  /** Once an Http3 slot is filled, it holds that same connection in every later state of the run. */
  lemma {:induction false} Http3SlotIsForGood(sh: Shared, r: Run, i: nat, j: nat, key: Key)
    requires IsRun(sh, r) && i <= j < |r.states| && key.h3 && key in r.states[i].slots
    ensures key in r.states[j].slots && r.states[j].slots[key] == r.states[i].slots[key]
  {
    hide Init, Play, EffectOf, Shape;
    if i < j {
      Http3SlotIsForGood(sh, r, i, j - 1, key);
      RunIsPlayed(sh, r, j - 1);
      PlayShape(sh, r.states[0], r.moves[..j - 1]);
      assert Follows(sh, r, j - 1);
      KeepsHttp3(sh, r.states[j - 1], r.moves[j - 1].task, r.moves[j - 1].choice, key);
    }
  }

  /**
   In every reachable state, whatever the interleaving, the successful dials stored in an
   Http2 slot are at most one more than the readiness failures seen on it, and an Http3
   slot has been filled at most once ever, namely exactly when it is occupied.
   */
  lemma AmortisedDials(sh: Shared, s: State, key: Key)
    requires Reachable(sh, s)
    ensures !key.h3 ==> Count(s.installs, key) <= 1 + Count(s.failures, key)
    ensures key.h3 ==> Count(s.installs, key) == if key in s.slots then 1 else 0
  {
    var s0, moves := Played(sh, s);
    PlayBalanced(sh, s0, moves, key);
  }
}
