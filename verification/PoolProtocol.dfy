/**
 The connection pool of src/client/pool.rs as a transition system: any number of
 calls run `execute_with_redirects` at once over shared slots, an Alt-Svc cache, a
 hint cache and a cookie jar. One step is what a call does between two points at
 which another call can run; whatever the network answers is a choice.
 */
module PoolProtocol {
  import opened Wrappers
  import opened HeaderMaps
  import opened Redirects
  import opened PoolKeys
  import opened Responses

  /** A connection: what it was dialled for, over which transport, and through which proxy. */
  datatype Conn = Conn(id: nat, at: Authority, h3: bool, via: Option<Proxy>)

  /** How a call came by the connection it transmits over. */
  datatype How =
    | Tested       // pooled Http2, and this hop's readiness test passed
    | Running      // pooled Http3, which is never tested
    | Dialled      // dialled by this hop
    | Untested     // pooled Http2, taken over without a test after a failed Http3 dial

  /** Where a call is inside the function, with the value it holds there. */
  datatype Pc =
    | Routing                            // head of the hop: parse, read the Alt-Svc cache
    | ReadingJar
    | ReadingHints
    | Peeking                            // about to lock the slot and clone its connection
    | Readying(conn: Conn)               // testing a pooled Http2 connection, no lock held
    | Clearing(conn: Conn)               // its test failed: about to lock and empty the slot
    | Wanting                            // the slot was empty: about to lock it for dialling
    | Dialing                            // slot locked and empty, dial under way
    | WantingH2                          // H3 dial failed, #h3 still locked, about to lock #h2
    | DialingH2                          // both locked, Http2 dial under way
    | Sending(conn: Conn, how: How)
    | FallingBack                        // Http3 transmission failed: about to lock #h2
    | FallbackReady(conn: Conn)          // #h2 locked, testing its connection
    | FallbackDialing(stale: bool)       // #h2 locked, dialling; stale: its connection failed the test
    | FallbackSending(conn: Conn, how: How) // #h2 still locked during the second transmission
    | StoringCookies(resp: Response)
    | StoringHints(resp: Response)
    | StoringAltSvc(resp: Response)
    | Finished(result: Result<Response, Error>)

  /** What one hop has read so far, and its account of the acquisition loop. */
  datatype Leg = Leg(
    url: Url,
    at: Authority,
    h3: bool,
    cookie: Option<string>,
    acceptCh: bool,
    routedAt: nat,   // length of the log when the Alt-Svc cache was read
    jarAt: nat,      // length of the log when the jar was read
    hintsAt: nat,    // length of the log when the hint cache was read
    base: nat,       // installs in the slot when the acquisition began
    seen: nat,       // installs in the slot when it was last peeked at
    passes: nat,     // passes through the acquisition loop
    fails: nat,      // passes that ended in a failed readiness test
    lost: nat)       // passes that found the slot empty and then filled by another call

  datatype Task = Task(start: Call, call: Call, hops: seq<Hop>, leg: Leg, pc: Pc)

  /** One hop of one call. */
  datatype Place = Place(task: nat, hop: nat)

  /**
   What the caches are built from: what the user put into them beforehand, responses
   read for one purpose each, and Http3 failures.
   */
  datatype Event =
    | Preset(altSvc: set<Authority>, hints: set<string>, jar: seq<SetCookieText>)
    | CookiesRead(place: Place, from: Url, resp: Response)
    | HintsRead(place: Place, from: Url, resp: Response)
    | AltSvcRead(place: Place, from: Url, resp: Response)
    | H3Failed(at: Authority)              // an Http3 dial or transmission failed

  /** One transmission: whose it is and at which hop, what it was built from, and its answer if it got one. */
  datatype Tx = Tx(
    task: nat,
    hop: nat,
    call: Call,
    leg: Leg,
    conn: Conn,
    how: How,
    request: Request,
    answer: Option<Response>,
    logged: nat)     // length of the log when it was sent

  /** A failed Http3 dial, and the length of the log when it failed. */
  datatype Refusal = Refusal(place: Place, at: Authority, logged: nat)

  datatype State = State(
    tasks: seq<Task>,
    slots: map<Key, Conn>,                 // a key that is absent is an empty slot
    locks: map<Key, nat>,                  // the slot mutexes that are held, and by whom
    altSvc: set<Authority>,
    hints: set<string>,
    jar: seq<SetCookieText>,
    nextId: nat,
    installs: map<Key, nat>,               // successful dials stored in a slot
    failures: map<Key, nat>,               // readiness failures of connections of a slot
    dead: set<nat>,                        // connections that failed a readiness test
    log: seq<Event>,
    refusals: seq<Refusal>,
    wire: seq<Tx>)

  /** The network's answer at a step that awaits one. */
  datatype Choice = Yes | No | Answer(resp: Response)

  /**
   What every call of one client uses unchanged. The protocol is the same whatever the
   request of a hop is built from and whatever is read out of a response, so these are
   functions here; `ClientOf` gives the ones of the source.
   */
  datatype Shared = Shared(
    web: Web,
    proxy: Option<Proxy>,
    request: (Call, Url, Option<string>, bool, bool) -> Request,
    newCookies: (Response, Url) -> seq<SetCookieText>,
    asksForVersion: Response -> bool,
    advertisesH3: Response -> bool)

  function ClientOf(w: World, proxy: Option<Proxy>): Shared {
    Shared(w.web, proxy, (c, u, cookie, acceptCh, initial) => BuildRequest(w, c, u, cookie, acceptCh, initial),
           (r, u) => NewCookies(w.web, r, u), r => AsksForVersion(w.web, r), r => AdvertisesH3(w.web, r))
  }

  function Count(m: map<Key, nat>, k: Key): nat {
    if k in m then m[k] else 0
  }

  function Bump(m: map<Key, nat>, k: Key): map<Key, nat> {
    m[k := Count(m, k) + 1]
  }

  function SlotKey(leg: Leg): Key {
    Key(leg.at, leg.h3)
  }

  function H2Key(leg: Leg): Key {
    Key(leg.at, false)
  }

  predicate Free(s: State, k: Key) {
    k !in s.locks
  }

  // ----- what one step does -----

  datatype SlotChange = Keep | Store(key: Key, conn: Conn) | Install(key: Key, conn: Conn) | Empty(key: Key)

  /** The effect of one step: the call's new local state and its changes to what is shared. */
  datatype Effect = Effect(
    task: Task,
    slot: SlotChange,
    acquire: Option<Key>,
    release: set<Key>,
    failed: Option<Key>,          // slot whose connection failed its readiness test
    dead: set<nat>,               // that connection
    evicted: set<Authority>,
    filed: set<Authority>,
    asked: set<string>,
    cookies: seq<SetCookieText>,
    events: seq<Event>,
    refused: seq<Refusal>,
    sent: seq<Tx>)

  /** The call moves on and changes nothing shared. */
  function Local(k: Task): Effect {
    Effect(k, Keep, None, {}, None, {}, {}, {}, {}, [], [], [], [])
  }

  function Goto(k: Task, pc: Pc): Effect {
    Local(k.(pc := pc))
  }

  function SlotsAfter(s: State, e: Effect): map<Key, Conn> {
    match e.slot
    case Keep => s.slots
    case Store(key, c) => s.slots[key := c]
    case Install(key, c) => s.slots[key := c]
    case Empty(key) => s.slots - {key}
  }

  function InstallsAfter(s: State, e: Effect): map<Key, nat> {
    if e.slot.Install? then Bump(s.installs, e.slot.key) else s.installs
  }

  function Apply(s: State, t: nat, e: Effect): State
    requires t < |s.tasks|
  {
    State(
      s.tasks[t := e.task],
      SlotsAfter(s, e),
      (if e.acquire.Some? then s.locks[e.acquire.value := t] else s.locks) - e.release,
      s.altSvc - e.evicted + e.filed,
      s.hints + e.asked,
      s.jar + e.cookies,
      if e.slot.Install? then s.nextId + 1 else s.nextId,
      InstallsAfter(s, e),
      if e.failed.Some? then Bump(s.failures, e.failed.value) else s.failures,
      s.dead + e.dead,
      s.log + e.events,
      s.refusals + e.refused,
      s.wire + e.sent)
  }

  /** The connection a successful dial yields; the H3 arm never uses the proxy. */
  function NewConn(sh: Shared, s: State, at: Authority, h3: bool): Conn {
    Conn(s.nextId, at, h3, if h3 then None else sh.proxy)
  }

  /** The call ends because an Http2 dial or transmission failed; `held` is what it unlocks. */
  function GiveUp(k: Task, held: set<Key>): Effect {
    Goto(k, Finished(Err(Transport))).(release := held)
  }

  function RouteStep(sh: Shared, s: State, k: Task): Effect {
    if |k.hops| >= MAX_HOPS then Goto(k, Finished(Err(RedirectLimit)))
    else
      match sh.web.parse(k.call.url)
      case None => Goto(k, Finished(Err(InvalidUrl)))
      case Some(u) =>
        if u.host == None then Goto(k, Finished(Err(InvalidUrl)))
        else
          var at := LookupAuthority(u);
          var leg := Leg(u, at, at in s.altSvc, None, false, |s.log|, 0, 0, 0, 0, 0, 0, 0);
          Local(k.(leg := leg, pc := ReadingJar))
  }

  function JarStep(sh: Shared, s: State, k: Task): Effect {
    var cookie := sh.web.cookies(s.jar, k.leg.url);
    Local(k.(leg := k.leg.(cookie := cookie, jarAt := |s.log|), pc := ReadingHints))
  }

  function HintStep(s: State, k: Task): Effect {
    var leg := k.leg.(acceptCh := OriginText(k.leg.url) in s.hints, hintsAt := |s.log|,
                      base := Count(s.installs, SlotKey(k.leg)), seen := 0, passes := 0, fails := 0, lost := 0);
    Local(k.(leg := leg, pc := Peeking))
  }

  function PeekStep(s: State, k: Task): Effect {
    var key := SlotKey(k.leg);
    var leg := k.leg.(passes := k.leg.passes + 1, seen := Count(s.installs, key));
    if key in s.slots then
      Local(k.(leg := leg, pc := if s.slots[key].h3 then Sending(s.slots[key], Running) else Readying(s.slots[key])))
    else
      Local(k.(leg := leg, pc := Wanting))
  }

  function ReadyStep(k: Task, c: Conn, ok: bool): Effect {
    if ok then Goto(k, Sending(c, Tested))
    else
      Local(k.(leg := k.leg.(fails := k.leg.fails + 1), pc := Clearing(c)))
        .(failed := Some(SlotKey(k.leg)), dead := {c.id})
  }

  /** The slot is emptied whatever it holds by now. */
  function ClearStep(k: Task): Effect {
    Goto(k, Peeking).(slot := Empty(SlotKey(k.leg)))
  }

  function WantStep(s: State, k: Task): Effect {
    if SlotKey(k.leg) in s.slots then Local(k.(leg := k.leg.(lost := k.leg.lost + 1), pc := Peeking))
    else Goto(k, Dialing).(acquire := Some(SlotKey(k.leg)))
  }

  function DialStep(sh: Shared, s: State, t: nat, k: Task, ok: bool): Effect {
    var c := NewConn(sh, s, k.leg.at, k.leg.h3);
    var key := SlotKey(k.leg);
    if ok then Goto(k, Sending(c, Dialled)).(slot := Install(key, c), release := {key})
    else if k.leg.h3 then
      Goto(k, WantingH2).(evicted := {k.leg.at}, events := [H3Failed(k.leg.at)],
                          refused := [Refusal(Place(t, |k.hops|), k.leg.at, |s.log|)])
    else GiveUp(k, {key})
  }

  /** A pooled Http2 connection is taken over here without a readiness test. */
  function WantH2Step(s: State, k: Task): Effect {
    var key := H2Key(k.leg);
    if key in s.slots then Goto(k, Sending(s.slots[key], Untested)).(release := {SlotKey(k.leg)})
    else Goto(k, DialingH2).(acquire := Some(key))
  }

  function DialH2Step(sh: Shared, s: State, k: Task, ok: bool): Effect {
    var c := NewConn(sh, s, k.leg.at, false);
    var both := {H2Key(k.leg), SlotKey(k.leg)};
    if ok then Goto(k, Sending(c, Dialled)).(slot := Install(H2Key(k.leg), c), release := both)
    else GiveUp(k, both)
  }

  function TaskRequest(sh: Shared, k: Task): Request {
    sh.request(k.call, k.leg.url, k.leg.cookie, k.leg.acceptCh, |k.hops| == 0)
  }

  function Transmission(sh: Shared, s: State, t: nat, k: Task, c: Conn, how: How, answer: Option<Response>): Tx {
    Tx(t, |k.hops|, k.call, k.leg, c, how, TaskRequest(sh, k), answer, |s.log|)
  }

  function SendStep(sh: Shared, s: State, t: nat, k: Task, c: Conn, how: How, answer: Option<Response>): Effect {
    var sent := [Transmission(sh, s, t, k, c, how, answer)];
    if !sh.web.requestOk(k.call.verb, k.leg.url.text) then Goto(k, Finished(Err(InvalidUrl)))
    else if answer.Some? then Goto(k, StoringCookies(answer.value)).(sent := sent)
    else if c.h3 then
      Goto(k, FallingBack).(sent := sent, evicted := {k.leg.at}, events := [H3Failed(k.leg.at)])
    else GiveUp(k, {}).(sent := sent)
  }

  function FallBackStep(s: State, k: Task): Effect {
    var key := H2Key(k.leg);
    var pc := if key in s.slots && !s.slots[key].h3 then FallbackReady(s.slots[key]) else FallbackDialing(false);
    Goto(k, pc).(acquire := Some(key))
  }

  function FallbackReadyStep(k: Task, c: Conn, ok: bool): Effect {
    var key := H2Key(k.leg);
    if ok then Goto(k, FallbackSending(c, Tested)).(slot := Store(key, c))
    else Goto(k, FallbackDialing(true)).(failed := Some(key), dead := {c.id})
  }

  function FallbackDialStep(sh: Shared, s: State, k: Task, ok: bool): Effect {
    var c := NewConn(sh, s, k.leg.at, false);
    if ok then Goto(k, FallbackSending(c, Dialled)).(slot := Install(H2Key(k.leg), c))
    else GiveUp(k, {H2Key(k.leg)})
  }

  /** The `#h2` slot stays locked until the second transmission is over. */
  function FallbackSendStep(sh: Shared, s: State, t: nat, k: Task, c: Conn, how: How,
                            answer: Option<Response>): Effect
  {
    var sent := [Transmission(sh, s, t, k, c, how, answer)];
    if answer.Some? then Goto(k, StoringCookies(answer.value)).(sent := sent, release := {H2Key(k.leg)})
    else GiveUp(k, {H2Key(k.leg)}).(sent := sent)
  }

  function CookieStep(sh: Shared, t: nat, k: Task, resp: Response): Effect {
    Goto(k, StoringHints(resp)).(cookies := sh.newCookies(resp, k.leg.url),
                                 events := [CookiesRead(Place(t, |k.hops|), k.leg.url, resp)])
  }

  function StoreHintStep(sh: Shared, t: nat, k: Task, resp: Response): Effect {
    var read := Goto(k, StoringAltSvc(resp)).(events := [HintsRead(Place(t, |k.hops|), k.leg.url, resp)]);
    if sh.asksForVersion(resp) then read.(asked := {OriginText(k.leg.url)}) else read
  }

  /** The call after a completed hop, as the redirect machine decides. */
  function AfterHop(sh: Shared, k: Task, resp: Response): Task {
    var done := k.(hops := k.hops + [Hop(k.call, k.leg.url, k.leg.cookie, k.leg.acceptCh, resp)]);
    match Advance(sh.web, k.call, k.leg.url, resp)
    case Stop => done.(pc := Finished(Ok(resp.(url := k.call.url))))
    case Broken => done.(pc := Finished(Err(InvalidUrl)))
    case Follow(c, _) => done.(call := c, pc := Routing)
  }

  function StoreAltSvcStep(sh: Shared, t: nat, k: Task, resp: Response): Effect {
    var read := Local(AfterHop(sh, k, resp)).(events := [AltSvcRead(Place(t, |k.hops|), k.leg.url, resp)]);
    if sh.advertisesH3(resp) then read.(filed := {FilingAuthority(k.leg.url)}) else read
  }

  function Reply(c: Choice): Option<Response> {
    if c.Answer? then Some(c.resp) else None
  }

  /** What a hop reads before it acquires a connection. */
  function ReadStep(sh: Shared, s: State, k: Task): Option<Effect> {
    match k.pc
    case Routing => Some(RouteStep(sh, s, k))
    case ReadingJar => Some(JarStep(sh, s, k))
    case ReadingHints => Some(HintStep(s, k))
    case _ => None
  }

  /** What a hop stores after its response. */
  function RecordStep(sh: Shared, t: nat, k: Task): Option<Effect> {
    match k.pc
    case StoringCookies(resp) => Some(CookieStep(sh, t, k, resp))
    case StoringHints(resp) => Some(StoreHintStep(sh, t, k, resp))
    case StoringAltSvc(resp) => Some(StoreAltSvcStep(sh, t, k, resp))
    case _ => None
  }

  /** The acquisition loop up to the dial. */
  function AcquireStep(s: State, k: Task, c: Choice): Option<Effect> {
    match k.pc
    case Peeking => if Free(s, SlotKey(k.leg)) then Some(PeekStep(s, k)) else None
    case Readying(conn) => if c.Answer? then None else Some(ReadyStep(k, conn, c.Yes?))
    case Clearing(_) => if Free(s, SlotKey(k.leg)) then Some(ClearStep(k)) else None
    case Wanting => if Free(s, SlotKey(k.leg)) then Some(WantStep(s, k)) else None
    case _ => None
  }

  /** The dial and the fallback after a failed Http3 dial. */
  function DialingStep(sh: Shared, s: State, t: nat, k: Task, c: Choice): Option<Effect> {
    match k.pc
    case Dialing => if c.Answer? then None else Some(DialStep(sh, s, t, k, c.Yes?))
    case WantingH2 => if Free(s, H2Key(k.leg)) then Some(WantH2Step(s, k)) else None
    case DialingH2 => if c.Answer? then None else Some(DialH2Step(sh, s, k, c.Yes?))
    case _ => None
  }

  /** The transmission, and the lock a failed Http3 transmission asks for. */
  function TransmitStep(sh: Shared, s: State, t: nat, k: Task, c: Choice): Option<Effect> {
    match k.pc
    case Sending(conn, how) => if c.Yes? then None else Some(SendStep(sh, s, t, k, conn, how, Reply(c)))
    case FallingBack => if Free(s, H2Key(k.leg)) then Some(FallBackStep(s, k)) else None
    case _ => None
  }

  /** The second transmission and the connection it goes over. */
  function FallbackStep(sh: Shared, s: State, t: nat, k: Task, c: Choice): Option<Effect> {
    match k.pc
    case FallbackReady(conn) => if c.Answer? then None else Some(FallbackReadyStep(k, conn, c.Yes?))
    case FallbackDialing(_) => if c.Answer? then None else Some(FallbackDialStep(sh, s, k, c.Yes?))
    case FallbackSending(conn, how) => if c.Yes? then None else Some(FallbackSendStep(sh, s, t, k, conn, how, Reply(c)))
    case _ => None
  }

  datatype Phase = Read | Acquire | Dial | Transmit | Fallback | Record | Over

  function PhaseOf(pc: Pc): Phase {
    if pc.Peeking? || pc.Readying? || pc.Clearing? || pc.Wanting? then Acquire
    else if pc.Dialing? || pc.WantingH2? || pc.DialingH2? then Dial
    else if pc.Sending? || pc.FallingBack? then Transmit
    else if pc.FallbackReady? || pc.FallbackDialing? || pc.FallbackSending? then Fallback
    else if pc.StoringCookies? || pc.StoringHints? || pc.StoringAltSvc? then Record
    else if pc.Finished? then Over
    else Read
  }

  /**
   The effect of a step of call `t` under the choice `c`; nothing when it is blocked, done,
   or the choice does not fit.
   */
  function EffectOf(sh: Shared, s: State, t: nat, c: Choice): Option<Effect>
    requires t < |s.tasks|
  {
    var k := s.tasks[t];
    match PhaseOf(k.pc)
    case Read => ReadStep(sh, s, k)
    case Acquire => AcquireStep(s, k, c)
    case Dial => DialingStep(sh, s, t, k, c)
    case Transmit => TransmitStep(sh, s, t, k, c)
    case Fallback => FallbackStep(sh, s, t, k, c)
    case Record => RecordStep(sh, t, k)
    case Over => None
  }

  function Step(sh: Shared, s: State, t: nat, c: Choice): Option<State>
    requires t < |s.tasks|
  {
    match EffectOf(sh, s, t, c)
    case None => None
    case Some(e) => Some(Apply(s, t, e))
  }

  ghost predicate Init(s: State) {
    && s.slots == map[] && s.locks == map[] && s.installs == map[] && s.failures == map[]
    && s.dead == {} && s.log == [Preset(s.altSvc, s.hints, s.jar)] && s.refusals == [] && s.wire == []
    && forall t :: 0 <= t < |s.tasks| ==>
         var k := s.tasks[t];
         k.pc == Routing && k.hops == [] && k.call == k.start
         && k.start == Start(k.start.url, k.start.verb, k.start.body)
  }

  /** The choice of one step: which call moves, and what the network answers it. */
  datatype Move = Move(task: nat, choice: Choice)

  /** The state after the moves, when every one of them is possible. */
  function Play(sh: Shared, s: State, moves: seq<Move>): Option<State> {
    if moves == [] then Some(s)
    else
      var last := |moves| - 1;
      var before := Play(sh, s, moves[..last]);
      if before == None || moves[last].task >= |before.value.tasks| then None
      else Step(sh, before.value, moves[last].task, moves[last].choice)
  }

  /** A run: the moves, and the states before, between and after them. */
  datatype Run = Run(states: seq<State>, moves: seq<Move>)

  predicate Follows(sh: Shared, r: Run, i: nat)
    requires |r.states| == |r.moves| + 1 && i < |r.moves|
  {
    && r.moves[i].task < |r.states[i].tasks|
    && Step(sh, r.states[i], r.moves[i].task, r.moves[i].choice) == Some(r.states[i + 1])
  }

  /** Some interleaving of some calls that starts with an empty pool and any caches. */
  ghost predicate IsRun(sh: Shared, r: Run) {
    && |r.states| == |r.moves| + 1
    && Init(r.states[0])
    && forall i :: 0 <= i < |r.moves| ==> Follows(sh, r, i)
  }

  function End(r: Run): State
    requires r.states != []
  {
    r.states[|r.states| - 1]
  }

  ghost predicate Reachable(sh: Shared, s: State) {
    exists r: Run :: IsRun(sh, r) && End(r) == s
  }

  lemma {:induction false} RunIsPlayed(sh: Shared, r: Run, n: nat)
    requires IsRun(sh, r) && n <= |r.moves|
    ensures Play(sh, r.states[0], r.moves[..n]) == Some(r.states[n])
  {
    hide Step, Init;
    if n > 0 {
      RunIsPlayed(sh, r, n - 1);
      assert Follows(sh, r, n - 1);
      assert r.moves[..n][..n - 1] == r.moves[..n - 1];
    }
  }

  /** A reachable state is the end of a play. */
  lemma Played(sh: Shared, s: State) returns (s0: State, moves: seq<Move>)
    requires Reachable(sh, s)
    ensures Init(s0) && Play(sh, s0, moves) == Some(s)
  {
    hide Step, Init, Play;
    var r: Run :| IsRun(sh, r) && End(r) == s;
    s0, moves := r.states[0], r.moves;
    RunIsPlayed(sh, r, |moves|);
    assert moves[..|moves|] == moves;
  }

  /** A run and one more step. */
  lemma Longer(sh: Shared, r: Run, t: nat, c: Choice) returns (more: Run)
    requires IsRun(sh, r) && t < |End(r).tasks| && Step(sh, End(r), t, c).Some?
    ensures more == Run(r.states + [Step(sh, End(r), t, c).value], r.moves + [Move(t, c)])
    ensures IsRun(sh, more)
  {
    hide Step, Init;
    more := Run(r.states + [Step(sh, End(r), t, c).value], r.moves + [Move(t, c)]);
    forall i | 0 <= i < |more.moves|
      ensures Follows(sh, more, i)
    {
      if i < |r.moves| {
        assert Follows(sh, r, i);
      }
    }
  }

  lemma Further(sh: Shared, s: State, t: nat, c: Choice)
    requires Reachable(sh, s) && t < |s.tasks| && Step(sh, s, t, c).Some?
    ensures Reachable(sh, Step(sh, s, t, c).value)
  {
    hide Step, Init;
    var r: Run :| IsRun(sh, r) && End(r) == s;
    var more := Longer(sh, r, t, c);
  }
}
