/** The two timing bounds are exact: at or above them, runs that keep every promised delay have
    two leaders, or two nodes at work, at once. */
module ElectionBounds {
  import opened Basics
  import opened Runs
  import opened RedisLock
  import opened ElectLoop
  import opened Supervisor
  import opened Pipeline
  import opened Election
  import opened ElectionTiming
  import opened ElectionWork

  // ---- building runs that keep every delay ----------------------------------------------------

  predicate ClientPrompt(k: Client, now: int) {
    Uncancelled(k) ==> OnTime(k, now) && HandledOnTime(k, now)
  }

  /** All candidates that are not cancelled keep all their delays, engaged or not. */
  predicate Punctual(w: World) {
    forall c :: c in w.clients ==> ClientPrompt(w.clients[c], w.now)
  }

  ghost predicate PromptReaches(w: World, v: World) {
    ReachesThrough(Next, Punctual, w, v)
  }

  lemma PromptReached(w: World, v: World) returns (acts: seq<Action>)
    requires PromptReaches(w, v)
    ensures After(Next, w, acts) == v && PromptRun(w, acts) && TimelyRun(w, acts)
  {
    acts :| Throughout(Next, Punctual, w, acts) && After(Next, w, acts) == v;
    forall i | 0 <= i <= |acts| ensures Prompt(After(Next, w, acts[..i])) && Timely(After(Next, w, acts[..i])) {
      assert Punctual(After(Next, w, acts[..i]));
    }
  }

  lemma SamePunctual(v: World, u: World)
    requires Punctual(v) && u.clients == v.clients && u.now == v.now
    ensures Punctual(u)
  {
  }

  lemma PassTime(w: World, v: World, to: int) returns (u: World)
    requires PromptReaches(w, v) && v.now <= to
    requires forall c :: c in v.clients ==> ClientPrompt(v.clients[c], to)
    ensures PromptReaches(w, u) && u == v.(now := to)
  {
    assert Punctual(Next(v, Advance(to)));
    ThroughNext(Next, Punctual, w, v, Advance(to));
    u := Next(v, Advance(to));
  }

  /** The world after a Lock that found the key free. */
  function Taken(v: World, r: Request): World
    requires r.client in v.clients
  {
    v.(entry := Held(r.client, v.now + v.clients[r.client].cfg.ttl), effects := v.effects + {Effect(r, true, v.now)})
  }

  predicate CanTake(v: World, r: Request) {
    && r in v.sent && r.client in v.clients && r.op == LockOp && 0 < v.clients[r.client].cfg.ttl
    && !Live(v.entry, v.now)
  }

  lemma TakeEffect(v: World, r: Request)
    requires CanTake(v, r)
    ensures Next(v, Execute(r)) == Taken(v, r)
  {
  }

  lemma Take(w: World, v: World, r: Request) returns (u: World)
    requires PromptReaches(w, v) && CanTake(v, r)
    ensures PromptReaches(w, u) && u == Taken(v, r)
  {
    TakeEffect(v, r);
    ThroughEnd(Next, Punctual, w, v);
    SamePunctual(v, Taken(v, r));
    ThroughNext(Next, Punctual, w, v, Execute(r));
    u := Taken(v, r);
  }

  lemma PunctualMoved(v: World, c: Value, a: NodeAction, answer: Option<Effect>, next: int)
    requires Punctual(v) && LocalEnabled(v, c, a, answer, next)
    requires ClientPrompt(Moved(v.clients[c], a, answer, next, v.now), v.now)
    ensures Punctual(Next(v, Local(c, a, answer, next)))
  {
    var k := Moved(v.clients[c], a, answer, next, v.now);
    assert Next(v, Local(c, a, answer, next)).clients == v.clients[c := k];
  }

  /** The step takes the client from `k` to `k'`, which is prompt. */
  predicate Moves(k: Client, a: NodeAction, answer: Option<Effect>, next: int, now: int, k': Client) {
    NodeEnabled(k.node, a) && k' == Moved(k, a, answer, next, now) && ClientPrompt(k', now)
  }

  lemma Act(w: World, v: World, c: Value, a: NodeAction, answer: Option<Effect>, next: int, k: Client)
    returns (u: World)
    requires PromptReaches(w, v) && LocalEnabled(v, c, a, answer, next)
    requires Moves(v.clients[c], a, answer, next, v.now, k)
    ensures PromptReaches(w, u)
    ensures u.now == v.now && u.entry == v.entry && u.effects == v.effects
    ensures u.sent == v.sent + NewRequests(c, v.clients[c], k) && u.clients == v.clients[c := k]
  {
    ThroughEnd(Next, Punctual, w, v);
    PunctualMoved(v, c, a, answer, next);
    ThroughNext(Next, Punctual, w, v, Local(c, a, answer, next));
    u := Next(v, Local(c, a, answer, next));
  }

  /** An action that takes neither an answer nor a tick. */
  lemma Do(w: World, v: World, c: Value, a: NodeAction, k: Client) returns (u: World)
    requires PromptReaches(w, v) && c in v.clients && Moves(v.clients[c], a, None, 0, v.now, k)
    requires a != Elect(Begin) && a != Elect(Tick) && a != Elect(Reply(true))
    ensures PromptReaches(w, u)
    ensures u.now == v.now && u.entry == v.entry && u.clients == v.clients[c := k]
  {
    u := Act(w, v, c, a, None, 0, k);
  }

  // ---- the states a candidate passes through -------------------------------------------------

  const NO_EFFECT := Effect(Request(0, 0, LockOp), false, 0)

  function NewClient(cfg: Config): Client {
    Client(FRESH_NODE, cfg, 0, false, NO_EFFECT, 0, 0, [])
  }

  /** Two candidates with the same configuration, the key free, the clock at zero. */
  function Pair(cfg: Config): World {
    World(0, Absent, {}, {}, map[0 := NewClient(cfg), 1 := NewClient(cfg)])
  }

  function Asking(cfg: Config, now: int): Client {
    NewClient(cfg).(node := FRESH_NODE.(elector := FRESH_ELECTOR.(phase := Calling(LockOp))), seqNo := 1,
                    mark := now, nextTick := now + cfg.period)
  }

  /** A candidate whose first call won the key at time `at`. */
  function Won(cfg: Config, c: Value, at: int, node: Node, mark: int, pushed: seq<int>): Client {
    Client(node, cfg, 1, false, Effect(Request(c, 1, LockOp), true, at), mark, at + cfg.period, pushed)
  }

  const ANNOUNCING := FRESH_NODE.(elector := Elector(Sending(TAKEN_ACQUIRE, false), true, false, []))
  const ANNOUNCED := FRESH_NODE.(elector := Elector(Idle, true, false, [TAKEN_ACQUIRE]))
  const LISTENING := ANNOUNCED.(sup := FRESH_SUP.(loop := Waiting))
  const HEARD := Node(Elector(Idle, true, false, []), FRESH_SUP.(loop := Handling(TAKEN_ACQUIRE)),
                      [TAKEN_ACQUIRE], false, false)
  const WORKING := HEARD.(sup := Sup(Waiting, true, [StartCall], false, false))

  lemma BeginMoves(cfg: Config, now: int)
    requires Sane(cfg)
    ensures Moves(NewClient(cfg), Elect(Begin), None, now + cfg.period, now, Asking(cfg, now))
  {
  }

  lemma ReplyMoves(cfg: Config, c: Value, asked: int, now: int)
    requires Sane(cfg)
    ensures Moves(Asking(cfg, asked), Elect(Reply(true)), Some(Effect(Request(c, 1, LockOp), true, asked)), 0, now,
                  Won(cfg, c, asked, ANNOUNCING, now, []))
  {
  }

  lemma PushMoves(cfg: Config, c: Value, at: int, mark: int, now: int)
    requires Sane(cfg)
    ensures Moves(Won(cfg, c, at, ANNOUNCING, mark, []), Elect(Push), None, 0, now,
                  Won(cfg, c, at, ANNOUNCED, now, [now]))
  {
  }

  lemma ListenMoves(cfg: Config, c: Value, at: int, now: int)
    requires Sane(cfg)
    ensures Moves(Won(cfg, c, at, ANNOUNCED, now, [now]), Supervise(BeginLoop), None, 0, now,
                  Won(cfg, c, at, LISTENING, now, [now]))
  {
  }

  lemma ReceiveMoves(cfg: Config, c: Value, at: int, now: int)
    requires Sane(cfg)
    ensures Moves(Won(cfg, c, at, LISTENING, now, [now]), Supervise(Receive(TAKEN_ACQUIRE)), None, 0, now,
                  Won(cfg, c, at, HEARD, now, [now]))
  {
    assert [TAKEN_ACQUIRE][1..] == [];
  }

  lemma HandleMoves(cfg: Config, c: Value, at: int, now: int)
    requires Sane(cfg)
    ensures Moves(Won(cfg, c, at, HEARD, now, [now]), Supervise(Handle), None, 0, now,
                  Won(cfg, c, at, WORKING, now, [now]))
  {
  }

  /** At work, the renewal call under way since `t`. */
  function Renewing(k: Client, t: int): Client {
    k.(node := WORKING.(elector := WORKING.elector.(phase := Calling(ExtendOp))), seqNo := 2, mark := t,
       nextTick := t + k.cfg.period)
  }

  /** At work, the renewal refused at `t`: Lost is being sent. */
  function Losing(k: Client, t: int): Client {
    Renewing(k, t).(node := WORKING.(elector := Elector(Sending(LOST_ACQUIRE, false), false, false, [])),
                    nextTick := k.nextTick)
  }

  /** At work, Lost in the channel since `t`. */
  function Lost(k: Client, t: int): Client {
    Losing(k, t).(node := WORKING.(elector := Elector(Idle, false, false, [LOST_ACQUIRE])), pushed := k.pushed + [t])
  }

  lemma TickMoves(cfg: Config, c: Value, at: int, t2: int, t3: int)
    requires Sane(cfg)
    ensures var k := Won(cfg, c, at, WORKING, t2, [t2]);
      Moves(k, Elect(Tick), None, t3 + cfg.period, t3, Renewing(k, t3))
  {
  }

  predicate InRenewal(k: Client) {
    k.node == WORKING.(elector := WORKING.elector.(phase := Calling(ExtendOp))) && k.seqNo == 2 && |k.pushed| == 1
  }

  lemma LoseMoves(k: Client, t4: int)
    requires Sane(k.cfg) && InRenewal(k)
    ensures Moves(k, Elect(Reply(false)), None, 0, t4, Losing(k, t4))
  {
  }

  lemma PushLostMoves(k: Client, t4: int, t5: int)
    requires Sane(k.cfg) && InRenewal(k)
    ensures Moves(Losing(k, t4), Elect(Push), None, 0, t5, Lost(k, t5))
  {
  }

  /** How long the states last. */
  lemma Patience(k: Client, t4: int, t5: int, now: int)
    requires Sane(k.cfg) && InRenewal(k) && !k.releasing
    ensures now <= k.mark + k.cfg.call ==> ClientPrompt(k, now)
    ensures now <= t4 + k.cfg.send ==> ClientPrompt(Losing(k, t4), now)
    ensures now <= t5 + k.cfg.handle ==> ClientPrompt(Lost(k, t5), now)
  {
  }

  // ---- the runs ------------------------------------------------------------------------------

  /** A fresh candidate asks for the key and finds it free. */
  lemma Ask(w: World, v0: World, cfg: Config, c: Value) returns (v: World)
    requires Sane(cfg) && PromptReaches(w, v0) && !Live(v0.entry, v0.now)
    requires c in v0.clients && v0.clients[c] == NewClient(cfg)
    ensures PromptReaches(w, v)
    ensures v.now == v0.now && v.entry == Held(c, v0.now + cfg.ttl)
    ensures v.clients == v0.clients[c := Asking(cfg, v0.now)]
    ensures Effect(Request(c, 1, LockOp), true, v0.now) in v.effects
  {
    BeginMoves(cfg, v0.now);
    v := Act(w, v0, c, Elect(Begin), None, v0.now + cfg.period, Asking(cfg, v0.now));
    assert NewRequests(c, NewClient(cfg), Asking(cfg, v0.now)) == {Request(c, 1, LockOp)};
    v := Take(w, v, Request(c, 1, LockOp));
  }

  /** It gets its answer. */
  lemma Answer(w: World, v0: World, cfg: Config, c: Value, asked: int) returns (v: World)
    requires Sane(cfg) && PromptReaches(w, v0)
    requires c in v0.clients && v0.clients[c] == Asking(cfg, asked)
    requires Effect(Request(c, 1, LockOp), true, asked) in v0.effects
    ensures PromptReaches(w, v)
    ensures v.now == v0.now && v.entry == v0.entry
    ensures v.clients == v0.clients[c := Won(cfg, c, asked, ANNOUNCING, v.now, [])]
  {
    ReplyMoves(cfg, c, asked, v0.now);
    v := Act(w, v0, c, Elect(Reply(true)), Some(Effect(Request(c, 1, LockOp), true, asked)), 0,
             Won(cfg, c, asked, ANNOUNCING, v0.now, []));
  }

  /** Its event goes through to the supervisor and is handled at once. */
  lemma Announce(w: World, v0: World, cfg: Config, c: Value, at: int, mark: int) returns (v: World)
    requires Sane(cfg) && PromptReaches(w, v0)
    requires c in v0.clients && v0.clients[c] == Won(cfg, c, at, ANNOUNCING, mark, [])
    ensures PromptReaches(w, v) && v.now == v0.now && v.entry == v0.entry
    ensures v.clients == v0.clients[c := Won(cfg, c, at, WORKING, v0.now, [v0.now])]
  {
    var t := v0.now;
    PushMoves(cfg, c, at, mark, t);
    v := Do(w, v0, c, Elect(Push), Won(cfg, c, at, ANNOUNCED, t, [t]));
    ListenMoves(cfg, c, at, t);
    v := Do(w, v, c, Supervise(BeginLoop), Won(cfg, c, at, LISTENING, t, [t]));
    v := Listen(w, v, cfg, c, at, t);
  }

  lemma Listen(w: World, v0: World, cfg: Config, c: Value, at: int, t: int) returns (v: World)
    requires Sane(cfg) && PromptReaches(w, v0) && v0.now == t
    requires c in v0.clients && v0.clients[c] == Won(cfg, c, at, LISTENING, t, [t])
    ensures PromptReaches(w, v) && v.now == v0.now && v.entry == v0.entry
    ensures v.clients == v0.clients[c := Won(cfg, c, at, WORKING, t, [t])]
  {
    ReceiveMoves(cfg, c, at, t);
    v := Do(w, v0, c, Supervise(Receive(TAKEN_ACQUIRE)), Won(cfg, c, at, HEARD, t, [t]));
    HandleMoves(cfg, c, at, t);
    v := Do(w, v, c, Supervise(Handle), Won(cfg, c, at, WORKING, t, [t]));
  }

  /** Candidate 0 against a candidate 1 that has not started. */
  ghost predicate Against(v: World, cfg: Config, k: Client, now: int) {
    && v.now == now && v.entry == Held(0, cfg.ttl)
    && v.clients == map[0 := k, 1 := NewClient(cfg)]
  }

  lemma FirstWorks(cfg: Config, t1: int, t2: int) returns (v: World)
    requires Sane(cfg) && 0 <= t1 <= cfg.call && t1 <= t2 <= t1 + cfg.send
    ensures PromptReaches(Pair(cfg), v) && Against(v, cfg, Won(cfg, 0, 0, WORKING, t2, [t2]), t2)
  {
    var w := Pair(cfg);
    ThroughItself(Next, Punctual, w);
    v := Ask(w, w, cfg, 0);
    v := PassTime(w, v, t1);
    v := Answer(w, v, cfg, 0, 0);
    v := PassTime(w, v, t2);
    v := Announce(w, v, cfg, 0, 0, t1);
  }

  /** It stays as it is while the clock goes on. */
  lemma Rest(w: World, v0: World, cfg: Config, k: Client, now: int, to: int) returns (v: World)
    requires PromptReaches(w, v0) && Against(v0, cfg, k, now) && now <= to && ClientPrompt(k, to)
    ensures PromptReaches(w, v) && Against(v, cfg, k, to)
  {
    v := PassTime(w, v0, to);
  }

  /** When candidate 0 takes its tick, as late as it may or when its lease ends. */
  function TickTime(cfg: Config): int {
    Min(Max(Min(Min(cfg.call, cfg.ttl) + cfg.send, cfg.ttl), cfg.period) + cfg.wake, cfg.ttl)
  }

  /** Candidate 0, at work, in its renewal call - or, if its first tick comes only after the end
      of its lease, still at the select. */
  lemma FirstRenews(cfg: Config) returns (v: World, k: Client, t2: int)
    requires Sane(cfg)
    ensures PromptReaches(Pair(cfg), v) && Against(v, cfg, k, TickTime(cfg))
    ensures cfg.period <= TickTime(cfg) ==> k == Renewing(Won(cfg, 0, 0, WORKING, t2, [t2]), TickTime(cfg))
    ensures TickTime(cfg) < cfg.period ==> k == Won(cfg, 0, 0, WORKING, t2, [t2]) && TickTime(cfg) == cfg.ttl
  {
    var w, t3 := Pair(cfg), TickTime(cfg);
    var t1 := Min(cfg.call, cfg.ttl);
    t2 := Min(t1 + cfg.send, cfg.ttl);
    v := FirstWorks(cfg, t1, t2);
    k := Won(cfg, 0, 0, WORKING, t2, [t2]);
    v := Rest(w, v, cfg, k, t2, t3);
    if cfg.period <= t3 {
      TickMoves(cfg, 0, 0, t2, t3);
      v := Act(w, v, 0, Elect(Tick), None, t3 + cfg.period, Renewing(k, t3));
      k := Renewing(k, t3);
    }
  }

  /** Candidate 0 still believes when its lease ends. */
  lemma FirstOverstays(cfg: Config) returns (v: World, k: Client)
    requires Sane(cfg) && !SafeConfig(cfg)
    ensures PromptReaches(Pair(cfg), v) && Against(v, cfg, k, cfg.ttl)
    ensures Uncancelled(k) && k.node.elector.isLeader
  {
    var t2;
    v, k, t2 := FirstRenews(cfg);
    v := Rest(Pair(cfg), v, cfg, k, TickTime(cfg), cfg.ttl);
  }

  lemma FirstRefused(w: World, v0: World, cfg: Config, k: Client, t3: int, t4: int) returns (v: World)
    requires Sane(cfg) && k.cfg == cfg && InRenewal(k) && !k.releasing && k.mark == t3
    requires PromptReaches(w, v0) && Against(v0, cfg, k, t3) && t3 <= t4 <= t3 + cfg.call
    ensures PromptReaches(w, v) && Against(v, cfg, Losing(k, t4), t4)
  {
    Patience(k, t4, t4, t4);
    v := Rest(w, v0, cfg, k, t3, t4);
    LoseMoves(k, t4);
    v := Do(w, v, 0, Elect(Reply(false)), Losing(k, t4));
  }

  /** Refused at `t4`, it has its Lost in the channel at `t5`, not handled until `to`. */
  lemma FirstLoses(w: World, v0: World, cfg: Config, k: Client, t4: int, t5: int, to: int) returns (v: World)
    requires Sane(cfg) && k.cfg == cfg && InRenewal(k) && !k.releasing
    requires PromptReaches(w, v0) && Against(v0, cfg, Losing(k, t4), t4)
    requires t4 <= t5 <= t4 + cfg.send && t5 <= to <= t5 + cfg.handle
    ensures PromptReaches(w, v) && Against(v, cfg, Lost(k, t5), to)
  {
    Patience(k, t4, t5, t5);
    v := Rest(w, v0, cfg, Losing(k, t4), t4, t5);
    PushLostMoves(k, t4, t5);
    v := Do(w, v, 0, Elect(Push), Lost(k, t5));
    Patience(k, t4, t5, to);
    v := Rest(w, v, cfg, Lost(k, t5), t5, to);
  }

  /** Candidate 0 still works when its lease ends. */
  lemma FirstWorksOn(cfg: Config) returns (v: World, k: Client)
    requires Sane(cfg) && !WorkSafe(cfg)
    ensures PromptReaches(Pair(cfg), v) && Against(v, cfg, k, cfg.ttl)
    ensures Uncancelled(k) && Unmatched(k.node.sup.calls)
  {
    var t3, t2 := TickTime(cfg), 0;
    v, k, t2 := FirstRenews(cfg);
    if cfg.period <= t3 {
      var t4 := Min(t3 + cfg.call, cfg.ttl);
      var t5 := Min(t4 + cfg.send, cfg.ttl);
      v := FirstRefused(Pair(cfg), v, cfg, k, t3, t4);
      v := FirstLoses(Pair(cfg), v, cfg, k, t4, t5, cfg.ttl);
      k := Lost(k, t5);
    }
  }

  /** At or above the TTL the staleness lets two leaders be at once, all delays kept. */
  lemma TwoLeaders(cfg: Config) returns (v: World)
    requires Sane(cfg) && !SafeConfig(cfg)
    ensures PromptReaches(Pair(cfg), v) && Leader(v, 0) && Leader(v, 1)
  {
    var k;
    v, k := FirstOverstays(cfg);
    v := Ask(Pair(cfg), v, cfg, 1);
    v := Answer(Pair(cfg), v, cfg, 1, cfg.ttl);
  }

  /** And with a send and the handling added it lets two nodes work at once. */
  lemma TwoWorkers(cfg: Config) returns (v: World)
    requires Sane(cfg) && !WorkSafe(cfg)
    ensures PromptReaches(Pair(cfg), v) && v.clients.Keys == {0, 1} && Works(v, 0) && Works(v, 1)
  {
    var k;
    v, k := FirstWorksOn(cfg);
    v := Ask(Pair(cfg), v, cfg, 1);
    v := Answer(Pair(cfg), v, cfg, 1, cfg.ttl);
    v := Announce(Pair(cfg), v, cfg, 1, cfg.ttl, cfg.ttl);
  }

  // ---- a cancelled candidate -----------------------------------------------------------------

  /** Cancelled at work, its Unlock sent. */
  function Quitting(k: Client): Client {
    k.(node := WORKING.(elector := Elector(Calling(UnlockOp), true, true, [])), seqNo := 2, releasing := true, mark := 0)
  }

  lemma QuitMoves(cfg: Config, k: Client)
    requires k == Won(cfg, 0, 0, WORKING, 0, [0])
    ensures var k' := k.(node := k.node.(elector := k.node.elector.(cancelled := true)));
      Moves(k, Elect(Cancel), None, 0, 0, k') && Moves(k', Elect(Done), None, 0, 0, Quitting(k))
  {
  }

  /** The owner's Unlock runs. */
  lemma Free(w: World, v: World, r: Request) returns (u: World)
    requires PromptReaches(w, v) && r in v.sent && r.client in v.clients && r.op == UnlockOp
    requires OwnedBy(v.entry, v.now, r.client)
    ensures PromptReaches(w, u)
    ensures u.entry == Absent && u.now == v.now && u.clients == v.clients
  {
    u := Next(v, Execute(r));
    ThroughEnd(Next, Punctual, w, v);
    SamePunctual(v, u);
    ThroughNext(Next, Punctual, w, v, Execute(r));
  }

  lemma FirstQuits(cfg: Config) returns (v: World)
    requires Sane(cfg)
    ensures PromptReaches(Pair(cfg), v) && v.now == 0 && v.entry == Absent
    ensures v.clients == map[0 := Quitting(Won(cfg, 0, 0, WORKING, 0, [0])), 1 := NewClient(cfg)]
  {
    var w, k := Pair(cfg), Won(cfg, 0, 0, WORKING, 0, [0]);
    v := FirstWorks(cfg, 0, 0);
    QuitMoves(cfg, k);
    var k' := k.(node := k.node.(elector := k.node.elector.(cancelled := true)));
    v := Do(w, v, 0, Elect(Cancel), k');
    v := Act(w, v, 0, Elect(Done), None, 0, Quitting(k));
    assert NewRequests(0, k', Quitting(k)) == {Request(0, 2, UnlockOp)};
    v := Free(w, v, Request(0, 2, UnlockOp));
  }

  /** For every configuration, however short its delays: a candidate cancelled while it works
      gives the key up before its Lost event is on the way, and a successor takes the key and
      starts its work next to it.  Neither supervisor has been stopped. */
  lemma CancelledStillWorks(cfg: Config) returns (v: World)
    requires Sane(cfg)
    ensures PromptReaches(Pair(cfg), v) && v.now == 0 && v.clients.Keys == {0, 1}
    ensures forall c :: c in v.clients ==>
              && HasWork(v, c) && v.clients[c].node.elector.isLeader
              && v.clients[c].node.sup.working && !v.clients[c].node.sup.supervisorDone
    ensures !Uncancelled(v.clients[0]) && Uncancelled(v.clients[1])
  {
    v := FirstQuits(cfg);
    v := Ask(Pair(cfg), v, cfg, 1);
    v := Answer(Pair(cfg), v, cfg, 1, 0);
    v := Announce(Pair(cfg), v, cfg, 1, 0, 0);
  }

  // ---- the exact conditions ------------------------------------------------------------------

  ghost predicate UniformStart(w: World, cfg: Config) {
    Init(w) && forall c :: c in w.clients ==> w.clients[c].cfg == cfg
  }

  /** Leadership is exclusive among candidates that are not cancelled, in all timely runs, exactly
      when the staleness is below the TTL. */
  lemma ExclusiveExactlyWhenSafe(cfg: Config)
    requires Sane(cfg)
    ensures SafeConfig(cfg) <==>
      forall w, acts :: UniformStart(w, cfg) && TimelyRun(w, acts) ==> AtMostOneLeader(After(Next, w, acts))
  {
    if SafeConfig(cfg) {
      forall w, acts | UniformStart(w, cfg) && TimelyRun(w, acts)
        ensures AtMostOneLeader(After(Next, w, acts))
      {
        LeadersOwnTheKey(w, acts);
      }
    } else {
      var v := TwoLeaders(cfg);
      var acts := PromptReached(Pair(cfg), v);
      assert UniformStart(Pair(cfg), cfg) && !AtMostOneLeader(v);
    }
  }

  /** Work is exclusive among nodes whose candidate is not cancelled, in all prompt runs, exactly
      when the staleness, a send and the handling of an event together are below the TTL. */
  lemma WorkExclusiveExactlyWhenSafe(cfg: Config)
    requires Sane(cfg)
    ensures WorkSafe(cfg) <==>
      forall w, acts :: UniformStart(w, cfg) && PromptRun(w, acts) ==> AtMostOneWorks(After(Next, w, acts))
  {
    if WorkSafe(cfg) {
      forall w, acts | UniformStart(w, cfg) && PromptRun(w, acts)
        ensures AtMostOneWorks(After(Next, w, acts))
      {
        OneNodeWorks(w, acts);
      }
    } else {
      var v := TwoWorkers(cfg);
      var acts := PromptReached(Pair(cfg), v);
      assert UniformStart(Pair(cfg), cfg) && !AtMostOneWorks(v);
    }
  }

  /** And among all nodes under the same condition, in the prompt runs in which no candidate is
      cancelled before its supervisor is quiet ... */
  lemma AllWorkExclusiveExactlyWhenSafe(cfg: Config)
    requires Sane(cfg)
    ensures WorkSafe(cfg) <==>
      forall w, acts :: UniformStart(w, cfg) && PromptRun(w, acts) && CancelsQuiet(w, acts)
        ==> AtMostOneHasWork(After(Next, w, acts))
  {
    if WorkSafe(cfg) {
      forall w, acts | UniformStart(w, cfg) && PromptRun(w, acts) && CancelsQuiet(w, acts)
        ensures AtMostOneHasWork(After(Next, w, acts))
      {
        OneNodeHasWork(w, acts);
      }
    } else {
      var v := TwoWorkers(cfg);
      var acts := PromptReached(Pair(cfg), v);
      NeverCancelled(Pair(cfg), acts);
      assert UniformStart(Pair(cfg), cfg) && !AtMostOneHasWork(v);
    }
  }

  /** ... and under no condition on the delays when candidates are cancelled at will. */
  lemma CancellationBreaksExclusion(cfg: Config)
    requires Sane(cfg)
    ensures exists w, acts :: UniformStart(w, cfg) && PromptRun(w, acts) && !AtMostOneHasWork(After(Next, w, acts))
  {
    var v := CancelledStillWorks(cfg);
    var acts := PromptReached(Pair(cfg), v);
    assert UniformStart(Pair(cfg), cfg) && !AtMostOneHasWork(v);
  }
}
