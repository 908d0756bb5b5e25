/** When belief implies ownership: the renewal arithmetic and the timed runs of the election. */
module ElectionTiming {
  import opened Basics
  import opened Runs
  import opened RedisLock
  import opened ElectLoop
  import opened Pipeline
  import opened Election

  const MILLISECOND := 1_000_000

  function Max(x: int, y: int): int {
    if x < y then y else x
  }

  function Min(x: int, y: int): int {
    if x < y then x else y
  }

  // ---- renewal interval ----------------------------------------------------------------------

  /** The ticker interval for an Expiration in nanoseconds; `jitter` is the value drawn below
      a tenth of it. */
  function RenewInterval(expiration: int, jitter: int): int
    requires 10 <= expiration && 0 <= jitter < expiration / 10
  {
    expiration / 3 + jitter
  }

  /** The TTL the scripts get: whole milliseconds, back in nanoseconds. */
  function StoreTtl(expiration: int): int
    requires 0 <= expiration
  {
    expiration / MILLISECOND * MILLISECOND
  }

  /** A third of the Expiration, rounded down, plus the jitter; the TTL is the Expiration rounded
      down to milliseconds. */
  lemma IntervalAndTtl(expiration: int, jitter: int)
    requires 10 <= expiration && 0 <= jitter < expiration / 10
    ensures RenewInterval(expiration, jitter) == RenewInterval(expiration, 0) + jitter
    ensures 3 * RenewInterval(expiration, 0) <= expiration < 3 * RenewInterval(expiration, 0) + 3
    ensures StoreTtl(expiration) <= expiration < StoreTtl(expiration) + 1_000_000
    ensures StoreTtl(expiration) % 1_000_000 == 0
  {
  }

  /** Two renewals fit strictly into the TTL for every jitter. */
  ghost predicate TwoRenewalsFit(expiration: int)
    requires 10 <= expiration
  {
    forall jitter :: 0 <= jitter < expiration / 10 ==> 2 * RenewInterval(expiration, jitter) < StoreTtl(expiration)
  }

  lemma RenewTwiceWithinTtl(expiration: int)
    requires 7 * MILLISECOND <= expiration
    ensures TwoRenewalsFit(expiration)
  {
    var ms, rest := expiration / MILLISECOND, expiration % MILLISECOND;
    assert expiration == ms * MILLISECOND + rest && rest < MILLISECOND && 7 <= ms;
    forall jitter | 0 <= jitter < expiration / 10
      ensures 2 * RenewInterval(expiration, jitter) < StoreTtl(expiration)
    {
      assert 3 * (expiration / 3) <= expiration && 10 * jitter + 10 <= expiration;
    }
  }

  /** The exact condition, for every Expiration the goroutine accepts: the largest jitter fits. */
  lemma RenewTwiceExactly(expiration: int)
    requires 10 <= expiration
    ensures TwoRenewalsFit(expiration) <==> 2 * (expiration / 3 + expiration / 10 - 1) < StoreTtl(expiration)
  {
    assert RenewInterval(expiration, expiration / 10 - 1) == expiration / 3 + expiration / 10 - 1;
  }

  /** Seven milliseconds is the least such bound. */
  lemma RenewTwiceNeedsSeven()
    ensures !TwoRenewalsFit(7 * MILLISECOND - 1)
  {
    assert RenewInterval(6_999_999, 699_998) == 3_033_331;
  }

  // ---- timed runs ----------------------------------------------------------------------------

  predicate Uncancelled(k: Client) {
    !k.node.elector.cancelled
  }

  /** The delays the configuration promises: a locker call returns within `call`, a send within
      `send`, and a leader at the select takes a ready tick within `wake`. */
  predicate OnTime(k: Client, now: int) {
    match k.node.elector.phase
    case Calling(_) => now <= k.mark + k.cfg.call
    case Sending(_, _) => now <= k.mark + k.cfg.send
    case Idle => k.node.elector.isLeader ==> now <= Max(k.mark, k.nextTick) + k.cfg.wake
    case _ => true
  }

  /** The longest a belief goes unconfirmed: from the effect of one confirmation to the return
      of the next call. */
  function Staleness(cfg: Config): int {
    Max(cfg.period, cfg.call + cfg.send) + cfg.wake + cfg.call
  }

  predicate SafeConfig(cfg: Config) {
    Staleness(cfg) < cfg.ttl
  }

  predicate Sane(cfg: Config) {
    0 < cfg.ttl && 0 < cfg.period && 0 <= cfg.call && 0 <= cfg.send && 0 <= cfg.wake && 0 <= cfg.handle
  }

  /** What a candidate that has always been on time has not exceeded. */
  predicate Scheduled(k: Client, now: int) {
    var e, cfg := k.node.elector, k.cfg;
    && k.mark <= now && Sane(cfg)
    && (e.phase.Calling? ==> k.nextTick <= k.mark + cfg.period)
    && (e.isLeader && e.phase.Sending? ==>
          k.mark <= k.grant.at + cfg.call && k.nextTick <= k.grant.at + cfg.period)
    && (e.isLeader && e.phase.Idle? ==>
          k.mark <= k.grant.at + cfg.call + cfg.send && k.nextTick <= k.grant.at + cfg.period)
    && (e.isLeader && e.phase.Calling? ==>
          k.mark <= k.grant.at + Max(cfg.period, cfg.call + cfg.send) + cfg.wake)
  }

  /** A client's schedule after one of its own steps. */
  lemma ScheduledMoved(k: Client, a: NodeAction, answer: Option<Effect>, next: int, now: int)
    requires Consistent(k.node.elector) && Scheduled(k, now) && OnTime(k, now) && NodeEnabled(k.node, a)
    requires a == Elect(Reply(true)) ==> answer.Some? && k.mark <= answer.value.at <= now
    requires a == Elect(Begin) || a == Elect(Tick) ==> next <= now + k.cfg.period
    requires a == Elect(Tick) ==> k.nextTick <= now
    requires Uncancelled(Moved(k, a, answer, next, now))
    ensures Scheduled(Moved(k, a, answer, next, now), now)
  {
    match a
    case Elect(e) =>
    case Supervise(s) => SuperviseKeepsPhase(k.node, s);
  }

  lemma CancelledStays(k: Client, a: NodeAction, answer: Option<Effect>, next: int, now: int)
    requires Uncancelled(Moved(k, a, answer, next, now))
    ensures Uncancelled(k)
  {
    match a
    case Elect(e) =>
    case Supervise(s) => SuperviseKeepsPhase(k.node, s);
  }

  // ---- an answer belongs to its own call -----------------------------------------------------

  /** Effects of the call under way are not older than the call. */
  predicate EffectAfterCall(w: World, f: Effect) {
    var r := f.request;
    (r.client in w.clients && r.seqNo == w.clients[r.client].seqNo
     && w.clients[r.client].node.elector.phase.Calling?)
    ==> w.clients[r.client].mark <= f.at
  }

  ghost predicate Causal(w: World) {
    Inv(w) && forall f :: f in w.effects ==> EffectAfterCall(w, f)
  }

  lemma EffectsMoved(w: World, c: Value, a: NodeAction, answer: Option<Effect>, next: int)
    requires Causal(w) && LocalEnabled(w, c, a, answer, next)
    ensures var w' := Next(w, Local(c, a, answer, next)); forall f :: f in w'.effects ==> EffectAfterCall(w', f)
  {
    var w' := Next(w, Local(c, a, answer, next));
    forall f | f in w'.effects ensures EffectAfterCall(w', f) {
      assert EffectAfterCall(w, f) && RequestOk(w, f.request);
    }
  }

  lemma EffectsExecuted(w: World, r: Request)
    requires Causal(w)
    ensures var w' := Next(w, Execute(r)); forall f :: f in w'.effects ==> EffectAfterCall(w', f)
  {
    var w' := Next(w, Execute(r));
    forall f | f in w'.effects ensures EffectAfterCall(w', f) {
      if f in w.effects {
        assert EffectAfterCall(w, f);
      } else {
        assert ClientOk(w, r.client);
      }
    }
  }

  lemma EffectsLater(w: World, to: int)
    requires Causal(w)
    ensures var w' := Next(w, Advance(to)); forall f :: f in w'.effects ==> EffectAfterCall(w', f)
  {
    var w' := Next(w, Advance(to));
    forall f | f in w'.effects ensures EffectAfterCall(w', f) {
      assert EffectAfterCall(w, f);
    }
  }

  lemma CausalKept(w: World, a: Action)
    requires Causal(w)
    ensures Causal(Next(w, a))
  {
    InvKept(w, a);
    match a
    case Advance(to) => EffectsLater(w, to);
    case Execute(r) => EffectsExecuted(w, r);
    case Local(c, n, answer, next) =>
      if LocalEnabled(w, c, n, answer, next) {
        EffectsMoved(w, c, n, answer, next);
      }
  }

  lemma CausalAtFirst(w: World)
    requires Init(w)
    ensures Causal(w)
  {
    InvAlways(w, []);
  }

  // ---- one candidate in a run ----------------------------------------------------------------

  /** Its schedule is kept by every step of the run, its own or not. */
  lemma ScheduledNext(w: World, a: Action, c: Value)
    requires Causal(w) && c in w.clients && Scheduled(w.clients[c], w.now) && OnTime(w.clients[c], w.now)
    requires Uncancelled(Next(w, a).clients[c])
    ensures Scheduled(Next(w, a).clients[c], Next(w, a).now)
  {
    if a.Local? && a.c == c && LocalEnabled(w, c, a.a, a.answer, a.next) {
      assert ClientOk(w, c);
      if a.a == Elect(Reply(true)) {
        assert EffectAfterCall(w, a.answer.value);
      }
      ScheduledMoved(w.clients[c], a.a, a.answer, a.next, w.now);
    }
  }

  lemma UncancelledBefore(w: World, a: Action, c: Value)
    requires c in w.clients && Uncancelled(Next(w, a).clients[c])
    ensures Uncancelled(w.clients[c])
  {
    if a.Local? && a.c == c && LocalEnabled(w, c, a.a, a.answer, a.next) {
      CancelledStays(w.clients[c], a.a, a.answer, a.next, w.now);
    }
  }

  /** This candidate keeps its delays, until it is cancelled. */
  predicate TimelyNode(w: World, c: Value) {
    c in w.clients && (Uncancelled(w.clients[c]) ==> OnTime(w.clients[c], w.now))
  }

  predicate Timely(w: World) {
    forall c :: c in w.clients ==> TimelyNode(w, c)
  }

  /** Runs in which the promised delays are kept in every state: by one candidate, by all. */
  ghost predicate TimelyNodeRun(w: World, c: Value, acts: seq<Action>) {
    Throughout(Next, v => TimelyNode(v, c), w, acts)
  }

  ghost predicate TimelyRun(w: World, acts: seq<Action>) {
    Throughout(Next, Timely, w, acts)
  }

  ghost predicate TimedInv(w: World, c: Value) {
    Causal(w) && c in w.clients && (Uncancelled(w.clients[c]) ==> Scheduled(w.clients[c], w.now))
  }

  lemma TimedInvKept(w: World, a: Action, c: Value)
    requires TimedInv(w, c) && TimelyNode(w, c)
    ensures TimedInv(Next(w, a), c)
  {
    CausalKept(w, a);
    if Uncancelled(Next(w, a).clients[c]) {
      UncancelledBefore(w, a, c);
      ScheduledNext(w, a, c);
    }
  }

  lemma TimedInvAlways(w: World, acts: seq<Action>, c: Value)
    requires Init(w) && c in w.clients && Sane(w.clients[c].cfg) && TimelyNodeRun(w, c, acts)
    ensures TimedInv(After(Next, w, acts), c) && TimelyNode(After(Next, w, acts), c)
  {
    CausalAtFirst(w);
    assert FreshClient(w.clients[c], w.now);
    forall v, a | TimedInv(v, c) && TimelyNode(v, c) ensures TimedInv(Next(v, a), c) {
      TimedInvKept(v, a, c);
    }
    InvarianceAlong(Next, v => TimelyNode(v, c), v => TimedInv(v, c), w, acts);
  }

  /** The candidates and their configurations never change. */
  predicate SameConfigs(w: World, v: World) {
    v.clients.Keys == w.clients.Keys && forall c :: c in v.clients ==> v.clients[c].cfg == w.clients[c].cfg
  }

  lemma ConfigsFixed(w: World, acts: seq<Action>)
    ensures SameConfigs(w, After(Next, w, acts))
  {
    Invariance(Next, v => SameConfigs(w, v), w, acts);
  }

  predicate Leader(w: World, c: Value) {
    c in w.clients && Uncancelled(w.clients[c]) && w.clients[c].node.elector.isLeader
  }

  ghost predicate AtMostOneLeader(w: World) {
    forall c, d :: Leader(w, c) && Leader(w, d) ==> c == d
  }

  lemma TimelyLeaderOwns(w: World, c: Value)
    requires Inv(w) && Leader(w, c) && Scheduled(w.clients[c], w.now) && OnTime(w.clients[c], w.now)
    requires SafeConfig(w.clients[c].cfg)
    ensures OwnedBy(w.entry, w.now, c)
  {
    assert ClientOk(w, c);
    CurrentBelieverOwns(w, c);
  }

  /** A candidate's own delays decide: if its staleness is below its TTL and it keeps its delays,
      it owns the key whenever it leads uncancelled, whatever the other candidates do. */
  lemma LeaderOwnsTheKey(w: World, acts: seq<Action>, c: Value)
    requires Init(w) && c in w.clients && Sane(w.clients[c].cfg) && SafeConfig(w.clients[c].cfg)
    requires TimelyNodeRun(w, c, acts)
    ensures var v := After(Next, w, acts); Leader(v, c) ==> OwnedBy(v.entry, v.now, c)
  {
    TimedInvAlways(w, acts, c);
    ConfigsFixed(w, acts);
    var v := After(Next, w, acts);
    if Leader(v, c) {
      TimelyLeaderOwns(v, c);
    }
  }

  ghost predicate AllSafe(w: World) {
    forall c :: c in w.clients ==> Sane(w.clients[c].cfg) && SafeConfig(w.clients[c].cfg)
  }

  lemma TimelyRunOfEach(w: World, acts: seq<Action>, c: Value)
    requires c in w.clients && TimelyRun(w, acts)
    ensures TimelyNodeRun(w, c, acts)
  {
    forall i | 0 <= i <= |acts| ensures TimelyNode(After(Next, w, acts[..i]), c) {
      ConfigsFixed(w, acts[..i]);
      assert Timely(After(Next, w, acts[..i]));
    }
  }

  /** So where all are safe and keep their delays there is at most one uncancelled leader. */
  lemma LeadersOwnTheKey(w: World, acts: seq<Action>)
    requires Init(w) && AllSafe(w) && TimelyRun(w, acts)
    ensures var v := After(Next, w, acts);
      AtMostOneLeader(v) && forall c :: Leader(v, c) ==> OwnedBy(v.entry, v.now, c)
  {
    ConfigsFixed(w, acts);
    var v := After(Next, w, acts);
    forall c | Leader(v, c) ensures OwnedBy(v.entry, v.now, c) {
      TimelyRunOfEach(w, acts, c);
      LeaderOwnsTheKey(w, acts, c);
    }
  }

  /** The shipped arithmetic meets the bound with room: for every Expiration of at least seven
      milliseconds and every jitter it suffices that a call and its send, and a wake-up and its
      call, each fit into one renewal interval. */
  lemma RenewalIntervalIsSafe(expiration: int, jitter: int, call: int, send: int, wake: int, handle: int)
    requires 7 * MILLISECOND <= expiration && 0 <= jitter < expiration / 10
    requires 0 <= call && 0 <= send && 0 <= wake && 0 <= handle
    requires call + send <= RenewInterval(expiration, jitter) && wake + call <= RenewInterval(expiration, jitter)
    ensures var cfg := Config(StoreTtl(expiration), RenewInterval(expiration, jitter), call, send, wake, handle);
      Sane(cfg) && SafeConfig(cfg)
  {
    RenewTwiceWithinTtl(expiration);
  }
}
