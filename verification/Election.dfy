/** Any number of candidates against one election key.

    The store runs the scripts of requests that were sent; a request is never forgotten, so its
    script may run late, run after the caller gave up, run more than once, or never run.  A call
    returns with the answer of some run of its own request, or with an error at any time. */
module Election {
  import opened Basics
  import opened Runs
  import opened RedisLock
  import opened ElectLoop
  import opened Supervisor
  import opened Pipeline

  /** `seqNo` numbers the calls of one candidate. */
  datatype Request = Request(client: Value, seqNo: nat, op: Op)

  /** A run of a request's script: its result and the store time at which it took effect. */
  datatype Effect = Effect(request: Request, ok: bool, at: int)

  /** The TTL, the renewal interval, and the four delays that the timing theorems bound. */
  datatype Config = Config(ttl: int, period: int, call: int, send: int, wake: int, handle: int)

  /** `mark`: when the current phase was entered.  `nextTick`: from when on the ticker's channel
      has a tick.  `grant`: the effect that last made or confirmed this candidate the leader.
      `releasing`: the Unlock request has been sent.  `pushed`: when each event got into the
      channel. */
  datatype Client = Client(
    node: Node, cfg: Config, seqNo: nat, releasing: bool, grant: Effect, mark: int, nextTick: int,
    pushed: seq<int>)

  datatype World = World(
    now: int, entry: Entry, sent: set<Request>, effects: set<Effect>, clients: map<Value, Client>)

  datatype Action =
    | Advance(to: int)
    | Execute(r: Request)
    | Local(c: Value, a: NodeAction, answer: Option<Effect>, next: int)

  /** A candidate's action, with the answer a returning call got and the next ticker time. */
  predicate LocalEnabled(w: World, c: Value, a: NodeAction, answer: Option<Effect>, next: int) {
    c in w.clients &&
    var k := w.clients[c];
    && NodeEnabled(k.node, a)
    && (a.Elect? && a.e.Reply? ==>
          match answer
          case None => !a.e.ok
          case Some(f) => f in w.effects && f.ok == a.e.ok
                          && f.request == Request(c, k.seqNo, k.node.elector.phase.op))
    && (a == Elect(Begin) ==> next == w.now + k.cfg.period)
    && (a == Elect(Tick) ==> k.nextTick <= w.now < next <= w.now + k.cfg.period)
  }

  function Moved(k: Client, a: NodeAction, answer: Option<Effect>, next: int, now: int): Client {
    var node := NodeStep(k.node, a);
    var phase := node.elector.phase;
    var entered := phase != k.node.elector.phase;
    k.(node := node,
       seqNo := if entered && phase.Calling? then k.seqNo + 1 else k.seqNo,
       releasing := k.releasing || phase == Calling(UnlockOp),
       grant := if a == Elect(Reply(true)) && answer.Some? then answer.value else k.grant,
       mark := if entered then now else k.mark,
       nextTick := if a == Elect(Begin) || a == Elect(Tick) then next else k.nextTick,
       pushed := if a == Elect(Push) then k.pushed + [now] else k.pushed)
  }

  /** The request a client has just sent, if the step entered a call. */
  function NewRequests(c: Value, k: Client, k': Client): set<Request> {
    if k'.seqNo != k.seqNo && k'.node.elector.phase.Calling?
    then {Request(c, k'.seqNo, k'.node.elector.phase.op)} else {}
  }

  function Next(w: World, a: Action): World {
    match a
    case Advance(to) => if w.now <= to then w.(now := to) else w
    case Execute(r) =>
      if r in w.sent && r.client in w.clients then
        var (entry, answer) := RunScript(r.op, w.entry, w.now, r.client, w.clients[r.client].cfg.ttl);
        w.(entry := entry, effects := w.effects + {Effect(r, answer == Number(1), w.now)})
      else w
    case Local(c, n, answer, next) =>
      if LocalEnabled(w, c, n, answer, next) then
        var k := w.clients[c];
        var k' := Moved(k, n, answer, next, w.now);
        w.(clients := w.clients[c := k'], sent := w.sent + NewRequests(c, k, k'))
      else w
  }

  /** All goroutines spawned, nothing sent; the key is in any state, perhaps held by a value of
      an earlier life. */
  predicate Init(w: World) {
    && w.sent == {} && w.effects == {}
    && forall c :: c in w.clients ==> FreshClient(w.clients[c], w.now)
  }

  predicate FreshClient(k: Client, now: int) {
    && k.node == FRESH_NODE && k.seqNo == 0 && !k.releasing && k.pushed == []
    && k.grant.at <= k.mark <= now && k.nextTick <= now
  }

  /** A successful Lock or Extend. */
  predicate Grants(f: Effect) {
    f.ok && f.request.op != UnlockOp
  }

  /** The effect's lease: from when it took effect, for the TTL. */
  predicate InLease(w: World, f: Effect) {
    f.request.client in w.clients && w.now < f.at + w.clients[f.request.client].cfg.ttl
  }

  predicate Secures(w: World, f: Effect) {
    var c := f.request.client;
    c in w.clients && (w.clients[c].releasing || !InLease(w, f) ||
      (w.entry.Held? && w.entry.owner == c && f.at + w.clients[c].cfg.ttl <= w.entry.expiresAt))
  }

  /** The record of a client agrees with the effects so far. */
  predicate Recorded(k: Client, c: Value, now: int, effects: set<Effect>) {
    var e := k.node.elector;
    && |k.pushed| == |Through(k.node)| && k.grant.at <= k.mark <= now
    && (e.isLeader || (!k.releasing && (e.phase.Sending? || k.pushed != [])) ==>
          k.grant in effects && Grants(k.grant) && k.grant.request.client == c)
    && (k.releasing ==> e.phase.Returned? || e.phase == Calling(UnlockOp)
                        || (e.phase.Sending? && e.phase.last))
    && (e.phase == Calling(UnlockOp) ==> k.releasing)
  }

  predicate ClientOk(w: World, c: Value)
    requires c in w.clients
  {
    Faithful(w.clients[c].node) && Recorded(w.clients[c], c, w.now, w.effects)
  }

  predicate RequestOk(w: World, r: Request) {
    && r.client in w.clients && r.seqNo <= w.clients[r.client].seqNo
    && (r.op == UnlockOp ==> w.clients[r.client].releasing)
  }

  ghost predicate Inv(w: World) {
    && (forall c :: c in w.clients ==> ClientOk(w, c))
    && (forall r :: r in w.sent ==> RequestOk(w, r))
    && (forall f :: f in w.effects ==> f.at <= w.now && f.request in w.sent)
    && (forall f :: f in w.effects && Grants(f) ==> Secures(w, f))
  }

  lemma LeasesExecuted(w: World, r: Request)
    requires r in w.sent && RequestOk(w, r)
    requires forall f :: f in w.effects ==> f.at <= w.now
    requires forall f :: f in w.effects && Grants(f) ==> Secures(w, f)
    ensures var w' := Next(w, Execute(r)); forall f :: f in w'.effects && Grants(f) ==> Secures(w', f)
  {
    var w' := Next(w, Execute(r));
    forall f | f in w'.effects && Grants(f) ensures Secures(w', f) {
      if f in w.effects {
        assert Secures(w, f) && f.at <= w.now;
      }
    }
  }

  lemma InvExecute(w: World, r: Request)
    requires Inv(w)
    ensures Inv(Next(w, Execute(r)))
  {
    if r in w.sent && r.client in w.clients {
      var w' := Next(w, Execute(r));
      LeasesExecuted(w, r);
      forall c | c in w'.clients ensures ClientOk(w', c) {
        assert ClientOk(w, c);
      }
      forall q | q in w'.sent ensures RequestOk(w', q) {
        assert RequestOk(w, q);
      }
    }
  }

  lemma RecordedSupervise(k: Client, c: Value, now: int, effects: set<Effect>, s: SupAction, next: int)
    requires Recorded(k, c, now, effects) && NodeEnabled(k.node, Supervise(s))
    ensures var k' := Moved(k, Supervise(s), None, next, now);
      Recorded(k', c, now, effects) && k'.node.elector.phase == k.node.elector.phase
  {
    ThroughGrows(k.node, Supervise(s));
    SuperviseKeepsPhase(k.node, s);
  }

  lemma RecordedElect(k: Client, c: Value, now: int, effects: set<Effect>, e: ElectAction, answer: Option<Effect>, next: int)
    requires Recorded(k, c, now, effects) && Consistent(k.node.elector) && Enabled(k.node.elector, e)
    requires e == Reply(true) ==>
               answer.Some? && answer.value in effects && answer.value.ok && answer.value.at <= now
               && answer.value.request == Request(c, k.seqNo, k.node.elector.phase.op)
    ensures Recorded(Moved(k, Elect(e), answer, next, now), c, now, effects)
  {
    ThroughGrows(k.node, Elect(e));
  }

  lemma MovedOk(w: World, c: Value, a: NodeAction, answer: Option<Effect>, next: int)
    requires Inv(w) && LocalEnabled(w, c, a, answer, next)
    ensures ClientOk(Next(w, Local(c, a, answer, next)), c)
  {
    assert ClientOk(w, c);
    var k := w.clients[c];
    FaithfulKept(k.node, a);
    match a
    case Elect(e) => RecordedElect(k, c, w.now, w.effects, e, answer, next);
    case Supervise(s) =>
      RecordedSupervise(k, c, w.now, w.effects, s, next);
      assert Moved(k, a, answer, next, w.now) == Moved(k, a, None, next, w.now);
  }

  lemma InvLocal(w: World, c: Value, a: NodeAction, answer: Option<Effect>, next: int)
    requires Inv(w)
    ensures Inv(Next(w, Local(c, a, answer, next)))
  {
    if LocalEnabled(w, c, a, answer, next) {
      var w' := Next(w, Local(c, a, answer, next));
      MovedOk(w, c, a, answer, next);
      forall d | d in w'.clients ensures ClientOk(w', d) {
        assert d != c ==> ClientOk(w, d);
      }
      RequestsMoved(w, c, a, answer, next);
      LeasesMoved(w, c, a, answer, next);
    }
  }

  lemma RequestsMoved(w: World, c: Value, a: NodeAction, answer: Option<Effect>, next: int)
    requires LocalEnabled(w, c, a, answer, next)
    requires forall r :: r in w.sent ==> RequestOk(w, r)
    ensures var w' := Next(w, Local(c, a, answer, next)); forall r :: r in w'.sent ==> RequestOk(w', r)
  {
    var w' := Next(w, Local(c, a, answer, next));
    forall r | r in w'.sent ensures RequestOk(w', r) {
      assert r in w.sent ==> RequestOk(w, r);
    }
  }

  lemma LeasesMoved(w: World, c: Value, a: NodeAction, answer: Option<Effect>, next: int)
    requires LocalEnabled(w, c, a, answer, next)
    requires forall f :: f in w.effects && Grants(f) ==> Secures(w, f)
    ensures var w' := Next(w, Local(c, a, answer, next)); forall f :: f in w'.effects && Grants(f) ==> Secures(w', f)
  {
    var w' := Next(w, Local(c, a, answer, next));
    forall f | f in w'.effects && Grants(f) ensures Secures(w', f) {
      assert Secures(w, f);
    }
  }

  lemma InvKept(w: World, a: Action)
    requires Inv(w)
    ensures Inv(Next(w, a))
  {
    match a
    case Advance(to) =>
      var w' := Next(w, a);
      forall f | f in w'.effects && Grants(f) ensures Secures(w', f) {
        assert Secures(w, f);
      }
      forall c | c in w'.clients ensures ClientOk(w', c) {
        assert ClientOk(w, c);
      }
      forall r | r in w'.sent ensures RequestOk(w', r) {
        assert RequestOk(w, r);
      }
    case Execute(r) => InvExecute(w, r);
    case Local(c, n, answer, next) => InvLocal(w, c, n, answer, next);
  }

  lemma InvAlways(w: World, acts: seq<Action>)
    requires Init(w)
    ensures Inv(After(Next, w, acts))
  {
    forall c | c in w.clients ensures ClientOk(w, c) {
      assert FreshClient(w.clients[c], w.now);
    }
    forall v, a | Inv(v) ensures Inv(Next(v, a)) {
      InvKept(v, a);
    }
    Invariance(Next, Inv, w, acts);
  }

  /** A grant that is running: taken effect, its TTL not passed, its candidate not releasing. */
  predicate Running(w: World, f: Effect) {
    f in w.effects && Grants(f) && InLease(w, f) && !w.clients[f.request.client].releasing
  }

  /** In every state of every run: a successful Lock or Extend makes its candidate the owner of
      the key from the time it took effect until the TTL has passed, whether or not the answer
      arrived, as long as the candidate has not sent its own Unlock. */
  lemma LeaseHeld(w: World, acts: seq<Action>, f: Effect)
    requires Init(w)
    ensures var v := After(Next, w, acts);
      Running(v, f) ==> OwnedBy(v.entry, v.now, f.request.client)
  {
    InvAlways(w, acts);
    var v := After(Next, w, acts);
    if Running(v, f) {
      assert Secures(v, f);
    }
  }

  /** So two candidates are never within their leases at the same time. */
  lemma LeasesExclude(w: World, acts: seq<Action>, f: Effect, g: Effect)
    requires Init(w)
    ensures var v := After(Next, w, acts);
      Running(v, f) && Running(v, g) ==> f.request.client == g.request.client
  {
    LeaseHeld(w, acts, f);
    LeaseHeld(w, acts, g);
  }

  /** A candidate that believes and has not begun to release. */
  predicate Believer(w: World, c: Value) {
    c in w.clients && w.clients[c].node.elector.isLeader && !w.clients[c].releasing
  }

  /** A believer's last confirmation is still within the TTL. */
  predicate Current(w: World, c: Value) {
    c in w.clients && w.now < w.clients[c].grant.at + w.clients[c].cfg.ttl
  }

  lemma CurrentBelieverOwns(w: World, c: Value)
    requires Inv(w) && Believer(w, c) && Current(w, c)
    ensures OwnedBy(w.entry, w.now, c)
  {
    assert ClientOk(w, c);
    assert Secures(w, w.clients[c].grant);
  }

  /** A believer whose last confirmed call took effect less than a TTL ago owns the key. */
  lemma BelieverInLeaseOwns(w: World, acts: seq<Action>, c: Value)
    requires Init(w)
    ensures var v := After(Next, w, acts);
      Believer(v, c) && Current(v, c) ==> OwnedBy(v.entry, v.now, c)
  {
    InvAlways(w, acts);
    var v := After(Next, w, acts);
    if Believer(v, c) && Current(v, c) {
      CurrentBelieverOwns(v, c);
    }
  }

  /** No candidate's request, however late, changes the key while another candidate holds it. */
  lemma NoForeignEffect(w: World, r: Request, d: Value)
    requires OwnedBy(w.entry, w.now, d) && r.client != d
    ensures Next(w, Execute(r)).entry == w.entry
    ensures r in w.sent && r.client in w.clients ==> Effect(r, false, w.now) in Next(w, Execute(r)).effects
  {
    if r in w.sent && r.client in w.clients {
      ForeignKeyUntouched(r.op, w.entry, w.now, r.client, w.clients[r.client].cfg.ttl);
    }
  }

  // ---- calls can succeed ---------------------------------------------------------------------

  /** The ticker's channel first has a tick one period after the start; after one has been taken,
      within a period; nothing else sets it. */
  lemma TickerTicks(w: World, c: Value, a: NodeAction, answer: Option<Effect>, next: int)
    requires LocalEnabled(w, c, a, answer, next)
    ensures var k, k' := w.clients[c], Moved(w.clients[c], a, answer, next, w.now);
      && (a == Elect(Begin) ==> k'.nextTick == w.now + k.cfg.period)
      && (a == Elect(Tick) ==> k.nextTick <= w.now < k'.nextTick <= w.now + k.cfg.period)
      && (a != Elect(Begin) && a != Elect(Tick) ==> k'.nextTick == k.nextTick)
  {
  }

  /** The request of a candidate's call. */
  function CallOf(w: World, c: Value): Request
    requires c in w.clients && w.clients[c].node.elector.phase.Calling?
  {
    Request(c, w.clients[c].seqNo, w.clients[c].node.elector.phase.op)
  }

  /** Every call under way has been sent. */
  ghost predicate CallsSent(w: World) {
    forall c :: c in w.clients && w.clients[c].node.elector.phase.Calling? ==> CallOf(w, c) in w.sent
  }

  lemma CallsSentKept(w: World, a: Action)
    requires CallsSent(w)
    ensures CallsSent(Next(w, a))
  {
    if a.Local? && LocalEnabled(w, a.c, a.a, a.answer, a.next) && a.a.Supervise? {
      SuperviseKeepsPhase(w.clients[a.c].node, a.a.s);
    }
  }

  /** Whether the key lets the call succeed. */
  predicate Favourable(w: World, r: Request) {
    match r.op
    case LockOp => !Live(w.entry, w.now)
    case _ => OwnedBy(w.entry, w.now, r.client)
  }

  /** In every state of every run: a call of Lock on a free key, or of Extend or Unlock by the
      owner, can be executed at once, with success. */
  lemma CallCanSucceed(w: World, acts: seq<Action>, c: Value)
    requires Init(w)
    ensures var v := After(Next, w, acts);
      c in v.clients && v.clients[c].node.elector.phase.Calling? && 0 < v.clients[c].cfg.ttl
      && Favourable(v, CallOf(v, c)) ==>
        var r, ttl := CallOf(v, c), v.clients[c].cfg.ttl;
        Next(v, Execute(r)) == v.(
          entry := if r.op == UnlockOp then Absent else Held(c, v.now + ttl),
          effects := v.effects + {Effect(r, true, v.now)})
  {
    forall v, a | CallsSent(v) ensures CallsSent(Next(v, a)) {
      CallsSentKept(v, a);
    }
    assert CallsSent(w) by {
      forall c | c in w.clients ensures !w.clients[c].node.elector.phase.Calling? {
        assert FreshClient(w.clients[c], w.now);
      }
    }
    Invariance(Next, CallsSent, w, acts);
  }

  /** And then it can return with that success: a renewal confirms the leader's lease from now, a
      Lock makes a leader with a Taken to send. */
  lemma SuccessCanReturn(w: World, c: Value)
    requires c in w.clients && w.clients[c].node.elector.phase.Calling?
    requires Effect(CallOf(w, c), true, w.now) in w.effects && CallOf(w, c).op != UnlockOp
    ensures var f := Effect(CallOf(w, c), true, w.now);
      var k := Next(w, Local(c, Elect(Reply(true)), Some(f), 0)).clients[c];
      && k.grant == f && k.mark == w.now
      && (f.request.op == LockOp ==> k.node.elector.isLeader && k.node.elector.phase == Sending(TAKEN_ACQUIRE, false))
      && (f.request.op == ExtendOp ==>
            k.node.elector.isLeader == w.clients[c].node.elector.isLeader && k.node.elector.phase.Idle?)
  {
    assert LocalEnabled(w, c, Elect(Reply(true)), Some(Effect(CallOf(w, c), true, w.now)), 0);
  }
}
