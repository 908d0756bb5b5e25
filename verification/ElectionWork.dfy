/** From the store to the callbacks: when at most one node works. */
module ElectionWork {
  import opened Basics
  import opened Runs
  import opened RedisLock
  import opened ElectLoop
  import opened Supervisor
  import opened Pipeline
  import opened Election
  import opened ElectionTiming

  // ---- settled nodes -------------------------------------------------------------------------

  /** Nothing is left to do at this node, nobody is stopping it, and its work is started. */
  predicate AtWork(w: World, c: Value) {
    c in w.clients && Uncancelled(w.clients[c]) &&
    var n := w.clients[c].node;
    Settled(n) && !n.sup.supervisorDone && n.sup.working
  }

  lemma WorkersLead(w: World, c: Value)
    requires Inv(w) && AtWork(w, c)
    ensures Leader(w, c)
  {
    assert ClientOk(w, c);
    SettledAgree(w.clients[c].node);
  }

  /** In a timely run of safe candidates, with no bound on the supervisors: among the nodes that
      are not being stopped and whose loops have nothing left to do, at most one works. */
  lemma OneSettledNodeWorks(w: World, acts: seq<Action>, c: Value, d: Value)
    requires Init(w) && AllSafe(w) && TimelyRun(w, acts)
    ensures var v := After(Next, w, acts); AtWork(v, c) && AtWork(v, d) ==> c == d
  {
    LeadersOwnTheKey(w, acts);
    InvAlways(w, acts);
    var v := After(Next, w, acts);
    if AtWork(v, c) && AtWork(v, d) {
      WorkersLead(v, c);
      WorkersLead(v, d);
    }
  }

  // ---- every node in every state -------------------------------------------------------------

  /** The supervisor takes no more events and has left no work behind. */
  predicate Quiet(s: Sup) {
    Deaf(s) && !Unmatched(s.calls)
  }

  lemma QuietKept(s: Sup, a: SupAction)
    requires CallsTracked(s) && Quiet(s)
    ensures Quiet(SupStep(s, a))
  {
  }

  lemma QuietMoved(k: Client, a: NodeAction, answer: Option<Effect>, next: int, now: int)
    requires CallsTracked(k.node.sup) && Quiet(k.node.sup)
    ensures Quiet(Moved(k, a, answer, next, now).node.sup)
  {
    match a
    case Elect(_) =>
    case Supervise(s) =>
      SuperviseKeepsPhase(k.node, s);
      QuietKept(k.node.sup, s);
  }

  /** A supervisor whose Start is not yet matched is done with an event within `handle` after it
      got into the channel. */
  predicate HandledOnTime(k: Client, now: int) {
    Unmatched(k.node.sup.calls) ==>
      forall i :: |Handled(k.node)| <= i < |k.pushed| ==> now <= k.pushed[i] + k.cfg.handle
  }

  /** A node that is in operation: not cancelled, its supervisor not yet quiet. */
  predicate Engaged(k: Client) {
    Uncancelled(k) && !Quiet(k.node.sup)
  }

  /** This node keeps all its delays, as long as it is engaged.  Nothing is asked of one whose
      supervisor has gone and has left no work. */
  predicate PromptNode(w: World, c: Value) {
    c in w.clients && (Engaged(w.clients[c]) ==> OnTime(w.clients[c], w.now) && HandledOnTime(w.clients[c], w.now))
  }

  predicate Prompt(w: World) {
    forall c :: c in w.clients ==> PromptNode(w, c)
  }

  /** Runs in which the delays are kept in every state: by one node, by all. */
  ghost predicate PromptNodeRun(w: World, c: Value, acts: seq<Action>) {
    Throughout(Next, v => PromptNode(v, c), w, acts)
  }

  ghost predicate PromptRun(w: World, acts: seq<Action>) {
    Throughout(Next, Prompt, w, acts)
  }

  predicate WorkSafe(cfg: Config) {
    Staleness(cfg) + cfg.send + cfg.handle < cfg.ttl
  }

  /** A Lost event follows the grant it ends within the staleness, and gets into the channel
      within a send more. */
  predicate LostInTime(k: Client) {
    && (k.node.elector.phase.Sending? && !k.node.elector.isLeader ==> k.mark <= k.grant.at + Staleness(k.cfg))
    && (forall i :: 0 <= i < |k.pushed| && i % 2 == 1 ==>
          k.pushed[i] <= k.grant.at + Staleness(k.cfg) + k.cfg.send)
  }

  /** The event in a send is a Lost exactly when it comes at an odd place. */
  lemma PendingParity(n: Node)
    requires Announces(n) && !n.skipped && n.elector.phase.Sending?
    ensures n.elector.isLeader <==> |Through(n)| % 2 == 0
  {
    assert |History(n)| == |Through(n)| + 1;
  }

  lemma LostInTimeMoved(k: Client, a: NodeAction, answer: Option<Effect>, next: int, now: int)
    requires Announces(k.node) && Scheduled(k, now) && OnTime(k, now) && LostInTime(k)
    requires NodeEnabled(k.node, a) && |k.pushed| == |Through(k.node)| && k.grant.at <= k.mark
    requires a == Elect(Reply(true)) ==> answer.Some? && k.mark <= answer.value.at
    requires Uncancelled(Moved(k, a, answer, next, now))
    ensures LostInTime(Moved(k, a, answer, next, now))
  {
    match a
    case Elect(Push) => PendingParity(k.node);
    case Elect(_) =>
    case Supervise(s) => SuperviseKeepsPhase(k.node, s);
  }

  lemma LostInTimeNext(w: World, a: Action, c: Value)
    requires Causal(w) && c in w.clients && Scheduled(w.clients[c], w.now) && OnTime(w.clients[c], w.now)
    requires LostInTime(w.clients[c]) && Uncancelled(Next(w, a).clients[c])
    ensures LostInTime(Next(w, a).clients[c])
  {
    if a.Local? && a.c == c && LocalEnabled(w, c, a.a, a.answer, a.next) {
      assert ClientOk(w, c);
      CancelledStays(w.clients[c], a.a, a.answer, a.next, w.now);
      if a.a == Elect(Reply(true)) {
        assert EffectAfterCall(w, a.answer.value);
      }
      LostInTimeMoved(w.clients[c], a.a, a.answer, a.next, w.now);
    }
  }

  lemma QuietNext(w: World, a: Action, c: Value)
    requires Inv(w) && c in w.clients && Quiet(w.clients[c].node.sup)
    ensures Quiet(Next(w, a).clients[c].node.sup)
  {
    if a.Local? && a.c == c && LocalEnabled(w, c, a.a, a.answer, a.next) {
      assert ClientOk(w, c);
      QuietMoved(w.clients[c], a.a, a.answer, a.next, w.now);
    }
  }

  lemma EngagedBefore(w: World, a: Action, c: Value)
    requires Inv(w) && c in w.clients && Engaged(Next(w, a).clients[c])
    ensures Engaged(w.clients[c])
  {
    UncancelledBefore(w, a, c);
    if Quiet(w.clients[c].node.sup) {
      QuietNext(w, a, c);
    }
  }

  ghost predicate WorkInv(w: World, c: Value) {
    Causal(w) && c in w.clients && (Engaged(w.clients[c]) ==> Scheduled(w.clients[c], w.now) && LostInTime(w.clients[c]))
  }

  lemma WorkInvKept(w: World, a: Action, c: Value)
    requires WorkInv(w, c) && PromptNode(w, c)
    ensures WorkInv(Next(w, a), c)
  {
    CausalKept(w, a);
    if Engaged(Next(w, a).clients[c]) {
      EngagedBefore(w, a, c);
      ScheduledNext(w, a, c);
      LostInTimeNext(w, a, c);
    }
  }

  lemma WorkInvAlways(w: World, acts: seq<Action>, c: Value)
    requires Init(w) && c in w.clients && Sane(w.clients[c].cfg) && PromptNodeRun(w, c, acts)
    ensures WorkInv(After(Next, w, acts), c) && PromptNode(After(Next, w, acts), c)
  {
    CausalAtFirst(w);
    assert FreshClient(w.clients[c], w.now);
    forall v, a | WorkInv(v, c) && PromptNode(v, c) ensures WorkInv(Next(v, a), c) {
      WorkInvKept(v, a, c);
    }
    InvarianceAlong(Next, v => PromptNode(v, c), v => WorkInv(v, c), w, acts);
  }

  /** The last callback at the node was Start, whatever the `Working` flag says. */
  predicate HasWork(w: World, c: Value) {
    c in w.clients && Unmatched(w.clients[c].node.sup.calls)
  }

  predicate Works(w: World, c: Value) {
    HasWork(w, c) && Uncancelled(w.clients[c])
  }

  ghost predicate AtMostOneWorks(w: World) {
    forall c, d :: Works(w, c) && Works(w, d) ==> c == d
  }

  /** A node that works without believing has the Lost event that will stop it in flight. */
  lemma LostInFlight(n: Node)
    requires Faithful(n) && !n.skipped && Unmatched(n.sup.calls) && !n.elector.isLeader
    ensures var i := |Handled(n)|; i % 2 == 1 && (i < |Through(n)| || (i == |Through(n)| && n.elector.phase.Sending?))
  {
    HandledAlternates(n);
    UpMeansEndsTaken(Handled(n));
    assert |History(n)| == |Through(n)| + |Pending(n.elector)|;
  }

  lemma WorkerIsCurrent(k: Client, now: int)
    requires Faithful(k.node) && Uncancelled(k) && Unmatched(k.node.sup.calls) && !k.node.elector.isLeader
    requires |k.pushed| == |Through(k.node)| && Scheduled(k, now) && LostInTime(k) && WorkSafe(k.cfg)
    requires OnTime(k, now) && HandledOnTime(k, now)
    ensures now < k.grant.at + k.cfg.ttl
  {
    LostInFlight(k.node);
    var i := |Handled(k.node)|;
    if i < |k.pushed| {
      assert now <= k.pushed[i] + k.cfg.handle;
      assert k.pushed[i] <= k.grant.at + Staleness(k.cfg) + k.cfg.send;
    }
  }

  lemma WorkerOwns(w: World, c: Value)
    requires WorkInv(w, c) && PromptNode(w, c) && Works(w, c) && WorkSafe(w.clients[c].cfg)
    ensures OwnedBy(w.entry, w.now, c)
  {
    var k := w.clients[c];
    assert ClientOk(w, c);
    if k.node.elector.isLeader {
      TimelyLeaderOwns(w, c);
    } else {
      WorkerIsCurrent(k, w.now);
      LostInFlight(k.node);
      assert Secures(w, k.grant);
    }
  }

  /** A node's own delays decide: if its staleness, a send and the handling of an event together
      fit into its TTL and it keeps its delays while engaged, then whenever it works with its
      candidate uncancelled - settled or with events in flight, its supervisor running, stopped
      or gone, its work leaked or not - it owns the key, whatever the other nodes do. */
  lemma WorkerOwnsTheKey(w: World, acts: seq<Action>, c: Value)
    requires Init(w) && c in w.clients && Sane(w.clients[c].cfg) && WorkSafe(w.clients[c].cfg)
    requires PromptNodeRun(w, c, acts)
    ensures var v := After(Next, w, acts); Works(v, c) ==> OwnedBy(v.entry, v.now, c)
  {
    WorkInvAlways(w, acts, c);
    ConfigsFixed(w, acts);
    var v := After(Next, w, acts);
    if Works(v, c) {
      WorkerOwns(v, c);
    }
  }

  lemma PromptRunOfEach(w: World, acts: seq<Action>, c: Value)
    requires c in w.clients && PromptRun(w, acts)
    ensures PromptNodeRun(w, c, acts)
  {
    forall i | 0 <= i <= |acts| ensures PromptNode(After(Next, w, acts[..i]), c) {
      ConfigsFixed(w, acts[..i]);
      assert Prompt(After(Next, w, acts[..i]));
    }
  }

  /** So where all are safe and keep their delays at most one of them works. */
  lemma OneNodeWorks(w: World, acts: seq<Action>)
    requires Init(w) && PromptRun(w, acts)
    requires forall c :: c in w.clients ==> Sane(w.clients[c].cfg) && WorkSafe(w.clients[c].cfg)
    ensures var v := After(Next, w, acts);
      AtMostOneWorks(v) && forall c :: Works(v, c) ==> OwnedBy(v.entry, v.now, c)
  {
    ConfigsFixed(w, acts);
    var v := After(Next, w, acts);
    forall c | Works(v, c) ensures OwnedBy(v.entry, v.now, c) {
      PromptRunOfEach(w, acts, c);
      WorkerOwnsTheKey(w, acts, c);
    }
  }

  // ---- cancelled candidates ------------------------------------------------------------------

  /** No candidate is cancelled in the run before its supervisor is quiet. */
  ghost predicate CancelsQuiet(w: World, acts: seq<Action>) {
    forall i :: 0 <= i < |acts| && acts[i].Local? && acts[i].a == Elect(Cancel) ==>
      var v := After(Next, w, acts[..i]);
      acts[i].c in v.clients ==> Quiet(v.clients[acts[i].c].node.sup)
  }

  predicate CancelledQuiet(w: World) {
    forall c :: c in w.clients && !Uncancelled(w.clients[c]) ==> Quiet(w.clients[c].node.sup)
  }

  lemma OnlyCancelCancels(w: World, a: Action, c: Value)
    requires c in w.clients && Uncancelled(w.clients[c]) && !Uncancelled(Next(w, a).clients[c])
    ensures a.Local? && a.c == c && a.a == Elect(Cancel)
  {
    if a.Local? && a.c == c && a.a.Supervise? {
      SuperviseKeepsPhase(w.clients[c].node, a.a.s);
    }
  }

  lemma CancelledQuietKept(w: World, a: Action)
    requires Inv(w) && CancelledQuiet(w)
    requires a.Local? && a.a == Elect(Cancel) && a.c in w.clients ==> Quiet(w.clients[a.c].node.sup)
    ensures CancelledQuiet(Next(w, a))
  {
    forall c | c in w.clients && !Uncancelled(Next(w, a).clients[c])
      ensures Quiet(Next(w, a).clients[c].node.sup)
    {
      if Uncancelled(w.clients[c]) {
        OnlyCancelCancels(w, a, c);
      }
      QuietNext(w, a, c);
    }
  }

  lemma {:induction false} CancelledQuietAlways(w: World, acts: seq<Action>)
    requires Init(w) && CancelsQuiet(w, acts)
    ensures CancelledQuiet(After(Next, w, acts))
    decreases |acts|
  {
    if acts == [] {
    } else {
      var n := |acts| - 1;
      forall i | 0 <= i < n ensures acts[..n][..i] == acts[..i] {
      }
      CancelledQuietAlways(w, acts[..n]);
      InvAlways(w, acts[..n]);
      CancelledQuietKept(After(Next, w, acts[..n]), acts[n]);
    }
  }

  ghost predicate AtMostOneHasWork(w: World) {
    forall c, d :: HasWork(w, c) && HasWork(w, d) ==> c == d
  }

  /** If moreover no candidate is cancelled before its supervisor is quiet, then at most one node
      works among all of them, the cancelled ones included. */
  lemma OneNodeHasWork(w: World, acts: seq<Action>)
    requires Init(w) && PromptRun(w, acts) && CancelsQuiet(w, acts)
    requires forall c :: c in w.clients ==> Sane(w.clients[c].cfg) && WorkSafe(w.clients[c].cfg)
    ensures var v := After(Next, w, acts);
      AtMostOneHasWork(v) && forall c :: HasWork(v, c) ==> OwnedBy(v.entry, v.now, c)
  {
    OneNodeWorks(w, acts);
    CancelledQuietAlways(w, acts);
    var v := After(Next, w, acts);
    forall c | HasWork(v, c) ensures Works(v, c) {
    }
  }

  predicate NoneCancelled(w: World) {
    forall c :: c in w.clients ==> Uncancelled(w.clients[c])
  }

  lemma CancelCancels(w: World, a: Action)
    requires a.Local? && a.c in w.clients && a.a == Elect(Cancel)
    ensures a.c in Next(w, a).clients && !Uncancelled(Next(w, a).clients[a.c])
  {
    assert LocalEnabled(w, a.c, a.a, a.answer, a.next);
  }

  lemma NoneCancelledBefore(w: World, a: Action)
    requires NoneCancelled(Next(w, a))
    ensures NoneCancelled(w) && (a.Local? && a.c in w.clients ==> a.a != Elect(Cancel))
  {
    forall c | c in w.clients ensures Uncancelled(w.clients[c]) {
      assert c in Next(w, a).clients;
      UncancelledBefore(w, a, c);
    }
    if a.Local? && a.c in w.clients && a.a == Elect(Cancel) {
      CancelCancels(w, a);
    }
  }

  /** A cancelled candidate stays cancelled, so a run that ends with none had no cancellation. */
  lemma {:induction false} NeverCancelled(w: World, acts: seq<Action>)
    requires NoneCancelled(After(Next, w, acts))
    ensures CancelsQuiet(w, acts)
    decreases |acts|
  {
    if acts == [] {
    } else {
      var n := |acts| - 1;
      NoneCancelledBefore(After(Next, w, acts[..n]), acts[n]);
      NeverCancelled(w, acts[..n]);
      forall i | 0 <= i < n ensures acts[..n][..i] == acts[..i] {
      }
    }
  }
}
