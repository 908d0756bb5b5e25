/** One node end to end: the election goroutine, its channel, and the supervisor that consumes it. */
module Pipeline {
  import opened Runs
  import opened RedisLock
  import opened ElectLoop
  import opened Supervisor

  /** The past, as far as the statements below need it: `received`, the events the supervisor
      took from the channel; `skipped`, whether a send was ever abandoned; `closedSilently`,
      whether that was the last one, which announces the end. */
  datatype Node = Node(elector: Elector, sup: Sup, received: seq<int>, skipped: bool, closedSilently: bool)

  const FRESH_NODE := Node(FRESH_ELECTOR, FRESH_SUP, [], false, false)

  datatype NodeAction = Elect(e: ElectAction) | Supervise(s: SupAction)

  predicate NodeEnabled(n: Node, a: NodeAction) {
    match a
    case Elect(e) => Enabled(n.elector, e)
    case Supervise(Receive(event)) =>
      SupEnabled(n.sup, Receive(event)) && n.elector.watcher != [] && n.elector.watcher[0] == event
    case Supervise(SeeClosed) =>
      SupEnabled(n.sup, SeeClosed) && n.elector.watcher == [] && n.elector.phase.Returned?
    case Supervise(s) => SupEnabled(n.sup, s)
  }

  function NodeStep(n: Node, a: NodeAction): Node {
    if !NodeEnabled(n, a) then n else
    match a
    case Elect(e) =>
      n.(elector := Step(n.elector, e),
         skipped := n.skipped || e.Skip?,
         closedSilently := n.closedSilently || (e.Skip? && n.elector.phase.last))
    case Supervise(Receive(event)) =>
      n.(elector := n.elector.(watcher := n.elector.watcher[1..]),
         sup := SupStep(n.sup, Receive(event)),
         received := n.received + [event])
    case Supervise(s) => n.(sup := SupStep(n.sup, s))
  }

  function Pending(e: Elector): seq<int> {
    if e.phase.Sending? then [e.phase.event] else []
  }

  /** Received, then buffered, then being sent: every event the candidate has announced. */
  function History(n: Node): seq<int> {
    n.received + n.elector.watcher + Pending(n.elector)
  }

  /** The events whose handling is complete. */
  function Handled(n: Node): seq<int> {
    if n.sup.loop.Handling? && n.received != [] then n.received[..|n.received| - 1] else n.received
  }

  predicate EventsAlternate(h: seq<int>) {
    forall i :: 0 <= i < |h| ==> h[i] == (if i % 2 == 0 then TAKEN_ACQUIRE else LOST_ACQUIRE)
  }

  /** The state an alternating history ends in. */
  predicate Up(h: seq<int>) {
    |h| % 2 == 1
  }

  /** The last event of a history is Taken. */
  predicate EndsTaken(h: seq<int>) {
    h != [] && h[|h| - 1] == TAKEN_ACQUIRE
  }

  lemma UpMeansEndsTaken(h: seq<int>)
    requires EventsAlternate(h)
    ensures Up(h) <==> EndsTaken(h)
  {
  }

  /** The events that got into the channel. */
  function Through(n: Node): seq<int> {
    n.received + n.elector.watcher
  }

  /** Only a push adds to it. */
  lemma ThroughGrows(n: Node, a: NodeAction)
    ensures |Through(NodeStep(n, a))| == |Through(n)| + if NodeEnabled(n, a) && a == Elect(Push) then 1 else 0
  {
  }

  /** The supervisor leaves the candidate's phase and belief alone. */
  lemma SuperviseKeepsPhase(n: Node, s: SupAction)
    ensures NodeStep(n, Supervise(s)).elector == n.elector.(watcher := NodeStep(n, Supervise(s)).elector.watcher)
  {
  }

  /** The candidate's side of the history. */
  predicate Announces(n: Node) {
    && Consistent(n.elector)
    && (n.skipped ==> n.elector.cancelled)
    && (n.closedSilently ==> n.skipped)
    && (forall i :: 0 <= i < |Through(n)| ==> Through(n)[i] == TAKEN_ACQUIRE || Through(n)[i] == LOST_ACQUIRE)
    && (!n.skipped ==> EventsAlternate(History(n)) && n.elector.isLeader == Up(History(n)))
    && (n.elector.phase.Returned? && !n.closedSilently ==>
          Through(n) != [] && Through(n)[|Through(n)| - 1] == LOST_ACQUIRE)
  }

  /** The supervisor's side. */
  predicate Follows(n: Node) {
    && (n.sup.loop.Handling? ==> n.received != [] && n.received[|n.received| - 1] == n.sup.loop.event)
    && CallsTracked(n.sup)
    && (Unmatched(n.sup.calls) ==> EndsTaken(Handled(n)))
    && (EndsTaken(Handled(n)) && !n.sup.supervisorDone ==> n.sup.working)
    && (n.sup.loop.Clearing? || n.sup.kernelDone ==> n.sup.supervisorDone)
    && (n.sup.loop.Exited? && n.sup.loop.exit.Cleared? ==> n.sup.supervisorDone)
    && (n.sup.loop == Exited(ChannelClosed) ==> n.elector.phase.Returned? && n.elector.watcher == [])
  }

  predicate Faithful(n: Node) {
    Announces(n) && Follows(n)
  }

  lemma FaithfulElect(n: Node, a: ElectAction)
    requires Faithful(n) && Enabled(n.elector, a)
    ensures Faithful(NodeStep(n, Elect(a)))
  {
    var n' := NodeStep(n, Elect(a));
    ConsistentKept(n.elector, a);
    assert Handled(n') == Handled(n);
    match a
    case Push =>
      assert Through(n') == Through(n) + [n.elector.phase.event];
      assert History(n') == History(n);
    case Reply(ok) =>
      assert Through(n') == Through(n);
      assert History(n') == History(n) + Pending(n'.elector);
    case Skip => assert Through(n') == Through(n);
    case _ =>
      assert Through(n') == Through(n);
      assert History(n') == History(n);
  }

  lemma FaithfulReceive(n: Node, event: int)
    requires Faithful(n) && NodeEnabled(n, Supervise(Receive(event)))
    ensures Faithful(NodeStep(n, Supervise(Receive(event))))
  {
    var n' := NodeStep(n, Supervise(Receive(event)));
    assert n.elector.watcher == [event] + n'.elector.watcher;
    assert Through(n') == Through(n);
    assert History(n') == History(n);
    assert n'.received[..|n.received|] == n.received;
    assert Handled(n') == Handled(n);
  }

  lemma FaithfulHandle(n: Node)
    requires Faithful(n) && n.sup.loop.Handling?
    ensures Faithful(NodeStep(n, Supervise(Handle)))
  {
    var n' := NodeStep(n, Supervise(Handle));
    var last := |n.received| - 1;
    CallsTrackedKept(n.sup, Handle);
    assert Through(n') == Through(n) && History(n') == History(n);
    assert Through(n)[last] == n.sup.loop.event;
    assert Handled(n) == n.received[..last] && Handled(n') == n.received;
  }

  lemma FaithfulSupervise(n: Node, s: SupAction)
    requires Faithful(n) && NodeEnabled(n, Supervise(s)) && !s.Receive? && !s.Handle?
    ensures Faithful(NodeStep(n, Supervise(s)))
  {
    var n' := NodeStep(n, Supervise(s));
    CallsTrackedKept(n.sup, s);
    assert Through(n') == Through(n) && History(n') == History(n) && Handled(n') == Handled(n);
  }

  lemma FaithfulKept(n: Node, a: NodeAction)
    requires Faithful(n)
    ensures Faithful(NodeStep(n, a))
  {
    if NodeEnabled(n, a) {
      match a
      case Elect(e) => FaithfulElect(n, e);
      case Supervise(Receive(event)) => FaithfulReceive(n, event);
      case Supervise(Handle) => FaithfulHandle(n);
      case Supervise(s) => FaithfulSupervise(n, s);
    }
  }

  lemma FaithfulAlways(acts: seq<NodeAction>)
    ensures Faithful(After(NodeStep, FRESH_NODE, acts))
  {
    forall n, a | Faithful(n) ensures Faithful(NodeStep(n, a)) {
      FaithfulKept(n, a);
    }
    Invariance(NodeStep, Faithful, FRESH_NODE, acts);
  }

  lemma HandledAlternates(n: Node)
    requires EventsAlternate(History(n))
    ensures EventsAlternate(Handled(n)) && |Handled(n)| <= |History(n)|
  {
    forall i | 0 <= i < |Handled(n)| ensures Handled(n)[i] == History(n)[i] {
    }
  }

  /** As long as no send was abandoned - so, in particular, until the candidate is cancelled -
      the received, buffered and pending events form one strictly alternating history from
      Taken, `isLeader` is the state after all of it, and until the supervisor is stopped
      `Working` is the state after the handled part. */
  lemma EndToEnd(acts: seq<NodeAction>)
    ensures var n := After(NodeStep, FRESH_NODE, acts);
      && (n.skipped ==> n.elector.cancelled)
      && (!n.skipped ==> EventsAlternate(History(n)) && n.elector.isLeader == Up(History(n)))
      && (!n.skipped && !n.sup.supervisorDone ==> n.sup.working == Up(Handled(n)))
  {
    FaithfulAlways(acts);
    var n := After(NodeStep, FRESH_NODE, acts);
    if !n.skipped {
      HandledAlternates(n);
      UpMeansEndsTaken(Handled(n));
    }
  }

  // ---- the node is its two goroutines and the channel between them ---------------------------

  /** The two goroutines move as by themselves, whatever the other does; only through the channel
      do they meet: an event is received from its front, and its end seen when it is closed and
      empty. */
  lemma NodeMoves(n: Node, a: NodeAction)
    ensures var m := NodeStep(n, a);
      match a
      case Elect(e) => m.elector == Step(n.elector, e) && m.sup == n.sup && m.received == n.received
      case Supervise(Receive(event)) =>
        if n.sup.loop.Waiting? && n.elector.watcher != [] && event == n.elector.watcher[0] then
          && m.sup == SupStep(n.sup, Receive(event)) && m.received == n.received + [event]
          && m.elector == n.elector.(watcher := n.elector.watcher[1..])
        else m == n
      case Supervise(SeeClosed) =>
        && m.elector == n.elector && m.received == n.received
        && m.sup == if n.elector.watcher == [] && n.elector.phase.Returned? then SupStep(n.sup, SeeClosed) else n.sup
      case Supervise(s) => m.sup == SupStep(n.sup, s) && m.elector == n.elector && m.received == n.received
  {
  }

  /** What a step puts into the channel, and what it hands to the supervisor. */
  function SentBy(n: Node, a: NodeAction): seq<int> {
    if a == Elect(Push) && NodeEnabled(n, a) then [n.elector.phase.event] else []
  }

  function ReceivedBy(n: Node, a: NodeAction): seq<int> {
    if a.Supervise? && a.s.Receive? && NodeEnabled(n, a) then [a.s.event] else []
  }

  /** Whether a send has been abandoned, and whether that of the closing Lost has. */
  function NoteSkip(n: Node, a: NodeAction, skipped: bool): bool {
    skipped || (a == Elect(Skip) && NodeEnabled(n, a))
  }

  function NoteSilence(n: Node, a: NodeAction, silent: bool): bool {
    silent || (a == Elect(Skip) && n.elector.cancelled && n.elector.phase == Sending(LOST_ACQUIRE, true))
  }

  lemma RecordStep(n: Node, a: NodeAction)
    ensures NodeStep(n, a).received == n.received + ReceivedBy(n, a)
    ensures Through(NodeStep(n, a)) == Through(n) + SentBy(n, a)
    ensures NodeStep(n, a).skipped == NoteSkip(n, a, n.skipped)
    ensures Announces(n) ==> NodeStep(n, a).closedSilently == NoteSilence(n, a, n.closedSilently)
  {
  }

  lemma {:induction false} EventsAreRecorded(acts: seq<NodeAction>)
    ensures var n := After(NodeStep, FRESH_NODE, acts);
      && n.received == Collected(NodeStep, ReceivedBy, FRESH_NODE, acts)
      && Through(n) == Collected(NodeStep, SentBy, FRESH_NODE, acts)
    decreases |acts|
  {
    if acts == [] {
    } else {
      EventsAreRecorded(acts[..|acts| - 1]);
      RecordStep(After(NodeStep, FRESH_NODE, acts[..|acts| - 1]), acts[|acts| - 1]);
    }
  }

  predicate SkipsRecorded(n: Node, skipped: bool) {
    n.skipped == skipped
  }

  predicate SilenceRecorded(n: Node, silent: bool) {
    Faithful(n) && n.closedSilently == silent
  }

  lemma SkipsAreRecorded(acts: seq<NodeAction>)
    ensures var n := After(NodeStep, FRESH_NODE, acts);
      && n.skipped == Noted(NodeStep, NoteSkip, FRESH_NODE, false, acts)
      && n.closedSilently == Noted(NodeStep, NoteSilence, FRESH_NODE, false, acts)
  {
    forall n, b, a | SkipsRecorded(n, b) ensures SkipsRecorded(NodeStep(n, a), NoteSkip(n, a, b)) {
      RecordStep(n, a);
    }
    NotedInvariance(NodeStep, NoteSkip, SkipsRecorded, FRESH_NODE, false, acts);
    forall n, b, a | SilenceRecorded(n, b) ensures SilenceRecorded(NodeStep(n, a), NoteSilence(n, a, b)) {
      RecordStep(n, a);
      FaithfulKept(n, a);
    }
    NotedInvariance(NodeStep, NoteSilence, SilenceRecorded, FRESH_NODE, false, acts);
  }

  /** What a node records of its past is its past, in every run: the events received, those sent
      into the channel, the sends abandoned, and the one that announces the end. */
  lemma RecordsAreTrue(acts: seq<NodeAction>)
    ensures var n := After(NodeStep, FRESH_NODE, acts);
      && n.received == Collected(NodeStep, ReceivedBy, FRESH_NODE, acts)
      && Through(n) == Collected(NodeStep, SentBy, FRESH_NODE, acts)
      && n.skipped == Noted(NodeStep, NoteSkip, FRESH_NODE, false, acts)
      && n.closedSilently == Noted(NodeStep, NoteSilence, FRESH_NODE, false, acts)
  {
    EventsAreRecorded(acts);
    SkipsAreRecorded(acts);
  }

  /** Both loops are waiting and nothing is in the channel. */
  predicate Settled(n: Node) {
    && n.elector.phase.Idle? && n.elector.watcher == []
    && n.sup.loop.Waiting?
  }

  lemma SettledAgree(n: Node)
    requires Faithful(n) && Settled(n) && !n.skipped && !n.sup.supervisorDone
    ensures n.sup.working == n.elector.isLeader
  {
    assert History(n) == Handled(n);
    UpMeansEndsTaken(History(n));
  }

  lemma SettledAgreement(acts: seq<NodeAction>)
    ensures var n := After(NodeStep, FRESH_NODE, acts);
      Settled(n) && !n.skipped && !n.sup.supervisorDone ==> n.sup.working == n.elector.isLeader
  {
    FaithfulAlways(acts);
    var n := After(NodeStep, FRESH_NODE, acts);
    if Settled(n) && !n.skipped && !n.sup.supervisorDone {
      SettledAgree(n);
    }
  }

  /** A supervisor that saw the channel close, and that nobody stopped, still works exactly when
      the candidate's closing Lost was abandoned and the last event that got through was Taken. */
  lemma WorksAfterCloseExactly(acts: seq<NodeAction>)
    ensures var n := After(NodeStep, FRESH_NODE, acts);
      n.sup.loop == Exited(ChannelClosed) && !n.sup.supervisorDone ==>
        && Through(n) == n.received
        && (n.sup.working <==> n.closedSilently && EndsTaken(Through(n)))
  {
    FaithfulAlways(acts);
    var n := After(NodeStep, FRESH_NODE, acts);
    if n.sup.loop == Exited(ChannelClosed) {
      assert Through(n) == n.received == Handled(n);
    }
  }

  /** That case is reachable: the Lost event of a cancelled leader can be abandoned although the
      channel has room, and the supervisor then leaves its loop still working. */
  lemma AbandonedLostLeavesWorking()
    ensures exists n ::
              && Reaches(NodeStep, FRESH_NODE, n) && n.sup.loop == Exited(ChannelClosed)
              && !n.sup.supervisorDone && n.sup.working && !n.elector.isLeader
  {
    ReachesItself(NodeStep, FRESH_NODE);
    var n := ReachesNext(NodeStep, FRESH_NODE, FRESH_NODE, Supervise(BeginLoop));
    n := ReachesNext(NodeStep, FRESH_NODE, n, Elect(Begin));
    n := ReachesNext(NodeStep, FRESH_NODE, n, Elect(Reply(true)));
    n := ReachesNext(NodeStep, FRESH_NODE, n, Elect(Push));
    n := ReachesNext(NodeStep, FRESH_NODE, n, Supervise(Receive(TAKEN_ACQUIRE)));
    n := ReachesNext(NodeStep, FRESH_NODE, n, Supervise(Handle));
    AbandonLost(n);
  }

  lemma AbandonLost(n0: Node)
    requires Reaches(NodeStep, FRESH_NODE, n0)
    requires n0.elector == Elector(Idle, true, false, [])
    requires n0.sup.loop == Waiting && n0.sup.working && !n0.sup.supervisorDone
    ensures exists n ::
              && Reaches(NodeStep, FRESH_NODE, n) && n.sup.loop == Exited(ChannelClosed)
              && !n.sup.supervisorDone && n.sup.working && !n.elector.isLeader
  {
    var n := ReachesNext(NodeStep, FRESH_NODE, n0, Elect(Cancel));
    n := ReachesNext(NodeStep, FRESH_NODE, n, Elect(Done));
    n := ReachesNext(NodeStep, FRESH_NODE, n, Elect(Reply(true)));
    n := ReachesNext(NodeStep, FRESH_NODE, n, Elect(Skip));
    n := ReachesNext(NodeStep, FRESH_NODE, n, Supervise(SeeClosed));
  }
}
