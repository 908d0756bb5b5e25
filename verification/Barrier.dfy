/** The readiness barrier: a flag switched by signals that one listener goroutine consumes.

    Start and Stop are called one after the other; senders run at any time, with the running
    check and the push as separate steps. */
module Barrier {
  import opened Runs

  const CAPACITY := 4

  datatype Signal = ReadySignal | NotReadySignal | OtherSignal

  datatype Listener = AtSelect | Got(signal: Signal)

  /** Where the caller of Start or Stop stands. */
  datatype Control =
    | Free
    | SettingCancel | Spawning                                  // in Start
    | Cancelling | Waiting | Draining | Clearing                // in Stop

  /** `senders`: how many have seen the barrier running and not yet pushed or given up.
      `runDone`: the context of the current run is cancelled. */
  datatype State = State(
    running: bool, ready: bool, signals: seq<Signal>, listeners: seq<Listener>, wg: int,
    hasCancel: bool, runDone: bool, parentDone: bool, senders: nat, control: Control)

  const NEW_BARRIER := State(false, false, [], [], 0, false, false, false, 0, Free)

  datatype Action =
    | StartCas | SetCancel | Spawn
    | StopCas | Cancel | Join | Pop | Drained | SetNotReady
    | Check | Push(signal: Signal) | GiveUp
    | Receive(i: nat) | Store(i: nat) | Leave(i: nat)
    | CancelParent

  predicate Enabled(s: State, a: Action) {
    match a
    case StartCas => s.control.Free? && !s.running
    case SetCancel => s.control.SettingCancel?
    case Spawn => s.control.Spawning?
    case StopCas => s.control.Free? && s.running
    case Cancel => s.control.Cancelling?
    case Join => s.control.Waiting? && s.wg == 0
    case Pop => s.control.Draining? && s.signals != []
    case Drained => s.control.Draining? && s.signals == []
    case SetNotReady => s.control.Clearing?
    case Check => s.running
    case Push(_) => s.senders > 0 && |s.signals| < CAPACITY
    case GiveUp => s.senders > 0
    case Receive(i) => i < |s.listeners| && s.listeners[i].AtSelect? && s.signals != []
    case Store(i) => i < |s.listeners| && s.listeners[i].Got?
    case Leave(i) => i < |s.listeners| && s.listeners[i].AtSelect? && (s.runDone || s.parentDone)
    case CancelParent => true
  }

  function Switched(ready: bool, signal: Signal): bool {
    match signal
    case ReadySignal => true
    case NotReadySignal => false
    case OtherSignal => ready
  }

  function Step(s: State, a: Action): State {
    if !Enabled(s, a) then s else
    match a
    case StartCas => s.(running := true, control := SettingCancel)
    case SetCancel => s.(hasCancel := true, runDone := false, control := Spawning)
    case Spawn => s.(wg := s.wg + 1, listeners := s.listeners + [AtSelect], control := Free)
    case StopCas => s.(running := false, control := Cancelling)
    case Cancel => s.(runDone := s.runDone || s.hasCancel, hasCancel := false, control := Waiting)
    case Join => s.(control := Draining)
    case Pop => s.(signals := s.signals[1..])
    case Drained => s.(control := Clearing)
    case SetNotReady => s.(ready := false, control := Free)
    case Check => s.(senders := s.senders + 1)
    case Push(signal) => s.(senders := s.senders - 1, signals := s.signals + [signal])
    case GiveUp => s.(senders := s.senders - 1)
    case Receive(i) => s.(listeners := s.listeners[i := Got(s.signals[0])], signals := s.signals[1..])
    case Store(i) => s.(ready := Switched(s.ready, s.listeners[i].signal), listeners := s.listeners[i := AtSelect])
    case Leave(i) => s.(listeners := s.listeners[..i] + s.listeners[i + 1..], wg := s.wg - 1)
    case CancelParent => s.(parentDone := true)
  }

  predicate Stopping(c: Control) {
    c.Cancelling? || c.Waiting? || c.Draining? || c.Clearing?
  }

  predicate Inv(s: State) {
    && |s.listeners| <= 1 && s.wg == |s.listeners|
    && |s.signals| <= CAPACITY
    && (s.ready ==> s.running || Stopping(s.control))
    && (s.control.SettingCancel? || s.control.Spawning? ==> s.running)
    && (Stopping(s.control) ==> !s.running)
    && (s.listeners != [] ==> (s.control.Free? && s.running) || s.control.Cancelling? || s.control.Waiting?)
    && ((s.control.Free? && s.running) || s.control.Cancelling? || s.control.Spawning? ==> s.hasCancel)
    && (s.control.Waiting? ==> s.runDone)
    && (s.control.Free? && s.running ==> !s.runDone && (s.listeners != [] || s.parentDone))
    && (s.control.Spawning? ==> !s.runDone)
  }

  lemma InvControl(s: State, a: Action)
    requires Inv(s) && !a.Check? && !a.Push? && !a.GiveUp? && !a.Receive? && !a.Store? && !a.Leave?
    ensures Inv(Step(s, a))
  {
  }

  lemma InvSend(s: State, a: Action)
    requires Inv(s) && (a.Check? || a.Push? || a.GiveUp?)
    ensures Inv(Step(s, a))
  {
  }

  lemma InvListen(s: State, a: Action)
    requires Inv(s) && (a.Receive? || a.Store? || a.Leave?)
    ensures Inv(Step(s, a))
  {
    if Enabled(s, a) {
      assert s.listeners == [s.listeners[0]] && a.i == 0;
    }
  }

  lemma InvKept(s: State, a: Action)
    requires Inv(s)
    ensures Inv(Step(s, a))
  {
    match a
    case Check => InvSend(s, a);
    case Push(_) => InvSend(s, a);
    case GiveUp => InvSend(s, a);
    case Receive(_) => InvListen(s, a);
    case Store(_) => InvListen(s, a);
    case Leave(_) => InvListen(s, a);
    case _ => InvControl(s, a);
  }

  lemma InvAlways(acts: seq<Action>)
    ensures Inv(After(Step, NEW_BARRIER, acts))
  {
    forall s, a | Inv(s) ensures Inv(Step(s, a)) {
      InvKept(s, a);
    }
    Invariance(Step, Inv, NEW_BARRIER, acts);
  }

  /** At most one listener in every run, and exactly one while the barrier runs and its parent is
      not cancelled; never more than four buffered signals; ready only while running or while a
      Stop is under way; once Stop's wait is over nobody listens. */
  lemma BarrierSafe(acts: seq<Action>)
    ensures var s := After(Step, NEW_BARRIER, acts);
      && |s.listeners| <= 1 && |s.signals| <= 4
      && (s.control.Free? && s.running && !s.parentDone ==> |s.listeners| == 1)
      && (s.ready ==> s.running || Stopping(s.control))
      && (s.control.Draining? || s.control.Clearing? || (s.control.Free? && !s.running) ==> s.listeners == [])
  {
    InvAlways(acts);
  }

  /** What makes the barrier run and stop, and who cancels: nothing else does. */
  lemma OnlyTheseSwitch(s: State, a: Action)
    ensures var t := Step(s, a);
      && (t.running && !s.running <==> a.StartCas? && s.control.Free? && !s.running)
      && (s.running && !t.running <==> a.StopCas? && s.control.Free? && s.running)
      && (t.parentDone <==> s.parentDone || a.CancelParent?)
      && (s.control.Draining? && !t.control.Draining? <==> s.control.Draining? && a.Drained? && s.signals == [])
      && (s.control.Waiting? && !t.control.Waiting? <==> s.control.Waiting? && a.Join? && s.wg == 0)
  {
  }

  /** A send passes its check exactly while the barrier runs.  Past it, it completes exactly while
      fewer than four signals are buffered, behind them, running or not; its own context can end
      it at any time, without a trace. */
  lemma SendMoves(s: State, signal: Signal)
    ensures Step(s, Check) == if s.running then s.(senders := s.senders + 1) else s
    ensures Step(s, Push(signal)) ==
      if s.senders > 0 && |s.signals| < 4 then s.(senders := s.senders - 1, signals := s.signals + [signal]) else s
    ensures Step(s, GiveUp) == if s.senders > 0 then s.(senders := s.senders - 1) else s
  {
  }

  /** At its select the listener can leave exactly when its run or the parent is cancelled: a
      cancelled parent ends it without a Stop, the flag and the channel left as they are. */
  lemma ListenerCanLeave(s: State)
    requires Inv(s) && s.listeners == [AtSelect]
    ensures Step(s, Leave(0)).listeners == if s.runDone || s.parentDone then [] else [AtSelect]
    ensures Step(s, Leave(0)).ready == s.ready && Step(s, Leave(0)).signals == s.signals
  {
    assert s.listeners[..0] + s.listeners[1..] == [];
  }

  // ---- from push to flag ---------------------------------------------------------------------

  /** What the listener holds. */
  function Held(s: State): seq<Signal> {
    if |s.listeners| == 1 && s.listeners[0].Got? then [s.listeners[0].signal] else []
  }

  /** What a step puts into the channel. */
  function PushedBy(s: State, a: Action): seq<Signal> {
    if a.Push? && Enabled(s, a) then [a.signal] else []
  }

  /** What a step hands to the listener, as it has it then. */
  function ReceivedBy(s: State, a: Action): seq<Signal> {
    if a.Receive? && Enabled(s, a) then Held(Step(s, a)) else []
  }

  /** What a step takes from the channel: for the listener, or for Stop's drain. */
  function TakenBy(s: State, a: Action): seq<Signal> {
    if a.Pop? && Enabled(s, a) then [s.signals[0]] else ReceivedBy(s, a)
  }

  /** What a step of the listener acts on. */
  function StoredBy(s: State, a: Action): seq<Signal> {
    if a.Store? && Enabled(s, a) then Held(s) else []
  }

  lemma ChannelStep(s: State, a: Action)
    requires Inv(s)
    ensures s.signals + PushedBy(s, a) == TakenBy(s, a) + Step(s, a).signals
  {
    if Enabled(s, a) && a.Receive? {
      assert s.listeners[a.i := Got(s.signals[0])] == [Got(s.signals[0])];
    }
  }

  /** The channel is first in, first out, in every run: what was pushed is what was taken and then
      what is buffered, in that order. */
  lemma FirstInFirstOut(acts: seq<Action>)
    ensures Collected(Step, PushedBy, NEW_BARRIER, acts) ==
            Collected(Step, TakenBy, NEW_BARRIER, acts) + After(Step, NEW_BARRIER, acts).signals
  {
    forall s, a | Inv(s)
      ensures Inv(Step(s, a)) && s.signals + PushedBy(s, a) == TakenBy(s, a) + Step(s, a).signals
    {
      InvKept(s, a);
      ChannelStep(s, a);
    }
    Conserved(Step, Inv, PushedBy, TakenBy, (s: State) => s.signals, NEW_BARRIER, acts);
  }

  lemma HeldStep(s: State, a: Action)
    requires Inv(s)
    ensures Held(s) + ReceivedBy(s, a) == StoredBy(s, a) + Held(Step(s, a))
  {
    if Enabled(s, a) && (a.Receive? || a.Store? || a.Leave?) {
      assert s.listeners == [s.listeners[0]] && a.i == 0;
    }
  }

  /** No signal is lost or repeated between the two: all that was received has been acted on, but
      for the one in hand. */
  lemma ReceivedIsStored(acts: seq<Action>)
    ensures Collected(Step, ReceivedBy, NEW_BARRIER, acts) ==
            Collected(Step, StoredBy, NEW_BARRIER, acts) + Held(After(Step, NEW_BARRIER, acts))
  {
    forall s, a | Inv(s)
      ensures Inv(Step(s, a)) && Held(s) + ReceivedBy(s, a) == StoredBy(s, a) + Held(Step(s, a))
    {
      InvKept(s, a);
      HeldStep(s, a);
    }
    Conserved(Step, Inv, ReceivedBy, StoredBy, Held, NEW_BARRIER, acts);
  }

  /** Keeps the last Ready or NotReady acted on since the last Stop cleared the flag. */
  function NoteToggle(s: State, a: Action, last: seq<Signal>): seq<Signal> {
    if a.SetNotReady? && Enabled(s, a) then []
    else if StoredBy(s, a) != [] && StoredBy(s, a)[0] != OtherSignal then StoredBy(s, a)
    else last
  }

  predicate FlagTells(s: State, last: seq<Signal>) {
    Inv(s) && (s.ready <==> last == [ReadySignal])
  }

  lemma FlagTellsKept(s: State, last: seq<Signal>, a: Action)
    requires FlagTells(s, last)
    ensures FlagTells(Step(s, a), NoteToggle(s, a, last))
  {
    InvKept(s, a);
    if Enabled(s, a) && a.Store? {
      assert s.listeners == [s.listeners[0]] && a.i == 0;
    }
  }

  /** In every run the flag is up exactly when that signal exists and is a Ready. */
  lemma ReadyIsLastToggle(acts: seq<Action>)
    ensures After(Step, NEW_BARRIER, acts).ready <==> Noted(Step, NoteToggle, NEW_BARRIER, [], acts) == [ReadySignal]
  {
    forall s, last, a | FlagTells(s, last) ensures FlagTells(Step(s, a), NoteToggle(s, a, last)) {
      FlagTellsKept(s, last, a);
    }
    NotedInvariance(Step, NoteToggle, FlagTells, NEW_BARRIER, [], acts);
  }

  /** The flag after a queue of signals: the last toggle decides. */
  function LastOf(ready: bool, queue: seq<Signal>): bool {
    if queue == [] then ready
    else
      var last := queue[|queue| - 1];
      if last == ReadySignal then true
      else if last == NotReadySignal then false
      else LastOf(ready, queue[..|queue| - 1])
  }

  /** A listener that consumes what is buffered leaves the flag as the last toggle in it says. */
  lemma {:induction false} ConsumesInOrder(s: State, n: nat) returns (t: State)
    requires s.listeners == [AtSelect] && n <= |s.signals|
    ensures Reaches(Step, s, t) && t == s.(signals := s.signals[n..], ready := LastOf(s.ready, s.signals[..n]))
  {
    if n == 0 {
      ReachesItself(Step, s);
      t := s;
    } else {
      t := ConsumesInOrder(s, n - 1);
      assert s.signals[..n][..n - 1] == s.signals[..n - 1];
      t := ConsumesNext(s, t);
    }
  }

  lemma ConsumesNext(s: State, t: State) returns (u: State)
    requires Reaches(Step, s, t) && t.listeners == [AtSelect] && t.signals != []
    ensures Reaches(Step, s, u) && u == t.(signals := t.signals[1..], ready := LastOf(t.ready, [t.signals[0]]))
  {
    ReceiveOne(t);
    u := ReachesNext(Step, s, t, Receive(0));
    StoreOne(u, t.signals[0]);
    u := ReachesNext(Step, s, u, Store(0));
  }

  // ---- the drain loop ------------------------------------------------------------------------

  /** What can still pass through the channel while Stop drains it. */
  function Backlog(s: State): nat {
    2 * s.senders + |s.signals|
  }

  /** Turns of the drain loop and moves of senders, in a run. */
  function Moves(s: State, acts: seq<Action>): nat {
    if acts == [] then 0
    else
      var front, a := acts[..|acts| - 1], acts[|acts| - 1];
      Moves(s, front) + if Move(After(Step, s, front), a) then 1 else 0
  }

  predicate Move(s: State, a: Action) {
    Enabled(s, a) && (a.Pop? || a.Push? || a.GiveUp?)
  }

  lemma DrainStep(s: State, a: Action)
    requires Inv(s) && s.control.Draining? && !a.Drained?
    ensures var t := Step(s, a);
      t.control.Draining? && (if Move(s, a) then 1 else 0) + Backlog(t) <= Backlog(s)
  {
  }

  /** Stop's drain ends: against any senders, it and they together make at most `Backlog` moves,
      because a stopped barrier lets no new sender pass its check. */
  lemma {:induction false} DrainEnds(s: State, acts: seq<Action>)
    requires Inv(s) && s.control.Draining? && Drained !in acts
    ensures var t := After(Step, s, acts);
      Inv(t) && t.control.Draining? && Moves(s, acts) + Backlog(t) <= Backlog(s)
    decreases |acts|
  {
    if acts == [] {
    } else {
      var front, a := acts[..|acts| - 1], acts[|acts| - 1];
      DrainEnds(s, front);
      DrainStep(After(Step, s, front), a);
      InvKept(After(Step, s, front), a);
    }
  }

  lemma {:induction false} DrainOut(s: State, t: State) returns (u: State)
    requires Reaches(Step, s, t) && t.control.Draining?
    ensures Reaches(Step, s, u) && u == t.(signals := [], ready := false, control := Free)
    decreases |t.signals|
  {
    if t.signals == [] {
      u := ReachesNext(Step, s, t, Drained);
      u := ReachesNext(Step, s, u, SetNotReady);
    } else {
      u := ReachesNext(Step, s, t, Pop);
      u := DrainOut(s, u);
    }
  }

  /** The listener ends once its run is cancelled, whatever it holds. */
  lemma ListenerEnds(s: State, t: State) returns (u: State)
    requires Reaches(Step, s, t) && Inv(t) && t.control.Waiting? && t.listeners != []
    ensures Reaches(Step, s, u) && Inv(u) && u.control.Waiting? && u.listeners == [] && u.running == t.running
  {
    u := t;
    assert u.listeners == [u.listeners[0]];
    if u.listeners[0].Got? {
      StoreOne(u, u.listeners[0].signal);
      InvKept(u, Store(0));
      u := ReachesNext(Step, s, u, Store(0));
    }
    InvKept(u, Leave(0));
    u := ReachesNext(Step, s, u, Leave(0));
    assert u.listeners == [];
  }

  /** A Stop can always return, and leaves the barrier stopped, not ready, without listener, and
      with nothing buffered then. */
  lemma StopCanReturn(s: State) returns (t: State)
    requires Inv(s) && Stopping(s.control) && !s.control.Clearing?
    ensures Reaches(Step, s, t) && Stopped(t) && !t.ready && t.listeners == [] && t.signals == []
  {
    ReachesItself(Step, s);
    t := s;
    if t.control.Cancelling? {
      InvKept(t, Cancel);
      t := ReachesNext(Step, s, t, Cancel);
    }
    if t.control.Waiting? {
      if t.listeners != [] {
        t := ListenerEnds(s, t);
      }
      t := ReachesNext(Step, s, t, Join);
    }
    t := DrainOut(s, t);
  }

  // ---- what Stop leaves behind ---------------------------------------------------------------

  predicate Stopped(s: State) {
    s.control.Free? && !s.running
  }

  /** Nothing to come: no signal buffered and no sender past its check. */
  predicate Clean(s: State) {
    s.signals == [] && s.senders == 0
  }

  lemma {:induction false} CleanStays(s: State, acts: seq<Action>)
    requires Inv(s) && Stopped(s) && Clean(s) && StartCas !in acts
    ensures var t := After(Step, s, acts); Inv(t) && Stopped(t) && Clean(t)
    decreases |acts|
  {
    if acts == [] {
    } else {
      var front, a := acts[..|acts| - 1], acts[|acts| - 1];
      CleanStays(s, front);
      InvKept(After(Step, s, front), a);
    }
  }

  /** A stopped barrier can come to hold a signal before it is started again exactly when a
      signal or a sender past its check is left. */
  lemma LeftoverExactly(s: State)
    requires Inv(s) && Stopped(s)
    ensures Clean(s) <==> forall acts :: StartCas !in acts ==> After(Step, s, acts).signals == []
  {
    if Clean(s) {
      forall acts | StartCas !in acts ensures After(Step, s, acts).signals == [] {
        CleanStays(s, acts);
      }
    } else if s.signals != [] {
      var none: seq<Action> := [];
      assert After(Step, s, none) == s && StartCas !in none;
    } else {
      var one := [Push(ReadySignal)];
      TwoSteps(Step, s, Push(ReadySignal), CancelParent);
      assert After(Step, s, one) == Step(s, Push(ReadySignal));
      assert StartCas !in one;
    }
  }

  /** A Ready of the run that was stopped is left, or a sender that may still bring one. */
  predicate Tainted(s: State) {
    ReadySignal in s.signals || s.senders > 0
  }

  predicate NeverReady(s: State) {
    !Tainted(s) && !s.ready && Got(ReadySignal) !in s.listeners
  }

  lemma NeverReadyKept(s: State, a: Action)
    requires NeverReady(s) && !a.Check?
    ensures NeverReady(Step(s, a))
  {
  }

  lemma {:induction false} NeverReadyStays(s: State, acts: seq<Action>)
    requires NeverReady(s) && Check !in acts
    ensures NeverReady(After(Step, s, acts))
    decreases |acts|
  {
    if acts == [] {
    } else {
      NeverReadyStays(s, acts[..|acts| - 1]);
      NeverReadyKept(After(Step, s, acts[..|acts| - 1]), acts[|acts| - 1]);
    }
  }

  lemma ReceiveOne(s: State)
    requires s.listeners == [AtSelect] && s.signals != []
    ensures Step(s, Receive(0)) == s.(listeners := [Got(s.signals[0])], signals := s.signals[1..])
  {
    assert s.listeners[0 := Got(s.signals[0])] == [Got(s.signals[0])];
  }

  lemma StoreOne(s: State, signal: Signal)
    requires s.listeners == [Got(signal)]
    ensures Step(s, Store(0)) == s.(listeners := [AtSelect], ready := Switched(s.ready, signal))
  {
    assert s.listeners[0 := AtSelect] == [AtSelect];
  }

  /** The listener takes the first signal and stores it. */
  lemma ConsumeOne(s: State)
    requires s.listeners == [AtSelect] && s.signals != []
    ensures After(Step, s, [Receive(0), Store(0)])
         == s.(signals := s.signals[1..], ready := Switched(s.ready, s.signals[0]))
  {
    ReceiveOne(s);
    StoreOne(Step(s, Receive(0)), s.signals[0]);
    TwoSteps(Step, s, Receive(0), Store(0));
  }

  lemma {:induction false} ConsumeUntilReady(s: State) returns (acts: seq<Action>)
    requires s.listeners == [AtSelect] && Tainted(s) && |s.signals| <= CAPACITY
    ensures Check !in acts && After(Step, s, acts).ready
    decreases s.senders, |s.signals|
  {
    if s.signals == [] {
      var push := [Push(ReadySignal)];
      TwoSteps(Step, s, Push(ReadySignal), Push(ReadySignal));
      var t := Step(s, Push(ReadySignal));
      assert t.signals == [ReadySignal];
      ConsumeOne(t);
      acts := push + [Receive(0), Store(0)];
      Concat(Step, s, push, [Receive(0), Store(0)]);
    } else {
      var head := [Receive(0), Store(0)];
      ConsumeOne(s);
      if s.signals[0] == ReadySignal {
        acts := head;
      } else {
        assert s.signals == [s.signals[0]] + s.signals[1..];
        var rest := ConsumeUntilReady(After(Step, s, head));
        acts := head + rest;
        Concat(Step, s, head, rest);
      }
    }
  }

  lemma Restarted(s: State)
    requires Stopped(s) && s.listeners == []
    ensures var t := After(Step, s, [StartCas, SetCancel, Spawn]);
      t.listeners == [AtSelect] && t.signals == s.signals && t.senders == s.senders
  {
    ThreeSteps(Step, s, StartCas, SetCancel, Spawn);
  }

  /** What a Stop leaves can make a later run ready without a signal of its own - no sender
      passes its check any more - exactly when a Ready is buffered or a sender is past its check. */
  lemma StaleReadyExactly(s: State)
    requires Inv(s) && Stopped(s)
    ensures Tainted(s) <==> exists acts :: Check !in acts && After(Step, s, acts).ready
  {
    if Tainted(s) {
      var start := [StartCas, SetCancel, Spawn];
      Restarted(s);
      var rest := ConsumeUntilReady(After(Step, s, start));
      Concat(Step, s, start, rest);
      assert Check !in start + rest && After(Step, s, start + rest).ready;
    } else {
      forall acts | Check !in acts ensures !After(Step, s, acts).ready {
        NeverReadyStays(s, acts);
      }
    }
  }

  /** And a Stop can leave that: it returns while a sender is still past its check. */
  lemma StopCanLeaveSender()
    ensures exists s :: Reaches(Step, NEW_BARRIER, s) && Stopped(s) && Tainted(s)
  {
    ReachesItself(Step, NEW_BARRIER);
    var s := ReachesNext(Step, NEW_BARRIER, NEW_BARRIER, StartCas);
    s := ReachesNext(Step, NEW_BARRIER, s, SetCancel);
    s := ReachesNext(Step, NEW_BARRIER, s, Spawn);
    s := ReachesNext(Step, NEW_BARRIER, s, Check);
    s := StopPromptly(s);
  }

  lemma StopPromptly(r: State) returns (s: State)
    requires Reaches(Step, NEW_BARRIER, r)
    requires r == State(true, false, [], [AtSelect], 1, true, false, false, 1, Free)
    ensures Reaches(Step, NEW_BARRIER, s) && s == State(false, false, [], [], 0, false, true, false, 1, Free)
  {
    s := ReachesNext(Step, NEW_BARRIER, r, StopCas);
    s := ReachesNext(Step, NEW_BARRIER, s, Cancel);
    ListenerCanLeave(s);
    s := ReachesNext(Step, NEW_BARRIER, s, Leave(0));
    s := ReachesNext(Step, NEW_BARRIER, s, Join);
    s := DrainOut(NEW_BARRIER, s);
  }

  /** Stop's drain as it is written, with the senders that interfere. */
  class Drain {
    var signals: seq<Signal>
    var senders: nat

    constructor (signals: seq<Signal>, senders: nat)
      requires |signals| <= CAPACITY
      ensures this.signals == signals && this.senders == senders
    {
      this.signals, this.senders := signals, senders;
    }

    /** Any moves of senders past their check: pushes while there is room, and cancellations. */
    method Interfere()
      requires |signals| <= CAPACITY
      modifies this
      ensures |signals| <= CAPACITY
      ensures senders <= old(senders) && 2 * senders + |signals| <= 2 * old(senders) + |old(signals)|
    {
      while senders > 0
        invariant |signals| <= CAPACITY
        invariant senders <= old(senders) && 2 * senders + |signals| <= 2 * old(senders) + |old(signals)|
        decreases senders
      {
        if * {
          break;
        }
        if * {
          if |signals| < CAPACITY {
            var signal: Signal := *;
            signals := signals + [signal];
          }
        }
        senders := senders - 1;
      }
    }

    method Run() returns (dropped: nat)
      requires |signals| <= CAPACITY
      modifies this
      ensures signals == []
      ensures dropped + 2 * senders <= 2 * old(senders) + |old(signals)|
    {
      dropped := 0;
      while signals != []
        invariant |signals| <= CAPACITY
        invariant dropped + 2 * senders + |signals| <= 2 * old(senders) + |old(signals)|
        decreases 2 * senders + |signals|
      {
        signals := signals[1..];
        dropped := dropped + 1;
        Interfere();
      }
    }
  }
}
