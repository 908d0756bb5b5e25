/** The goroutine behind `Elect`: one candidate's belief and its event channel.

    The machine below cuts the goroutine at the points where it can be overtaken: a locker
    call under way, a send under way, the outer select.  Which ready branch a select takes,
    what a call returns and when the context is cancelled are chosen by the action. */
module ElectLoop {
  import opened RedisLock
  import opened Runs

  const LOST_ACQUIRE := 1
  const TAKEN_ACQUIRE := 2
  const CAPACITY := 8

  datatype Phase =
    | Boot                              // spawned, the wrapper has not checked the context yet
    | Calling(op: Op)                   // inside a locker call
    | Sending(event: int, last: bool)   // inside send; `last`: the goroutine returns after it
    | Idle                              // at the outer select
    | Returned                          // the channel is closed
    | Dropped                           // cancelled before start: the body never ran

  datatype Elector = Elector(phase: Phase, isLeader: bool, cancelled: bool, watcher: seq<int>)

  const FRESH_ELECTOR := Elector(Boot, false, false, [])

  datatype ElectAction =
    | Begin           // the wrapper's check, then the immediate Lock
    | Reply(ok: bool) // the call returns; an error reads as not ok
    | Push            // send: the channel branch
    | Skip            // send: the cancelled branch
    | Tick            // outer select: the ticker branch
    | Done            // outer select: the cancelled branch
    | Cancel

  predicate Enabled(e: Elector, a: ElectAction) {
    match a
    case Begin => e.phase.Boot?
    case Reply(_) => e.phase.Calling?
    case Push => e.phase.Sending? && |e.watcher| < CAPACITY
    case Skip => e.phase.Sending? && e.cancelled
    case Tick => e.phase.Idle?
    case Done => e.phase.Idle? && e.cancelled
    case Cancel => true
  }

  function OnReply(e: Elector, ok: bool): Elector
    requires e.phase.Calling?
  {
    match e.phase.op
    case LockOp =>
      if ok then e.(isLeader := true, phase := Sending(TAKEN_ACQUIRE, false)) else e.(phase := Idle)
    case ExtendOp =>
      if ok then e.(phase := Idle) else e.(isLeader := false, phase := Sending(LOST_ACQUIRE, false))
    case UnlockOp =>
      e.(isLeader := false, phase := Sending(LOST_ACQUIRE, true))
  }

  function AfterSend(p: Phase): Phase
    requires p.Sending?
  {
    if p.last then Returned else Idle
  }

  function Step(e: Elector, a: ElectAction): Elector {
    if !Enabled(e, a) then e else
    match a
    case Begin => e.(phase := if e.cancelled then Dropped else Calling(LockOp))
    case Reply(ok) => OnReply(e, ok)
    case Push => e.(phase := AfterSend(e.phase), watcher := e.watcher + [e.phase.event])
    case Skip => e.(phase := AfterSend(e.phase))
    case Tick => e.(phase := Calling(if e.isLeader then ExtendOp else LockOp))
    case Done => if e.isLeader then e.(phase := Calling(UnlockOp)) else e
    case Cancel => e.(cancelled := true)
  }

  /** Belief and control agree: only a non-leader calls Lock, only a leader renews or releases,
      the event being sent announces the belief, and a release ends the goroutine. */
  predicate Consistent(e: Elector) {
    && (e.phase.Boot? || e.phase.Dropped? || e.phase.Returned? ==> !e.isLeader)
    && (e.phase.Calling? ==> (e.isLeader <==> e.phase.op != LockOp))
    && (e.phase.Calling? && e.phase.op == UnlockOp ==> e.cancelled)
    && (e.phase.Sending? ==> e.phase.event == (if e.isLeader then TAKEN_ACQUIRE else LOST_ACQUIRE))
    && (e.phase.Sending? && e.phase.last ==> !e.isLeader && e.cancelled)
    && (e.phase.Returned? ==> e.cancelled)
    && |e.watcher| <= CAPACITY
  }

  lemma ConsistentKept(e: Elector, a: ElectAction)
    requires Consistent(e)
    ensures Consistent(Step(e, a))
  {
  }

  /** In every run the channel holds at most eight events and is closed only after a
      cancellation, by a goroutine that has given its belief up. */
  lemma ConsistentAlways(acts: seq<ElectAction>)
    ensures Consistent(After(Step, FRESH_ELECTOR, acts))
  {
    Invariance(Step, Consistent, FRESH_ELECTOR, acts);
  }

  /** A cancelled candidate without belief, at the select or in a Lock call. */
  predicate Adrift(e: Elector) {
    e.cancelled && !e.isLeader && (e.phase.Idle? || e.phase == Calling(LockOp))
  }

  lemma {:induction false} AdriftStays(e: Elector, acts: seq<ElectAction>)
    requires Adrift(e) && Reply(true) !in acts
    ensures Adrift(After(Step, e, acts))
    decreases |acts|
  {
    if acts == [] {
    } else {
      AdriftStays(e, acts[..|acts| - 1]);
    }
  }

  /** Cancellation alone ends the goroutine of a leader only.  At the select, cancelled: a run
      without a further successful call returns, closing the channel, exactly when the candidate
      believes.  A follower ticks, calls Lock and spins in the cancelled branch for ever. */
  lemma CancelledReturnsExactly(e: Elector)
    requires e.cancelled && e.phase.Idle?
    ensures e.isLeader <==> exists acts :: Reply(true) !in acts && After(Step, e, acts).phase.Returned?
  {
    if e.isLeader {
      var acts := [Done, Reply(false), Skip];
      ThreeSteps(Step, e, Done, Reply(false), Skip);
      assert Reply(true) !in acts && After(Step, e, acts).phase.Returned?;
    } else {
      forall acts | Reply(true) !in acts ensures !After(Step, e, acts).phase.Returned? {
        AdriftStays(e, acts);
      }
    }
  }

  /** A goroutine cancelled before its start never runs its body: no call, no event, no belief. */
  lemma {:induction false} DroppedNeverRuns(e: Elector, acts: seq<ElectAction>)
    requires e.cancelled && (e.phase.Boot? || e.phase.Dropped?)
    ensures var f := After(Step, e, acts);
      f.cancelled && (f.phase.Boot? || f.phase.Dropped?) && f.isLeader == e.isLeader && f.watcher == e.watcher
    decreases |acts|
  {
    if acts == [] {
    } else {
      DroppedNeverRuns(e, acts[..|acts| - 1]);
    }
  }

  // ---- the goroutine as it is written --------------------------------------------------------

  /** What a send does now: the cancelled branch if it is ready and preferred, or the only one
      ready; a push if there is room; nothing - the send blocks - otherwise. */
  function SendNow(cancelled: bool, watcher: seq<int>, preferDone: bool): seq<ElectAction> {
    if cancelled && (preferDone || |watcher| >= CAPACITY) then [Skip]
    else if |watcher| < CAPACITY then [Push]
    else []
  }

  /** A call with its reply, and the send when the belief changes. */
  function Pass(e: Elector, a: ElectAction, ok: bool, preferDone: bool): seq<ElectAction> {
    [a, Reply(ok)] + if e.isLeader == ok then [] else SendNow(e.cancelled, e.watcher, preferDone)
  }

  lemma PassRuns(e: Elector, a: ElectAction, ok: bool, preferDone: bool)
    ensures After(Step, e, Pass(e, a, ok, preferDone)) ==
      var f := Step(Step(e, a), Reply(ok));
      if e.isLeader == ok || SendNow(e.cancelled, e.watcher, preferDone) == [] then f
      else Step(f, SendNow(e.cancelled, e.watcher, preferDone)[0])
  {
    TwoSteps(Step, e, a, Reply(ok));
    if e.isLeader == ok || SendNow(e.cancelled, e.watcher, preferDone) == [] {
      assert Pass(e, a, ok, preferDone) == [a, Reply(ok)];
    } else {
      var send := SendNow(e.cancelled, e.watcher, preferDone)[0];
      assert Pass(e, a, ok, preferDone) == [a, Reply(ok), send];
      ThreeSteps(Step, e, a, Reply(ok), send);
    }
  }

  /** One method per branch of the outer select, `send` where the source calls it.  Each method
      is the run of the machine through that branch, up to a send that blocks. */
  class Goroutine {
    var phase: Phase
    var isLeader: bool
    var cancelled: bool
    var watcher: seq<int>

    function State(): Elector
      reads this
    {
      Elector(phase, isLeader, cancelled, watcher)
    }

    /** Spawned, perhaps with a context that is already cancelled. */
    constructor (cancelled: bool)
      ensures State() == FRESH_ELECTOR.(cancelled := cancelled)
    {
      phase, isLeader, watcher := Boot, false, [];
      this.cancelled := cancelled;
    }

    method Stop()
      modifies this`cancelled
      ensures State() == Step(old(State()), Cancel)
    {
      cancelled := true;
    }

    method Send(event: int, last: bool, preferDone: bool)
      modifies this`watcher, this`phase
      ensures var now := SendNow(cancelled, old(watcher), preferDone);
        State() == if now == [] then old(State()).(phase := Sending(event, last))
                   else Step(old(State()).(phase := Sending(event, last)), now[0])
      ensures |old(watcher)| < 8 && (!cancelled || !preferDone) ==>
                watcher == old(watcher) + [event] && phase == if last then Returned else Idle
      ensures |old(watcher)| >= 8 && !cancelled ==>
                watcher == old(watcher) && phase == Sending(event, last)
      ensures cancelled && (preferDone || |old(watcher)| >= 8) ==>
                watcher == old(watcher) && phase == if last then Returned else Idle
    {
      phase := Sending(event, last);
      if cancelled && (preferDone || |watcher| >= CAPACITY) {
        phase := if last then Returned else Idle;
      } else if |watcher| < CAPACITY {
        watcher := watcher + [event];
        phase := if last then Returned else Idle;
      }
    }

    /** The wrapper's check and the immediate Lock; a cancelled context drops the goroutine. */
    method Run(ok: bool, preferDone: bool)
      requires phase.Boot? && !isLeader
      modifies this`phase, this`isLeader, this`watcher
      ensures cancelled ==> State() == Step(old(State()), Begin)
      ensures !cancelled ==> State() == After(Step, old(State()), Pass(old(State()), Begin, ok, preferDone))
      ensures !cancelled ==> Step(old(State()), Begin).phase == Calling(LockOp)
      ensures isLeader <==> ok && !cancelled
      ensures cancelled ==> phase.Dropped? && watcher == old(watcher)
      ensures !cancelled && !ok ==> phase.Idle? && watcher == old(watcher)
      ensures !cancelled && ok && |old(watcher)| < 8 ==> phase.Idle? && watcher == old(watcher) + [TAKEN_ACQUIRE]
      ensures !cancelled && ok && |old(watcher)| >= 8 ==>
                phase == Sending(TAKEN_ACQUIRE, false) && watcher == old(watcher)
    {
      PassRuns(State(), Begin, ok, preferDone);
      if cancelled {
        phase := Dropped;
        return;
      }
      phase := Idle;
      if ok {
        isLeader := true;
        Send(TAKEN_ACQUIRE, false, preferDone);
      }
    }

    method OnTick(ok: bool, preferDone: bool)
      requires phase.Idle?
      modifies this`phase, this`isLeader, this`watcher
      ensures State() == After(Step, old(State()), Pass(old(State()), Tick, ok, preferDone))
      ensures Step(old(State()), Tick).phase == Calling(if old(isLeader) then ExtendOp else LockOp)
      ensures isLeader == ok
      ensures ok == old(isLeader) ==> phase.Idle? && watcher == old(watcher)
      ensures ok != old(isLeader) && |old(watcher)| < 8 && (!cancelled || !preferDone) ==>
                phase.Idle? && watcher == old(watcher) + [if ok then 2 else 1]
      ensures ok != old(isLeader) && |old(watcher)| >= 8 && !cancelled ==>
                watcher == old(watcher) && phase == Sending(if ok then TAKEN_ACQUIRE else LOST_ACQUIRE, false)
      ensures ok != old(isLeader) && cancelled && (preferDone || |old(watcher)| >= 8) ==>
                phase.Idle? && watcher == old(watcher)
    {
      PassRuns(State(), Tick, ok, preferDone);
      if !isLeader {
        if ok {
          isLeader := true;
          Send(TAKEN_ACQUIRE, false, preferDone);
        }
        return;
      }
      if !ok {
        isLeader := false;
        Send(LOST_ACQUIRE, false, preferDone);
      }
    }

    method OnDone(preferDone: bool)
      requires phase.Idle? && cancelled
      modifies this`phase, this`isLeader, this`watcher
      ensures old(isLeader) ==> State() == After(Step, old(State()), Pass(old(State()), Done, false, preferDone))
      ensures !old(isLeader) ==> State() == old(State())
      ensures old(isLeader) ==> Step(old(State()), Done).phase == Calling(UnlockOp)
      ensures !isLeader && phase == if old(isLeader) then Returned else Idle
      ensures watcher == old(watcher) + if old(isLeader) && !preferDone && |old(watcher)| < 8 then [LOST_ACQUIRE] else []
    {
      PassRuns(State(), Done, false, preferDone);
      if isLeader {
        isLeader := false;
        Send(LOST_ACQUIRE, true, preferDone);
      }
    }

    /** A blocked send looks again, after a receive or a cancellation. */
    method Resume(preferDone: bool)
      requires phase.Sending?
      modifies this`phase, this`watcher
      ensures State() == After(Step, old(State()), SendNow(cancelled, old(watcher), preferDone))
      ensures |old(watcher)| < 8 && (!cancelled || !preferDone) ==>
                && watcher == old(watcher) + [old(phase).event]
                && phase == if old(phase).last then Returned else Idle
      ensures |old(watcher)| >= 8 && !cancelled ==> watcher == old(watcher) && phase == old(phase)
      ensures cancelled && (preferDone || |old(watcher)| >= 8) ==>
                watcher == old(watcher) && phase == if old(phase).last then Returned else Idle
    {
      ghost var now := SendNow(cancelled, watcher, preferDone);
      if now != [] {
        TwoSteps(Step, State(), now[0], now[0]);
      }
      Send(phase.event, phase.last, preferDone);
    }
  }
}
