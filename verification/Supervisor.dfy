/** One supervisor of the kernel: its loop over the watcher channel, `Kernel.Stop`, and the
    cancellation of the two contexts.

    The body of each mutex-protected section is one step, since everything that reads or
    writes `Working` holds the mutex.  Receiving an event and handling it are two steps:
    `Kernel.Stop` may run in between. */
module Supervisor {
  import opened Runs
  import opened ElectLoop

  datatype Exit =
    | NeverStarted                 // the context was cancelled before the goroutine began
    | KernelDone                   // ctx.Done() branch
    | Cleared(wasWorking: bool)    // supervisor.ctx.Done() branch
    | ChannelClosed

  datatype Loop = Unstarted | Waiting | Handling(event: int) | Clearing | Exited(exit: Exit)

  /** The callbacks the user supplies, as they are invoked. */
  datatype Call = StartCall | StopCall

  datatype Sup = Sup(loop: Loop, working: bool, calls: seq<Call>, kernelDone: bool, supervisorDone: bool)

  const FRESH_SUP := Sup(Unstarted, false, [], false, false)

  datatype SupAction =
    | BeginLoop
    | Receive(event: int)
    | Handle
    | SeeClosed
    | SeeKernelDone
    | SeeSupervisorDone
    | Clear
    | KernelStop
    | KernelCancel

  predicate SupEnabled(s: Sup, a: SupAction) {
    match a
    case BeginLoop => s.loop.Unstarted?
    case Receive(_) => s.loop.Waiting?
    case Handle => s.loop.Handling?
    case SeeClosed => s.loop.Waiting?
    case SeeKernelDone => s.loop.Waiting? && s.kernelDone
    case SeeSupervisorDone => s.loop.Waiting? && s.supervisorDone
    case Clear => s.loop.Clearing?
    case KernelStop => true
    case KernelCancel => true
  }

  function Stopped(s: Sup): Sup {
    if s.working then s.(working := false, calls := s.calls + [StopCall]) else s
  }

  function Started(s: Sup): Sup {
    if s.working then s else s.(working := true, calls := s.calls + [StartCall])
  }

  function OnEvent(s: Sup, event: int): Sup {
    if event == LOST_ACQUIRE then Stopped(s)
    else if event == TAKEN_ACQUIRE then Started(s)
    else s
  }

  function SupStep(s: Sup, a: SupAction): Sup {
    if !SupEnabled(s, a) then s else
    match a
    case BeginLoop => s.(loop := if s.kernelDone then Exited(NeverStarted) else Waiting)
    case Receive(event) => s.(loop := Handling(event))
    case Handle => OnEvent(s, s.loop.event).(loop := Waiting)
    case SeeClosed => s.(loop := Exited(ChannelClosed))
    case SeeKernelDone => s.(loop := Exited(KernelDone))
    case SeeSupervisorDone => s.(loop := Clearing)
    case Clear => s.(loop := Exited(Cleared(s.working)), working := false)
    case KernelStop => Stopped(s.(supervisorDone := true))
    // supervisor.ctx is a child of the kernel's context
    case KernelCancel => s.(kernelDone := true, supervisorDone := true)
  }

  predicate CallsAlternate(calls: seq<Call>) {
    forall i :: 0 <= i < |calls| ==> calls[i] == (if i % 2 == 0 then StartCall else StopCall)
  }

  /** The last Start has not been followed by a Stop. */
  predicate Unmatched(calls: seq<Call>) {
    calls != [] && calls[|calls| - 1] == StartCall
  }

  /** The loop left through the branch that clears `Working` without calling Stop. */
  predicate Leaked(s: Sup) {
    s.loop == Exited(Cleared(true))
  }

  predicate CallsTracked(s: Sup) {
    && CallsAlternate(s.calls)
    && (Unmatched(s.calls) <==> s.working || Leaked(s))
    && (Leaked(s) ==> !s.working)
    && (s.loop.Clearing? ==> s.supervisorDone)
    && (s.kernelDone ==> s.supervisorDone)
  }

  lemma CallsTrackedKept(s: Sup, a: SupAction)
    requires CallsTracked(s)
    ensures CallsTracked(SupStep(s, a))
  {
  }

  /** Whatever events arrive, duplicates included, and however cancellation and any number of
      `Kernel.Stop` calls interleave: Start and Stop strictly alternate from Start, and a Start
      is left unmatched exactly when `Working` holds or the loop ended in the clearing branch
      while it held. */
  lemma StartStopDiscipline(acts: seq<SupAction>)
    ensures var s := After(SupStep, FRESH_SUP, acts);
      CallsAlternate(s.calls) && (Unmatched(s.calls) <==> s.working || Leaked(s))
  {
    forall s, a | CallsTracked(s) ensures CallsTracked(SupStep(s, a)) {
      CallsTrackedKept(s, a);
    }
    Invariance(SupStep, CallsTracked, FRESH_SUP, acts);
  }

  // ---- who calls what ------------------------------------------------------------------------

  /** Start is called by the handling of a Taken only, when nothing works; Stop by the handling of
      a Lost and by `Kernel.Stop` only, when something does.  No exit of the loop makes a call. */
  lemma OnlyTheseCall(s: Sup, a: SupAction)
    ensures var t := SupStep(s, a);
      && (t.calls == s.calls || t.calls == s.calls + [StartCall] || t.calls == s.calls + [StopCall])
      && (t.calls == s.calls + [StartCall] <==> a.Handle? && s.loop == Handling(TAKEN_ACQUIRE) && !s.working)
      && (t.calls == s.calls + [StopCall] <==>
            s.working && ((a.Handle? && s.loop == Handling(LOST_ACQUIRE)) || a.KernelStop?))
      && (t.working && !s.working <==> t.calls == s.calls + [StartCall])
      && (s.working && !t.working <==> t.calls == s.calls + [StopCall] || (s.working && a.Clear? && s.loop.Clearing?))
  {
    assert (s.calls + [StartCall])[|s.calls|] == StartCall;
    assert (s.calls + [StopCall])[|s.calls|] == StopCall;
  }

  /** How the loop gets to an event and away from it, how it ends, and that it ends for good. */
  lemma OnlyTheseEnd(s: Sup, a: SupAction)
    ensures var t := SupStep(s, a);
      && (s.loop.Exited? ==> t.loop == s.loop)
      && (t.loop.Handling? && t.loop != s.loop <==> s.loop.Waiting? && a.Receive?)
      && (t.loop.Handling? && t.loop != s.loop ==> t.loop.event == a.event)
      && (s.loop.Handling? && t.loop != s.loop <==> s.loop.Handling? && a.Handle?)
      && (s.loop.Handling? && t.loop != s.loop ==> t.loop.Waiting?)
      && (t.loop.Clearing? && !s.loop.Clearing? <==> s.loop.Waiting? && a.SeeSupervisorDone? && s.supervisorDone)
      && (!s.loop.Exited? ==>
            && (t.loop == Exited(NeverStarted) <==> s.loop.Unstarted? && a.BeginLoop? && s.kernelDone)
            && (t.loop == Exited(KernelDone) <==> s.loop.Waiting? && a.SeeKernelDone? && s.kernelDone)
            && (t.loop == Exited(ChannelClosed) <==> s.loop.Waiting? && a.SeeClosed?)
            && (t.loop.Exited? && t.loop.exit.Cleared? <==> s.loop.Clearing? && a.Clear?)
            && (t.loop.Exited? && t.loop.exit.Cleared? ==> t.loop.exit.wasWorking == s.working))
      && (t.kernelDone <==> s.kernelDone || a.KernelCancel?)
      && (t.supervisorDone <==> s.supervisorDone || a.KernelCancel? || a.KernelStop?)
  {
  }

  /** A loop that left because the kernel's context was done, while it worked, leaves its Start
      unmatched and the flag set, for `Kernel.Stop` to find: whatever runs until then ... */
  lemma {:induction false} KernelDoneKeepsWork(s: Sup, acts: seq<SupAction>)
    requires s.loop.Exited? && s.working && KernelStop !in acts
    ensures var t := After(SupStep, s, acts); t.loop == s.loop && t.working && t.calls == s.calls
    decreases |acts|
  {
    if acts == [] {
    } else {
      var front, a := acts[..|acts| - 1], acts[|acts| - 1];
      KernelDoneKeepsWork(s, front);
      OnlyTheseCall(After(SupStep, s, front), a);
      OnlyTheseEnd(After(SupStep, s, front), a);
    }
  }

  /** ... and the first `Kernel.Stop` then adds exactly one Stop, the last call of all. */
  lemma KernelStopAfterKernelDone(s: Sup, acts: seq<SupAction>, more: seq<SupAction>)
    requires s.loop == Exited(KernelDone) && s.working && KernelStop !in acts
    ensures var t := SupStep(After(SupStep, s, acts), KernelStop);
      !t.working && t.calls == s.calls + [StopCall] && After(SupStep, t, more).calls == t.calls
  {
    KernelDoneKeepsWork(s, acts);
    DeafStaysQuiet(SupStep(After(SupStep, s, acts), KernelStop), more);
  }

  /** Such a state is what a cancelled context can leave behind. */
  lemma KernelDoneIsReachable()
    ensures exists s :: Reaches(SupStep, FRESH_SUP, s) && s.loop == Exited(KernelDone) && s.working
  {
    ReachesItself(SupStep, FRESH_SUP);
    var s := ReachesNext(SupStep, FRESH_SUP, FRESH_SUP, BeginLoop);
    s := ReachesNext(SupStep, FRESH_SUP, s, Receive(TAKEN_ACQUIRE));
    s := ReachesNext(SupStep, FRESH_SUP, s, Handle);
    s := ReachesNext(SupStep, FRESH_SUP, s, KernelCancel);
    s := ReachesNext(SupStep, FRESH_SUP, s, SeeKernelDone);
  }

  /** Once leaked, nothing stops the work: no later action, `Kernel.Stop` included, makes a call. */
  lemma {:induction false} LeakIsPermanent(s: Sup, acts: seq<SupAction>)
    requires Leaked(s) && !s.working
    ensures var t := After(SupStep, s, acts); Leaked(t) && !t.working && t.calls == s.calls
    decreases |acts|
  {
    if acts == [] {
    } else {
      LeakIsPermanent(s, acts[..|acts| - 1]);
    }
  }

  /** The leak is reachable: a signal cancels the kernel's context while the supervisor works,
      select takes the clearing branch, and the `Kernel.Stop` that follows finds nothing to stop. */
  lemma CancelCanLeakStart()
    ensures exists s ::
              Reaches(SupStep, FRESH_SUP, s) && Leaked(SupStep(s, KernelStop))
              && SupStep(s, KernelStop).calls == [StartCall]
  {
    ReachesItself(SupStep, FRESH_SUP);
    var s := ReachesNext(SupStep, FRESH_SUP, FRESH_SUP, BeginLoop);
    s := ReachesNext(SupStep, FRESH_SUP, s, Receive(TAKEN_ACQUIRE));
    s := ReachesNext(SupStep, FRESH_SUP, s, Handle);
    s := ReachesNext(SupStep, FRESH_SUP, s, KernelCancel);
    s := ReachesNext(SupStep, FRESH_SUP, s, SeeSupervisorDone);
    s := ReachesNext(SupStep, FRESH_SUP, s, Clear);
  }

  /** The loop takes no more events: it has left, is leaving, or will be dropped unstarted. */
  predicate Deaf(s: Sup) {
    s.loop.Exited? || s.loop.Clearing? || (s.loop.Unstarted? && s.kernelDone)
  }

  lemma {:induction false} DeafStaysQuiet(s: Sup, acts: seq<SupAction>)
    requires Deaf(s) && !s.working
    ensures var t := After(SupStep, s, acts); Deaf(t) && !t.working && t.calls == s.calls
    decreases |acts|
  {
    if acts == [] {
    } else {
      DeafStaysQuiet(s, acts[..|acts| - 1]);
    }
  }

  /** A stopped supervisor whose loop still listens can call Start. */
  lemma ListeningCanStart(s: Sup)
    requires !Deaf(s) && !s.working
    ensures exists t :: Reaches(SupStep, s, t) && t.calls == s.calls + [StartCall]
  {
    ReachesItself(SupStep, s);
    var t := s;
    if t.loop.Unstarted? {
      t := ReachesNext(SupStep, s, t, BeginLoop);
    }
    if t.loop.Handling? {
      t := ReachesNext(SupStep, s, t, Handle);
    }
    if !t.working {
      t := ReachesNext(SupStep, s, t, Receive(TAKEN_ACQUIRE));
      t := ReachesNext(SupStep, s, t, Handle);
    }
  }

  /** `Kernel.Stop` has the last word exactly when the loop takes no more events: neither the
      cancelled context nor the callback it makes keeps the select from the watcher, so from
      any other state a Start can still follow. */
  lemma KernelStopIsFinalExactly(s: Sup)
    ensures var t := SupStep(s, KernelStop);
      Deaf(t) <==> forall u :: Reaches(SupStep, t, u) ==> u.calls == t.calls
  {
    var t := SupStep(s, KernelStop);
    if Deaf(t) {
      forall u | Reaches(SupStep, t, u) ensures u.calls == t.calls {
        var acts :| After(SupStep, t, acts) == u;
        DeafStaysQuiet(t, acts);
      }
    } else {
      ListeningCanStart(t);
    }
  }

  /** From where a leak can still come about: the loop listens, or it is about to clear a
      `Working` that holds, or it has happened. */
  predicate CanLeak(s: Sup) {
    Leaked(s) || !Deaf(s) || (s.loop.Clearing? && s.working)
  }

  lemma {:induction false} NoLeakStays(s: Sup, acts: seq<SupAction>)
    requires !CanLeak(s)
    ensures !CanLeak(After(SupStep, s, acts))
    decreases |acts|
  {
    if acts == [] {
    } else {
      NoLeakStays(s, acts[..|acts| - 1]);
    }
  }

  lemma ListeningCanWork(s: Sup) returns (t: Sup)
    requires !Deaf(s)
    ensures Reaches(SupStep, s, t) && t.loop.Waiting? && t.working
  {
    ReachesItself(SupStep, s);
    t := s;
    if t.loop.Unstarted? {
      t := ReachesNext(SupStep, s, t, BeginLoop);
    }
    if t.loop.Handling? {
      t := ReachesNext(SupStep, s, t, Handle);
    }
    t := ReachesNext(SupStep, s, t, Receive(TAKEN_ACQUIRE));
    t := ReachesNext(SupStep, s, t, Handle);
  }

  /** The exact extent of the leak: it can be reached from a state exactly when `CanLeak`. */
  lemma LeakReachableExactly(s: Sup)
    ensures CanLeak(s) <==> exists t :: Reaches(SupStep, s, t) && Leaked(t)
  {
    if !CanLeak(s) {
      forall t | Reaches(SupStep, s, t) ensures !Leaked(t) {
        var acts :| After(SupStep, s, acts) == t;
        NoLeakStays(s, acts);
      }
    } else if Leaked(s) {
      ReachesItself(SupStep, s);
    } else if s.loop.Clearing? {
      ReachesItself(SupStep, s);
      var t := ReachesNext(SupStep, s, s, Clear);
    } else {
      var t := ListeningCanWork(s);
      t := ReachesNext(SupStep, s, t, KernelCancel);
      t := ReachesNext(SupStep, s, t, SeeSupervisorDone);
      t := ReachesNext(SupStep, s, t, Clear);
    }
  }

  /** Such a late Start is leaked when the loop then takes the clearing branch. */
  lemma StartAfterKernelStop()
    ensures exists s, t ::
              && Reaches(SupStep, FRESH_SUP, s) && SupStep(s, KernelStop).calls == []
              && Reaches(SupStep, SupStep(s, KernelStop), t) && t.calls == [StartCall] && Leaked(t)
  {
    ReachesItself(SupStep, FRESH_SUP);
    var s := ReachesNext(SupStep, FRESH_SUP, FRESH_SUP, BeginLoop);
    var stopped := SupStep(s, KernelStop);
    ReachesItself(SupStep, stopped);
    var t := ReachesNext(SupStep, stopped, stopped, Receive(TAKEN_ACQUIRE));
    t := ReachesNext(SupStep, stopped, t, Handle);
    t := ReachesNext(SupStep, stopped, t, SeeSupervisorDone);
    t := ReachesNext(SupStep, stopped, t, Clear);
  }

  /** The supervisor as it is written: the three mutex-protected sections over its fields. */
  class LeaderSupervisor {
    var Working: bool
    var cancelled: bool
    var calls: seq<Call>

    ghost predicate Models(s: Sup)
      reads this
    {
      s.working == Working && s.calls == calls && s.supervisorDone == cancelled
    }

    constructor ()
      ensures Models(FRESH_SUP)
    {
      Working, cancelled, calls := false, false, [];
    }

    method OnWatcher(res: int, ghost s: Sup) returns (ghost t: Sup)
      requires Models(s) && s.loop == Handling(res)
      modifies this`Working, this`calls
      ensures t == SupStep(s, Handle) && Models(t)
      ensures calls == old(calls) + if res == TAKEN_ACQUIRE && !old(Working) then [StartCall]
                                    else if res == LOST_ACQUIRE && old(Working) then [StopCall] else []
      ensures res != LOST_ACQUIRE && res != TAKEN_ACQUIRE ==> Working == old(Working)
      ensures res == LOST_ACQUIRE ==> !Working
      ensures res == TAKEN_ACQUIRE ==> Working
    {
      t := SupStep(s, Handle);
      if res == LOST_ACQUIRE {
        if Working {
          calls := calls + [StopCall];
          Working := false;
        }
      }
      if res == TAKEN_ACQUIRE {
        if !Working {
          calls := calls + [StartCall];
          Working := true;
        }
      }
    }

    method OnSupervisorDone(ghost s: Sup) returns (ghost t: Sup)
      requires Models(s) && s.loop.Clearing?
      modifies this`Working
      ensures t == SupStep(s, Clear) && Models(t) && !Working
    {
      t := SupStep(s, Clear);
      Working := false;
    }

    /** The body of the loop in `Kernel.Stop`. */
    method Stop(ghost s: Sup) returns (ghost t: Sup)
      requires Models(s)
      modifies this
      ensures t == SupStep(s, KernelStop) && Models(t)
      ensures cancelled && !Working
      ensures calls == old(calls) + if old(Working) then [StopCall] else []
    {
      t := SupStep(s, KernelStop);
      cancelled := true;
      if Working {
        calls := calls + [StopCall];
        Working := false;
      }
    }
  }
}
