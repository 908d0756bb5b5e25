/** The job scheduler: per-job run loops over a shared counting semaphore, with restart.

    Start and Stop are called one after the other (the supervisor's mutex does that); jobs, ticks,
    cancellation and `Add` interleave with them freely.  `control` is where the caller of Start
    or Stop stands; the section of Stop under the scheduler's lock is one step. */
module Scheduler {
  import opened Basics
  import opened Runs

  type Name = string

  /** A run-loop goroutine: not begun, at its select, or inside `exec`, whose two deferred
      functions run last in, first out: the recovery, then the release. */
  datatype Pc = Spawned | AtSelect | Acquiring | Acquired | InFunction | Recovering(panicking: bool) | Releasing

  /** Start sets the context, its cancel function and the ticker together. */
  datatype Ctx = Unset | Active | Cancelled

  /** `tick`: the ticker's channel holds a tick.  `dropped`: goroutines whose wrapper found the
      parent cancelled and returned without running the loop. */
  datatype Job = Job(ctx: Ctx, tickerOn: bool, tick: bool, wg: int, loops: seq<Pc>, dropped: nat)

  const NEW_JOB := Job(Unset, false, false, 0, [], 0)

  datatype Control = Free | Starting(todo: set<Name>) | Stopping(todo: set<Name>)

  datatype Sched = Sched(started: bool, jobs: map<Name, Job>, rate: nat, tokens: int, parentDone: bool,
                         control: Control, panicked: bool)

  function NewSched(rate: int): Sched {
    Sched(false, map[], if rate <= 0 then 1 else rate, 0, false, Free, false)
  }

  datatype LoopAction =
    | Begin           // the wrapper: run the loop, or drop it if the parent is cancelled
    | SeeDone         // the loop returns
    | TakeTick        // the loop calls exec
    | GiveUp          // exec: cancelled before a token was free
    | TakeToken
    | LateCancel      // exec: cancelled between the token and the function
    | EnterFunction
    | LeaveFunction(panicking: bool)   // the function returns or panics
    | RecoverPanic    // the second deferred function
    | Release         // the first deferred function

  datatype Action =
    | Add(name: Name)
    | StartCall(parentDone: bool)
    | Launch(name: Name)
    | StartReturn
    | StopCall
    | Await(name: Name)
    | StopReturn
    | CancelParent
    | Fire(name: Name)
    | Loop(name: Name, i: nat, a: LoopAction)

  predicate LoopEnabled(s: Sched, j: Job, i: nat, a: LoopAction) {
    i < |j.loops| &&
    var pc, done := j.loops[i], j.ctx == Cancelled;
    match a
    case Begin => pc == Spawned
    case SeeDone => pc == AtSelect && done
    case TakeTick => pc == AtSelect && j.tick
    case GiveUp => pc == Acquiring && done
    case TakeToken => pc == Acquiring && s.tokens < s.rate
    case LateCancel => pc == Acquired && done
    case EnterFunction => pc == Acquired && !done
    case LeaveFunction(_) => pc == InFunction
    case RecoverPanic => pc.Recovering?
    case Release => pc == Releasing
  }

  function Without(loops: seq<Pc>, i: nat): seq<Pc>
    requires i < |loops|
  {
    loops[..i] + loops[i + 1..]
  }

  function LoopStep(j: Job, i: nat, a: LoopAction, parentDone: bool): Job
    requires i < |j.loops|
  {
    match a
    case Begin =>
      if parentDone then j.(loops := Without(j.loops, i), dropped := j.dropped + 1)
      else j.(loops := j.loops[i := AtSelect])
    case SeeDone => j.(loops := Without(j.loops, i), wg := j.wg - 1)
    case TakeTick => j.(loops := j.loops[i := Acquiring], tick := false)
    case GiveUp => j.(loops := j.loops[i := AtSelect])
    case TakeToken => j.(loops := j.loops[i := Acquired])
    case LateCancel => j.(loops := j.loops[i := Recovering(false)])
    case EnterFunction => j.(loops := j.loops[i := InFunction])
    case LeaveFunction(panicking) => j.(loops := j.loops[i := Recovering(panicking)])
    case RecoverPanic => j.(loops := j.loops[i := Releasing])
    case Release => j.(loops := j.loops[i := AtSelect])
  }

  function TokenDelta(a: LoopAction): int {
    if a.TakeToken? then 1 else if a.Release? then -1 else 0
  }

  function Launched(j: Job, parentDone: bool): Job {
    Job(if parentDone then Cancelled else Active, true, false, j.wg + 1, j.loops + [Spawned], j.dropped)
  }

  function CancelledJob(j: Job): Job {
    j.(ctx := Cancelled, tickerOn := false)
  }

  function Step(s: Sched, a: Action): Sched {
    match a
    case Add(n) =>
      if s.started || n in s.jobs then s else s.(jobs := s.jobs[n := NEW_JOB])
    case StartCall(parentDone) =>
      if !s.control.Free? || s.started then s
      else s.(started := true, parentDone := parentDone, control := Starting(s.jobs.Keys))
    case Launch(n) =>
      if s.control.Starting? && n in s.control.todo && n in s.jobs
      then s.(jobs := s.jobs[n := Launched(s.jobs[n], s.parentDone)], control := Starting(s.control.todo - {n}))
      else s
    case StartReturn => if s.control == Starting({}) then s.(control := Free) else s
    case StopCall =>
      if !s.control.Free? || !s.started then s
      else if exists n :: n in s.jobs && s.jobs[n].ctx.Unset? then s.(panicked := true)
      else s.(started := false, jobs := map n | n in s.jobs :: CancelledJob(s.jobs[n]),
              control := Stopping(s.jobs.Keys))
    case Await(n) =>
      if s.control.Stopping? && n in s.control.todo && n in s.jobs && s.jobs[n].wg == 0
      then s.(control := Stopping(s.control.todo - {n}))
      else s
    case StopReturn => if s.control == Stopping({}) then s.(control := Free) else s
    case CancelParent =>
      s.(parentDone := true,
         jobs := map n | n in s.jobs :: if s.jobs[n].ctx.Active? then s.jobs[n].(ctx := Cancelled) else s.jobs[n])
    case Fire(n) =>
      if n in s.jobs && s.jobs[n].tickerOn then s.(jobs := s.jobs[n := s.jobs[n].(tick := true)]) else s
    case Loop(n, i, l) =>
      if n in s.jobs && LoopEnabled(s, s.jobs[n], i, l)
      then s.(jobs := s.jobs[n := LoopStep(s.jobs[n], i, l, s.parentDone)], tokens := s.tokens + TokenDelta(l))
      else s
  }

  // ---- what every step keeps -----------------------------------------------------------------

  /** Some loop of the job is between its token and the release of it. */
  predicate Holds(j: Job) {
    || Acquired in j.loops || InFunction in j.loops || Releasing in j.loops
    || Recovering(true) in j.loops || Recovering(false) in j.loops
  }

  predicate Executing(j: Job) {
    InFunction in j.loops
  }

  function Holders(jobs: map<Name, Job>): set<Name> {
    set n | n in jobs && Holds(jobs[n])
  }

  function Executors(jobs: map<Name, Job>): set<Name> {
    set n | n in jobs && Executing(jobs[n])
  }

  /** One goroutine at most, counted by the wait group until it is done; a dropped one is counted
      for ever. */
  predicate Counted(j: Job) {
    && j.wg == |j.loops| + j.dropped && j.wg <= 1
    && (j.wg > 0 ==> !j.ctx.Unset?)
  }

  predicate Quiet(j: Job) {
    j.wg == 0 && !j.ctx.Active?
  }

  /** Launched and not stopped: its ticker runs, and unless the parent is cancelled so does its loop. */
  predicate Started(s: Sched, j: Job) {
    && !j.ctx.Unset? && j.tickerOn
    && (!s.parentDone ==> j.ctx.Active? && |j.loops| == 1)
  }

  predicate InPhase(s: Sched, n: Name)
    requires n in s.jobs
  {
    var j := s.jobs[n];
    match s.control
    case Free => if s.started then Started(s, j) else Quiet(j)
    case Starting(todo) => if n in todo then Quiet(j) else Started(s, j)
    case Stopping(todo) => if n in todo then j.ctx.Cancelled? && !j.tickerOn else Quiet(j)
  }

  predicate JobOk(s: Sched, n: Name)
    requires n in s.jobs
  {
    && Counted(s.jobs[n]) && InPhase(s, n)
    && (s.parentDone ==> !s.jobs[n].ctx.Active?)
    && (s.jobs[n].dropped > 0 ==> s.parentDone)
  }

  ghost predicate Inv(s: Sched) {
    && (forall n :: n in s.jobs ==> JobOk(s, n))
    && (!s.control.Free? ==> s.control.todo <= s.jobs.Keys && (s.started <==> s.control.Starting?))
    && s.tokens == |Holders(s.jobs)| && s.tokens <= s.rate
    && !s.panicked
  }

  /** A step of a loop, seen from its own job. */
  lemma LoopMoves(s: Sched, j: Job, i: nat, a: LoopAction)
    requires Counted(j) && LoopEnabled(s, j, i, a)
    ensures var j' := LoopStep(j, i, a, s.parentDone);
      && j.wg == 1 && Counted(j') && j'.ctx == j.ctx && j'.tickerOn == j.tickerOn
      && One(Holds(j')) == One(Holds(j)) + TokenDelta(a)
  {
    var j' := LoopStep(j, i, a, s.parentDone);
    assert i == 0 && j.loops == [j.loops[0]];
    assert j'.loops == [] || j'.loops == [j'.loops[0]];
  }

  lemma InvLoop(s: Sched, n: Name, i: nat, a: LoopAction)
    requires Inv(s) && n in s.jobs && LoopEnabled(s, s.jobs[n], i, a)
    ensures Inv(Step(s, Loop(n, i, a)))
  {
    var s' := Step(s, Loop(n, i, a));
    assert JobOk(s, n);
    LoopMoves(s, s.jobs[n], i, a);
    forall m | m in s'.jobs ensures JobOk(s', m) {
      assert JobOk(s, m);
    }
    HoldersMove(s.jobs, n, s'.jobs[n]);
  }

  function One(b: bool): int {
    if b then 1 else 0
  }

  /** Holders after one job has changed. */
  lemma HoldersMove(jobs: map<Name, Job>, n: Name, j: Job)
    requires n in jobs
    ensures |Holders(jobs[n := j])| == |Holders(jobs)| - One(Holds(jobs[n])) + One(Holds(j))
  {
    var rest := Holders(jobs) - {n};
    assert Holders(jobs[n := j]) == if Holds(j) then rest + {n} else rest;
    assert n in Holders(jobs) <==> Holds(jobs[n]);
  }

  lemma InvLaunch(s: Sched, n: Name)
    requires Inv(s) && s.control.Starting? && n in s.control.todo && n in s.jobs
    ensures Inv(Step(s, Launch(n)))
  {
    var s' := Step(s, Launch(n));
    assert JobOk(s, n);
    assert s.jobs[n].loops == [] && s'.jobs[n].loops == [Spawned];
    forall m | m in s'.jobs ensures JobOk(s', m) {
      assert JobOk(s, m);
    }
    HoldersMove(s.jobs, n, s'.jobs[n]);
  }

  lemma InvStop(s: Sched)
    requires Inv(s)
    ensures Inv(Step(s, StopCall))
  {
    var s' := Step(s, StopCall);
    forall m | m in s.jobs ensures JobOk(s, m) {
    }
    assert s.control.Free? && s.started ==> forall m :: m in s.jobs ==> !s.jobs[m].ctx.Unset?;
    forall m | m in s'.jobs ensures JobOk(s', m) {
      assert JobOk(s, m);
    }
    assert Holders(s'.jobs) == Holders(s.jobs);
  }

  /** The steps that change only where the caller stands. */
  lemma InvControl(s: Sched, a: Action)
    requires Inv(s) && (a.StartCall? || a.StartReturn? || a.Await? || a.StopReturn?)
    ensures Inv(Step(s, a))
  {
    var s' := Step(s, a);
    assert s'.jobs == s.jobs;
    forall m | m in s'.jobs ensures JobOk(s', m) {
      assert JobOk(s, m);
    }
  }

  lemma InvAdd(s: Sched, n: Name)
    requires Inv(s)
    ensures Inv(Step(s, Add(n)))
  {
    var s' := Step(s, Add(n));
    forall m | m in s'.jobs ensures JobOk(s', m) {
      assert m in s.jobs ==> JobOk(s, m);
    }
    assert Holders(s'.jobs) == Holders(s.jobs);
  }

  lemma InvCancelParent(s: Sched)
    requires Inv(s)
    ensures Inv(Step(s, CancelParent))
  {
    var s' := Step(s, CancelParent);
    forall m | m in s'.jobs ensures JobOk(s', m) {
      assert JobOk(s, m);
    }
    assert Holders(s'.jobs) == Holders(s.jobs);
  }

  lemma InvFire(s: Sched, n: Name)
    requires Inv(s)
    ensures Inv(Step(s, Fire(n)))
  {
    var s' := Step(s, Fire(n));
    forall m | m in s'.jobs ensures JobOk(s', m) {
      assert JobOk(s, m);
    }
    assert Holders(s'.jobs) == Holders(s.jobs);
  }

  lemma InvKept(s: Sched, a: Action)
    requires Inv(s)
    ensures Inv(Step(s, a))
  {
    match a
    case Loop(n, i, l) =>
      if n in s.jobs && LoopEnabled(s, s.jobs[n], i, l) {
        InvLoop(s, n, i, l);
      }
    case Launch(n) =>
      if s.control.Starting? && n in s.control.todo && n in s.jobs {
        InvLaunch(s, n);
      }
    case StopCall => InvStop(s);
    case Add(n) => InvAdd(s, n);
    case CancelParent => InvCancelParent(s);
    case Fire(n) => InvFire(s, n);
    case _ => InvControl(s, a);
  }

  lemma InvAlways(rate: int, acts: seq<Action>)
    ensures Inv(After(Step, NewSched(rate), acts))
  {
    forall s, a | Inv(s) ensures Inv(Step(s, a)) {
      InvKept(s, a);
    }
    Invariance(Step, Inv, NewSched(rate), acts);
  }

  /** In every run, restarts included: a job has at most one run loop, and its wait group counts
      that loop or a goroutine that was dropped before it began. */
  lemma OneLoopPerJob(rate: int, acts: seq<Action>, n: Name)
    ensures var s := After(Step, NewSched(rate), acts);
      n in s.jobs ==> |s.jobs[n].loops| <= 1 && s.jobs[n].wg == |s.jobs[n].loops| + s.jobs[n].dropped
  {
    InvAlways(rate, acts);
    var s := After(Step, NewSched(rate), acts);
    assert n in s.jobs ==> JobOk(s, n);
  }

  /** Between a Stop that has returned and the next Start nothing runs: no loop, no function. */
  lemma StopLeavesNothingRunning(rate: int, acts: seq<Action>, n: Name)
    ensures var s := After(Step, NewSched(rate), acts);
      !s.started && (s.control.Free? || s.control == Stopping({})) && n in s.jobs
      ==> s.jobs[n].loops == [] && s.jobs[n].dropped == 0 && s.tokens == 0
  {
    InvAlways(rate, acts);
    var s := After(Step, NewSched(rate), acts);
    if !s.started && (s.control.Free? || s.control == Stopping({})) {
      forall m | m in s.jobs ensures s.jobs[m].loops == [] {
        assert JobOk(s, m);
      }
      assert Holders(s.jobs) == {};
      assert n in s.jobs ==> JobOk(s, n);
    }
  }

  /** Stop never meets a job without a cancel function: while the scheduler is started and Start
      has returned every job has one, also a job added between a Stop and a restart. */
  lemma StopNeverPanics(rate: int, acts: seq<Action>)
    ensures var s := After(Step, NewSched(rate), acts);
      && !s.panicked
      && (s.started && s.control.Free? ==> forall n :: n in s.jobs ==> !s.jobs[n].ctx.Unset?)
  {
    InvAlways(rate, acts);
    var s := After(Step, NewSched(rate), acts);
    if s.started && s.control.Free? {
      forall n | n in s.jobs ensures !s.jobs[n].ctx.Unset? {
        assert JobOk(s, n);
      }
    }
  }

  lemma RateFixed(rate: int, acts: seq<Action>)
    ensures After(Step, NewSched(rate), acts).rate == if rate <= 0 then 1 else rate
  {
    Invariance(Step, (s: Sched) => s.rate == NewSched(rate).rate, NewSched(rate), acts);
  }

  lemma SubsetCount(a: set<Name>, b: set<Name>)
    requires a <= b
    ensures |a| <= |b|
  {
    assert b == a + (b - a);
  }

  /** The functions that execute are at most the tokens taken, which are at most max(rate, 1);
      every token belongs to an exec in progress, so with none in progress none is taken. */
  lemma SemaphoreBalanced(rate: int, acts: seq<Action>)
    ensures var s := After(Step, NewSched(rate), acts);
      && |Executors(s.jobs)| <= s.tokens <= (if rate <= 0 then 1 else rate)
      && s.tokens == |Holders(s.jobs)|
  {
    InvAlways(rate, acts);
    RateFixed(rate, acts);
    var s := After(Step, NewSched(rate), acts);
    SubsetCount(Executors(s.jobs), Holders(s.jobs));
  }

  /** The action is an enabled step of job `n`'s own loop. */
  predicate Own(s: Sched, a: Action, n: Name) {
    a.Loop? && a.name == n && n in s.jobs && LoopEnabled(s, s.jobs[n], a.i, a.a)
  }

  /** The action is a step of job `n` that takes, or releases, a token. */
  predicate Takes(s: Sched, a: Action, n: Name) {
    Own(s, a, n) && a.a.TakeToken?
  }

  predicate Releases(s: Sched, a: Action, n: Name) {
    Own(s, a, n) && a.a.Release?
  }

  /** How often job `n` took a token in a run, less how often it released one. */
  function Balance(s: Sched, acts: seq<Action>, n: Name): int {
    if acts == [] then 0
    else
      var front, a := acts[..|acts| - 1], acts[|acts| - 1];
      var t := After(Step, s, front);
      Balance(s, front, n) + One(Takes(t, a, n)) - One(Releases(t, a, n))
  }

  predicate HoldsNow(s: Sched, n: Name) {
    n in s.jobs && Holds(s.jobs[n])
  }

  lemma BalanceOwn(s: Sched, a: Action, n: Name)
    requires n in s.jobs && Counted(s.jobs[n]) && Own(s, a, n)
    ensures One(HoldsNow(Step(s, a), n)) == One(HoldsNow(s, n)) + One(Takes(s, a, n)) - One(Releases(s, a, n))
  {
    LoopMoves(s, s.jobs[n], a.i, a.a);
  }

  lemma BalanceOther(s: Sched, a: Action, n: Name)
    requires Inv(s) && !Own(s, a, n)
    ensures HoldsNow(Step(s, a), n) == HoldsNow(s, n)
  {
    if n in s.jobs {
      assert JobOk(s, n);
    }
  }

  /** In every run each token a job takes is released exactly once, by the first deferred
      function, before the job can take another: taken less released is one while the job is
      between the two, however its function ended, and nought otherwise. */
  lemma {:induction false} EveryTokenReleased(rate: int, acts: seq<Action>, n: Name)
    ensures Balance(NewSched(rate), acts, n) == One(HoldsNow(After(Step, NewSched(rate), acts), n))
    decreases |acts|
  {
    if acts == [] {
    } else {
      var front, a := acts[..|acts| - 1], acts[|acts| - 1];
      var t := After(Step, NewSched(rate), front);
      EveryTokenReleased(rate, front, n);
      InvAlways(rate, front);
      if Own(t, a, n) {
        assert JobOk(t, n);
        BalanceOwn(t, a, n);
      } else {
        BalanceOther(t, a, n);
      }
    }
  }

  /** A job ticks only while its ticker runs, which Start creates and Stop stops; its context is
      set by Start and cancelled by Stop or by the parent. */
  lemma OnlyTheseChange(s: Sched, a: Action, n: Name)
    requires n in s.jobs && n in Step(s, a).jobs
    ensures var j, k := s.jobs[n], Step(s, a).jobs[n];
      && (k.tick && !j.tick ==> a == Fire(n) && j.tickerOn)
      && (j.tick && !k.tick ==> a == Launch(n) || (Own(s, a, n) && a.a.TakeTick?))
      && (k.tickerOn && !j.tickerOn ==> a == Launch(n))
      && (j.tickerOn && !k.tickerOn ==> a == StopCall)
      && (k.ctx != j.ctx ==> a == Launch(n) || (k.ctx.Cancelled? && (a == StopCall || (a == CancelParent && j.ctx.Active?))))
  {
    match a
    case StopCall =>
    case CancelParent =>
    case Loop(_, _, _) =>
    case _ =>
  }

  // ---- stopping ------------------------------------------------------------------------------

  predicate Halting(j: Job) {
    j.ctx.Cancelled? && !j.tickerOn
  }

  function Rank(pc: Pc): nat {
    match pc
    case AtSelect => 1
    case Spawned => 2
    case Releasing => 2
    case Recovering(_) => 3
    case Acquired => 4
    case InFunction => 4
    case Acquiring => 5
  }

  /** What a halting job has left: the exec in progress and at most one pending tick. */
  function Work(j: Job): nat {
    if j.loops == [] then 0 else Rank(j.loops[0]) + if j.tick then 5 else 0
  }

  /** How many steps of job `n`'s own loop a run takes. */
  function OwnSteps(s: Sched, acts: seq<Action>, n: Name): int {
    if acts == [] then 0
    else
      var front, a := acts[..|acts| - 1], acts[|acts| - 1];
      OwnSteps(s, front, n) + One(Own(After(Step, s, front), a, n))
  }

  /** A goroutine that was dropped, or is about to be. */
  predicate Lost(s: Sched, j: Job) {
    j.dropped > 0 || (s.parentDone && Spawned in j.loops)
  }

  lemma HaltingOwn(s: Sched, a: Action, n: Name)
    requires n in s.jobs && Counted(s.jobs[n]) && Halting(s.jobs[n]) && Own(s, a, n)
    ensures var t := Step(s, a);
      && t.control == s.control && t.parentDone == s.parentDone
      && n in t.jobs && t.jobs == s.jobs[n := t.jobs[n]]
      && Halting(t.jobs[n]) && Work(t.jobs[n]) < Work(s.jobs[n])
      && (!Lost(s, s.jobs[n]) ==> !Lost(t, t.jobs[n]))
  {
    assert a.i == 0 && s.jobs[n].loops == [s.jobs[n].loops[0]];
  }

  lemma HaltingOther(s: Sched, a: Action, n: Name)
    requires n in s.jobs && Halting(s.jobs[n]) && s.control.Stopping? && !a.StopReturn? && !Own(s, a, n)
    ensures var t := Step(s, a); t.control.Stopping? && n in t.jobs && t.jobs[n] == s.jobs[n]
  {
  }

  /** Once Stop has cancelled a job, its loop is gone after at most ten more of its own steps,
      whatever else happens and whichever ready branch its selects take. */
  lemma {:induction false} LoopEndsInTenSteps(s: Sched, acts: seq<Action>, n: Name)
    requires Inv(s) && n in s.jobs && Halting(s.jobs[n]) && s.control.Stopping? && StopReturn !in acts
    ensures var t := After(Step, s, acts);
      Inv(t) && n in t.jobs && Halting(t.jobs[n]) && t.control.Stopping?
      && OwnSteps(s, acts, n) + Work(t.jobs[n]) <= Work(s.jobs[n]) <= 10
    decreases |acts|
  {
    assert JobOk(s, n);
    if acts == [] {
    } else {
      var front, a := acts[..|acts| - 1], acts[|acts| - 1];
      LoopEndsInTenSteps(s, front, n);
      var t := After(Step, s, front);
      assert JobOk(t, n);
      if Own(t, a, n) {
        HaltingOwn(t, a, n);
      } else {
        HaltingOther(t, a, n);
      }
      InvKept(t, a);
    }
  }

  lemma WalksTurn(s: Sched, n: Name, trace: seq<LoopAction>, t: Sched, a: LoopAction)
    requires Walks(s, n, trace, t) && n in t.jobs && |t.jobs[n].loops| == 1
    requires LoopEnabled(t, t.jobs[n], 0, a) && InExec(a)
    ensures Walks(s, n, trace + [a], Turned(t, n, a))
  {
    TurnIsStep(t, n, a);
    WalksNext(s, n, trace, t, Loop(n, 0, a));
  }

  /** One exec of a halting loop, all the way. */
  lemma LateExec(s: Sched, n: Name, trace: seq<LoopAction>, t: Sched)
    requires Walks(s, n, trace, t) && n in t.jobs && t.jobs[n].loops == [Acquiring] && Halting(t.jobs[n])
    requires t.tokens < t.rate
    ensures Walks(s, n, trace + ExecPath(Late), t.(jobs := t.jobs[n := t.jobs[n].(loops := [AtSelect])]))
  {
    LateBegins(s, n, trace, t);
    LateUnwinds(s, n, trace + [TakeToken, LateCancel], LateTurned(t, n));
    assert trace + [TakeToken, LateCancel] + [RecoverPanic, Release] == trace + ExecPath(Late);
    LateRound(t, n);
  }

  function LateTurned(t: Sched, n: Name): Sched {
    Turned(Turned(t, n, TakeToken), n, LateCancel)
  }

  lemma LateBegins(s: Sched, n: Name, trace: seq<LoopAction>, t: Sched)
    requires Walks(s, n, trace, t) && n in t.jobs && t.jobs[n].loops == [Acquiring] && Halting(t.jobs[n])
    requires t.tokens < t.rate
    ensures Walks(s, n, trace + [TakeToken, LateCancel], LateTurned(t, n))
    ensures n in LateTurned(t, n).jobs && LateTurned(t, n).jobs[n].loops == [Recovering(false)]
  {
    WalksTurn(s, n, trace, t, TakeToken);
    WalksTurn(s, n, trace + [TakeToken], Turned(t, n, TakeToken), LateCancel);
    assert trace + [TakeToken] + [LateCancel] == trace + [TakeToken, LateCancel];
  }

  lemma LateRound(t: Sched, n: Name)
    requires n in t.jobs
    ensures Unwound(LateTurned(t, n), n) == t.(jobs := t.jobs[n := t.jobs[n].(loops := [AtSelect])])
  {
  }

  lemma LateUnwinds(s: Sched, n: Name, trace: seq<LoopAction>, t: Sched)
    requires Walks(s, n, trace, t) && n in t.jobs && t.jobs[n].loops == [Recovering(false)]
    ensures Walks(s, n, trace + [RecoverPanic, Release], Unwound(t, n))
  {
    WalksTurn(s, n, trace, t, RecoverPanic);
    WalksTurn(s, n, trace + [RecoverPanic], Turned(t, n, RecoverPanic), Release);
    assert trace + [RecoverPanic] + [Release] == trace + [RecoverPanic, Release];
  }

  /** The bound is attained: a loop cancelled while it waits for a token, with a tick pending, can
      take ten steps more, since both selects may prefer their other branch. */
  lemma TenStepsAreTaken(s: Sched, n: Name) returns (t: Sched, trace: seq<LoopAction>)
    requires n in s.jobs && s.jobs[n].loops == [Acquiring] && Halting(s.jobs[n]) && s.jobs[n].tick
    requires s.tokens < s.rate
    ensures Walks(s, n, trace, t) && |trace| == 10 && n in t.jobs && t.jobs[n].loops == []
  {
    WalksItself(s, n);
    LateExec(s, n, [], s);
    trace := [] + ExecPath(Late);
    t := s.(jobs := s.jobs[n := s.jobs[n].(loops := [AtSelect])]);
    WalksNext(s, n, trace, t, Loop(n, 0, TakeTick));
    trace, t := trace + [TakeTick], Step(t, Loop(n, 0, TakeTick));
    assert t.jobs[n].loops == [Acquiring];
    LateExec(s, n, trace, t);
    trace := trace + ExecPath(Late);
    t := t.(jobs := t.jobs[n := t.jobs[n].(loops := [AtSelect])]);
    WalksNext(s, n, trace, t, Loop(n, 0, SeeDone));
    trace, t := trace + [SeeDone], Step(t, Loop(n, 0, SeeDone));
  }

  /** And such a loop is what a Stop can find. */
  lemma StopFindsPendingTick(n: Name)
    ensures exists s ::
              && Reaches(Step, NewSched(1), s) && s.control.Stopping? && n in s.jobs
              && s.jobs[n].loops == [Acquiring] && Halting(s.jobs[n]) && s.jobs[n].tick && s.tokens < s.rate
  {
    var s0 := NewSched(1);
    ReachesItself(Step, s0);
    var s := ReachesNext(Step, s0, s0, Add(n));
    s := ReachesNext(Step, s0, s, StartCall(false));
    s := ReachesNext(Step, s0, s, Launch(n));
    s := ReachesNext(Step, s0, s, StartReturn);
    PendingTick(s0, s, n);
  }

  lemma PendingTick(s0: Sched, s1: Sched, n: Name)
    requires Reaches(Step, s0, s1) && s1.control.Free? && s1.started && s1.jobs.Keys == {n} && s1.tokens < s1.rate
    requires !s1.parentDone && s1.jobs[n] == Job(Active, true, false, 1, [Spawned], 0)
    ensures exists s ::
              && Reaches(Step, s0, s) && s.control.Stopping? && n in s.jobs
              && s.jobs[n].loops == [Acquiring] && Halting(s.jobs[n]) && s.jobs[n].tick && s.tokens < s.rate
  {
    var s := ReachesNext(Step, s0, s1, Loop(n, 0, Begin));
    s := ReachesNext(Step, s0, s, Fire(n));
    s := ReachesNext(Step, s0, s, Loop(n, 0, TakeTick));
    s := TicksAndStops(s0, s, n);
  }

  lemma TicksAndStops(s0: Sched, s1: Sched, n: Name) returns (s: Sched)
    requires Reaches(Step, s0, s1) && s1.control.Free? && s1.started && s1.jobs.Keys == {n}
    requires s1.jobs[n] == Job(Active, true, false, 1, [Acquiring], 0)
    ensures Reaches(Step, s0, s) && s.control.Stopping? && s.tokens == s1.tokens && s.rate == s1.rate
    ensures n in s.jobs && s.jobs[n] == Job(Cancelled, false, true, 1, [Acquiring], 0)
  {
    s := ReachesNext(Step, s0, s1, Fire(n));
    StopCancels(s, map[n := CancelledJob(s.jobs[n])]);
    s := ReachesNext(Step, s0, s, StopCall);
  }

  /** And until it is gone, one of its own steps can be taken. */
  function NextOwn(j: Job): LoopAction
    requires j.loops != []
  {
    match j.loops[0]
    case Spawned => Begin
    case AtSelect => SeeDone
    case Acquiring => GiveUp
    case Acquired => LateCancel
    case InFunction => LeaveFunction(false)
    case Recovering(_) => RecoverPanic
    case Releasing => Release
  }

  lemma HaltingCanStep(s: Sched, n: Name)
    requires n in s.jobs && Halting(s.jobs[n]) && s.jobs[n].loops != []
    ensures LoopEnabled(s, s.jobs[n], 0, NextOwn(s.jobs[n]))
  {
  }

  // ---- when Stop returns ---------------------------------------------------------------------

  predicate Blocked(s: Sched) {
    s.control.Stopping? && exists n :: n in s.control.todo && n in s.jobs && Lost(s, s.jobs[n])
  }

  lemma LostStays(s: Sched, a: Action, n: Name)
    requires Inv(s) && s.control.Stopping? && n in s.control.todo && n in s.jobs && Lost(s, s.jobs[n])
    ensures var t := Step(s, a);
      t.control.Stopping? && n in t.control.todo && n in t.jobs && Lost(t, t.jobs[n])
  {
    assert JobOk(s, n);
  }

  /** A Stop that waits for a lost goroutine never returns, whatever happens. */
  lemma {:induction false} LostBlocksStop(s: Sched, acts: seq<Action>, n: Name)
    requires Inv(s) && s.control.Stopping? && n in s.control.todo && n in s.jobs && Lost(s, s.jobs[n])
    ensures var t := After(Step, s, acts);
      Inv(t) && t.control.Stopping? && n in t.control.todo && n in t.jobs && Lost(t, t.jobs[n])
    decreases |acts|
  {
    if acts == [] {
    } else {
      var front, a := acts[..|acts| - 1], acts[|acts| - 1];
      LostBlocksStop(s, front, n);
      LostStays(After(Step, s, front), a, n);
      InvKept(After(Step, s, front), a);
    }
  }

  /** A job that waits for nothing lost can be run to its end, alone. */
  lemma {:induction false} DrainJob(s: Sched, n: Name) returns (t: Sched)
    requires Inv(s) && s.control.Stopping? && n in s.control.todo && n in s.jobs && !Lost(s, s.jobs[n])
    ensures Reaches(Step, s, t) && Inv(t) && t.control == s.control && t.parentDone == s.parentDone
    ensures n in t.jobs && t.jobs == s.jobs[n := t.jobs[n]]
    ensures t.jobs[n].wg == 0
    decreases Work(s.jobs[n])
  {
    assert JobOk(s, n);
    ReachesItself(Step, s);
    if s.jobs[n].loops == [] {
      t := s;
    } else {
      var a := Loop(n, 0, NextOwn(s.jobs[n]));
      HaltingCanStep(s, n);
      HaltingOwn(s, a, n);
      InvKept(s, a);
      var u := ReachesNext(Step, s, s, a);
      t := DrainJob(u, n);
      ReachesOn(Step, s, u, t);
    }
  }

  lemma {:induction false} FinishStop(s: Sched) returns (t: Sched)
    requires Inv(s) && s.control.Stopping? && !Blocked(s)
    ensures Reaches(Step, s, t) && t.control.Free?
    decreases if s.control.Stopping? then |s.control.todo| else 0
  {
    ReachesItself(Step, s);
    if s.control.todo == {} {
      t := ReachesNext(Step, s, s, StopReturn);
    } else {
      var n :| n in s.control.todo;
      assert n in s.jobs;
      var d := DrainJob(s, n);
      var u := ReachesNext(Step, s, d, Await(n));
      InvKept(d, Await(n));
      forall m | m in u.control.todo && m in u.jobs ensures !Lost(u, u.jobs[m]) {
        assert m in s.control.todo && u.jobs[m] == s.jobs[m];
      }
      t := FinishStop(u);
      ReachesOn(Step, s, u, t);
    }
  }

  /** A waiting Stop can still return exactly when none of the jobs it waits for has lost its
      goroutine to the wrapper's check. */
  lemma StopReturnsUnlessLost(rate: int, acts: seq<Action>)
    ensures var s := After(Step, NewSched(rate), acts);
      s.control.Stopping? ==> ((exists t :: Reaches(Step, s, t) && t.control.Free?) <==> !Blocked(s))
  {
    InvAlways(rate, acts);
    var s := After(Step, NewSched(rate), acts);
    if s.control.Stopping? {
      if Blocked(s) {
        var n :| n in s.control.todo && n in s.jobs && Lost(s, s.jobs[n]);
        forall t | Reaches(Step, s, t) ensures !t.control.Free? {
          var more :| After(Step, s, more) == t;
          LostBlocksStop(s, more, n);
        }
      } else {
        var t := FinishStop(s);
      }
    }
  }

  /** The loss is reachable: the parent is cancelled after Start has returned and before the
      spawned goroutine looks at it. */
  lemma StopCanHang(n: Name)
    ensures exists s :: Reaches(Step, NewSched(1), s) && Blocked(s)
  {
    var s0 := NewSched(1);
    ReachesItself(Step, s0);
    var s := ReachesNext(Step, s0, s0, Add(n));
    s := ReachesNext(Step, s0, s, StartCall(false));
    s := ReachesNext(Step, s0, s, Launch(n));
    s := ReachesNext(Step, s0, s, StartReturn);
    s := ReachesNext(Step, s0, s, CancelParent);
    assert n in s.jobs && s.jobs[n].loops == [Spawned] && s.jobs.Keys == {n};
    s := ReachesNext(Step, s0, s, StopCall);
    assert n in s.control.todo && Lost(s, s.jobs[n]);
  }

  // ---- a started job runs --------------------------------------------------------------------

  /** How far a loop is from its function. */
  function Distance(j: Job): nat
    requires j.loops != []
  {
    match j.loops[0]
    case InFunction => 0
    case Acquired => 1
    case Acquiring => 2
    case AtSelect => if j.tick then 3 else 4
    case Spawned => 5
    case Releasing => 5
    case Recovering(_) => 6
  }

  /** The next step towards it. */
  function Towards(n: Name, j: Job): Action
    requires j.loops != [] && j.loops[0] != InFunction
  {
    match j.loops[0]
    case Acquired => Loop(n, 0, EnterFunction)
    case Acquiring => Loop(n, 0, TakeToken)
    case AtSelect => if j.tick then Loop(n, 0, TakeTick) else Fire(n)
    case Spawned => Loop(n, 0, Begin)
    case Releasing => Loop(n, 0, Release)
    case Recovering(_) => Loop(n, 0, RecoverPanic)
  }

  /** Running under Start, with a token to be had or already taken. */
  predicate CanRun(s: Sched, n: Name) {
    && n in s.jobs && s.started && s.control.Free? && !s.parentDone && Started(s, s.jobs[n])
    && (s.tokens < s.rate || s.jobs[n].loops[0] == Acquired)
  }

  lemma ComesCloser(s: Sched, n: Name)
    requires CanRun(s, n) && s.jobs[n].loops[0] != InFunction
    ensures var t := Step(s, Towards(n, s.jobs[n]));
      && ((n in t.jobs && t.jobs[n].loops == [InFunction]) || CanRun(t, n))
      && (CanRun(t, n) ==> Distance(t.jobs[n]) < Distance(s.jobs[n]))
  {
    assert s.jobs[n].loops == [s.jobs[n].loops[0]];
  }

  lemma {:induction false} RunsOn(s: Sched, n: Name) returns (t: Sched)
    requires CanRun(s, n)
    ensures Reaches(Step, s, t) && n in t.jobs && Executing(t.jobs[n])
    decreases Distance(s.jobs[n])
  {
    ReachesItself(Step, s);
    t := s;
    if s.jobs[n].loops[0] != InFunction {
      ComesCloser(s, n);
      t := ReachesNext(Step, s, s, Towards(n, s.jobs[n]));
      if t.jobs[n].loops != [InFunction] {
        var u := t;
        t := RunsOn(u, n);
        ReachesOn(Step, s, u, t);
      }
    }
  }

  /** From every reachable state in which Start has returned and Stop has not been called, with
      the parent not cancelled and a token free, each job can come to run its function. */
  lemma JobCanRun(rate: int, acts: seq<Action>, n: Name)
    ensures var s := After(Step, NewSched(rate), acts);
      s.started && s.control.Free? && !s.parentDone && s.tokens < s.rate && n in s.jobs
      ==> exists t :: Reaches(Step, s, t) && n in t.jobs && Executing(t.jobs[n])
  {
    InvAlways(rate, acts);
    var s := After(Step, NewSched(rate), acts);
    if s.started && s.control.Free? && !s.parentDone && s.tokens < s.rate && n in s.jobs {
      assert JobOk(s, n);
      var t := RunsOn(s, n);
    }
  }

  // ---- one call of exec ----------------------------------------------------------------------

  /** How a call of `exec` goes. */
  datatype Outcome = Abandoned | Late | Returned | Failed | Panicked

  /** The steps of its loop that a call of `exec` makes. */
  function ExecPath(outcome: Outcome): seq<LoopAction> {
    match outcome
    case Abandoned => [GiveUp]
    case Late => [TakeToken, LateCancel, RecoverPanic, Release]
    case Panicked => [TakeToken, EnterFunction, LeaveFunction(true), RecoverPanic, Release]
    case _ => [TakeToken, EnterFunction, LeaveFunction(false), RecoverPanic, Release]
  }

  /** Where a loop stands after a step of its own. */
  function PcAfter(a: LoopAction): Pc {
    match a
    case TakeTick => Acquiring
    case TakeToken => Acquired
    case EnterFunction => InFunction
    case LateCancel => Recovering(false)
    case LeaveFunction(panicking) => Recovering(panicking)
    case RecoverPanic => Releasing
    case _ => AtSelect
  }

  function PcOf(trace: seq<LoopAction>): Pc {
    if trace == [] then Acquiring else PcAfter(trace[|trace| - 1])
  }

  /** The steps of job `n`'s own loop in a run, in their order. */
  function OwnTrace(s: Sched, acts: seq<Action>, n: Name): seq<LoopAction> {
    if acts == [] then []
    else
      var front, a := acts[..|acts| - 1], acts[|acts| - 1];
      OwnTrace(s, front, n) + if Own(After(Step, s, front), a, n) then [a.a] else []
  }

  /** The part of the invariant that concerns job `n`; it is kept by itself. */
  predicate OkFor(s: Sched, n: Name) {
    && n in s.jobs && JobOk(s, n)
    && (!s.control.Free? ==> s.control.todo <= s.jobs.Keys && (s.started <==> s.control.Starting?))
  }

  lemma OkForKept(s: Sched, a: Action, n: Name)
    requires OkFor(s, n)
    ensures OkFor(Step(s, a), n)
  {
    if Own(s, a, n) {
      LoopMoves(s, s.jobs[n], a.i, a.a);
    } else if a == Launch(n) && s.control.Starting? && n in s.control.todo {
      assert s.jobs[n].loops == [] && Step(s, a).jobs[n].loops == [Spawned];
    }
  }

  /** A step that belongs to `exec`, not to the select around it. */
  predicate InExec(a: LoopAction) {
    !a.Begin? && !a.SeeDone? && !a.TakeTick?
  }

  ghost predicate OnPath(trace: seq<LoopAction>) {
    exists outcome :: trace <= ExecPath(outcome)
  }

  /** What a trace says of the context. */
  predicate SawCancel(trace: seq<LoopAction>) {
    GiveUp in trace || LateCancel in trace
  }

  /** Within `exec`, `trace` of it done. */
  ghost predicate Executed(s: Sched, n: Name, trace: seq<LoopAction>) {
    && n in s.jobs && s.jobs[n].loops == [PcOf(trace)] && OnPath(trace)
    && (SawCancel(trace) ==> s.jobs[n].ctx.Cancelled?)
  }

  lemma PathOn(trace: seq<LoopAction>, a: LoopAction)
    requires OnPath(trace) && InExec(a) && PcOf(trace) != AtSelect
    requires match a
      case GiveUp => PcOf(trace) == Acquiring
      case TakeToken => PcOf(trace) == Acquiring
      case LateCancel => PcOf(trace) == Acquired
      case EnterFunction => PcOf(trace) == Acquired
      case LeaveFunction(_) => PcOf(trace) == InFunction
      case RecoverPanic => PcOf(trace).Recovering?
      case _ => PcOf(trace) == Releasing
    ensures OnPath(trace + [a])
  {
    var outcome :| trace <= ExecPath(outcome);
    assert trace == ExecPath(outcome)[..|trace|];
    match a
    case GiveUp => assert trace + [a] <= ExecPath(Abandoned);
    case TakeToken => assert trace + [a] <= ExecPath(Returned);
    case LateCancel => assert trace + [a] <= ExecPath(Late);
    case EnterFunction => assert trace + [a] <= ExecPath(Returned);
    case LeaveFunction(p) => assert trace + [a] <= ExecPath(if p then Panicked else Returned);
    case RecoverPanic => assert trace + [a] <= ExecPath(outcome);
    case Release => assert trace + [a] <= ExecPath(outcome);
  }

  lemma ExecutedOwn(s: Sched, a: Action, n: Name, trace: seq<LoopAction>)
    requires Executed(s, n, trace) && Own(s, a, n) && InExec(a.a)
    ensures Executed(Step(s, a), n, trace + [a.a])
  {
    PathOn(trace, a.a);
    assert [PcOf(trace)][0 := PcAfter(a.a)] == [PcAfter(a.a)];
  }

  lemma ExecutedOther(s: Sched, a: Action, n: Name, trace: seq<LoopAction>)
    requires OkFor(s, n) && Executed(s, n, trace) && !Own(s, a, n)
    ensures Executed(Step(s, a), n, trace)
  {
  }

  lemma ExecutedStep(s: Sched, a: Action, n: Name, trace: seq<LoopAction>)
    requires OkFor(s, n) && Executed(s, n, trace) && (Own(s, a, n) ==> InExec(a.a))
    ensures OkFor(Step(s, a), n) && Executed(Step(s, a), n, trace + if Own(s, a, n) then [a.a] else [])
  {
    OkForKept(s, a, n);
    if Own(s, a, n) {
      ExecutedOwn(s, a, n, trace);
    } else {
      ExecutedOther(s, a, n, trace);
      assert trace + [] == trace;
    }
  }

  lemma {:induction false} ExecutedAlways(s: Sched, acts: seq<Action>, n: Name)
    requires OkFor(s, n) && s.jobs[n].loops == [Acquiring]
    requires forall a :: a in OwnTrace(s, acts, n) ==> InExec(a)
    ensures OkFor(After(Step, s, acts), n) && Executed(After(Step, s, acts), n, OwnTrace(s, acts, n))
    decreases |acts|
  {
    if acts == [] {
      assert [] <= ExecPath(Late);
    } else {
      var front, a := acts[..|acts| - 1], acts[|acts| - 1];
      forall b | b in OwnTrace(s, front, n) ensures InExec(b) {
        assert b in OwnTrace(s, acts, n);
      }
      ExecutedAlways(s, front, n);
      if Own(After(Step, s, front), a, n) {
        assert a.a in OwnTrace(s, acts, n);
      }
      ExecutedStep(After(Step, s, front), a, n, OwnTrace(s, front, n));
    }
  }

  /** Every run of `exec`, whatever other goroutines, Start and Stop do meanwhile: the steps the
      loop has made so far begin one of the paths, and it is back at its select exactly when
      they are the whole path - the token, if it was taken, released after the recovery.  The
      paths of a cancellation are taken only when there was one. */
  lemma ExecTakesAPath(s: Sched, acts: seq<Action>, n: Name)
    requires OkFor(s, n) && s.jobs[n].loops == [Acquiring]
    requires forall a :: a in OwnTrace(s, acts, n) ==> InExec(a)
    ensures var t, trace := After(Step, s, acts), OwnTrace(s, acts, n);
      && OkFor(t, n) && Executed(t, n, trace)
      && (t.jobs[n].loops == [AtSelect] <==> exists outcome :: trace == ExecPath(outcome))
  {
    ExecutedAlways(s, acts, n);
    WholePath(OwnTrace(s, acts, n));
  }

  lemma WholePath(trace: seq<LoopAction>)
    requires OnPath(trace)
    ensures PcOf(trace) == AtSelect <==> exists outcome :: trace == ExecPath(outcome)
  {
    var outcome :| trace <= ExecPath(outcome);
    assert trace == ExecPath(outcome)[..|trace|];
  }

  /** Some run leads from `s` to `t` in which the steps of job `n`'s loop are `trace`. */
  ghost predicate Walks(s: Sched, n: Name, trace: seq<LoopAction>, t: Sched) {
    exists acts :: After(Step, s, acts) == t && OwnTrace(s, acts, n) == trace
  }

  lemma WalksNext(s: Sched, n: Name, trace: seq<LoopAction>, t: Sched, a: Action)
    requires Walks(s, n, trace, t)
    ensures Walks(s, n, trace + if Own(t, a, n) then [a.a] else [], Step(t, a))
  {
    var acts :| After(Step, s, acts) == t && OwnTrace(s, acts, n) == trace;
    Extend(Step, s, acts, a);
    assert (acts + [a])[..|acts|] == acts;
  }

  lemma WalksItself(s: Sched, n: Name)
    ensures Walks(s, n, [], s)
  {
    assert OwnTrace(s, [], n) == [] && After(Step, s, []) == s;
  }

  /** What other goroutines do to a job that is in `exec`: not a step of its loop. */
  predicate Foreign(acts: seq<Action>, n: Name) {
    forall a :: a in acts ==> !(a.Loop? && a.name == n)
  }

  /** A call of `exec` that has come to `t`, its own steps being `trace`. */
  ghost predicate Calling(s: Sched, n: Name, trace: seq<LoopAction>, t: Sched) {
    && OkFor(s, n) && s.jobs[n].loops == [Acquiring]
    && Walks(s, n, trace, t) && forall a :: a in trace ==> InExec(a)
  }

  lemma CallingExecutes(s: Sched, n: Name, trace: seq<LoopAction>, t: Sched)
    requires Calling(s, n, trace, t)
    ensures OkFor(t, n) && Executed(t, n, trace)
  {
    var acts :| After(Step, s, acts) == t && OwnTrace(s, acts, n) == trace;
    ExecutedAlways(s, acts, n);
  }

  lemma {:induction false} ForeignMoves(s: Sched, n: Name, trace: seq<LoopAction>, t: Sched, acts: seq<Action>)
    requires Calling(s, n, trace, t) && Foreign(acts, n)
    ensures Calling(s, n, trace, After(Step, t, acts))
    decreases |acts|
  {
    if acts == [] {
    } else {
      var front, a := acts[..|acts| - 1], acts[|acts| - 1];
      assert a in acts;
      ForeignMoves(s, n, trace, t, front);
      WalksNext(s, n, trace, After(Step, t, front), a);
      assert trace + [] == trace;
    }
  }

  function JobOf(s: Sched, n: Name): Job {
    if n in s.jobs then s.jobs[n] else NEW_JOB
  }

  /** Job `n`'s only loop has made a step of `exec`. */
  function Turned(s: Sched, n: Name, a: LoopAction): Sched {
    s.(jobs := s.jobs[n := JobOf(s, n).(loops := [PcAfter(a)])], tokens := s.tokens + TokenDelta(a))
  }

  lemma TurnIsStep(s: Sched, n: Name, a: LoopAction)
    requires |JobOf(s, n).loops| == 1 && LoopEnabled(s, JobOf(s, n), 0, a) && InExec(a)
    ensures Step(s, Loop(n, 0, a)) == Turned(s, n, a)
  {
    assert JobOf(s, n).loops[0 := PcAfter(a)] == [PcAfter(a)];
  }

  lemma OwnMoves(s: Sched, n: Name, trace: seq<LoopAction>, t: Sched, a: LoopAction)
    requires Calling(s, n, trace, t) && LoopEnabled(t, JobOf(t, n), 0, a) && InExec(a)
    ensures Calling(s, n, trace + [a], Turned(t, n, a))
  {
    CallingExecutes(s, n, trace, t);
    TurnIsStep(t, n, a);
    WalksNext(s, n, trace, t, Loop(n, 0, a));
  }

  /** What the job's function does. */
  datatype Result = Ok | Error | Panic

  function Answer(result: Result): Outcome {
    match result case Ok => Returned case Error => Failed case Panic => Panicked
  }

  /** What is not up to `exec`: which ready branch its select takes, what other goroutines do
      before the select, between the token and the check of the context, and while the job's
      function runs, and what that function does. */
  datatype Course = Course(preferDone: bool, waiting: seq<Action>, between: seq<Action>, during: seq<Action>,
                           result: Result)

  function Unwound(s: Sched, n: Name): Sched {
    Turned(Turned(s, n, RecoverPanic), n, Release)
  }

  /** A call of `exec`: its outcome, none if its select is still waiting, and the state then. */
  function ExecCall(s: Sched, n: Name, c: Course): (Option<Outcome>, Sched) {
    var v := After(Step, s, c.waiting);
    var done := JobOf(v, n).ctx.Cancelled?;
    if !done && v.tokens >= v.rate then (None, v)
    else if done && (c.preferDone || v.tokens >= v.rate) then (Some(Abandoned), Turned(v, n, GiveUp))
    else
      var u := After(Step, Turned(v, n, TakeToken), c.between);
      if JobOf(u, n).ctx.Cancelled? then (Some(Late), Unwound(Turned(u, n, LateCancel), n))
      else
        var w := After(Step, Turned(u, n, EnterFunction), c.during);
        (Some(Answer(c.result)), Unwound(Turned(w, n, LeaveFunction(c.result.Panic?)), n))
  }

  /** What the outcome hangs on: at the select, the context and the semaphore as `waiting` has left
      them; at the check, the context as `between` has; then the function. */
  lemma ExecDecides(s: Sched, n: Name, c: Course)
    ensures var outcome, v := ExecCall(s, n, c).0, After(Step, s, c.waiting);
      var done, full := JobOf(v, n).ctx.Cancelled?, v.tokens >= v.rate;
      && (outcome.None? <==> !done && full)
      && (outcome == Some(Abandoned) <==> done && (c.preferDone || full))
      && (!full && !(done && c.preferDone) ==>
            var u := After(Step, Turned(v, n, TakeToken), c.between);
            if JobOf(u, n).ctx.Cancelled? then outcome == Some(Late)
            else if c.result.Ok? then outcome == Some(Returned)
            else if c.result.Error? then outcome == Some(Failed)
            else outcome == Some(Panicked))
  {
  }

  lemma BeforeUnwinding(trace: seq<LoopAction>, outcome: Outcome)
    requires trace + [RecoverPanic, Release] == ExecPath(outcome)
    ensures PcOf(trace).Recovering?
  {
    var path := ExecPath(outcome);
    assert |path| == |trace| + 2 && trace == path[..|trace|];
    assert trace != [] ==> trace[|trace| - 1] == path[|trace| - 1];
  }

  lemma UnwoundMoves(s: Sched, n: Name, trace: seq<LoopAction>, t: Sched, outcome: Outcome)
    requires Calling(s, n, trace, t) && trace + [RecoverPanic, Release] == ExecPath(outcome)
    ensures Calling(s, n, ExecPath(outcome), Unwound(t, n))
  {
    CallingExecutes(s, n, trace, t);
    BeforeUnwinding(trace, outcome);
    OwnMoves(s, n, trace, t, RecoverPanic);
    var u := Turned(t, n, RecoverPanic);
    OwnMoves(s, n, trace + [RecoverPanic], u, Release);
    assert trace + [RecoverPanic] + [Release] == ExecPath(outcome);
  }

  /** From the check of the context on. */
  lemma CheckedMoves(s: Sched, n: Name, u: Sched, c: Course)
    requires Calling(s, n, [TakeToken], u) && Foreign(c.during, n)
    ensures JobOf(u, n).ctx.Cancelled? ==> Calling(s, n, ExecPath(Late), Unwound(Turned(u, n, LateCancel), n))
    ensures !JobOf(u, n).ctx.Cancelled? ==>
              var w := After(Step, Turned(u, n, EnterFunction), c.during);
              Calling(s, n, ExecPath(Answer(c.result)), Unwound(Turned(w, n, LeaveFunction(c.result.Panic?)), n))
  {
    CallingExecutes(s, n, [TakeToken], u);
    if JobOf(u, n).ctx.Cancelled? {
      OwnMoves(s, n, [TakeToken], u, LateCancel);
      UnwoundMoves(s, n, [TakeToken] + [LateCancel], Turned(u, n, LateCancel), Late);
    } else {
      EnterMoves(s, n, u, c.during);
      LeaveMoves(s, n, After(Step, Turned(u, n, EnterFunction), c.during), c.result);
    }
  }

  lemma EnterMoves(s: Sched, n: Name, u: Sched, during: seq<Action>)
    requires Calling(s, n, [TakeToken], u) && Foreign(during, n) && !JobOf(u, n).ctx.Cancelled?
    ensures Calling(s, n, [TakeToken, EnterFunction], After(Step, Turned(u, n, EnterFunction), during))
  {
    CallingExecutes(s, n, [TakeToken], u);
    OwnMoves(s, n, [TakeToken], u, EnterFunction);
    assert [TakeToken] + [EnterFunction] == [TakeToken, EnterFunction];
    ForeignMoves(s, n, [TakeToken, EnterFunction], Turned(u, n, EnterFunction), during);
  }

  lemma LeaveMoves(s: Sched, n: Name, w: Sched, result: Result)
    requires Calling(s, n, [TakeToken, EnterFunction], w)
    ensures Calling(s, n, ExecPath(Answer(result)), Unwound(Turned(w, n, LeaveFunction(result.Panic?)), n))
  {
    var leave := LeaveFunction(result.Panic?);
    CallingExecutes(s, n, [TakeToken, EnterFunction], w);
    OwnMoves(s, n, [TakeToken, EnterFunction], w, leave);
    UnwoundMoves(s, n, [TakeToken, EnterFunction] + [leave], Turned(w, n, leave), Answer(result));
  }

  lemma ExecCallMoves(s: Sched, n: Name, c: Course)
    requires OkFor(s, n) && s.jobs[n].loops == [Acquiring]
    requires Foreign(c.waiting, n) && Foreign(c.between, n) && Foreign(c.during, n)
    ensures var (outcome, t) := ExecCall(s, n, c);
      Calling(s, n, PathOf(outcome), t)
  {
    WalksItself(s, n);
    ForeignMoves(s, n, [], s, c.waiting);
    var v := After(Step, s, c.waiting);
    CallingExecutes(s, n, [], v);
    var done := JobOf(v, n).ctx.Cancelled?;
    if !done && v.tokens >= v.rate {
    } else if done && (c.preferDone || v.tokens >= v.rate) {
      OwnMoves(s, n, [], v, GiveUp);
      assert [] + [GiveUp] == ExecPath(Abandoned);
    } else {
      OwnMoves(s, n, [], v, TakeToken);
      assert [] + [TakeToken] == [TakeToken];
      ForeignMoves(s, n, [TakeToken], Turned(v, n, TakeToken), c.between);
      CheckedMoves(s, n, After(Step, Turned(v, n, TakeToken), c.between), c);
    }
  }

  function PathOf(outcome: Option<Outcome>): seq<LoopAction> {
    if outcome.Some? then ExecPath(outcome.value) else []
  }

  lemma CallingEnds(s: Sched, n: Name, outcome: Option<Outcome>, t: Sched)
    requires Calling(s, n, PathOf(outcome), t)
    ensures OkFor(t, n) && !HoldsNow(t, n) && t.jobs[n].loops == [if outcome.Some? then AtSelect else Acquiring]
    ensures outcome == Some(Abandoned) || outcome == Some(Late) ==> t.jobs[n].ctx.Cancelled?
  {
    CallingExecutes(s, n, PathOf(outcome), t);
  }

  /** Whatever its course, a call of `exec` is a run of the machine in which the job's loop makes
      the steps of its outcome's path and no others; it ends at the select, with the token given
      back, unless it is still waiting. */
  lemma ExecCallTakesPath(s: Sched, n: Name, c: Course)
    requires OkFor(s, n) && s.jobs[n].loops == [Acquiring]
    requires Foreign(c.waiting, n) && Foreign(c.between, n) && Foreign(c.during, n)
    ensures var (outcome, t) := ExecCall(s, n, c);
      && OkFor(t, n) && !HoldsNow(t, n)
      && t.jobs[n].loops == [if outcome.Some? then AtSelect else Acquiring]
      && Walks(s, n, PathOf(outcome), t)
      && (outcome == Some(Abandoned) || outcome == Some(Late) ==> t.jobs[n].ctx.Cancelled?)
  {
    var (outcome, t) := ExecCall(s, n, c);
    ExecCallMoves(s, n, c);
    CallingEnds(s, n, outcome, t);
  }

  lemma CancelledNow(s: Sched, n: Name)
    requires n in s.jobs && s.jobs[n].ctx.Active?
    ensures JobOf(After(Step, s, [CancelParent]), n).ctx.Cancelled? && After(Step, s, []) == s
  {
    TwoSteps(Step, s, CancelParent, CancelParent);
  }

  /** And every outcome has a course. */
  lemma EveryOutcomeHappens(s: Sched, n: Name, outcome: Outcome)
    requires OkFor(s, n) && s.jobs[n].loops == [Acquiring] && s.tokens < s.rate
    requires s.jobs[n].ctx.Active?
    ensures exists c: Course ::
              && Foreign(c.waiting, n) && Foreign(c.between, n) && Foreign(c.during, n)
              && ExecCall(s, n, c).0 == Some(outcome)
  {
    var u := Turned(s, n, TakeToken);
    var c := Course(true, [], [], [], if outcome.Panicked? then Panic else if outcome.Failed? then Error else Ok);
    match outcome
    case Abandoned =>
      CancelledNow(s, n);
      assert ExecCall(s, n, c.(waiting := [CancelParent])).0 == Some(Abandoned);
    case Late =>
      CancelledNow(u, n);
      assert ExecCall(s, n, c.(between := [CancelParent])).0 == Some(Late);
    case _ =>
      assert After(Step, s, []) == s && After(Step, u, []) == u;
      assert ExecCall(s, n, c).0 == Some(outcome);
  }

  // ---- the scheduler as it is written --------------------------------------------------------

  /** The functions `exec` defers. */
  datatype Deferred = ReleaseToken | RecoverFromPanic

  /** The section of Stop under the lock, on a started scheduler. */
  lemma StopPanics(s: Sched, n: Name)
    requires s.control.Free? && s.started && n in s.jobs && s.jobs[n].ctx.Unset?
    ensures Step(s, StopCall) == s.(panicked := true)
  {
  }

  lemma StopCancels(s: Sched, jobs: map<Name, Job>)
    requires s.control.Free? && s.started && jobs.Keys == s.jobs.Keys
    requires forall n :: n in s.jobs ==> !s.jobs[n].ctx.Unset? && jobs[n] == CancelledJob(s.jobs[n])
    ensures Step(s, StopCall) == s.(started := false, jobs := jobs, control := Stopping(s.jobs.Keys))
    ensures forall n :: n in jobs ==> Halting(jobs[n])
  {
    assert jobs == map n | n in s.jobs :: CancelledJob(s.jobs[n]);
  }

  /** The jobs that a run launches, in their order. */
  function Launches(acts: seq<Action>): seq<Name> {
    if acts == [] then []
    else
      var a := acts[|acts| - 1];
      Launches(acts[..|acts| - 1]) + if a.Launch? then [a.name] else []
  }

  /** Some run leads from `s` to `t` that launches `order`. */
  ghost predicate Launching(s: Sched, order: seq<Name>, t: Sched) {
    exists acts :: After(Step, s, acts) == t && Launches(acts) == order
  }

  lemma LaunchingItself(s: Sched)
    ensures Launching(s, [], s)
  {
    assert After(Step, s, []) == s && Launches([]) == [];
  }

  lemma LaunchingNext(s: Sched, order: seq<Name>, t: Sched, a: Action)
    requires Launching(s, order, t)
    ensures Launching(s, order + if a.Launch? then [a.name] else [], Step(t, a))
  {
    var acts :| After(Step, s, acts) == t && Launches(acts) == order;
    Extend(Step, s, acts, a);
    assert (acts + [a])[..|acts|] == acts;
  }

  /** What goes on beside Start and Stop. */
  predicate Bystander(a: Action) {
    a.Add? || a.CancelParent? || a.Fire? || a.Loop?
  }

  lemma BystanderMoves(s: Sched, a: Action)
    requires s.started && Bystander(a)
    ensures var t := Step(s, a); t.started && t.control == s.control && t.jobs.Keys == s.jobs.Keys
  {
  }

  lemma {:induction false} BystandersMove(s: Sched, order: seq<Name>, t: Sched, acts: seq<Action>)
    requires Launching(s, order, t) && t.started && forall a :: a in acts ==> Bystander(a)
    ensures var u := After(Step, t, acts);
      Launching(s, order, u) && u.started && u.control == t.control && u.jobs.Keys == t.jobs.Keys
    decreases |acts|
  {
    if acts == [] {
    } else {
      var front, a := acts[..|acts| - 1], acts[|acts| - 1];
      assert a in acts;
      BystandersMove(s, order, t, front);
      BystanderMoves(After(Step, t, front), a);
      LaunchingNext(s, order, After(Step, t, front), a);
      assert order + [] == order;
    }
  }

  /** Start's loop after it has launched `order`; other goroutines have done `others(i)` before
      the launch number `i`. */
  function StartLoop(s: Sched, parentDone: bool, others: nat -> seq<Action>, order: seq<Name>): Sched {
    if order == [] then s.(started := true, parentDone := parentDone, control := Starting(s.jobs.Keys))
    else
      var front, n := order[..|order| - 1], order[|order| - 1];
      NextLaunched(After(Step, StartLoop(s, parentDone, others, front), others(|front|)), n)
  }

  function NextLaunched(s: Sched, n: Name): Sched {
    s.(jobs := s.jobs[n := Launched(JobOf(s, n), s.parentDone)],
       control := if s.control.Starting? then Starting(s.control.todo - {n}) else s.control)
  }

  /** The whole call. */
  function StartWhole(s: Sched, parentDone: bool, others: nat -> seq<Action>, order: seq<Name>): Sched {
    After(Step, StartLoop(s, parentDone, others, order), others(|order|)).(control := Free)
  }

  ghost predicate Enumerates(order: seq<Name>, names: set<Name>) {
    |order| == |names| && forall n :: n in order <==> n in names
  }

  ghost predicate Besides(others: nat -> seq<Action>) {
    forall i, a :: a in others(i) ==> Bystander(a)
  }

  lemma StartBegins(s: Sched, parentDone: bool, others: nat -> seq<Action>)
    requires s.control.Free? && !s.started
    ensures Launching(s, [], StartLoop(s, parentDone, others, []))
  {
    LaunchingItself(s);
    LaunchingNext(s, [], s, StartCall(parentDone));
  }

  /** One turn of the loop. */
  lemma LaunchNext(s: Sched, order: seq<Name>, t: Sched, acts: seq<Action>, n: Name)
    requires Launching(s, order, t) && t.started && t.control.Starting? && n in t.control.todo && n in t.jobs
    requires forall a :: a in acts ==> Bystander(a)
    ensures var u := NextLaunched(After(Step, t, acts), n);
      && Launching(s, order + [n], u) && u.started && u.jobs.Keys == t.jobs.Keys
      && u.control == Starting(t.control.todo - {n})
  {
    BystandersMove(s, order, t, acts);
    LaunchingNext(s, order, After(Step, t, acts), Launch(n));
  }

  function Names(order: seq<Name>): set<Name> {
    set n | n in order
  }

  predicate Distinct(order: seq<Name>) {
    forall i, j :: 0 <= i < j < |order| ==> order[i] != order[j]
  }

  /** Start's loop has come to `t`, having launched `order`. */
  ghost predicate LoopedTo(s: Sched, order: seq<Name>, t: Sched) {
    && Launching(s, order, t) && t.started && t.jobs.Keys == s.jobs.Keys
    && t.control == Starting(s.jobs.Keys - Names(order))
  }

  lemma LoopNext(s: Sched, order: seq<Name>, t: Sched, acts: seq<Action>, n: Name)
    requires LoopedTo(s, order, t) && n in s.jobs && n !in order && forall a :: a in acts ==> Bystander(a)
    ensures LoopedTo(s, order + [n], NextLaunched(After(Step, t, acts), n))
  {
    LaunchNext(s, order, t, acts, n);
    assert Names(order + [n]) == Names(order) + {n};
    assert s.jobs.Keys - (Names(order) + {n}) == s.jobs.Keys - Names(order) - {n};
  }

  lemma FrontNames(order: seq<Name>, keys: set<Name>)
    requires order != [] && Names(order) <= keys && Distinct(order)
    ensures var front, n := order[..|order| - 1], order[|order| - 1];
      Names(front) <= keys && Distinct(front) && n in keys && n !in front && order == front + [n]
  {
    var front, n := order[..|order| - 1], order[|order| - 1];
    assert order == front + [n];
    assert n in Names(order);
  }

  lemma {:induction false} StartLoopLaunches(s: Sched, parentDone: bool, others: nat -> seq<Action>, order: seq<Name>)
    requires s.control.Free? && !s.started && Besides(others) && Names(order) <= s.jobs.Keys && Distinct(order)
    ensures LoopedTo(s, order, StartLoop(s, parentDone, others, order))
    decreases |order|
  {
    if order == [] {
      StartBegins(s, parentDone, others);
      assert s.jobs.Keys - Names([]) == s.jobs.Keys;
    } else {
      var front, n := order[..|order| - 1], order[|order| - 1];
      FrontNames(order, s.jobs.Keys);
      StartLoopLaunches(s, parentDone, others, front);
      LoopNext(s, front, StartLoop(s, parentDone, others, front), others(|front|), n);
    }
  }

  lemma {:induction false} EnumerationIsDistinct(order: seq<Name>)
    ensures |Names(order)| <= |order|
    ensures |Names(order)| == |order| ==> Distinct(order)
    decreases |order|
  {
    if order == [] {
    } else {
      var front, n := order[..|order| - 1], order[|order| - 1];
      assert Names(order) == Names(front) + {n};
      EnumerationIsDistinct(front);
    }
  }

  /** A call of Start, whatever order it takes the jobs in and whatever goes on besides, is a run
      of the machine that launches every job once and then is free. */
  lemma StartLaunchesAll(s: Sched, parentDone: bool, others: nat -> seq<Action>, order: seq<Name>)
    requires s.control.Free? && !s.started && Besides(others) && Enumerates(order, s.jobs.Keys)
    ensures var t := StartWhole(s, parentDone, others, order);
      Launching(s, order, t) && Distinct(order) && t.control.Free? && t.started && t.jobs.Keys == s.jobs.Keys
  {
    assert Names(order) == s.jobs.Keys;
    EnumerationIsDistinct(order);
    StartLoopLaunches(s, parentDone, others, order);
    StartEnds(s, order, StartLoop(s, parentDone, others, order), others(|order|));
  }

  lemma StartEnds(s: Sched, order: seq<Name>, t: Sched, acts: seq<Action>)
    requires Launching(s, order, t) && t.started && t.control == Starting({})
    requires forall a :: a in acts ==> Bystander(a)
    ensures var u := After(Step, t, acts).(control := Free);
      Launching(s, order, u) && u.started && u.jobs.Keys == t.jobs.Keys
  {
    BystandersMove(s, order, t, acts);
    LaunchingNext(s, order, After(Step, t, acts), StartReturn);
    assert order + [] == order;
  }

  /** With nothing going on besides, every job has its context, a running ticker that has not
      ticked yet, one more in its wait group and one more goroutine. */
  lemma {:induction false} UndisturbedStart(s: Sched, parentDone: bool, order: seq<Name>, n: Name)
    requires Names(order) <= s.jobs.Keys && Distinct(order) && n in s.jobs
    ensures var t := StartLoop(s, parentDone, (i: nat) => [], order);
      && t.parentDone == parentDone && n in t.jobs
      && (n !in order ==> t.jobs[n] == s.jobs[n])
      && (n in order ==>
            && t.jobs[n].ctx == (if parentDone then Cancelled else Active)
            && t.jobs[n].tickerOn && !t.jobs[n].tick && t.jobs[n].wg == s.jobs[n].wg + 1
            && t.jobs[n].loops == s.jobs[n].loops + [Spawned] && t.jobs[n].dropped == s.jobs[n].dropped)
    decreases |order|
  {
    if order == [] {
    } else {
      var front, m := order[..|order| - 1], order[|order| - 1];
      assert order == front + [m] && m !in front;
      UndisturbedStart(s, parentDone, front, n);
      UndisturbedStart(s, parentDone, front, m);
      var t := StartLoop(s, parentDone, (i: nat) => [], front);
      assert After(Step, t, []) == t;
    }
  }

  datatype AddError = NoError | AlreadyStarted | AlreadyExists

  class JobScheduler {
    var started: bool
    var goroutines: map<Name, Job>
    var rate: nat
    var tokens: int

    ghost predicate Models(s: Sched)
      reads this
    {
      s.started == started && s.jobs == goroutines && s.rate == rate && s.tokens == tokens
    }

    constructor (rate: int)
      ensures Models(NewSched(rate))
    {
      this.rate := if rate <= 0 then 1 else rate;
      started, goroutines, tokens := false, map[], 0;
    }

    method AddJob(name: Name, ghost s: Sched) returns (error: AddError, ghost t: Sched)
      requires Models(s)
      modifies this`goroutines
      ensures t == Step(s, Add(name)) && Models(t)
      ensures error == AlreadyStarted <==> started
      ensures error == AlreadyExists <==> !started && name in old(goroutines)
      ensures error == NoError ==>
                && goroutines == old(goroutines)[name := NEW_JOB]
                && goroutines[name].ctx.Unset? && !goroutines[name].tickerOn && !goroutines[name].tick
                && goroutines[name].wg == 0 && goroutines[name].loops == [] && goroutines[name].dropped == 0
    {
      t := Step(s, Add(name));
      if started {
        return AlreadyStarted, t;
      }
      if name in goroutines {
        return AlreadyExists, t;
      }
      goroutines := goroutines[name := NEW_JOB];
      error := NoError;
    }

    /** Other goroutines move. */
    method Others(acts: seq<Action>, t: Sched) returns (u: Sched)
      requires Models(t)
      modifies this
      ensures u == After(Step, t, acts) && Models(u)
    {
      u := After(Step, t, acts);
      started, goroutines, rate, tokens := u.started, u.jobs, u.rate, u.tokens;
    }

    /** The whole call: the jobs are launched one after the other, in any order. */
    method Start(parentDone: bool, others: nat -> seq<Action>, s: Sched) returns (t: Sched, order: seq<Name>)
      requires Models(s) && s.control.Free?
      modifies this
      ensures Models(t)
      ensures s.started ==> order == [] && t == s
      ensures !s.started ==> Enumerates(order, s.jobs.Keys) && t == StartWhole(s, parentDone, others, order)
    {
      order, t := [], s;
      if started {
        return;
      }
      started := true;
      var todo := goroutines.Keys;
      t := s.(started := true, parentDone := parentDone, control := Starting(todo));
      while todo != {}
        invariant Models(t) && t == StartLoop(s, parentDone, others, order)
        invariant todo <= s.jobs.Keys
        invariant |order| + |todo| == |s.jobs| && forall n :: n in order <==> n in s.jobs && n !in todo
        decreases |todo|
      {
        t := Others(others(|order|), t);
        var name :| name in todo;
        goroutines := goroutines[name := Launched(JobOf(t, name), t.parentDone)];
        assert (order + [name])[..|order|] == order;
        t := NextLaunched(t, name);
        order, todo := order + [name], todo - {name};
      }
      t := Others(others(|order|), t);
      t := t.(control := Free);
    }

    /** The deferred functions of `exec`, last in, first out; a panic becomes an error. */
    method Unwind(name: Name, answer: Outcome, t: Sched) returns (failed: bool, u: Sched)
      requires Models(t)
      modifies this`goroutines, this`tokens
      ensures u == Unwound(t, name) && Models(u)
      ensures failed <==> !answer.Returned?
    {
      var defers := [ReleaseToken, RecoverFromPanic];
      var panicking := answer.Panicked?;
      failed, u := !answer.Returned? && !answer.Panicked?, t;
      while defers != []
        invariant Models(u) && defers == [ReleaseToken, RecoverFromPanic][..|defers|]
        invariant u == if |defers| == 2 then t else if |defers| == 1 then Turned(t, name, RecoverPanic) else Unwound(t, name)
        invariant if |defers| == 2 then panicking == answer.Panicked? && failed == (!answer.Returned? && !panicking)
                  else failed == !answer.Returned?
        decreases |defers|
      {
        var deferred := defers[|defers| - 1];
        defers := defers[..|defers| - 1];
        match deferred
        case RecoverFromPanic =>
          if panicking {
            panicking, failed := false, true;
          }
          u := Turned(u, name, RecoverPanic);
          goroutines := u.jobs;
        case ReleaseToken =>
          tokens := tokens - 1;
          u := Turned(u, name, Release);
          goroutines := u.jobs;
      }
    }

    /** A call of `exec` by job `name`'s loop. */
    method Exec(name: Name, c: Course, s: Sched) returns (failed: bool, outcome: Option<Outcome>, t: Sched)
      requires Models(s) && name in s.jobs && s.jobs[name].loops == [Acquiring]
      modifies this
      ensures (outcome, t) == ExecCall(s, name, c) && Models(t)
      ensures outcome.Some? && outcome.value != Abandoned && outcome.value != Late ==>
                && (c.result.Ok? <==> outcome == Some(Returned)) && (c.result.Error? <==> outcome == Some(Failed))
                && (c.result.Panic? <==> outcome == Some(Panicked))
      ensures failed <==> outcome.None? || outcome == Some(Abandoned) || outcome == Some(Late) || !c.result.Ok?
    {
      t := Others(c.waiting, s);
      var done := JobOf(t, name).ctx.Cancelled?;
      if !done && tokens >= rate {
        return true, None, t;
      }
      if done && (c.preferDone || tokens >= rate) {
        t := Turned(t, name, GiveUp);
        goroutines := t.jobs;
        return true, Some(Abandoned), t;
      }
      tokens := tokens + 1;
      t := Turned(t, name, TakeToken);
      goroutines := t.jobs;
      t := Others(c.between, t);
      var answer := Late;
      if JobOf(t, name).ctx.Cancelled? {
        t := Turned(t, name, LateCancel);
      } else {
        t := Turned(t, name, EnterFunction);
        goroutines := t.jobs;
        t := Others(c.during, t);
        answer := Answer(c.result);
        t := Turned(t, name, LeaveFunction(c.result.Panic?));
      }
      goroutines := t.jobs;
      failed, t := Unwind(name, answer, t);
      outcome := Some(answer);
    }

    /** The part of Stop under the lock.  A job without a cancel function makes it panic. */
    method CancelAll(ghost s: Sched) returns (panicked: bool, ghost t: Sched)
      requires Models(s) && s.control.Free?
      modifies this`started, this`goroutines
      ensures t == Step(s, StopCall) && !started
      ensures panicked <==> old(started) && exists n :: n in old(goroutines) && old(goroutines)[n].ctx.Unset?
      ensures panicked ==> t.panicked
      ensures !panicked ==> Models(t)
      ensures !panicked && old(started) ==>
                t.control == Stopping(old(goroutines).Keys) && forall n :: n in goroutines ==> Halting(goroutines[n])
    {
      panicked := false;
      if !started {
        t := s;
        return;
      }
      started := false;
      var todo := goroutines.Keys;
      while todo != {}
        invariant !started && todo <= goroutines.Keys == old(goroutines).Keys
        invariant forall n :: n in goroutines ==>
                    goroutines[n] == if n in todo then old(goroutines)[n] else CancelledJob(old(goroutines)[n])
        invariant forall n :: n in goroutines && n !in todo ==> !old(goroutines)[n].ctx.Unset?
        decreases |todo|
      {
        var name :| name in todo;
        if goroutines[name].ctx.Unset? {
          panicked := true;
          StopPanics(s, name);
          t := s.(panicked := true);
          return;
        }
        goroutines := goroutines[name := CancelledJob(goroutines[name])];
        todo := todo - {name};
      }
      StopCancels(s, goroutines);
      t := s.(started := false, jobs := goroutines, control := Stopping(goroutines.Keys));
    }
  }
}
