/** The service lifecycle: Entrypoint.Run, the goroutines it starts and the events that can reach
  * it, as atomic steps in any interleaving.
  */
module Entrypoint {
  import opened Sequences

  // ---------- State ----------

  datatype Stage = BeforeStart | AfterStart | BeforeStop | AfterStop

  /** stoppable[i] says service i implements Shutdown; the numbers count the hooks registered. */
  datatype Config = Config(
    stoppable: seq<bool>, preStart: nat, postStart: nat, preStop: nat, postStop: nat, signals: bool)

  function HookCount(cfg: Config, stage: Stage): nat {
    match stage
    case BeforeStart => cfg.preStart
    case AfterStart => cfg.postStart
    case BeforeStop => cfg.preStop
    case AfterStop => cfg.postStop
  }

  datatype Cause = Shutdown | Context | Signal | ServiceError(i: nat, err: nat)

  /** Where Run stands. */
  datatype Phase =
    | Hooks(stage: Stage, next: nat)
    | Launching(next: nat)
    | Waiting
    | Canceling
    | Stopping(next: nat)
    | Awaiting
    | Aborted(stage: Stage)   // returned a PreStart or PostStart hook's error
    | Returned                // returned the cause

  /** A service goroutine. Checking has an error from Start and is about to look at svcCtx. */
  datatype Service = Unlaunched | Launched | Started | Checking(err: nat) | Sending(err: nat) | Done

  datatype Stopper = NotStopping | StopRunning | StopDone

  /** The goroutine that closes allDone. */
  datatype Waiter = NoWaiter | ForStarts | ForStops | AllDone

  datatype Event =
    | HookRan(stage: Stage, k: nat, ok: bool)
    | StartCalled(i: nat) | StartReturned(i: nat) | StartFailed(i: nat, err: nat)
    | Canceled | DeadlinePassed
    | StopLaunched(i: nat) | StopReturned(i: nat)
    | ShutdownCalled | ContextEnded | Signaled

  /** log holds every event so far, in order; a context is done once the event that ends it is there.
    * StartFailed records an error from Start found while svcCtx was live.
    */
  datatype State = State(
    cfg: Config,
    phase: Phase,
    services: seq<Service>,
    stoppers: seq<Stopper>,
    errs: seq<Cause>,          // the buffered channel svcErrs
    waiter: Waiter,
    signal: bool,              // one is waiting in sigCh
    cause: Cause,
    log: seq<Event>)

  function N(s: State): nat {
    |s.cfg.stoppable|
  }

  ghost predicate Init(s: State) {
    s == State(s.cfg, Hooks(BeforeStart, 0), seq(N(s), _ => Unlaunched), seq(N(s), _ => NotStopping),
      [], NoWaiter, false, Shutdown, [])
  }

  // ---------- Steps ----------

  datatype Action =
    // Run
    | RunHook(ok: bool) | Launch | Select(cause: Cause) | Cancel | LaunchStop | Proceed | Advance
    // service i
    | CallStart(i: nat) | ReturnNil(i: nat) | ReturnErr(i: nat, err: nat) | Check(i: nat) | Send(i: nat)
    // Stop of service i, and the goroutine waiting for everything
    | ReturnStop(i: nat) | StartsDone | StopsDone
    // the outside
    | EndContext | CallShutdown | Deliver | PassDeadline

  predicate ByRun(a: Action) {
    a.RunHook? || a.Launch? || a.Select? || a.Cancel? || a.LaunchStop? || a.Proceed? || a.Advance?
  }

  /** svcCtx.Err() == nil. */
  predicate Live(s: State) {
    Canceled !in s.log && ContextEnded !in s.log
  }

  /** svcCancel has been called on the way to stopping the services; stopCtx exists. */
  predicate StopPhase(phase: Phase) {
    phase.Stopping? || phase == Awaiting || phase == Returned
    || (phase.Hooks? && (phase.stage == BeforeStop || phase.stage == AfterStop))
  }

  predicate Is(s: State, i: nat, x: Service) {
    i < |s.services| && s.services[i] == x
  }

  predicate Triggered(s: State, cause: Cause) {
    match cause
    case Shutdown => ShutdownCalled in s.log
    case Context => ContextEnded in s.log
    case Signal => s.signal
    case ServiceError(_, _) => s.errs != [] && s.errs[0] == cause
  }

  predicate Enabled(s: State, a: Action) {
    match a
    case RunHook(_) => s.phase.Hooks? && s.phase.next < HookCount(s.cfg, s.phase.stage)
    case Launch => s.phase.Launching? && s.phase.next < |s.services|
    case Select(cause) => s.phase == Waiting && Triggered(s, cause)
    case Cancel => s.phase == Canceling
    case LaunchStop => s.phase.Stopping? && s.phase.next < |s.stoppers| && s.phase.next < |s.cfg.stoppable|
    case Proceed => s.phase == Awaiting && (s.waiter == AllDone || DeadlinePassed in s.log)
    case Advance =>
      || (s.phase.Hooks? && s.phase.next == HookCount(s.cfg, s.phase.stage))
      || (s.phase.Launching? && s.phase.next == |s.services|)
      || (s.phase.Stopping? && s.phase.next == |s.stoppers|)
    case CallStart(i) => Is(s, i, Launched)
    case ReturnNil(i) => Is(s, i, Started)
    case ReturnErr(i, _) => Is(s, i, Started)
    case Check(i) => i < |s.services| && s.services[i].Checking?
    case Send(i) => i < |s.services| && s.services[i].Sending? && |s.errs| < N(s)
    case ReturnStop(i) => i < |s.stoppers| && s.stoppers[i] == StopRunning
    case StartsDone => s.waiter == ForStarts && StartsAreDone(s)
    case StopsDone => s.waiter == ForStops && StopsAreDone(s)
    case EndContext => true
    case CallShutdown => true
    case Deliver => s.cfg.signals
    case PassDeadline => StopPhase(s.phase)
  }

  function NextPhase(s: State, a: Action): Phase
    requires Enabled(s, a)
  {
    match a
    case RunHook(ok) =>
      var Hooks(stage, k) := s.phase;
      if ok then Hooks(stage, k + 1)
      else (match stage
            case BeforeStart => Aborted(stage)
            case AfterStart => Aborted(stage)
            case BeforeStop => Stopping(0)
            case AfterStop => Returned)
    case Launch => Launching(s.phase.next + 1)
    case Select(_) => Canceling
    case Cancel => Hooks(BeforeStop, 0)
    case LaunchStop => Stopping(s.phase.next + 1)
    case Proceed => Hooks(AfterStop, 0)
    case Advance =>
      (match s.phase
       case Hooks(BeforeStart, _) => Launching(0)
       case Hooks(AfterStart, _) => Waiting
       case Hooks(BeforeStop, _) => Stopping(0)
       case Hooks(AfterStop, _) => Returned
       case Launching(_) => Hooks(AfterStart, 0)
       case _ => Awaiting)
    case _ => s.phase
  }

  function NextServices(s: State, a: Action): seq<Service>
    requires Enabled(s, a)
  {
    match a
    case Launch => s.services[s.phase.next := Launched]
    case CallStart(i) => s.services[i := Started]
    case ReturnNil(i) => s.services[i := Done]
    case ReturnErr(i, err) => s.services[i := Checking(err)]
    case Check(i) => s.services[i := if Live(s) then Sending(s.services[i].err) else Done]
    case Send(i) => s.services[i := Done]
    case _ => s.services
  }

  function NextStoppers(s: State, a: Action): seq<Stopper>
    requires Enabled(s, a)
  {
    match a
    case LaunchStop => if s.cfg.stoppable[s.phase.next] then s.stoppers[s.phase.next := StopRunning] else s.stoppers
    case ReturnStop(i) => s.stoppers[i := StopDone]
    case _ => s.stoppers
  }

  function NextErrs(s: State, a: Action): seq<Cause>
    requires Enabled(s, a)
  {
    match a
    case Send(i) => s.errs + [ServiceError(i, s.services[i].err)]
    case Select(ServiceError(_, _)) => s.errs[1..]
    case _ => s.errs
  }

  function NextWaiter(s: State, a: Action): Waiter {
    match a
    case Advance => if s.phase.Stopping? then ForStarts else s.waiter
    case StartsDone => ForStops
    case StopsDone => AllDone
    case _ => s.waiter
  }

  function Happens(s: State, a: Action): seq<Event>
    requires Enabled(s, a)
  {
    match a
    case RunHook(ok) =>
      [HookRan(s.phase.stage, s.phase.next, ok)] + if s.phase.stage.AfterStart? && !ok then [Canceled] else []
    case Cancel => [Canceled]
    case LaunchStop => if s.cfg.stoppable[s.phase.next] then [StopLaunched(s.phase.next)] else []
    case CallStart(i) => [StartCalled(i)]
    case ReturnNil(i) => [StartReturned(i)]
    case ReturnErr(i, _) => [StartReturned(i)]
    case Check(i) => if Live(s) then [StartFailed(i, s.services[i].err)] else []
    case ReturnStop(i) => [StopReturned(i)]
    case EndContext => [ContextEnded]
    case CallShutdown => [ShutdownCalled]
    case Deliver => [Signaled]
    case PassDeadline => [DeadlinePassed]
    case _ => []
  }

  function Next(s: State, a: Action): State
    requires Enabled(s, a)
  {
    State(s.cfg, NextPhase(s, a), NextServices(s, a), NextStoppers(s, a), NextErrs(s, a), NextWaiter(s, a),
      if a.Deliver? then true else if a == Select(Signal) then false else s.signal,
      if a.Select? then a.cause else s.cause,
      s.log + Happens(s, a))
  }

  predicate StepAt(run: seq<State>, actions: seq<Action>, i: nat)
    requires i < |actions| && |run| == |actions| + 1
  {
    Enabled(run[i], actions[i]) && run[i + 1] == Next(run[i], actions[i])
  }

  ghost predicate Run(run: seq<State>, actions: seq<Action>) {
    && |run| == |actions| + 1 && Init(run[0])
    && forall i | 0 <= i < |actions| :: StepAt(run, actions, i)
  }

  // ---------- The order of events ----------

  predicate PreStartRan(cfg: Config, before: seq<Event>) {
    cfg.preStart > 0 ==> HookRan(BeforeStart, cfg.preStart - 1, true) in before
  }

  predicate AllReturned(cfg: Config, before: seq<Event>) {
    && (forall i: nat | i < |cfg.stoppable| :: StartReturned(i) in before)
    && (forall i: nat | i < |cfg.stoppable| && cfg.stoppable[i] :: StopReturned(i) in before)
  }

  /** A parent's end, a Shutdown call, a signal or a failed Start that lies behind the cause. */
  predicate Explains(before: seq<Event>, cause: Cause) {
    match cause
    case Shutdown => ShutdownCalled in before
    case Context => ContextEnded in before
    case Signal => Signaled in before
    case ServiceError(i, err) => StartFailed(i, err) in before
  }

  predicate NotRun(before: seq<Event>, stage: Stage, k: nat) {
    HookRan(stage, k, true) !in before && HookRan(stage, k, false) !in before
  }

  ghost predicate NotFailed(before: seq<Event>, i: nat) {
    forall err: nat :: StartFailed(i, err) !in before
  }

  /** What must, and must not, have happened before event e. */
  ghost predicate Justified(cfg: Config, before: seq<Event>, e: Event) {
    match e
    case HookRan(stage, k, _) =>
      && k < HookCount(cfg, stage) && NotRun(before, stage, k)
      && (k > 0 ==> HookRan(stage, k - 1, true) in before)
      && (stage != BeforeStart ==> PreStartRan(cfg, before))
      && (stage == AfterStart ==> Canceled !in before)
      && (stage == BeforeStop ==> Canceled in before && NoStop(cfg, before))
      && (stage == AfterStop ==> DeadlinePassed in before || AllReturned(cfg, before))
      && (stage == AfterStop ==> AllStopsLaunched(cfg, before))
    case StartCalled(i) => i < |cfg.stoppable| && e !in before && PreStartRan(cfg, before)
    case StartReturned(i) => StartCalled(i) in before && e !in before
    case StartFailed(i, _) =>
      StartReturned(i) in before && Canceled !in before && ContextEnded !in before && NotFailed(before, i)
    case Canceled => e !in before
    case StopLaunched(i) => i < |cfg.stoppable| && cfg.stoppable[i] && Canceled in before && e !in before
    case StopReturned(i) => StopLaunched(i) in before && e !in before
    case DeadlinePassed => Canceled in before
    case _ => true
  }

  predicate NoStop(cfg: Config, before: seq<Event>) {
    forall i: nat | i < |cfg.stoppable| :: StopLaunched(i) !in before
  }

  predicate AllStopsLaunched(cfg: Config, before: seq<Event>) {
    forall i: nat | i < |cfg.stoppable| && cfg.stoppable[i] :: StopLaunched(i) in before
  }

  ghost predicate JustifiedAt(cfg: Config, log: seq<Event>, p: nat)
    requires p < |log|
  {
    Justified(cfg, log[..p], log[p])
  }

  ghost predicate Ordered(cfg: Config, log: seq<Event>) {
    forall p: nat | p < |log| :: JustifiedAt(cfg, log, p)
  }

  // ---------- Invariants ----------

  predicate PastPreStart(phase: Phase) {
    !(phase.Hooks? && phase.stage == BeforeStart) && phase != Aborted(BeforeStart)
  }

  predicate StopsLaunched(phase: Phase) {
    phase == Awaiting || phase == Returned || (phase.Hooks? && phase.stage == AfterStop)
  }

  predicate PastAwaiting(phase: Phase) {
    phase == Returned || (phase.Hooks? && phase.stage == AfterStop)
  }

  ghost predicate PreStartOK(s: State) {
    PastPreStart(s.phase) ==> PreStartRan(s.cfg, s.log)
  }

  ghost predicate CancelOK(s: State) {
    && (Canceled in s.log <==> StopPhase(s.phase) || s.phase == Aborted(AfterStart))
    && (s.phase.Aborted? ==> s.phase.stage == BeforeStart || s.phase.stage == AfterStart)
  }

  ghost predicate AwaitOK(s: State) {
    PastAwaiting(s.phase) ==> DeadlinePassed in s.log || s.waiter == AllDone
  }

  /** Where a stage stands against Run's own position: how many of its hooks may have run. */
  function RanAtMost(phase: Phase, cfg: Config, stage: Stage): nat {
    if phase.Hooks? && phase.stage == stage then phase.next
    else if Before(phase, stage) then 0 else HookCount(cfg, stage)
  }

  /** Run has not come to the stage's hooks. */
  predicate Before(phase: Phase, stage: Stage) {
    match stage
    case BeforeStart => false
    case AfterStart => !PastPreStart(phase) || phase.Launching?
    case BeforeStop => !StopPhase(phase)
    case AfterStop => !PastAwaiting(phase)
  }

  ghost predicate HooksOK(s: State) {
    && (s.phase.Hooks? ==> s.phase.next <= HookCount(s.cfg, s.phase.stage))
    && (s.phase.Hooks? && s.phase.next > 0 ==> HookRan(s.phase.stage, s.phase.next - 1, true) in s.log)
  }

  ghost predicate HooksToCome(s: State) {
    forall stage, k: nat | RanAtMost(s.phase, s.cfg, stage) <= k :: NotRun(s.log, stage, k)
  }

  /** Service i's goroutine against what the log says of it. */
  ghost predicate ServiceOK(s: State, i: nat)
    requires i < |s.services|
  {
    var x := s.services[i];
    && (x == Unlaunched <==> !PastPreStart(s.phase) || (s.phase.Launching? && i >= s.phase.next))
    && (StartCalled(i) in s.log <==> x != Unlaunched && x != Launched)
    && (StartReturned(i) in s.log <==> x.Checking? || x.Sending? || x.Done?)
    && (!x.Sending? && !x.Done? ==> NotFailed(s.log, i))
    && (x.Sending? ==> StartFailed(i, x.err) in s.log)
  }

  ghost predicate ServicesOK(s: State) {
    && |s.services| == N(s)
    && (s.phase.Launching? ==> s.phase.next <= N(s))
    && (forall i: nat | i < |s.services| :: ServiceOK(s, i))
  }

  ghost predicate StopperOK(s: State, i: nat)
    requires i < |s.stoppers| && i < N(s)
  {
    && (s.stoppers[i] != NotStopping <==>
        s.cfg.stoppable[i] && (StopsLaunched(s.phase) || (s.phase.Stopping? && i < s.phase.next)))
    && (StopLaunched(i) in s.log <==> s.stoppers[i] != NotStopping)
    && (StopReturned(i) in s.log <==> s.stoppers[i] == StopDone)
  }

  ghost predicate StoppersOK(s: State) {
    && |s.stoppers| == N(s)
    && (s.phase.Stopping? ==> s.phase.next <= N(s))
    && (forall i: nat | i < |s.stoppers| :: StopperOK(s, i))
  }

  predicate StartsAreDone(s: State) {
    forall i: nat | i < |s.services| :: s.services[i] == Done
  }

  predicate StopsAreDone(s: State) {
    forall i: nat | i < |s.stoppers| :: s.stoppers[i] != StopRunning
  }

  ghost predicate WaiterOK(s: State) {
    && (s.waiter != NoWaiter <==> StopsLaunched(s.phase))
    && (s.waiter == ForStops || s.waiter == AllDone ==> StartsAreDone(s))
    && (s.waiter == AllDone ==> StopsAreDone(s))
  }

  lemma PreStartNext(s: State, a: Action)
    requires PreStartOK(s) && HooksOK(s) && Enabled(s, a)
    ensures PreStartOK(Next(s, a))
  {
  }

  lemma CancelNext(s: State, a: Action)
    requires CancelOK(s) && Enabled(s, a)
    ensures CancelOK(Next(s, a))
  {
  }

  lemma AwaitNext(s: State, a: Action)
    requires AwaitOK(s) && WaiterOK(s) && Enabled(s, a)
    ensures AwaitOK(Next(s, a))
  {
  }

  lemma HooksNext(s: State, a: Action)
    requires HooksOK(s) && Enabled(s, a)
    ensures HooksOK(Next(s, a))
  {
  }

  lemma RanAtMostGrows(s: State, a: Action, stage: Stage)
    requires HooksOK(s) && Enabled(s, a)
    ensures RanAtMost(s.phase, s.cfg, stage) <= RanAtMost(NextPhase(s, a), s.cfg, stage)
    ensures a.RunHook? && s.phase.stage == stage ==> s.phase.next < RanAtMost(NextPhase(s, a), s.cfg, stage)
  {
  }

  lemma HooksToComeNext(s: State, a: Action)
    requires HooksOK(s) && HooksToCome(s) && Enabled(s, a)
    ensures HooksToCome(Next(s, a))
  {
    var s' := Next(s, a);
    forall stage, k: nat | RanAtMost(s'.phase, s.cfg, stage) <= k ensures NotRun(s'.log, stage, k) {
      RanAtMostGrows(s, a, stage);
      assert NotRun(s.log, stage, k);
      NothingElseHappens(s, a, HookRan(stage, k, true));
      NothingElseHappens(s, a, HookRan(stage, k, false));
    }
  }

  /** The log only grows, and a hook's event comes only from running it. */
  lemma NothingElseHappens(s: State, a: Action, e: Event)
    requires Enabled(s, a) && e.HookRan?
    ensures e in Next(s, a).log <==> e in s.log || (a == RunHook(e.ok) && s.phase == Hooks(e.stage, e.k))
  {
  }

  lemma ServicesNext(s: State, a: Action)
    requires ServicesOK(s) && Enabled(s, a)
    ensures ServicesOK(Next(s, a))
  {
    var s' := Next(s, a);
    forall i: nat | i < |s'.services| ensures ServiceOK(s', i) {
      assert ServiceOK(s, i);
    }
  }

  lemma StoppersNext(s: State, a: Action)
    requires StoppersOK(s) && Enabled(s, a)
    ensures StoppersOK(Next(s, a))
  {
    var s' := Next(s, a);
    forall i: nat | i < |s'.stoppers| ensures StopperOK(s', i) {
      assert StopperOK(s, i);
    }
  }

  lemma WaiterNext(s: State, a: Action)
    requires WaiterOK(s) && ServicesOK(s) && StoppersOK(s) && Enabled(s, a)
    ensures WaiterOK(Next(s, a))
  {
  }

  // ---------- Errors and the cause ----------

  /** A service that has not finished may still send one error. */
  function Unfinished(services: seq<Service>, n: nat): nat
    requires n <= |services|
  {
    if n == 0 then 0 else Unfinished(services, n - 1) + if services[n - 1] == Done then 0 else 1
  }

  lemma {:induction false} UnfinishedUpdate(services: seq<Service>, i: nat, x: Service, n: nat)
    requires n <= |services| && i < |services|
    ensures Unfinished(services[i := x], n) == Unfinished(services, n)
      + if i < n then (if services[i] == Done then 1 else 0) - (if x == Done then 1 else 0) else 0
    ensures i < n && services[i] != Done ==> Unfinished(services, n) > 0
    ensures Unfinished(services, n) <= n
  {
    if n > 0 {
      UnfinishedUpdate(services, i, x, n - 1);
    }
  }

  /** The errors in the channel and those still to come fit its capacity. */
  ghost predicate RoomOK(s: State) {
    |s.errs| + Unfinished(s.services, |s.services|) <= N(s)
  }

  lemma RoomNext(s: State, a: Action)
    requires RoomOK(s) && ServicesOK(s) && Enabled(s, a)
    ensures RoomOK(Next(s, a))
  {
    if a.Launch? || a.CallStart? || a.ReturnNil? || a.ReturnErr? || a.Check? || a.Send? {
      var i := if a.Launch? then s.phase.next else a.i;
      assert ServiceOK(s, i);
      assert Next(s, a).services == s.services[i := Next(s, a).services[i]];
      UnfinishedUpdate(s.services, i, Next(s, a).services[i], |s.services|);
    }
  }

  ghost predicate ErrsOK(s: State) {
    && (forall c | c in s.errs :: c.ServiceError? && Explains(s.log, c))
    && (s.signal ==> Signaled in s.log)
  }

  lemma ErrsNext(s: State, a: Action)
    requires ErrsOK(s) && ServicesOK(s) && Enabled(s, a)
    ensures ErrsOK(Next(s, a))
  {
    if a.Send? {
      assert ServiceOK(s, a.i);
    }
  }

  /** The cause was there before svcCancel was called. */
  ghost predicate CanceledFor(s: State, p: nat) {
    p < |s.log| && s.log[p] == Canceled && Explains(s.log[..p], s.cause)
  }

  ghost predicate CauseOK(s: State) {
    && (s.phase == Canceling ==> Explains(s.log, s.cause))
    && (StopPhase(s.phase) ==> exists p: nat :: CanceledFor(s, p))
  }

  lemma CauseNext(s: State, a: Action)
    requires CauseOK(s) && ErrsOK(s) && Enabled(s, a)
    ensures CauseOK(Next(s, a))
  {
    var s' := Next(s, a);
    if a.Cancel? {
      assert s'.log[..|s.log|] == s.log;
      assert CanceledFor(s', |s.log|);
    } else if StopPhase(s.phase) {
      var p: nat :| CanceledFor(s, p);
      assert s'.log[..p] == s.log[..p];
      assert CanceledFor(s', p);
    }
  }

  // ---------- Every event is justified ----------

  lemma StopsByPhase(s: State)
    requires StoppersOK(s)
    ensures s.phase.Hooks? && s.phase.stage == BeforeStop ==> NoStop(s.cfg, s.log)
    ensures StopsLaunched(s.phase) ==> AllStopsLaunched(s.cfg, s.log)
    ensures StopsLaunched(s.phase) && StopsAreDone(s) ==>
              forall i: nat | i < N(s) && s.cfg.stoppable[i] :: StopReturned(i) in s.log
  {
    if s.phase.Hooks? && s.phase.stage == BeforeStop {
      forall i: nat | i < N(s) ensures StopLaunched(i) !in s.log {
        assert StopperOK(s, i);
      }
    }
    if StopsLaunched(s.phase) {
      forall i: nat | i < N(s) && s.cfg.stoppable[i]
        ensures StopLaunched(i) in s.log && (StopsAreDone(s) ==> StopReturned(i) in s.log)
      {
        assert StopperOK(s, i);
      }
    }
  }

  lemma AllDoneIsAllReturned(s: State)
    requires ServicesOK(s) && StoppersOK(s) && WaiterOK(s) && s.waiter == AllDone
    ensures AllReturned(s.cfg, s.log)
  {
    StopsByPhase(s);
    forall i: nat | i < N(s) ensures StartReturned(i) in s.log {
      assert ServiceOK(s, i);
    }
  }

  lemma HookJustified(s: State, ok: bool)
    requires PreStartOK(s) && CancelOK(s) && AwaitOK(s) && HooksOK(s) && HooksToCome(s)
    requires ServicesOK(s) && StoppersOK(s) && WaiterOK(s) && Enabled(s, RunHook(ok))
    ensures Justified(s.cfg, s.log, HookRan(s.phase.stage, s.phase.next, ok))
  {
    assert NotRun(s.log, s.phase.stage, s.phase.next);
    StopsByPhase(s);
    if s.waiter == AllDone {
      AllDoneIsAllReturned(s);
    }
  }

  lemma ServiceJustified(s: State, a: Action)
    requires PreStartOK(s) && ServicesOK(s) && Enabled(s, a)
    requires a.CallStart? || a.ReturnNil? || a.ReturnErr? || a.Check?
    ensures Happens(s, a) != [] ==> Justified(s.cfg, s.log, Happens(s, a)[0])
  {
    assert ServiceOK(s, a.i);
  }

  lemma StopJustified(s: State, a: Action)
    requires CancelOK(s) && StoppersOK(s) && Enabled(s, a) && (a.LaunchStop? || a.ReturnStop?)
    ensures Happens(s, a) != [] ==> Justified(s.cfg, s.log, Happens(s, a)[0])
  {
    assert StopperOK(s, if a.LaunchStop? then s.phase.next else a.i);
  }

  ghost predicate Inv(s: State) {
    && PreStartOK(s) && CancelOK(s) && AwaitOK(s) && HooksOK(s) && HooksToCome(s)
    && ServicesOK(s) && StoppersOK(s) && WaiterOK(s) && RoomOK(s) && ErrsOK(s) && CauseOK(s)
  }

  lemma EventsJustified(s: State, a: Action, k: nat)
    requires Inv(s) && Enabled(s, a) && k < |Happens(s, a)|
    ensures Justified(s.cfg, s.log + Happens(s, a)[..k], Happens(s, a)[k])
  {
    assert k == 0 ==> s.log + Happens(s, a)[..k] == s.log;
    if a.RunHook? {
      HookJustified(s, a.ok);
      if k == 1 {
        assert Happens(s, a)[1] == Canceled;
        assert Canceled !in s.log;
      }
    } else if a.LaunchStop? || a.ReturnStop? {
      StopJustified(s, a);
    } else if a.CallStart? || a.ReturnNil? || a.ReturnErr? || a.Check? {
      ServiceJustified(s, a);
    }
  }

  lemma OrderedNext(s: State, a: Action)
    requires Inv(s) && Ordered(s.cfg, s.log) && Enabled(s, a)
    ensures Ordered(s.cfg, Next(s, a).log)
  {
    var s' := Next(s, a);
    forall p: nat | p < |s'.log| ensures JustifiedAt(s.cfg, s'.log, p) {
      if p < |s.log| {
        assert JustifiedAt(s.cfg, s.log, p);
        assert s'.log[..p] == s.log[..p];
      } else {
        EventsJustified(s, a, p - |s.log|);
        assert s'.log[..p] == s.log + Happens(s, a)[..p - |s.log|];
      }
    }
  }

  lemma InvNext(s: State, a: Action)
    requires Inv(s) && Enabled(s, a)
    ensures Inv(Next(s, a))
  {
    PreStartNext(s, a);
    CancelNext(s, a);
    AwaitNext(s, a);
    HooksNext(s, a);
    HooksToComeNext(s, a);
    ServicesNext(s, a);
    StoppersNext(s, a);
    WaiterNext(s, a);
    RoomNext(s, a);
    ErrsNext(s, a);
    CauseNext(s, a);
  }

  lemma {:induction false} UnfinishedAtMost(services: seq<Service>, n: nat)
    requires n <= |services|
    ensures Unfinished(services, n) <= n
  {
    if n > 0 {
      UnfinishedAtMost(services, n - 1);
    }
  }

  lemma InvInit(s: State)
    requires Init(s)
    ensures Inv(s) && Ordered(s.cfg, s.log)
  {
    UnfinishedAtMost(s.services, |s.services|);
  }

  /** In every reachable state each event has come in order, after what it must follow. */
  lemma {:induction false} InvRun(run: seq<State>, actions: seq<Action>, i: nat)
    requires Run(run, actions) && i < |run|
    ensures Inv(run[i]) && Ordered(run[i].cfg, run[i].log) && run[i].cfg == run[0].cfg
  {
    if i == 0 {
      InvInit(run[0]);
    } else {
      InvRun(run, actions, i - 1);
      assert StepAt(run, actions, i - 1);
      InvNext(run[i - 1], actions[i - 1]);
      OrderedNext(run[i - 1], actions[i - 1]);
    }
  }

  // ---------- The lifecycle order ----------

  /** A hook runs only after every earlier hook of its stage has run and succeeded. */
  lemma {:induction false} EarlierHooksRan(cfg: Config, log: seq<Event>, q: nat, j: nat)
    requires Ordered(cfg, log) && q < |log| && log[q].HookRan? && j < log[q].k
    ensures HookRan(log[q].stage, j, true) in log[..q]
    decreases q
  {
    var HookRan(stage, k, _) := log[q];
    assert JustifiedAt(cfg, log, q);
    var p: nat :| p < q && log[p] == HookRan(stage, k - 1, true);
    if j < k - 1 {
      EarlierHooksRan(cfg, log, p, j);
      assert log[..p] <= log[..q];
    }
  }

  lemma AllPreStartRan(cfg: Config, log: seq<Event>, q: nat, k: nat)
    requires Ordered(cfg, log) && q <= |log| && PreStartRan(cfg, log[..q]) && k < cfg.preStart
    ensures HookRan(BeforeStart, k, true) in log[..q]
  {
    var p: nat :| p < q && log[p] == HookRan(BeforeStart, cfg.preStart - 1, true);
    if k < cfg.preStart - 1 {
      EarlierHooksRan(cfg, log, p, k);
      assert log[..p] <= log[..q];
    }
  }

  /** The order promised of every run, at the moment log[q] of any reachable state: no Start before
    * every PreStart hook has succeeded, no Stop before svcCancel, PostStop hooks only once every Stop
    * is launched and either the deadline has passed or every Start and every Stop has returned.
    */
  lemma LifecycleOrder(run: seq<State>, actions: seq<Action>, n: nat, q: nat)
    requires Run(run, actions) && n < |run| && q < |run[n].log|
    ensures var before, e, cfg := run[n].log[..q], run[n].log[q], run[0].cfg;
      && (e.StartCalled? || (e.HookRan? && e.stage == AfterStart) ==>
            forall k: nat | k < cfg.preStart :: HookRan(BeforeStart, k, true) in before)
      && (e.StopLaunched? ==> e.i < |cfg.stoppable| && cfg.stoppable[e.i] && Canceled in before)
      && (e.HookRan? && e.stage == AfterStop ==>
            AllStopsLaunched(cfg, before) && (DeadlinePassed in before || AllReturned(cfg, before)))
      && (e.HookRan? ==> forall k: nat | k < e.k :: HookRan(e.stage, k, true) in before)
  {
    InvRun(run, actions, n);
    var log, cfg := run[n].log, run[0].cfg;
    assert JustifiedAt(cfg, log, q);
    if log[q].StartCalled? || (log[q].HookRan? && log[q].stage == AfterStart) {
      forall k: nat | k < cfg.preStart ensures HookRan(BeforeStart, k, true) in log[..q] {
        AllPreStartRan(cfg, log, q, k);
      }
    }
    if log[q].HookRan? {
      forall k: nat | k < log[q].k ensures HookRan(log[q].stage, k, true) in log[..q] {
        EarlierHooksRan(cfg, log, q, k);
      }
    }
  }

  predicate Once(e: Event) {
    !e.ShutdownCalled? && !e.ContextEnded? && !e.Signaled? && !e.DeadlinePassed?
  }

  lemma {:induction false} HappensOnce(cfg: Config, log: seq<Event>, n: nat, e: Event)
    requires Ordered(cfg, log) && n <= |log| && Once(e)
    ensures multiset(log[..n])[e] <= 1
  {
    if n > 0 {
      HappensOnce(cfg, log, n - 1, e);
      assert log[..n] == log[..n - 1] + [log[n - 1]];
      assert JustifiedAt(cfg, log, n - 1);
      if log[n - 1] == e {
        assert e !in log[..n - 1];
        assert e !in multiset(log[..n - 1]);
      }
    }
  }

  /** A run that reaches its wait for the services has launched exactly one Stop for each service
    * that has one; a run that a hook aborted, or that has not come to its stops, none.
    */
  lemma StopsExactlyOnce(run: seq<State>, actions: seq<Action>, n: nat, i: nat)
    requires Run(run, actions) && n < |run| && i < N(run[0])
    ensures var stops := multiset(run[n].log)[StopLaunched(i)];
      && stops <= 1
      && (StopsLaunched(run[n].phase) ==> stops == if run[0].cfg.stoppable[i] then 1 else 0)
      && (!StopsLaunched(run[n].phase) && !run[n].phase.Stopping? ==> stops == 0)
  {
    InvRun(run, actions, n);
    var s := run[n];
    HappensOnce(s.cfg, s.log, |s.log|, StopLaunched(i));
    assert s.log[..|s.log|] == s.log;
    assert StopperOK(s, i);
    assert StopLaunched(i) in s.log <==> multiset(s.log)[StopLaunched(i)] > 0;
  }

  /** No goroutine that has an error to report ever waits to do so, though Run reads at most one. */
  lemma NoSendBlocks(run: seq<State>, actions: seq<Action>, n: nat, i: nat)
    requires Run(run, actions) && n < |run| && i < |run[n].services| && run[n].services[i].Sending?
    ensures Enabled(run[n], Send(i))
  {
    InvRun(run, actions, n);
    UnfinishedUpdate(run[n].services, i, Done, |run[n].services|);
  }

  // ---------- What Run answers ----------

  /** Run's answer was already so when it called svcCancel: nil only if Shutdown had been called, a
    * context error only if the parent had ended, a signal only if one had come, and a service's
    * error only if that Start had returned it while svcCtx was live.
    */
  lemma AnswerIsSound(run: seq<State>, actions: seq<Action>, n: nat)
    requires Run(run, actions) && n < |run| && run[n].phase == Returned
    ensures exists p: nat :: CanceledFor(run[n], p)
    ensures run[n].cause.ServiceError? ==>
              exists q: nat :: q < |run[n].log| && ReallyFailed(run[n].log, q, run[n].cause.i, run[n].cause.err)
  {
    InvRun(run, actions, n);
    var s := run[n];
    var p: nat :| CanceledFor(s, p);
    if s.cause.ServiceError? {
      var q: nat :| q < p && s.log[q] == StartFailed(s.cause.i, s.cause.err);
      assert JustifiedAt(s.cfg, s.log, q);
      assert ReallyFailed(s.log, q, s.cause.i, s.cause.err);
    }
  }

  predicate ReallyFailed(log: seq<Event>, q: nat, i: nat, err: nat)
    requires q < |log|
  {
    log[q] == StartFailed(i, err) && StartReturned(i) in log[..q] && Canceled !in log[..q] && ContextEnded !in log[..q]
  }

  // ---------- Every error, and every other trigger, gets through ----------

  /** Start i has failed with err: on its way to the channel, in it, or taken by Run. */
  ghost predicate FailureOK(s: State, i: nat, err: nat) {
    StartFailed(i, err) in s.log ==>
      || Is(s, i, Sending(err)) || ServiceError(i, err) in s.errs
      || (s.cause == ServiceError(i, err) && Selected(s.phase))
  }

  /** Run has taken a trigger. */
  predicate Selected(phase: Phase) {
    phase == Canceling || StopPhase(phase)
  }

  ghost predicate TriggersOK(s: State) {
    && (forall i: nat, err: nat :: FailureOK(s, i, err))
    && (Signaled in s.log && !Selected(s.phase) ==> s.signal)
  }

  lemma FailureNext(s: State, a: Action, i: nat, err: nat)
    requires FailureOK(s, i, err) && ServicesOK(s) && Enabled(s, a)
    ensures FailureOK(Next(s, a), i, err)
  {
    if a.Launch? {
      assert ServiceOK(s, s.phase.next);
    } else if a.Select? && s.errs != [] {
      assert s.errs == [s.errs[0]] + s.errs[1..];
    }
  }

  lemma TriggersNext(s: State, a: Action)
    requires TriggersOK(s) && ServicesOK(s) && Enabled(s, a)
    ensures TriggersOK(Next(s, a))
  {
    forall i: nat, err: nat ensures FailureOK(Next(s, a), i, err) {
      FailureNext(s, a, i, err);
    }
  }

  lemma {:induction false} TriggersInRun(run: seq<State>, actions: seq<Action>, n: nat)
    requires Run(run, actions) && n < |run|
    ensures TriggersOK(run[n])
  {
    if n > 0 {
      TriggersInRun(run, actions, n - 1);
      InvRun(run, actions, n - 1);
      assert StepAt(run, actions, n - 1);
      TriggersNext(run[n - 1], actions[n - 1]);
    }
  }

  /** No failure is lost: in every reachable state an error that a Start has reported is being sent,
    * which nothing can hold up, or waits in the channel, or is the cause that Run has taken.
    */
  lemma FailureArrives(run: seq<State>, actions: seq<Action>, n: nat, i: nat, err: nat)
    requires Run(run, actions) && n < |run| && StartFailed(i, err) in run[n].log
    ensures var s := run[n];
      || (Is(s, i, Sending(err)) && Enabled(s, Send(i)) && ServiceError(i, err) in Next(s, Send(i)).errs)
      || ServiceError(i, err) in s.errs
      || (Selected(s.phase) && s.cause == ServiceError(i, err))
  {
    TriggersInRun(run, actions, n);
    assert FailureOK(run[n], i, err);
    if Is(run[n], i, Sending(err)) {
      NoSendBlocks(run, actions, n, i);
      assert Next(run[n], Send(i)).errs[|run[n].errs|] == ServiceError(i, err);
    }
  }

  /** Run waits for a trigger exactly while nobody has called Shutdown, the parent lives, no signal has
    * come, and every error reported is still being sent.
    */
  lemma WaitsForTriggerIff(run: seq<State>, actions: seq<Action>, n: nat)
    requires Run(run, actions) && n < |run| && run[n].phase == Waiting
    ensures var s := run[n];
      (exists a :: ByRun(a) && Enabled(s, a)) <==>
        || ShutdownCalled in s.log || ContextEnded in s.log || Signaled in s.log
        || exists i: nat, err: nat :: StartFailed(i, err) in s.log && !Is(s, i, Sending(err))
  {
    var s := run[n];
    InvRun(run, actions, n);
    TriggersInRun(run, actions, n);
    RunWaitsIff(s);
    if s.errs != [] {
      QueuedIsFailed(run, actions, n);
    }
    if i: nat, err: nat :| StartFailed(i, err) in s.log && !Is(s, i, Sending(err)) {
      assert FailureOK(s, i, err);
    }
  }

  /** An error in the channel has been reported, and its sender is done. */
  ghost predicate SendersOK(s: State) {
    forall c | c in s.errs :: c.ServiceError? && Is(s, c.i, Done) && StartFailed(c.i, c.err) in s.log
  }

  lemma SendersNext(s: State, a: Action)
    requires SendersOK(s) && ServicesOK(s) && Enabled(s, a)
    ensures SendersOK(Next(s, a))
  {
    if a.Send? {
      assert ServiceOK(s, a.i);
    } else if a.Launch? {
      assert ServiceOK(s, s.phase.next);
    }
  }

  lemma {:induction false} SendersInRun(run: seq<State>, actions: seq<Action>, n: nat)
    requires Run(run, actions) && n < |run|
    ensures SendersOK(run[n])
  {
    if n > 0 {
      SendersInRun(run, actions, n - 1);
      InvRun(run, actions, n - 1);
      assert StepAt(run, actions, n - 1);
      SendersNext(run[n - 1], actions[n - 1]);
    }
  }

  lemma QueuedIsFailed(run: seq<State>, actions: seq<Action>, n: nat)
    requires Run(run, actions) && n < |run| && run[n].errs != []
    ensures exists i: nat, err: nat :: StartFailed(i, err) in run[n].log && !Is(run[n], i, Sending(err))
  {
    SendersInRun(run, actions, n);
    var c := run[n].errs[0];
    assert c in run[n].errs;
    assert StartFailed(c.i, c.err) in run[n].log && !Is(run[n], c.i, Sending(c.err));
  }

  /** Between Start's return and the check the goroutine keeps the error. */
  lemma {:induction false} ErrorKept(run: seq<State>, actions: seq<Action>, p: nat, q: nat, i: nat, err: nat)
    requires Run(run, actions) && p < q < |run| && actions[p] == ReturnErr(i, err)
    requires forall m | p < m < q :: actions[m] != Check(i)
    ensures Is(run[q], i, Checking(err))
    decreases q
  {
    assert StepAt(run, actions, q - 1);
    if p + 1 < q {
      ErrorKept(run, actions, p, q - 1, i, err);
      InvRun(run, actions, q - 1);
      assert actions[q - 1].Launch? ==> ServiceOK(run[q - 1], run[q - 1].phase.next);
    }
  }

  /** A Start that returned an error is reported to have failed, with that error, exactly when svcCtx
    * is live at the check; otherwise nothing is ever said of it.
    */
  lemma FailureIsReportedIff(run: seq<State>, actions: seq<Action>, p: nat, q: nat, n: nat, i: nat, err: nat)
    requires Run(run, actions) && p < q < |actions| && q < n < |run|
    requires actions[p] == ReturnErr(i, err) && actions[q] == Check(i) && forall m | p < m < q :: actions[m] != Check(i)
    ensures StartFailed(i, err) in run[n].log <==> Canceled !in run[q].log && ContextEnded !in run[q].log
    ensures NotFailed(run[n].log, i) || StartFailed(i, err) in run[n].log
    decreases n
  {
    if q + 1 < n {
      FailureIsReportedIff(run, actions, p, q, n - 1, i, err);
      StaysReported(run, actions, n - 1, i);
      CheckedNoMore(run, actions, q, n - 1, i);
    } else {
      ErrorKept(run, actions, p, q, i, err);
      InvRun(run, actions, q);
      assert StepAt(run, actions, q);
      CheckReports(run[q], i, err);
    }
  }

  lemma CheckReports(s: State, i: nat, err: nat)
    requires ServicesOK(s) && Is(s, i, Checking(err))
    ensures StartFailed(i, err) in Next(s, Check(i)).log <==> Canceled !in s.log && ContextEnded !in s.log
    ensures NotFailed(Next(s, Check(i)).log, i) || StartFailed(i, err) in Next(s, Check(i)).log
  {
    assert ServiceOK(s, i);
  }

  lemma CheckedNoMore(run: seq<State>, actions: seq<Action>, q: nat, n: nat, i: nat)
    requires Run(run, actions) && q < n < |actions| && actions[q] == Check(i)
    ensures actions[n] != Check(i)
  {
    CheckedOnce(run, actions, q, n, i);
    assert StepAt(run, actions, n);
  }

  predicate PastCheck(s: State, i: nat) {
    i < |s.services| && (s.services[i].Sending? || s.services[i] == Done)
  }

  lemma PastCheckNext(s: State, a: Action, i: nat)
    requires ServicesOK(s) && Enabled(s, a) && PastCheck(s, i)
    ensures PastCheck(Next(s, a), i)
  {
    assert a.Launch? ==> ServiceOK(s, s.phase.next);
  }

  /** Past its check a goroutine is sending or done. */
  lemma {:induction false} CheckedOnce(run: seq<State>, actions: seq<Action>, q: nat, n: nat, i: nat)
    requires Run(run, actions) && q < |actions| && q < n < |run| && actions[q] == Check(i)
    ensures PastCheck(run[n], i)
    decreases n
  {
    assert StepAt(run, actions, n - 1);
    if q + 1 < n {
      CheckedOnce(run, actions, q, n - 1, i);
      InvRun(run, actions, n - 1);
      PastCheckNext(run[n - 1], actions[n - 1], i);
    }
  }

  lemma StaysReported(run: seq<State>, actions: seq<Action>, n: nat, i: nat)
    requires Run(run, actions) && n < |actions|
    ensures run[n].log <= run[n + 1].log
    ensures forall err: nat :: StartFailed(i, err) in run[n + 1].log && StartFailed(i, err) !in run[n].log ==>
              actions[n] == Check(i)
  {
    assert StepAt(run, actions, n);
  }

  /** A call of Shutdown, the parent's end, a caught signal and the deadline each leave their mark for good. */
  lemma {:induction false} OutsideIsHeard(run: seq<State>, actions: seq<Action>, p: nat, n: nat)
    requires Run(run, actions) && p < |actions| && p < n < |run|
    ensures actions[p] == CallShutdown ==> ShutdownCalled in run[n].log
    ensures actions[p] == EndContext ==> ContextEnded in run[n].log
    ensures actions[p] == Deliver ==> Signaled in run[n].log
    ensures actions[p] == PassDeadline ==> DeadlinePassed in run[n].log
    decreases n
  {
    assert StepAt(run, actions, n - 1);
    if p + 1 < n {
      OutsideIsHeard(run, actions, p, n - 1);
    }
  }

  /** No goroutine is held up but by what it has called, and nothing outside is shut out: a signal comes
    * if signals are caught, the deadline can pass once there is one.
    */
  lemma GoroutinesGoOn(s: State, i: nat, err: nat)
    requires ServicesOK(s) && StoppersOK(s) && i < N(s)
    ensures s.services[i] == Launched ==> Enabled(s, CallStart(i)) && Next(s, CallStart(i)).services[i] == Started
    ensures s.services[i] == Started ==> Enabled(s, ReturnNil(i)) && Next(s, ReturnNil(i)).services[i] == Done
    ensures s.services[i] == Started ==>
              Enabled(s, ReturnErr(i, err)) && Next(s, ReturnErr(i, err)).services[i] == Checking(err)
    ensures s.services[i].Checking? ==> Enabled(s, Check(i))
    ensures s.stoppers[i] == StopRunning ==>
              Enabled(s, ReturnStop(i)) && Next(s, ReturnStop(i)).stoppers[i] == StopDone
    ensures Enabled(s, EndContext) && Enabled(s, CallShutdown) && (Enabled(s, Deliver) <==> s.cfg.signals)
    ensures Enabled(s, PassDeadline) <==> StopPhase(s.phase)
  {
  }

  // ---------- No hook is left out ----------

  predicate LastRan(cfg: Config, log: seq<Event>, stage: Stage) {
    HookCount(cfg, stage) > 0 ==> HookRan(stage, HookCount(cfg, stage) - 1, true) in log
  }

  ghost predicate SomeFailed(cfg: Config, log: seq<Event>, stage: Stage) {
    exists k: nat :: k < HookCount(cfg, stage) && HookRan(stage, k, false) in log
  }

  ghost predicate StagesOK(s: State) {
    && (s.phase == Waiting || Selected(s.phase) ==> LastRan(s.cfg, s.log, AfterStart))
    && (s.phase.Stopping? || StopsLaunched(s.phase) ==>
          LastRan(s.cfg, s.log, BeforeStop) || SomeFailed(s.cfg, s.log, BeforeStop))
    && (s.phase == Returned ==> LastRan(s.cfg, s.log, AfterStop) || SomeFailed(s.cfg, s.log, AfterStop))
    && (s.phase.Aborted? ==> SomeFailed(s.cfg, s.log, s.phase.stage))
  }

  lemma FailedStays(s: State, a: Action, stage: Stage)
    requires Enabled(s, a)
    ensures SomeFailed(s.cfg, s.log, stage) ==> SomeFailed(s.cfg, Next(s, a).log, stage)
    ensures LastRan(s.cfg, s.log, stage) ==> LastRan(s.cfg, Next(s, a).log, stage)
    ensures a == RunHook(false) && s.phase.stage == stage ==> SomeFailed(s.cfg, Next(s, a).log, stage)
  {
    if a == RunHook(false) && s.phase.stage == stage {
      assert HookRan(stage, s.phase.next, false) in Next(s, a).log;
    }
  }

  lemma StagesNext(s: State, a: Action)
    requires StagesOK(s) && HooksOK(s) && Enabled(s, a)
    ensures StagesOK(Next(s, a))
  {
    forall stage
      ensures SomeFailed(s.cfg, s.log, stage) ==> SomeFailed(s.cfg, Next(s, a).log, stage)
      ensures LastRan(s.cfg, s.log, stage) ==> LastRan(s.cfg, Next(s, a).log, stage)
      ensures a == RunHook(false) && s.phase.stage == stage ==> SomeFailed(s.cfg, Next(s, a).log, stage)
    {
      FailedStays(s, a, stage);
    }
  }

  lemma {:induction false} StagesInRun(run: seq<State>, actions: seq<Action>, n: nat)
    requires Run(run, actions) && n < |run|
    ensures StagesOK(run[n])
  {
    if n > 0 {
      StagesInRun(run, actions, n - 1);
      InvRun(run, actions, n - 1);
      assert StepAt(run, actions, n - 1);
      StagesNext(run[n - 1], actions[n - 1]);
    }
  }

  ghost predicate AllRan(cfg: Config, log: seq<Event>, stage: Stage) {
    forall k: nat | k < HookCount(cfg, stage) :: HookRan(stage, k, true) in log
  }

  /** Hook k of the stage failed, and all before it had succeeded. */
  ghost predicate RanUpTo(cfg: Config, log: seq<Event>, stage: Stage, k: nat) {
    && k < HookCount(cfg, stage) && HookRan(stage, k, false) in log
    && forall j: nat | j < k :: HookRan(stage, j, true) in log
  }

  lemma StageExpanded(cfg: Config, log: seq<Event>, stage: Stage)
    requires Ordered(cfg, log)
    ensures LastRan(cfg, log, stage) ==> AllRan(cfg, log, stage)
    ensures SomeFailed(cfg, log, stage) ==> exists k: nat :: RanUpTo(cfg, log, stage, k)
  {
    if LastRan(cfg, log, stage) && HookCount(cfg, stage) > 0 {
      var q: nat :| q < |log| && log[q] == HookRan(stage, HookCount(cfg, stage) - 1, true);
      forall k: nat | k < HookCount(cfg, stage) ensures HookRan(stage, k, true) in log {
        if k < log[q].k {
          EarlierHooksRan(cfg, log, q, k);
        }
      }
    }
    if k: nat :| k < HookCount(cfg, stage) && HookRan(stage, k, false) in log {
      var q: nat :| q < |log| && log[q] == HookRan(stage, k, false);
      forall j: nat | j < k ensures HookRan(stage, j, true) in log {
        EarlierHooksRan(cfg, log, q, j);
      }
      assert RanUpTo(cfg, log, stage, k);
    }
  }

  /** Every hook of a stage that Run has left has run, up to the first failure; a failed PreStart or
    * PostStart hook aborts Run, and no such hook has failed in a run that goes on to wait.
    */
  lemma NoHookLeftOut(run: seq<State>, actions: seq<Action>, n: nat)
    requires Run(run, actions) && n < |run|
    ensures var s := run[n];
      && (s.phase == Waiting || Selected(s.phase) ==> AllRan(s.cfg, s.log, AfterStart))
      && (PastPreStart(s.phase) ==> AllRan(s.cfg, s.log, BeforeStart))
      && (s.phase.Stopping? || StopsLaunched(s.phase) ==>
            AllRan(s.cfg, s.log, BeforeStop) || exists k: nat :: RanUpTo(s.cfg, s.log, BeforeStop, k))
      && (s.phase == Returned ==>
            AllRan(s.cfg, s.log, AfterStop) || exists k: nat :: RanUpTo(s.cfg, s.log, AfterStop, k))
      && (s.phase.Aborted? ==> exists k: nat :: RanUpTo(s.cfg, s.log, s.phase.stage, k))
  {
    var s := run[n];
    InvRun(run, actions, n);
    StagesInRun(run, actions, n);
    StageExpanded(s.cfg, s.log, BeforeStart);
    StageExpanded(s.cfg, s.log, AfterStart);
    StageExpanded(s.cfg, s.log, BeforeStop);
    StageExpanded(s.cfg, s.log, AfterStop);
  }

  // ---------- The cause taken, and the services awaited ----------

  /** The answer is the trigger that Run's select took. */
  lemma {:induction false} AnswerIsTaken(run: seq<State>, actions: seq<Action>, n: nat)
    requires Run(run, actions) && n < |run| && Selected(run[n].phase)
    ensures exists p: nat :: p < n && actions[p] == Select(run[n].cause) && Triggered(run[p], run[n].cause)
  {
    assert n > 0;
    assert StepAt(run, actions, n - 1);
    if Selected(run[n - 1].phase) {
      AnswerIsTaken(run, actions, n - 1);
    } else {
      assert actions[n - 1] == Select(run[n].cause) && Triggered(run[n - 1], run[n].cause);
    }
  }

  /** Once every service's goroutine and every Stop has ended, two steps close allDone and let Run go on. */
  lemma AllDoneIsClosed(s: State)
    requires Inv(s) && s.phase == Awaiting && StartsAreDone(s) && StopsAreDone(s)
    ensures s.waiter == ForStarts ==> Enabled(s, StartsDone) && Next(s, StartsDone) == s.(waiter := ForStops)
    ensures s.waiter == ForStops ==> Enabled(s, StopsDone) && Next(s, StopsDone) == s.(waiter := AllDone)
    ensures s.waiter == AllDone ==> Enabled(s, Proceed)
    ensures s.waiter != NoWaiter
  {
  }

  // ---------- Termination ----------

  /** The most steps Run can still take. */
  function Rank(phase: Phase, cfg: Config): int {
    var n := |cfg.stoppable|;
    match phase
    case Hooks(AfterStop, k) => cfg.postStop - k + 1
    case Awaiting => cfg.postStop + 2
    case Stopping(k) => n - k + cfg.postStop + 3
    case Hooks(BeforeStop, k) => cfg.preStop - k + n + cfg.postStop + 4
    case Canceling => cfg.preStop + n + cfg.postStop + 5
    case Waiting => cfg.preStop + n + cfg.postStop + 6
    case Hooks(AfterStart, k) => cfg.postStart - k + cfg.preStop + n + cfg.postStop + 7
    case Launching(k) => n - k + cfg.postStart + cfg.preStop + n + cfg.postStop + 8
    case Hooks(BeforeStart, k) => cfg.preStart - k + n + cfg.postStart + cfg.preStop + n + cfg.postStop + 9
    case Aborted(_) => 0
    case Returned => 0
  }

  lemma RankNext(s: State, a: Action)
    requires HooksOK(s) && ServicesOK(s) && StoppersOK(s) && Enabled(s, a)
    ensures 0 <= Rank(Next(s, a).phase, s.cfg)
    ensures if ByRun(a) then Rank(Next(s, a).phase, s.cfg) < Rank(s.phase, s.cfg) else Next(s, a).phase == s.phase
  {
  }

  /** Run waits in two places only: for a trigger, and for the services or the deadline. */
  lemma RunWaitsIff(s: State)
    requires Inv(s)
    ensures (exists a :: ByRun(a) && Enabled(s, a)) <==>
              && !s.phase.Aborted? && s.phase != Returned
              && (s.phase == Waiting ==> ShutdownCalled in s.log || ContextEnded in s.log || s.signal || s.errs != [])
              && (s.phase == Awaiting ==> s.waiter == AllDone || DeadlinePassed in s.log)
  {
    if s.phase == Waiting {
      var c := if ShutdownCalled in s.log then Shutdown else if ContextEnded in s.log then Context
               else if s.signal then Signal else if s.errs != [] then s.errs[0] else Shutdown;
      assert s.errs != [] ==> s.errs[0] in s.errs;
      assert Enabled(s, Select(c)) <==> ShutdownCalled in s.log || ContextEnded in s.log || s.signal || s.errs != [];
    } else {
      var a := match s.phase
        case Hooks(stage, k) => if k < HookCount(s.cfg, stage) then RunHook(true) else Advance
        case Launching(k) => if k < N(s) then Launch else Advance
        case Canceling => Cancel
        case Stopping(k) => if k < N(s) then LaunchStop else Advance
        case _ => Proceed;
      assert ByRun(a);
    }
  }

  function RunSteps(actions: seq<Action>, i: nat, j: nat): nat
    requires i <= j <= |actions|
    decreases j
  {
    if i == j then 0 else RunSteps(actions, i, j - 1) + if ByRun(actions[j - 1]) then 1 else 0
  }

  /** Once a trigger is taken and the deadline has passed, Run returns within Rank steps of its own
    * whatever the services do: at every moment until then it can take its next step.
    */
  lemma {:induction false} RunTerminates(run: seq<State>, actions: seq<Action>, i: nat, j: nat)
    requires Run(run, actions) && i <= j < |run|
    ensures RunSteps(actions, i, j) + Rank(run[j].phase, run[0].cfg) <= Rank(run[i].phase, run[0].cfg)
    ensures Expired(run[i]) ==> Expired(run[j])
    ensures Expired(run[i]) ==> run[j].phase == Returned || exists a :: ByRun(a) && Enabled(run[j], a)
    decreases j
  {
    InvRun(run, actions, j);
    RunWaitsIff(run[j]);
    if i < j {
      RunTerminates(run, actions, i, j - 1);
      RankInRun(run, actions, j - 1);
    }
  }

  /** The deadline for stopping has passed. */
  predicate Expired(s: State) {
    StopPhase(s.phase) && DeadlinePassed in s.log
  }

  lemma RankInRun(run: seq<State>, actions: seq<Action>, i: nat)
    requires Run(run, actions) && i < |actions|
    ensures Rank(run[i + 1].phase, run[0].cfg) + (if ByRun(actions[i]) then 1 else 0) <= Rank(run[i].phase, run[0].cfg)
    ensures Expired(run[i]) ==> Expired(run[i + 1])
  {
    InvRun(run, actions, i);
    assert StepAt(run, actions, i);
    RankNext(run[i], actions[i]);
  }

  // ---------- PostStart hooks ----------

  /** WithPostStart's promise at the moment of action a. */
  ghost predicate HooksAfterStarts(s: State, a: Action) {
    a.RunHook? && s.phase.Hooks? && s.phase.stage == AfterStart ==> forall i: nat | i < N(s) :: StartCalled(i) in s.log
  }

  ghost predicate Reachable(s: State) {
    exists run, actions :: Run(run, actions) && run[|actions|] == s
  }

  lemma RunGrows(run: seq<State>, actions: seq<Action>, a: Action)
    requires Run(run, actions) && Enabled(run[|actions|], a)
    ensures Run(run + [Next(run[|actions|], a)], actions + [a])
  {
    forall i | 0 <= i < |actions + [a]| ensures StepAt(run + [Next(run[|actions|], a)], actions + [a], i) {
      assert i < |actions| ==> StepAt(run, actions, i);
    }
  }

  lemma ReachableNext(s: State, a: Action)
    requires Reachable(s) && Enabled(s, a)
    ensures Reachable(Next(s, a))
  {
    var run, actions :| Run(run, actions) && run[|actions|] == s;
    RunGrows(run, actions, a);
    assert (run + [Next(s, a)])[|actions + [a]|] == Next(s, a);
  }

  /** Run goes ahead alone: hooks succeed, goroutines are launched, and none is scheduled. */
  lemma {:induction false} RunAhead(s: State) returns (s': State)
    requires Reachable(s) && Inv(s) && (s.phase.Launching? || s.phase == Hooks(AfterStart, 0)
      || (s.phase.Hooks? && s.phase.stage == BeforeStart)) && forall i: nat :: StartCalled(i) !in s.log
    ensures Reachable(s') && s'.cfg == s.cfg && s'.phase == Hooks(AfterStart, 0)
    ensures forall i: nat :: StartCalled(i) !in s'.log
    decreases Rank(s.phase, s.cfg)
  {
    if s.phase == Hooks(AfterStart, 0) {
      s' := s;
    } else {
      var a := if s.phase.Launching? then (if s.phase.next < N(s) then Launch else Advance)
               else if s.phase.next < s.cfg.preStart then RunHook(true) else Advance;
      ReachableNext(s, a);
      InvNext(s, a);
      RankNext(s, a);
      RankNext(Next(s, a), EndContext);
      s' := RunAhead(Next(s, a));
    }
  }

  /** WithPostStart promises its hooks run after all services have started. Run only launches the
    * goroutines that will call Start, so the promise holds of a configuration exactly when it has
    * nothing to start or no such hook.
    */
  lemma PostStartAfterStartsIff(cfg: Config)
    ensures (forall s, a | Reachable(s) && s.cfg == cfg && Enabled(s, a) :: HooksAfterStarts(s, a))
            <==> cfg.stoppable == [] || cfg.postStart == 0
  {
    if cfg.stoppable != [] && cfg.postStart > 0 {
      var n := |cfg.stoppable|;
      var s0 := State(cfg, Hooks(BeforeStart, 0), seq(n, _ => Unlaunched), seq(n, _ => NotStopping),
                      [], NoWaiter, false, Shutdown, []);
      assert Run([s0], []) && [s0][0] == s0;
      InvInit(s0);
      var s := RunAhead(s0);
      assert Enabled(s, RunHook(true)) && !HooksAfterStarts(s, RunHook(true)) by {
        assert StartCalled(0) !in s.log;
      }
    }
  }

  // ---------- Run itself ----------

  /** What Run's code cannot decide: which hooks fail, which ready case select takes, and what the
    * services and the outside do before Run's k-th step.
    */
  datatype World = World(succeeds: (Stage, nat) -> bool, others: nat -> seq<Action>, pick: nat)

  datatype Answer = HookFailed(stage: Stage) | Answered(cause: Cause) | StillWaiting

  predicate AllSucceed(w: World, cfg: Config, stage: Stage) {
    forall k: nat | k < HookCount(cfg, stage) :: w.succeeds(stage, k)
  }

  lemma Sizes(run: seq<State>, actions: seq<Action>)
    requires Run(run, actions)
    ensures var s := run[|actions|]; |s.services| == N(s) && |s.stoppers| == N(s)
  {
    InvRun(run, actions, |actions|);
  }

  /** The cases of the first select that are ready. */
  function ReadyCases(s: State): seq<Cause> {
    (if ContextEnded in s.log then [Context] else []) + (if s.signal then [Signal] else [])
    + (if s.errs != [] then [s.errs[0]] else []) + (if ShutdownCalled in s.log then [Shutdown] else [])
  }

  lemma SelectTakesReady(run: seq<State>, actions: seq<Action>, k: nat)
    requires Run(run, actions) && run[|actions|].phase == Waiting
    ensures var s := run[|actions|]; ReadyCases(s) == [] ==> Stuck(s)
    ensures var s := run[|actions|]; k < |ReadyCases(s)| ==> Enabled(s, Select(ReadyCases(s)[k]))
  {
    var s := run[|actions|];
    InvRun(run, actions, |actions|);
    RunWaitsIff(s);
    assert s.errs != [] ==> s.errs[0] in s.errs;
  }

  lemma AwaitStuckIff(run: seq<State>, actions: seq<Action>)
    requires Run(run, actions) && run[|actions|].phase == Awaiting
    ensures var s := run[|actions|]; Stuck(s) <==> s.waiter != AllDone && DeadlinePassed !in s.log
  {
    InvRun(run, actions, |actions|);
    RunWaitsIff(run[|actions|]);
  }

  /** Run has no step to take. */
  ghost predicate Stuck(s: State) {
    forall a :: !(ByRun(a) && Enabled(s, a))
  }

  /** Where Run may have ended. */
  lemma EndedRun(run: seq<State>, actions: seq<Action>)
    requires Run(run, actions)
    ensures var s := run[|actions|];
      && (s.phase.Aborted? ==> NoStop(s.cfg, s.log))
      && (s.phase == Returned ==> exists p: nat :: CanceledFor(s, p))
      && (s.phase == Returned ==>
            AllStopsLaunched(s.cfg, s.log) && (DeadlinePassed in s.log || AllReturned(s.cfg, s.log)))
  {
    var s := run[|actions|];
    InvRun(run, actions, |actions|);
    StopsByPhase(s);
    if s.waiter == AllDone {
      AllDoneIsAllReturned(s);
    }
    if s.phase.Aborted? {
      forall i: nat | i < N(s) ensures StopLaunched(i) !in s.log {
        assert StopperOK(s, i);
      }
    }
  }

  /** The Stops of a run that has come to its wait. */
  lemma StopsKnown(run: seq<State>, actions: seq<Action>)
    requires Run(run, actions) && run[|actions|].phase == Awaiting
    ensures var s := run[|actions|];
      && AllStopsLaunched(s.cfg, s.log) && |s.stoppers| == N(s)
      && forall i: nat | i < |s.stoppers| :: s.stoppers[i] != NotStopping <==> s.cfg.stoppable[i]
  {
    var s := run[|actions|];
    InvRun(run, actions, |actions|);
    StopsByPhase(s);
    forall i: nat | i < |s.stoppers| ensures s.stoppers[i] != NotStopping <==> s.cfg.stoppable[i] {
      assert StopperOK(s, i);
    }
  }

  lemma Launches(s: State)
    requires Enabled(s, Launch)
    ensures Next(s, Launch) == s.(
      services := s.services[s.phase.next := Launched], phase := Launching(s.phase.next + 1))
  {
  }

  lemma LaunchesStop(s: State)
    requires Enabled(s, LaunchStop)
    ensures var k := s.phase.next; Next(s, LaunchStop) == s.(phase := Stopping(k + 1),
      stoppers := if s.cfg.stoppable[k] then s.stoppers[k := StopRunning] else s.stoppers,
      log := if s.cfg.stoppable[k] then s.log + [StopLaunched(k)] else s.log)
  {
  }

  lemma Selects(s: State, c: Cause)
    requires Enabled(s, Select(c))
    ensures Next(s, Select(c)) == s.(phase := Canceling, cause := c, signal := s.signal && !c.Signal?,
      errs := if c.ServiceError? then s.errs[1..] else s.errs)
  {
  }

  lemma Advances(s: State)
    requires Enabled(s, Advance)
    ensures Next(s, Advance) == s.(phase := NextPhase(s, Advance), waiter := NextWaiter(s, Advance))
  {
  }

  lemma Hook(s: State, ok: bool)
    requires Enabled(s, RunHook(ok))
    ensures Next(s, RunHook(ok)) == s.(phase := NextPhase(s, RunHook(ok)), log := s.log + Happens(s, RunHook(ok)))
  {
  }

  class Entrypoint {
    const cfg: Config
    var phase: Phase
    var services: seq<Service>
    var stoppers: seq<Stopper>
    var errs: seq<Cause>
    var waiter: Waiter
    var signal: bool
    var cause: Cause
    var log: seq<Event>
    var clock: nat
    ghost var run: seq<State>
    ghost var actions: seq<Action>

    function Abs(): State
      reads this
    {
      State(cfg, phase, services, stoppers, errs, waiter, signal, cause, log)
    }

    /** run is how the object came to its state. */
    ghost predicate Valid()
      reads this
    {
      Run(run, actions) && run[|actions|] == Abs()
    }

    constructor (cfg: Config)
      ensures Valid() && Init(Abs()) && this.cfg == cfg
    {
      this.cfg, phase, errs, waiter := cfg, Hooks(BeforeStart, 0), [], NoWaiter;
      services := seq(|cfg.stoppable|, _ => Unlaunched);
      stoppers := seq(|cfg.stoppable|, _ => NotStopping);
      signal, cause, log, clock := false, Shutdown, [], 0;
      actions := [];
      new;
      run := [Abs()];
    }

    ghost method Record(s: State, a: Action)
      requires Run(run, actions) && run[|actions|] == s && Enabled(s, a) && Abs() == Next(s, a)
      modifies this`run, this`actions
      ensures Valid()
    {
      RunGrows(run, actions, a);
      run, actions := run + [Next(s, a)], actions + [a];
    }

    /** The services, their Stops and the outside take their steps. */
    method Others(w: World)
      requires Valid()
      modifies this
      ensures Valid() && phase == old(phase)
    {
      var todo := w.others(clock);
      clock := clock + 1;
      for i := 0 to |todo|
        invariant Valid() && phase == old(phase)
      {
        if !ByRun(todo[i]) && Enabled(Abs(), todo[i]) {
          Other(todo[i]);
        }
      }
    }

    method Other(a: Action)
      requires Valid() && !ByRun(a) && Enabled(Abs(), a)
      modifies this
      ensures Valid() && phase == old(phase) && clock == old(clock)
    {
      var s := Abs();
      services, stoppers, errs := NextServices(s, a), NextStoppers(s, a), NextErrs(s, a);
      waiter, signal, log := NextWaiter(s, a), signal || a.Deliver?, log + Happens(s, a);
      Record(s, a);
    }

    method RunHooks(w: World, stage: Stage) returns (ok: bool)
      requires Valid() && phase == Hooks(stage, 0)
      modifies this
      ensures Valid() && (ok <==> AllSucceed(w, cfg, stage))
      ensures ok ==> phase == Hooks(stage, HookCount(cfg, stage))
      ensures !ok ==> phase == match stage {
        case BeforeStart => Aborted(stage) case AfterStart => Aborted(stage)
        case BeforeStop => Stopping(0) case AfterStop => Returned }
    {
      var k := 0;
      while k < HookCount(cfg, stage)
        invariant Valid() && k <= HookCount(cfg, stage) && phase == Hooks(stage, k)
        invariant forall j: nat | j < k :: w.succeeds(stage, j)
      {
        Others(w);
        var s, good := Abs(), w.succeeds(stage, k);
        Hook(s, good);
        log := log + [HookRan(stage, k, good)];
        if !good {
          phase := match stage
            case BeforeStart => Aborted(stage) case AfterStart => Aborted(stage)
            case BeforeStop => Stopping(0) case AfterStop => Returned;
          if stage == AfterStart {
            log := log + [Canceled];
          }
          Record(s, RunHook(false));
          return false;
        }
        phase := Hooks(stage, k + 1);
        Record(s, RunHook(true));
        k := k + 1;
      }
      ok := true;
    }

    method Go(next: Phase)
      requires Valid() && Enabled(Abs(), Advance) && next == NextPhase(Abs(), Advance) && !phase.Stopping?
      modifies this
      ensures Valid() && phase == next
    {
      var s := Abs();
      Advances(s);
      phase := next;
      Record(s, Advance);
    }

    method StartServices(w: World)
      requires Valid() && phase == Launching(0)
      modifies this
      ensures Valid() && phase == Hooks(AfterStart, 0)
    {
      for k := 0 to |cfg.stoppable|
        invariant Valid() && phase == Launching(k)
      {
        Others(w);
        Sizes(run, actions);
        var s := Abs();
        Launches(s);
        services, phase := services[k := Launched], Launching(k + 1);
        Record(s, Launch);
      }
      Sizes(run, actions);
      Go(Hooks(AfterStart, 0));
    }

    /** The first select. False: no case is ready yet. */
    method AwaitTrigger(w: World) returns (taken: bool)
      requires Valid() && phase == Waiting
      modifies this
      ensures Valid() && phase == if taken then Canceling else Waiting
      ensures !taken ==> Stuck(Abs())
    {
      Others(w);
      var s := Abs();
      var ready := ReadyCases(s);
      taken := ready != [];
      SelectTakesReady(run, actions, if taken then w.pick % |ready| else 0);
      if taken {
        cause, phase := ready[w.pick % |ready|], Canceling;
        Selects(s, cause);
        if cause.Signal? {
          signal := false;
        } else if cause.ServiceError? {
          errs := errs[1..];
        }
        Record(s, Select(cause));
      }
    }

    method StopServices(w: World)
      requires Valid() && phase == Stopping(0)
      modifies this
      ensures Valid() && phase == Awaiting && waiter == ForStarts
      ensures AllStopsLaunched(cfg, log) && |stoppers| == |cfg.stoppable|
      ensures forall i: nat | i < |stoppers| :: stoppers[i] != NotStopping <==> cfg.stoppable[i]
    {
      for k := 0 to |cfg.stoppable|
        invariant Valid() && phase == Stopping(k)
      {
        Others(w);
        Sizes(run, actions);
        var s := Abs();
        LaunchesStop(s);
        if cfg.stoppable[k] {
          stoppers, log := stoppers[k := StopRunning], log + [StopLaunched(k)];
        }
        phase := Stopping(k + 1);
        Record(s, LaunchStop);
      }
      Sizes(run, actions);
      var s := Abs();
      Advances(s);
      phase, waiter := Awaiting, ForStarts;
      Record(s, Advance);
      StopsKnown(run, actions);
    }

    /** From svcCancel to the launch of every Stop. */
    method Cancel(w: World)
      requires Valid() && phase == Canceling
      modifies this
      ensures Valid() && phase == Awaiting
    {
      var s := Abs();
      phase, log := Hooks(BeforeStop, 0), log + [Canceled];
      Record(s, Action.Cancel);
      var ok := RunHooks(w, BeforeStop);
      if ok {
        Go(Stopping(0));
      }
      StopServices(w);
    }

    /** The second select and what follows. False: not every service is done and time is left. */
    method Finish(w: World) returns (done: bool)
      requires Valid() && phase == Awaiting
      modifies this
      ensures Valid() && phase == if done then Returned else Awaiting
      ensures !done ==> Stuck(Abs())
    {
      Others(w);
      AwaitStuckIff(run, actions);
      done := waiter == AllDone || DeadlinePassed in log;
      if done {
        var s := Abs();
        phase := Hooks(AfterStop, 0);
        Record(s, Proceed);
        var ok := RunHooks(w, AfterStop);
        if ok {
          Go(Returned);
        }
      }
    }

    /** Run in any world: it fails with a hook's error exactly when such a hook fails, else it
      * waits where it has no step to take, or returns a cause that came before svcCancel.
      */
    method RunToEnd(w: World) returns (r: Answer)
      requires Valid() && phase == Hooks(BeforeStart, 0)
      modifies this
      ensures Valid()
      ensures r == HookFailed(BeforeStart) <==> !AllSucceed(w, cfg, BeforeStart)
      ensures r == HookFailed(AfterStart) <==> AllSucceed(w, cfg, BeforeStart) && !AllSucceed(w, cfg, AfterStart)
      ensures r.HookFailed? ==> phase == Aborted(r.stage) && NoStop(cfg, log)
      ensures r.StillWaiting? ==> Stuck(Abs())
      ensures r.Answered? ==> phase == Returned && r.cause == cause && exists p: nat :: CanceledFor(Abs(), p)
      ensures r.Answered? ==> AllStopsLaunched(cfg, log) && (DeadlinePassed in log || AllReturned(cfg, log))
    {
      r := HookFailed(BeforeStart);
      var ok := RunHooks(w, BeforeStart);
      if ok {
        Go(Launching(0));
        StartServices(w);
        r := HookFailed(AfterStart);
        ok := RunHooks(w, AfterStart);
      }
      if ok {
        r := StillWaiting;
        Go(Waiting);
        var taken := AwaitTrigger(w);
        if taken {
          Cancel(w);
          var done := Finish(w);
          r := if done then Answered(cause) else StillWaiting;
        }
      }
      EndedRun(run, actions);
    }
  }
}
