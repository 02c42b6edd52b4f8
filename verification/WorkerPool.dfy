/** The bounded worker pool: a buffered channel of tasks, the workers ranging over it, Start,
  * Stop and Submit, with their steps interleaved in any order.
  */
module WorkerPool {
  import opened Sequences

  // ---------- State ----------

  datatype Worker = Idle | Busy(task: nat) | Exited

  datatype Submission = Blocked | Accepted | Canceled | Stopped

  datatype Phase = Spawning | Serving | Draining | Returned

  /** A Stop call in its select. It is Woken once its helper goroutine's wg.Wait has returned. */
  datatype StopCall = Waiting | Woken | ReturnedNil | TimedOut

  /** A task is named by the Submit call that brings it. accepted, taken and done are history: the
    * tasks in the order they entered the channel, left it, and were finished.
    */
  datatype State = State(
    size: nat, capacity: nat, drain: bool,
    queue: seq<nat>, closed: bool,
    workers: seq<Worker>,
    phase: Phase, ctxDone: bool,
    submits: map<nat, Submission>, submitDone: set<nat>,
    stops: map<nat, StopCall>, stopDone: set<nat>,
    accepted: seq<nat>, taken: seq<nat>, done: seq<nat>)

  ghost predicate Init(s: State) {
    s == State(s.size, s.capacity, s.drain, [], false, [], Spawning, false, map[], {}, map[], {}, [], [], [])
  }

  // ---------- Steps ----------

  datatype Action =
    // Start
    | Spawn | AwaitCtx | CancelCtx | Close | Join
    // Submit; the t-th call brings task t
    | Submit(t: nat) | SubmitCtxDone(t: nat)
    | Send(t: nat)               // into the buffer
    | Handoff(t: nat, w: nat)    // straight to a waiting worker
    | SendOnClosed(t: nat)       // the recovered panic
    | GiveUp(t: nat)
    // workers
    | Take(w: nat) | Finish(w: nat) | Exit(w: nat)
    // Stop
    | Stop(k: nat) | StopCtxDone(k: nat) | WaitReturns(k: nat) | StopNil(k: nat) | StopTimeout(k: nat)

  predicate WaitGroupZero(workers: seq<Worker>) {
    forall w | 0 <= w < |workers| :: workers[w] == Exited
  }

  predicate Pending(s: State, t: nat) {
    t in s.submits && s.submits[t] == Blocked
  }

  predicate Is(s: State, w: nat, x: Worker) {
    w < |s.workers| && s.workers[w] == x
  }

  predicate Enabled(s: State, a: Action) {
    match a
    case Spawn => s.phase == Spawning && |s.workers| < s.size
    case AwaitCtx => s.phase == Spawning && |s.workers| == s.size
    case CancelCtx => true
    case Close => s.phase == Serving && s.ctxDone
    case Join => s.phase == Draining && WaitGroupZero(s.workers)
    case Submit(t) => t !in s.submits
    case SubmitCtxDone(t) => true
    case Send(t) => Pending(s, t) && !s.closed && |s.queue| < s.capacity
    case Handoff(t, w) => Pending(s, t) && !s.closed && s.queue == [] && Is(s, w, Idle)
    case SendOnClosed(t) => Pending(s, t) && s.closed
    case GiveUp(t) => Pending(s, t) && t in s.submitDone
    case Take(w) => Is(s, w, Idle) && s.queue != []
    case Finish(w) => w < |s.workers| && s.workers[w].Busy?
    case Exit(w) => Is(s, w, Idle) && s.queue == [] && s.closed
    case Stop(k) => k !in s.stops
    case StopCtxDone(k) => true
    case WaitReturns(k) => s.drain && k in s.stops && s.stops[k] == Waiting && WaitGroupZero(s.workers)
    case StopNil(k) => k in s.stops && s.stops[k] == if s.drain then Woken else Waiting
    case StopTimeout(k) => s.drain && k in s.stops && (s.stops[k] == Waiting || s.stops[k] == Woken) && k in s.stopDone
  }

  function NextQueue(s: State, a: Action): seq<nat>
    requires Enabled(s, a)
  {
    match a
    case Send(t) => s.queue + [t]
    case Take(_) => s.queue[1..]
    case _ => s.queue
  }

  function NextWorkers(s: State, a: Action): seq<Worker>
    requires Enabled(s, a)
  {
    match a
    case Spawn => s.workers + [Idle]
    case Handoff(t, w) => s.workers[w := Busy(t)]
    case Take(w) => s.workers[w := Busy(s.queue[0])]
    case Finish(w) => s.workers[w := Idle]
    case Exit(w) => s.workers[w := Exited]
    case _ => s.workers
  }

  function NextPhase(s: State, a: Action): Phase {
    match a
    case AwaitCtx => Serving
    case Close => if s.drain then Draining else Returned
    case Join => Returned
    case _ => s.phase
  }

  function NextSubmits(s: State, a: Action): map<nat, Submission> {
    match a
    case Submit(t) => s.submits[t := Blocked]
    case Send(t) => s.submits[t := Accepted]
    case Handoff(t, _) => s.submits[t := Accepted]
    case SendOnClosed(t) => s.submits[t := if t in s.submitDone then Canceled else Stopped]
    case GiveUp(t) => s.submits[t := Canceled]
    case _ => s.submits
  }

  function NextStops(s: State, a: Action): map<nat, StopCall> {
    match a
    case Stop(k) => s.stops[k := Waiting]
    case WaitReturns(k) => s.stops[k := Woken]
    case StopNil(k) => s.stops[k := ReturnedNil]
    case StopTimeout(k) => s.stops[k := TimedOut]
    case _ => s.stops
  }

  function NextTaken(s: State, a: Action): seq<nat>
    requires Enabled(s, a)
  {
    match a
    case Handoff(t, _) => s.taken + [t]
    case Take(_) => s.taken + [s.queue[0]]
    case _ => s.taken
  }

  /** The state after action a, field by field. */
  function Next(s: State, a: Action): State
    requires Enabled(s, a)
  {
    State(s.size, s.capacity, s.drain,
      NextQueue(s, a), s.closed || a.Close?,
      NextWorkers(s, a),
      NextPhase(s, a), s.ctxDone || a.CancelCtx?,
      NextSubmits(s, a), if a.SubmitCtxDone? then s.submitDone + {a.t} else s.submitDone,
      NextStops(s, a), if a.StopCtxDone? then s.stopDone + {a.k} else s.stopDone,
      if a.Send? || a.Handoff? then s.accepted + [a.t] else s.accepted,
      NextTaken(s, a),
      if a.Finish? then s.done + [s.workers[a.w].task] else s.done)
  }

  predicate ByWorker(a: Action) {
    a.Take? || a.Finish? || a.Exit?
  }

  predicate StepAt(run: seq<State>, actions: seq<Action>, i: nat)
    requires i < |actions| && |run| == |actions| + 1
  {
    Enabled(run[i], actions[i]) && run[i + 1] == Next(run[i], actions[i])
  }

  ghost predicate Run(run: seq<State>, actions: seq<Action>) {
    && |run| == |actions| + 1 && Init(run[0])
    && forall i | 0 <= i < |actions| :: StepAt(run, actions, i)
  }

  // ---------- Conservation ----------

  function Carries(x: Worker, t: nat): nat {
    if x == Busy(t) then 1 else 0
  }

  /** How many of the first n workers are running t. */
  function Running(workers: seq<Worker>, n: nat, t: nat): nat
    requires n <= |workers|
  {
    if n == 0 then 0 else Running(workers, n - 1, t) + Carries(workers[n - 1], t)
  }

  lemma {:induction false} RunningSame(workers: seq<Worker>, workers': seq<Worker>, n: nat, t: nat)
    requires n <= |workers| && n <= |workers'| && forall i | 0 <= i < n :: workers'[i] == workers[i]
    ensures Running(workers, n, t) == Running(workers', n, t)
  {
    if n > 0 {
      RunningSame(workers, workers', n - 1, t);
    }
  }

  lemma {:induction false} RunningUpdate(workers: seq<Worker>, w: nat, x: Worker, n: nat, t: nat)
    requires w < n <= |workers|
    ensures Running(workers[w := x], n, t) + Carries(workers[w], t) == Running(workers, n, t) + Carries(x, t)
  {
    if w < n - 1 {
      RunningUpdate(workers, w, x, n - 1, t);
    } else {
      RunningSame(workers, workers[w := x], n - 1, t);
    }
  }

  lemma {:induction false} NoneRunning(workers: seq<Worker>, n: nat, t: nat)
    requires n <= |workers| && WaitGroupZero(workers)
    ensures Running(workers, n, t) == 0
  {
    if n > 0 {
      NoneRunning(workers, n - 1, t);
    }
  }

  /** What was accepted is what was taken followed by what is queued. */
  ghost predicate OrderOK(s: State) {
    s.accepted == s.taken + s.queue
  }

  ghost predicate BoundsOK(s: State) {
    |s.queue| <= s.capacity && |s.workers| <= s.size
  }

  /** No task was accepted twice, and Submit has answered nil for exactly the accepted ones. */
  ghost predicate AnswersOK(s: State) {
    && NoDuplicates(s.accepted)
    && (forall t | t in s.submits && s.submits[t] == Accepted :: t in s.accepted)
    && (forall i | 0 <= i < |s.accepted| :: s.accepted[i] in s.submits && s.submits[s.accepted[i]] == Accepted)
  }

  ghost predicate TaskOK(s: State, t: nat) {
    multiset(s.taken)[t] == Running(s.workers, |s.workers|, t) + multiset(s.done)[t]
  }

  /** What was taken is being run or done. */
  ghost predicate TasksOK(s: State) {
    forall t :: TaskOK(s, t)
  }

  lemma OrderNext(s: State, a: Action)
    requires OrderOK(s) && Enabled(s, a)
    ensures OrderOK(Next(s, a))
  {
  }

  lemma BoundsNext(s: State, a: Action)
    requires BoundsOK(s) && Enabled(s, a)
    ensures BoundsOK(Next(s, a))
  {
  }

  lemma AnswersNext(s: State, a: Action)
    requires AnswersOK(s) && Enabled(s, a)
    ensures AnswersOK(Next(s, a))
  {
  }

  /** Whatever a worker turns to, it takes its new task off the channel and its old one to the done. */
  lemma WorkerTurns(s: State, w: nat, x: Worker, s': State)
    requires TasksOK(s) && w < |s.workers| && s'.workers == s.workers[w := x]
    requires s'.taken == s.taken + if x.Busy? then [x.task] else []
    requires s'.done == s.done + if s.workers[w].Busy? then [s.workers[w].task] else []
    ensures TasksOK(s')
  {
    forall t ensures TaskOK(s', t) {
      assert TaskOK(s, t);
      RunningUpdate(s.workers, w, x, |s.workers|, t);
    }
  }

  lemma WorkerSpawned(s: State, s': State)
    requires TasksOK(s) && s'.workers == s.workers + [Idle] && s'.taken == s.taken && s'.done == s.done
    ensures TasksOK(s')
  {
    forall t ensures TaskOK(s', t) {
      assert TaskOK(s, t);
      RunningSame(s.workers, s'.workers, |s.workers|, t);
    }
  }

  lemma WorkersKept(s: State, s': State)
    requires TasksOK(s) && s'.workers == s.workers && s'.taken == s.taken && s'.done == s.done
    ensures TasksOK(s')
  {
    forall t ensures TaskOK(s', t) {
      assert TaskOK(s, t);
    }
  }

  lemma TasksByWorker(s: State, a: Action)
    requires TasksOK(s) && Enabled(s, a) && ByWorker(a)
    ensures TasksOK(Next(s, a))
  {
    var x := if a.Take? then Busy(s.queue[0]) else if a.Finish? then Idle else Exited;
    WorkerTurns(s, a.w, x, Next(s, a));
  }

  lemma TasksNext(s: State, a: Action)
    requires TasksOK(s) && Enabled(s, a)
    ensures TasksOK(Next(s, a))
  {
    if ByWorker(a) {
      TasksByWorker(s, a);
    } else if a.Handoff? {
      WorkerTurns(s, a.w, Busy(a.t), Next(s, a));
    } else if a.Spawn? {
      WorkerSpawned(s, Next(s, a));
    } else {
      WorkersKept(s, Next(s, a));
    }
  }

  // ---------- Lifecycle ----------

  ghost predicate LifeOK(s: State) {
    && (s.phase != Spawning ==> |s.workers| == s.size)
    && (s.closed <==> s.phase == Draining || s.phase == Returned)
    && (forall w | 0 <= w < |s.workers| && s.workers[w] == Exited :: s.closed && s.queue == [])
    && (s.phase == Returned && s.drain ==> WaitGroupZero(s.workers))
    && (s.phase == Draining ==> s.drain)
  }

  lemma LifeNext(s: State, a: Action)
    requires LifeOK(s) && Enabled(s, a)
    ensures LifeOK(Next(s, a))
    ensures s.closed ==> Next(s, a).closed && Next(s, a).accepted == s.accepted
  {
  }

  ghost predicate Inv(s: State) {
    OrderOK(s) && BoundsOK(s) && AnswersOK(s) && TasksOK(s) && LifeOK(s)
  }

  lemma InvNext(s: State, a: Action)
    requires Inv(s) && Enabled(s, a)
    ensures Inv(Next(s, a))
  {
    OrderNext(s, a);
    BoundsNext(s, a);
    AnswersNext(s, a);
    TasksNext(s, a);
    LifeNext(s, a);
  }

  lemma {:induction false} InvRun(run: seq<State>, actions: seq<Action>, i: nat)
    requires Run(run, actions) && i < |run|
    ensures Inv(run[i])
    ensures run[i].size == run[0].size && run[i].capacity == run[0].capacity && run[i].drain == run[0].drain
  {
    if i > 0 {
      InvRun(run, actions, i - 1);
      assert StepAt(run, actions, i - 1);
      InvNext(run[i - 1], actions[i - 1]);
    }
  }

  /** After close the set of accepted tasks is final. */
  lemma {:induction false} ClosedForever(run: seq<State>, actions: seq<Action>, i: nat, j: nat)
    requires Run(run, actions) && i <= j < |run| && run[i].closed
    ensures run[j].closed && run[j].accepted == run[i].accepted
    decreases j
  {
    if i < j {
      ClosedForever(run, actions, i, j - 1);
      InvRun(run, actions, j - 1);
      assert StepAt(run, actions, j - 1);
      LifeNext(run[j - 1], actions[j - 1]);
    }
  }

  // ---------- Draining ----------

  /** No task is waiting or running, and no Submit will ever succeed again. */
  ghost predicate Drained(s: State) {
    s.closed && multiset(s.accepted) == multiset(s.done)
  }

  lemma AllExitedIsDrained(s: State)
    requires Inv(s) && WaitGroupZero(s.workers) && s.workers != []
    ensures Drained(s)
  {
    assert s.workers[0] == Exited;
    assert s.accepted == s.taken;
    forall t ensures multiset(s.accepted)[t] == multiset(s.done)[t] {
      assert TaskOK(s, t);
      NoneRunning(s.workers, |s.workers|, t);
    }
  }

  /** With drain, when Start has returned every task ever accepted is done, then and thereafter. */
  lemma StartReturnsDrained(run: seq<State>, actions: seq<Action>, i: nat, j: nat)
    requires Run(run, actions) && i <= j < |run|
    requires run[0].drain && run[0].size >= 1 && run[i].phase == Returned
    ensures Drained(run[i]) && run[j].closed && run[j].accepted == run[i].accepted
    ensures forall t | t in run[j].submits && run[j].submits[t] == Accepted :: t in run[i].done
  {
    InvRun(run, actions, i);
    InvRun(run, actions, j);
    AllExitedIsDrained(run[i]);
    ClosedForever(run, actions, i, j);
    forall t | t in run[j].submits && run[j].submits[t] == Accepted ensures t in run[i].done {
      assert t in run[i].accepted;
      assert t in multiset(run[i].accepted);
    }
  }

  /** run' and actions' go on from step i of run. */
  ghost predicate GoesOn(run: seq<State>, actions: seq<Action>, i: nat, run': seq<State>, actions': seq<Action>)
    requires i < |actions| && |run| == |actions| + 1
  {
    Run(run', actions') && actions[..i + 1] <= actions' && run[..i + 2] <= run'
  }

  /** At step j Stop k's answer becomes nil. */
  predicate BecomesNil(run: seq<State>, j: nat, k: nat) {
    && j + 1 < |run| && k in run[j].stops && run[j].stops[k] != ReturnedNil
    && k in run[j + 1].stops && run[j + 1].stops[k] == ReturnedNil
  }

  /** However the run goes on, when Stop k answers nil the pool is drained. */
  ghost predicate NilWillMeanDrained(run: seq<State>, actions: seq<Action>, i: nat, k: nat)
    requires i < |actions| && |run| == |actions| + 1
  {
    forall run', actions', j: nat | GoesOn(run, actions, i, run', actions') && BecomesNil(run', j, k) ::
      Drained(run'[j + 1])
  }

  /** The helper of Stop k has come out of its Wait at step p, over workers that had all exited. */
  predicate WokenAt(run: seq<State>, actions: seq<Action>, p: nat, k: nat) {
    p < |actions| && p < |run| && actions[p] == WaitReturns(k) && WaitGroupZero(run[p].workers)
  }

  /** What Stop k's answer rests on. */
  ghost predicate StopTraced(run: seq<State>, actions: seq<Action>, i: nat, k: nat)
    requires i < |run| && k in run[i].stops
  {
    match run[i].stops[k]
    case Waiting => true
    case Woken => run[i].drain && exists p: nat :: p < i && WokenAt(run, actions, p, k)
    case ReturnedNil => run[i].drain ==> exists p: nat :: p < i && WokenAt(run, actions, p, k)
    case TimedOut => run[i].drain && k in run[i].stopDone
  }

  lemma {:induction false} StopTracedInRun(run: seq<State>, actions: seq<Action>, i: nat, k: nat)
    requires Run(run, actions) && i < |run| && k in run[i].stops
    ensures StopTraced(run, actions, i, k)
  {
    if i > 0 {
      assert StepAt(run, actions, i - 1);
      if k in run[i - 1].stops {
        StopTracedInRun(run, actions, i - 1, k);
        if actions[i - 1] == WaitReturns(k) {
          assert WokenAt(run, actions, i - 1, k);
        }
      }
    }
  }

  /** Stop's answers. With drain nil means that its helper's Wait has returned, when every worker then
    * spawned had exited, and an error that its own context has ended; without drain it is never an
    * error. An answer, once given, stays.
    */
  lemma {:induction false} StopAnswers(run: seq<State>, actions: seq<Action>, i: nat, j: nat, k: nat)
    requires Run(run, actions) && i <= j < |run| && k in run[i].stops
    ensures run[i].stops[k] == ReturnedNil && run[0].drain ==> exists p: nat :: p < i && WokenAt(run, actions, p, k)
    ensures run[i].stops[k] == TimedOut ==> run[0].drain && k in run[i].stopDone
    ensures k in run[j].stops
    ensures run[i].stops[k] == ReturnedNil || run[i].stops[k] == TimedOut ==> run[j].stops[k] == run[i].stops[k]
    decreases j
  {
    InvRun(run, actions, i);
    StopTracedInRun(run, actions, i, k);
    if i < j {
      StopAnswers(run, actions, i, j - 1, k);
      assert StepAt(run, actions, j - 1);
    }
  }

  /** Whenever its select has a case to take, Stop can return, and with the answer of that case. */
  lemma StopReturns(s: State, k: nat)
    requires k in s.stops && (s.stops[k] == Waiting || s.stops[k] == Woken)
    ensures !s.drain && s.stops[k] == Waiting ==> Enabled(s, StopNil(k))
    ensures s.drain && s.stops[k] == Woken ==> Enabled(s, StopNil(k))
    ensures Enabled(s, StopNil(k)) ==> Next(s, StopNil(k)).stops == s.stops[k := ReturnedNil]
    ensures s.drain && k in s.stopDone ==>
              Enabled(s, StopTimeout(k)) && Next(s, StopTimeout(k)).stops == s.stops[k := TimedOut]
    ensures s.drain && s.stops[k] == Waiting && WaitGroupZero(s.workers) ==>
              Enabled(s, WaitReturns(k)) && Next(s, WaitReturns(k)).stops == s.stops[k := Woken]
  {
  }

  lemma AllExitedForever(run: seq<State>, actions: seq<Action>, i: nat, j: nat)
    requires Run(run, actions) && i <= j < |run| && WaitGroupZero(run[i].workers) && run[i].workers != []
    ensures Drained(run[j])
  {
    AllExitedStay(run, actions, i, j);
    InvRun(run, actions, j);
    AllExitedIsDrained(run[j]);
  }

  lemma {:induction false} AllExitedStay(run: seq<State>, actions: seq<Action>, i: nat, j: nat)
    requires Run(run, actions) && i <= j < |run| && WaitGroupZero(run[i].workers) && run[i].workers != []
    ensures WaitGroupZero(run[j].workers) && run[j].workers != []
    decreases j
  {
    if i < j {
      AllExitedStay(run, actions, i, j - 1);
      InvRun(run, actions, j - 1);
      assert StepAt(run, actions, j - 1);
      assert run[j - 1].workers[0] == Exited;
    }
  }

  lemma RunGrows(run: seq<State>, actions: seq<Action>, a: Action)
    requires Run(run, actions) && Enabled(run[|actions|], a)
    ensures Run(run + [Next(run[|actions|], a)], actions + [a])
  {
    forall i | 0 <= i < |actions + [a]| ensures StepAt(run + [Next(run[|actions|], a)], actions + [a], i) {
      assert i < |actions| ==> StepAt(run, actions, i);
    }
  }

  lemma RunCut(run: seq<State>, actions: seq<Action>, n: nat)
    requires Run(run, actions) && n <= |actions|
    ensures Run(run[..n + 1], actions[..n])
  {
    var run', actions' := run[..n + 1], actions[..n];
    forall i | 0 <= i < n ensures StepAt(run', actions', i) {
      assert StepAt(run, actions, i);
    }
  }

  lemma NilWhenWokenAt(run: seq<State>, actions: seq<Action>, i: nat, j: nat, k: nat)
    requires Run(run, actions) && i < |actions| && actions[i] == WaitReturns(k) && BecomesNil(run, j, k)
    requires run[i].workers != []
    ensures i < j ==> Drained(run[j + 1])
  {
    assert StepAt(run, actions, i);
    if i < j {
      AllExitedForever(run, actions, i, j + 1);
    }
  }

  /** A draining Stop answers nil once its helper's wg.Wait has returned. That nil will mean a drained
    * pool exactly when some worker had been spawned when the Wait returned: if not, Stop may return
    * at once, or later, among running tasks.
    */
  lemma StopNilIsDrainedIff(run: seq<State>, actions: seq<Action>, i: nat, k: nat)
    requires Run(run, actions) && i < |actions| && actions[i] == WaitReturns(k) && run[0].size >= 1
    ensures NilWillMeanDrained(run, actions, i, k) <==> run[i].workers != []
  {
    assert StepAt(run, actions, i);
    if run[i].workers != [] {
      forall run', actions', j: nat | GoesOn(run, actions, i, run', actions') && BecomesNil(run', j, k)
        ensures Drained(run'[j + 1])
      {
        assert run'[i] == run[..i + 2][i] == run[i] && run'[i + 1] == run[..i + 2][i + 1] == run[i + 1];
        assert actions'[i] == actions[..i + 1][i];
        if j <= i {
          StopAnswers(run', actions', j + 1, i + 1, k);
        }
        NilWhenWokenAt(run', actions', i, j, k);
      }
    } else {
      InvRun(run, actions, i);
      RunCut(run, actions, i + 1);
      RunGrows(run[..i + 2], actions[..i + 1], StopNil(k));
      var run' := run[..i + 2] + [Next(run[i + 1], StopNil(k))];
      var actions' := actions[..i + 1] + [StopNil(k)];
      assert GoesOn(run, actions, i, run', actions') && BecomesNil(run', i + 1, k);
      assert !run'[i + 2].closed;
    }
  }

  /** The helper's Wait returns at once: Start has yet to spawn the worker. */
  lemma WokenEarly() returns (run: seq<State>, actions: seq<Action>)
    ensures Run(run, actions)
    ensures run[|actions|] == State(1, 2, true, [], false, [Idle], Spawning, false,
                                map[], {}, map[0 := Woken], {}, [], [], [])
  {
    run, actions := [State(1, 2, true, [], false, [], Spawning, false, map[], {}, map[], {}, [], [], [])], [];
    run, actions := Then(run, actions, Stop(0));
    run, actions := Then(run, actions, WaitReturns(0));
    run, actions := Then(run, actions, Spawn);
  }

  /** A draining Stop's nil over an undrained pool: its Wait returns before Start has spawned the
    * worker, a task is accepted, and only then does the select take done.
    */
  lemma StopNilUndrained() returns (run: seq<State>, actions: seq<Action>)
    ensures Run(run, actions) && actions != [] && actions[|actions| - 1] == StopNil(0)
    ensures var last := run[|actions|];
      && last.drain && last.stops == map[0 := ReturnedNil] && last.workers == [Idle]
      && last.accepted == [7] && last.done == []
  {
    run, actions := WokenEarly();
    run, actions := Then(run, actions, Submit(7));
    run, actions := Then(run, actions, Send(7));
    run, actions := Then(run, actions, StopNil(0));
  }

  lemma Then(run: seq<State>, actions: seq<Action>, a: Action) returns (run': seq<State>, actions': seq<Action>)
    requires Run(run, actions) && Enabled(run[|actions|], a)
    ensures Run(run', actions') && actions' == actions + [a] && run'[|actions'|] == Next(run[|actions|], a)
  {
    RunGrows(run, actions, a);
    run', actions' := run + [Next(run[|actions|], a)], actions + [a];
  }

  // ---------- Termination ----------

  function Weight(x: Worker): nat {
    match x
    case Idle => 1
    case Busy(_) => 2
    case Exited => 0
  }

  function Load(workers: seq<Worker>): nat {
    if workers == [] then 0 else Load(workers[..|workers| - 1]) + Weight(workers[|workers| - 1])
  }

  /** The worker steps still to come once the channel is closed. */
  function Remaining(s: State): nat {
    2 * |s.queue| + Load(s.workers)
  }

  lemma {:induction false} LoadUpdate(workers: seq<Worker>, w: nat, x: Worker)
    requires w < |workers|
    ensures Load(workers[w := x]) + Weight(workers[w]) == Load(workers) + Weight(x)
  {
    var n := |workers| - 1;
    if w < n {
      LoadUpdate(workers[..n], w, x);
      assert workers[w := x][..n] == workers[..n][w := x];
    } else {
      assert workers[w := x][..n] == workers[..n];
    }
  }

  lemma {:induction false} LoadZero(workers: seq<Worker>)
    ensures Load(workers) == 0 <==> WaitGroupZero(workers)
    ensures Load(workers) <= 2 * |workers|
  {
    if workers != [] {
      var n := |workers| - 1;
      LoadZero(workers[..n]);
      assert WaitGroupZero(workers) <==> WaitGroupZero(workers[..n]) && workers[n] == Exited by {
        forall w | 0 <= w < n ensures workers[w] == workers[..n][w] {
        }
      }
    }
  }

  /** After close each worker step uses up exactly one, and no other step changes the count. */
  lemma RemainingNext(s: State, a: Action)
    requires Inv(s) && s.closed && Enabled(s, a)
    ensures Remaining(Next(s, a)) == if ByWorker(a) then Remaining(s) - 1 else Remaining(s)
  {
    match a
    case Take(w) => LoadUpdate(s.workers, w, Busy(s.queue[0]));
    case Finish(w) => LoadUpdate(s.workers, w, Idle);
    case Exit(w) => LoadUpdate(s.workers, w, Exited);
    case _ =>
  }

  /** Until the count is zero some worker can step, whoever else can; at zero all have exited. */
  lemma WorkersNeverStuck(s: State)
    requires Inv(s) && s.closed && s.size >= 1
    ensures Remaining(s) > 0 <==> exists a :: ByWorker(a) && Enabled(s, a)
    ensures Remaining(s) == 0 <==> WaitGroupZero(s.workers)
  {
    LoadZero(s.workers);
    if !WaitGroupZero(s.workers) {
      var w :| 0 <= w < |s.workers| && s.workers[w] != Exited;
      var a := if s.workers[w].Busy? then Finish(w) else if s.queue != [] then Take(w) else Exit(w);
      assert ByWorker(a) && Enabled(s, a);
    } else {
      assert s.workers[0] == Exited;
    }
  }

  function WorkerSteps(actions: seq<Action>, i: nat, j: nat): nat
    requires i <= j <= |actions|
    decreases j
  {
    if i == j then 0 else WorkerSteps(actions, i, j - 1) + if ByWorker(actions[j - 1]) then 1 else 0
  }

  /** The exact cost of winding down: from close to the last exit the workers take 2 steps for each
    * task then queued or running, 1 for each idle worker and 1 more for each busy one's exit, in
    * every interleaving and with or without drain.
    */
  lemma {:induction false} DrainTakesExactly(run: seq<State>, actions: seq<Action>, i: nat, j: nat)
    requires Run(run, actions) && i <= j < |run| && run[i].closed
    ensures WorkerSteps(actions, i, j) + Remaining(run[j]) == Remaining(run[i])
    decreases j
  {
    if i < j {
      DrainTakesExactly(run, actions, i, j - 1);
      ClosedForever(run, actions, i, j - 1);
      RemainingInRun(run, actions, j - 1);
    }
  }

  /** What becomes of the buffer, drained or not by Start: from close the workers have Remaining steps
    * to take, and have taken them all exactly when all have exited, with every task accepted done.
    */
  lemma ClosedPoolFinishes(run: seq<State>, actions: seq<Action>, i: nat, j: nat)
    requires Run(run, actions) && i <= j < |run| && run[i].closed && run[0].size >= 1
    ensures WorkerSteps(actions, i, j) == Remaining(run[i]) <==> WaitGroupZero(run[j].workers)
    ensures WaitGroupZero(run[j].workers) ==> Drained(run[j]) && run[j].accepted == run[i].accepted
    ensures !WaitGroupZero(run[j].workers) ==> exists a :: ByWorker(a) && Enabled(run[j], a)
  {
    DrainTakesExactly(run, actions, i, j);
    ClosedForever(run, actions, i, j);
    InvRun(run, actions, j);
    WorkersNeverStuck(run[j]);
    if WaitGroupZero(run[j].workers) {
      AllExitedIsDrained(run[j]);
    }
  }

  lemma RemainingInRun(run: seq<State>, actions: seq<Action>, i: nat)
    requires Run(run, actions) && i < |actions| && run[i].closed
    ensures Remaining(run[i + 1]) + (if ByWorker(actions[i]) then 1 else 0) == Remaining(run[i])
    ensures Remaining(run[i]) <= 2 * run[0].capacity + 2 * run[0].size
  {
    InvRun(run, actions, i);
    LoadZero(run[i].workers);
    assert StepAt(run, actions, i);
    RemainingNext(run[i], actions[i]);
  }

  // ---------- Start goes on ----------

  /** Start can always go on but for two waits, for ctx and with drain for the workers, and it comes
    * where it should: all workers spawned, then closed, then returned, without drain at once.
    */
  lemma StartGoesOn(s: State)
    requires Inv(s)
    ensures s.phase == Spawning && |s.workers| < s.size ==>
              Enabled(s, Spawn) && Next(s, Spawn).workers == s.workers + [Idle]
    ensures s.phase == Spawning && |s.workers| == s.size ==> Enabled(s, AwaitCtx) && Next(s, AwaitCtx).phase == Serving
    ensures s.phase == Serving ==> (Enabled(s, Close) <==> s.ctxDone)
    ensures Enabled(s, Close) ==> Next(s, Close).closed && (Next(s, Close).phase == Returned <==> !s.drain)
    ensures s.closed && s.phase != Returned ==> s.drain && (Enabled(s, Join) <==> WaitGroupZero(s.workers))
    ensures Enabled(s, Join) ==> Next(s, Join).phase == Returned
    ensures Next(s, CancelCtx).ctxDone
  {
  }

  // ---------- The theorem on submissions ----------

  /** In every reachable state: tasks leave in the order they came, at most size run at once, and
    * Submit's answer is final, whether or not it raced with close: nil for a task accepted, an
    * error for a task that no worker ever takes.
    */
  lemma SubmitAnswers(run: seq<State>, actions: seq<Action>, i: nat, j: nat, t: nat)
    requires Run(run, actions) && i <= j < |run| && t in run[i].submits && run[i].submits[t] != Blocked
    ensures run[i].taken <= run[i].accepted && |run[i].queue| <= run[0].capacity && |run[i].workers| <= run[0].size
    ensures t in run[j].submits && run[j].submits[t] == run[i].submits[t]
    ensures t in run[j].accepted <==> run[i].submits[t] == Accepted
    ensures run[i].submits[t] != Accepted ==> t !in run[j].taken && t !in run[j].done
  {
    InvRun(run, actions, i);
    InvRun(run, actions, j);
    AnswerIsFinal(run, actions, i, j, t);
    assert TaskOK(run[j], t);
    assert t in run[j].done ==> multiset(run[j].taken)[t] > 0;
  }

  /** What Submit t answers at the step that ends it, and from then on: nil when its task enters the
    * channel, else an error, ctx's if that has ended; a send on the closed channel without it, "pool stopped".
    */
  lemma SubmitAnsweredBy(run: seq<State>, actions: seq<Action>, p: nat, j: nat, t: nat)
    requires Run(run, actions) && p < |actions| && p < j < |run|
    requires actions[p] == Send(t) || (actions[p].Handoff? && actions[p].t == t)
          || actions[p] == SendOnClosed(t) || actions[p] == GiveUp(t)
    ensures t in run[j].submits && run[j].submits[t] ==
              if actions[p].Send? || actions[p].Handoff? then Accepted
              else if t in run[p].submitDone then Canceled else Stopped
    ensures run[j].submits[t] == Accepted ==> !run[p].closed && t in run[j].accepted
    ensures run[j].submits[t] == Stopped ==> run[p].closed
  {
    InvRun(run, actions, j);
    assert StepAt(run, actions, p);
    AnswerIsFinal(run, actions, p + 1, j, t);
  }

  /** A blocked Submit can end whenever the channel has room or is closed, or its context has ended. */
  lemma SubmitEndsIff(s: State, t: nat)
    requires Pending(s, t)
    ensures Enabled(s, Send(t)) <==> !s.closed && |s.queue| < s.capacity
    ensures Enabled(s, SendOnClosed(t)) <==> s.closed
    ensures Enabled(s, GiveUp(t)) <==> t in s.submitDone
    ensures t in Next(s, SubmitCtxDone(t)).submitDone
  {
  }

  lemma {:induction false} AnswerIsFinal(run: seq<State>, actions: seq<Action>, i: nat, j: nat, t: nat)
    requires Run(run, actions) && i <= j < |run| && t in run[i].submits && run[i].submits[t] != Blocked
    ensures t in run[j].submits && run[j].submits[t] == run[i].submits[t]
    decreases j
  {
    if i < j {
      AnswerIsFinal(run, actions, i, j - 1, t);
      assert StepAt(run, actions, j - 1);
      AnswerKept(run[j - 1], actions[j - 1], t);
    }
  }

  lemma AnswerKept(s: State, a: Action, t: nat)
    requires Enabled(s, a) && t in s.submits && s.submits[t] != Blocked
    ensures t in Next(s, a).submits && Next(s, a).submits[t] == s.submits[t]
  {
  }

  // ---------- The pool as an object ----------

  class Pool {
    const size: nat
    const capacity: nat
    const drainOnStop: bool
    var tasks: seq<nat>          // the channel's buffer
    var closed: bool
    var workers: seq<Worker>     // the goroutines counted by the wait group
    var phase: Phase
    var ctxDone: bool
    var submits: map<nat, Submission>
    var submitDone: set<nat>
    var stops: map<nat, StopCall>
    var stopDone: set<nat>
    ghost var accepted: seq<nat>
    ghost var taken: seq<nat>
    ghost var done: seq<nat>

    ghost function Abs(): State
      reads this
    {
      State(size, capacity, drainOnStop, tasks, closed, workers, phase, ctxDone,
        submits, submitDone, stops, stopDone, accepted, taken, done)
    }

    /** Without an option the queue holds twice as many tasks as there are workers. */
    constructor (size: nat, queueSize: int, drainOnStop: bool)
      requires queueSize >= -1  // -1: no WithQueueSize option
      ensures Init(Abs()) && Inv(Abs()) && this.size == size && this.drainOnStop == drainOnStop
      ensures capacity == if queueSize < 0 then 2 * size else queueSize
    {
      this.size, this.drainOnStop := size, drainOnStop;
      capacity := if queueSize < 0 then 2 * size else queueSize;
      tasks, closed, workers, phase, ctxDone := [], false, [], Spawning, false;
      submits, submitDone, stops, stopDone := map[], {}, map[], {};
      accepted, taken, done := [], [], [];
    }

    /** Start up to its wait for ctx. */
    method Launch()
      requires Inv(Abs()) && phase == Spawning && workers == []
      modifies this
      ensures Inv(Abs()) && phase == Serving && workers == seq(size, _ => Idle)
      ensures tasks == old(tasks) && submits == old(submits) && accepted == old(accepted) && done == old(done)
    {
      for i := 0 to size
        invariant Inv(Abs()) && phase == Spawning && workers == seq(i, _ => Idle)
        invariant tasks == old(tasks) && submits == old(submits) && accepted == old(accepted) && done == old(done)
      {
        InvNext(Abs(), Spawn);
        workers := workers + [Idle];
      }
      InvNext(Abs(), AwaitCtx);
      phase := Serving;
    }

    /** The select in Submit t, when a case is ready; pickCtx chooses if both are. */
    method Submit(t: nat, pickCtx: bool) returns (r: Submission)
      requires Inv(Abs()) && Pending(Abs(), t)
      modifies this
      ensures Inv(Abs()) && t in submits && submits[t] == r
      ensures r == Accepted <==> !old(closed) && |old(tasks)| < capacity && !(t in submitDone && pickCtx)
      ensures accepted == if r == Accepted then old(accepted) + [t] else old(accepted)
      ensures r == Blocked <==> !old(closed) && |old(tasks)| >= capacity && t !in submitDone
      ensures r == Stopped <==> old(closed) && t !in submitDone
      ensures workers == old(workers) && closed == old(closed) && done == old(done) && submitDone == old(submitDone)
    {
      if t in submitDone && (pickCtx || (!closed && |tasks| >= capacity)) {
        InvNext(Abs(), GiveUp(t));
        submits := submits[t := Canceled];
      } else if closed {
        InvNext(Abs(), SendOnClosed(t));
        submits := submits[t := if t in submitDone then Canceled else Stopped];
      } else if |tasks| < capacity {
        InvNext(Abs(), Send(t));
        tasks, accepted, submits := tasks + [t], accepted + [t], submits[t := Accepted];
      }
      r := submits[t];
    }

    /** One turn of worker w's loop over the channel, when it need not wait. */
    method Work(w: nat)
      requires Inv(Abs()) && w < |workers| && workers[w] != Exited
      requires workers[w] == Idle ==> tasks != [] || closed
      modifies this`tasks, this`workers, this`taken, this`done
      ensures exists a :: ByWorker(a) && Enabled(old(Abs()), a) && Abs() == Next(old(Abs()), a)
      ensures Inv(Abs())
    {
      ghost var a := if workers[w].Busy? then Finish(w) else if tasks != [] then Take(w) else Exit(w);
      InvNext(Abs(), a);
      ghost var s := Abs();
      match workers[w] {
        case Busy(task) =>
          workers, done := workers[w := Idle], done + [task];
        case Idle =>
          if tasks != [] {
            workers, taken, tasks := workers[w := Busy(tasks[0])], taken + [tasks[0]], tasks[1..];
          } else {
            workers := workers[w := Exited];
          }
      }
      assert ByWorker(a) && Enabled(s, a) && Abs() == Next(s, a);
    }

    /** Start from the end of ctx: close, and with drain wait for the workers, however scheduled. */
    method CloseAndWait()
      requires Inv(Abs()) && phase == Serving && ctxDone && size >= 1
      modifies this
      ensures Inv(Abs()) && phase == Returned && closed && accepted == old(accepted)
      ensures drainOnStop ==> Drained(Abs())
      ensures !drainOnStop ==> workers == old(workers) && tasks == old(tasks)
    {
      InvNext(Abs(), Close);
      closed := true;
      phase := if drainOnStop then Draining else Returned;
      if drainOnStop {
        while !WaitGroupZero(workers)
          invariant Inv(Abs()) && closed && phase == Draining && accepted == old(accepted)
          decreases Remaining(Abs())
        {
          var w :| 0 <= w < |workers| && workers[w] != Exited;
          ghost var s := Abs();
          Work(w);
          ghost var a :| ByWorker(a) && Enabled(s, a) && Abs() == Next(s, a);
          RemainingNext(s, a);
        }
        AllExitedIsDrained(Abs());
        InvNext(Abs(), Join);
        phase := Returned;
      }
    }
  }
}
