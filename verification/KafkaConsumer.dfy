/** The consumer: one fetch loop feeding handlers through a worker pool, offsets committed on success.
  * A message is named by its place in the order of fetching, which is also its task in the pool.
  */
module KafkaConsumer {
  import opened Sequences
  import WorkerPool

  // ---------- State ----------

  datatype Partition = Partition(topic: string, number: nat)

  datatype Message = Message(partition: Partition, offset: nat)

  /** The fetch loop: between messages, holding one, blocked in Submit with it, or returned. */
  datatype Fetcher = Fetching | Held(n: nat) | Submitting(n: nat) | Returned

  datatype Commit = Commit(n: nat, acked: bool)

  datatype State = State(
    pool: WorkerPool.State,
    handled: set<string>,        // topics with a handler; fixed once started
    fetched: seq<Message>,
    fetcher: Fetcher,
    skipped: set<nat>,           // fetched from a topic without a handler
    outcome: map<nat, bool>,     // whether the handler returned nil
    commits: seq<Commit>)        // the commit requests, in order

  ghost predicate Init(s: State, poolSize: nat) {
    && WorkerPool.Init(s.pool) && s.pool.size == poolSize && s.pool.capacity == 2 * poolSize && !s.pool.drain
    && s == State(s.pool, s.handled, [], Fetching, {}, map[], [])
  }

  // ---------- Steps ----------

  datatype Action =
    | Fetch(msg: Message) | StopFetching
    | SkipUnhandled(acked: bool)          // commits a message whose topic has no handler
    | BeginSubmit
    | EndSubmit(step: WorkerPool.Action)
    | HandlerReturns(w: nat, ok: bool)
    | CommitHandled(w: nat, acked: bool)
    | Pool(step: WorkerPool.Action)       // everything else the pool does

  predicate Requested(s: State, n: nat) {
    exists i | 0 <= i < |s.commits| :: s.commits[i].n == n
  }

  predicate Working(s: State, w: nat) {
    w < |s.pool.workers| && s.pool.workers[w].Busy?
  }

  function TaskOf(s: State, w: nat): nat
    requires Working(s, w)
  {
    s.pool.workers[w].task
  }

  predicate Ends(a: WorkerPool.Action, n: nat) {
    a == WorkerPool.Send(n) || (a.Handoff? && a.t == n) || a == WorkerPool.SendOnClosed(n) || a == WorkerPool.GiveUp(n)
  }

  /** A worker finishes its task once the handler has returned and, if it succeeded, the offset has
    * been put up for commit. Submitting is the fetch loop's alone, and ends early only with Start's ctx.
    */
  predicate PoolMay(s: State, a: WorkerPool.Action) {
    match a
    case Finish(w) =>
      Working(s, w) && TaskOf(s, w) in s.outcome && (s.outcome[TaskOf(s, w)] ==> Requested(s, TaskOf(s, w)))
    case SubmitCtxDone(_) => s.pool.ctxDone
    case Submit(_) => false
    case Send(_) => false
    case Handoff(_, _) => false
    case SendOnClosed(_) => false
    case GiveUp(_) => false
    case _ => true
  }

  predicate Enabled(s: State, a: Action) {
    match a
    case Fetch(msg) =>
      s.fetcher == Fetching
      && forall m | 0 <= m < |s.fetched| && s.fetched[m].partition == msg.partition :: s.fetched[m].offset < msg.offset
    case StopFetching => s.fetcher == Fetching
    case SkipUnhandled(_) =>
      s.fetcher.Held? && s.fetcher.n < |s.fetched| && s.fetched[s.fetcher.n].partition.topic !in s.handled
    case BeginSubmit =>
      s.fetcher.Held? && s.fetcher.n < |s.fetched| && s.fetched[s.fetcher.n].partition.topic in s.handled
      && WorkerPool.Enabled(s.pool, WorkerPool.Submit(s.fetcher.n))
    case EndSubmit(step) => s.fetcher.Submitting? && Ends(step, s.fetcher.n) && WorkerPool.Enabled(s.pool, step)
    case HandlerReturns(w, _) => Working(s, w) && TaskOf(s, w) !in s.outcome
    case CommitHandled(w, _) =>
      Working(s, w) && TaskOf(s, w) in s.outcome && s.outcome[TaskOf(s, w)] && !Requested(s, TaskOf(s, w))
    case Pool(step) => PoolMay(s, step) && WorkerPool.Enabled(s.pool, step)
  }

  function NextPool(s: State, a: Action): WorkerPool.State
    requires Enabled(s, a)
  {
    match a
    case BeginSubmit => WorkerPool.Next(s.pool, WorkerPool.Submit(s.fetcher.n))
    case EndSubmit(step) => WorkerPool.Next(s.pool, step)
    case Pool(step) => WorkerPool.Next(s.pool, step)
    case _ => s.pool
  }

  function NextFetcher(s: State, a: Action): Fetcher
    requires Enabled(s, a)
  {
    match a
    case Fetch(_) => Held(|s.fetched|)
    case StopFetching => Returned
    case SkipUnhandled(_) => Fetching
    case BeginSubmit => Submitting(s.fetcher.n)
    case EndSubmit(step) => if step.Send? || step.Handoff? then Fetching else Returned
    case _ => s.fetcher
  }

  function NextCommits(s: State, a: Action): seq<Commit>
    requires Enabled(s, a)
  {
    match a
    case SkipUnhandled(acked) => s.commits + [Commit(s.fetcher.n, acked)]
    case CommitHandled(w, acked) => s.commits + [Commit(TaskOf(s, w), acked)]
    case _ => s.commits
  }

  function Next(s: State, a: Action): State
    requires Enabled(s, a)
  {
    State(
      NextPool(s, a), s.handled,
      if a.Fetch? then s.fetched + [a.msg] else s.fetched,
      NextFetcher(s, a),
      if a.SkipUnhandled? then s.skipped + {s.fetcher.n} else s.skipped,
      if a.HandlerReturns? then s.outcome[TaskOf(s, a.w) := a.ok] else s.outcome,
      NextCommits(s, a))
  }

  predicate StepAt(run: seq<State>, actions: seq<Action>, i: nat)
    requires i < |actions| && |run| == |actions| + 1
  {
    Enabled(run[i], actions[i]) && run[i + 1] == Next(run[i], actions[i])
  }

  ghost predicate Run(run: seq<State>, actions: seq<Action>, poolSize: nat) {
    && |run| == |actions| + 1 && Init(run[0], poolSize)
    && forall i | 0 <= i < |actions| :: StepAt(run, actions, i)
  }

  // ---------- Accounting ----------

  predicate Holding(s: State, n: nat) {
    s.fetcher == Held(n) || s.fetcher == Submitting(n)
  }

  predicate Dropped(s: State, n: nat) {
    n in s.pool.submits && (s.pool.submits[n] == WorkerPool.Canceled || s.pool.submits[n] == WorkerPool.Stopped)
  }

  /** Each fetched message is held, skipped, or has been submitted. */
  ghost predicate PlacesOK(s: State) {
    && (forall n | n in s.pool.submits ::
          n < |s.fetched| && n !in s.skipped && s.fetched[n].partition.topic in s.handled)
    && (forall n | n in s.skipped :: n < |s.fetched| && s.fetched[n].partition.topic !in s.handled)
    && (forall n: nat | n < |s.fetched| :: Holding(s, n) || n in s.skipped || n in s.pool.submits)
  }

  /** The fetch loop holds the last message, and blocks in Submit with it alone; if that is refused
    * the loop is over.
    */
  ghost predicate FetcherOK(s: State) {
    && (s.fetcher.Held? ==> s.fetcher.n !in s.pool.submits && s.fetcher.n !in s.skipped)
    && (s.fetcher.Held? ==> s.fetcher.n + 1 == |s.fetched|)
    && (s.fetcher.Submitting? ==> s.fetcher.n in s.pool.submits && s.fetcher.n + 1 == |s.fetched|)
    && (forall n | n in s.pool.submits :: s.pool.submits[n] == WorkerPool.Blocked <==> s.fetcher == Submitting(n))
    && (forall n | n in s.pool.submits && Dropped(s, n) :: s.fetcher == Returned && n + 1 == |s.fetched|)
  }

  ghost predicate OffsetsOK(s: State) {
    forall m, n | 0 <= m < n < |s.fetched| && s.fetched[m].partition == s.fetched[n].partition ::
      s.fetched[m].offset < s.fetched[n].offset
  }

  /** Where a fetched message can be; each counts how often it is there. */
  function One(b: bool): nat {
    if b then 1 else 0
  }

  function Queued(s: State, n: nat): nat {
    multiset(s.pool.queue)[n]
  }

  function Running(s: State, n: nat): nat {
    WorkerPool.Running(s.pool.workers, |s.pool.workers|, n)
  }

  function Finished(s: State, n: nat): nat {
    multiset(s.pool.done)[n]
  }

  // ---------- Commits ----------

  ghost predicate OutcomesOK(s: State) {
    forall n | n in s.outcome :: n in s.pool.submits && s.pool.submits[n] == WorkerPool.Accepted && n in s.pool.taken
  }

  predicate Settled(s: State, n: nat) {
    n in s.outcome && (s.outcome[n] ==> Requested(s, n))
  }

  /** A finished message's handler has returned, and if it succeeded a commit was requested. */
  ghost predicate DonesOK(s: State) {
    forall i | 0 <= i < |s.pool.done| :: Settled(s, s.pool.done[i])
  }

  predicate Earned(s: State, n: nat) {
    n in s.skipped || (n in s.outcome && s.outcome[n])
  }

  ghost predicate CommitsOK(s: State) {
    forall i | 0 <= i < |s.commits| :: Earned(s, s.commits[i].n)
  }

  /** Said of the accepted messages: they enter the queue in the order they were fetched. */
  ghost predicate Increasing(s: seq<nat>) {
    forall i, j | 0 <= i < j < |s| :: s[i] < s[j]
  }

  /** A single worker finishes tasks in the order it takes them. */
  ghost predicate SerialOK(p: WorkerPool.State) {
    p.size == 1 ==> p.taken == p.done + InHand(p.workers)
  }

  function InHand(workers: seq<WorkerPool.Worker>): seq<nat> {
    if workers != [] && workers[0].Busy? then [workers[0].task] else []
  }

  ghost predicate Inv(s: State) {
    WorkerPool.Inv(s.pool) && PlacesOK(s) && FetcherOK(s) && OffsetsOK(s)
    && OutcomesOK(s) && DonesOK(s) && CommitsOK(s) && Increasing(s.pool.accepted) && SerialOK(s.pool)
  }

  // ---------- Every step keeps them ----------

  function Answer(s: State, step: WorkerPool.Action): WorkerPool.Submission {
    if step.Send? || step.Handoff? then WorkerPool.Accepted
    else if step.SendOnClosed? && step.t !in s.pool.submitDone then WorkerPool.Stopped
    else WorkerPool.Canceled
  }

  lemma SubmitsNext(s: State, a: Action)
    requires Enabled(s, a)
    ensures NextPool(s, a).submits == match a
      case BeginSubmit => s.pool.submits[s.fetcher.n := WorkerPool.Blocked]
      case EndSubmit(step) => s.pool.submits[s.fetcher.n := Answer(s, step)]
      case _ => s.pool.submits
  {
  }

  lemma PlacesNext(s: State, a: Action)
    requires PlacesOK(s) && FetcherOK(s) && Enabled(s, a)
    ensures PlacesOK(Next(s, a))
  {
  }

  lemma FetcherNext(s: State, a: Action)
    requires PlacesOK(s) && FetcherOK(s) && Enabled(s, a)
    ensures FetcherOK(Next(s, a))
  {
    SubmitsNext(s, a);
    match a {
      case EndSubmit(step) => SubmitEnds(s, step);
      case BeginSubmit =>
      case _ => assert Next(s, a).pool.submits == s.pool.submits;
    }
  }

  /** The loop's one submission is answered: it goes on, or is over if the message was refused. */
  lemma SubmitEnds(s: State, step: WorkerPool.Action)
    requires PlacesOK(s) && FetcherOK(s) && Enabled(s, EndSubmit(step))
    ensures FetcherOK(Next(s, EndSubmit(step)))
  {
    SubmitsNext(s, EndSubmit(step));
  }

  lemma PoolNext(s: State, a: Action)
    requires WorkerPool.Inv(s.pool) && Enabled(s, a)
    ensures WorkerPool.Inv(NextPool(s, a))
  {
    match a {
      case BeginSubmit => WorkerPool.InvNext(s.pool, WorkerPool.Submit(s.fetcher.n));
      case EndSubmit(step) => WorkerPool.InvNext(s.pool, step);
      case Pool(step) => WorkerPool.InvNext(s.pool, step);
      case _ =>
    }
  }

  lemma OffsetsNext(s: State, a: Action)
    requires OffsetsOK(s) && Enabled(s, a)
    ensures OffsetsOK(Next(s, a))
  {
  }

  lemma AcceptedNext(s: State, a: Action)
    requires Enabled(s, a)
    ensures NextPool(s, a).size == s.pool.size
    ensures NextPool(s, a).accepted ==
      s.pool.accepted + if a.EndSubmit? && Answer(s, a.step) == WorkerPool.Accepted then [s.fetcher.n] else []
  {
  }

  lemma AcceptedIsOlder(s: State, i: nat)
    requires WorkerPool.Inv(s.pool) && PlacesOK(s) && FetcherOK(s) && s.fetcher.Submitting? && i < |s.pool.accepted|
    ensures s.pool.accepted[i] < s.fetcher.n
  {
  }

  lemma IncreasingNext(s: State, a: Action)
    requires WorkerPool.Inv(s.pool) && PlacesOK(s) && FetcherOK(s) && Increasing(s.pool.accepted) && Enabled(s, a)
    ensures Increasing(NextPool(s, a).accepted)
  {
    AcceptedNext(s, a);
    if a.EndSubmit? {
      forall i | 0 <= i < |s.pool.accepted| ensures s.pool.accepted[i] < s.fetcher.n {
        AcceptedIsOlder(s, i);
      }
      IncreasingAppend(s.pool.accepted, s.fetcher.n);
    }
  }

  lemma IncreasingAppend(s: seq<nat>, n: nat)
    requires Increasing(s) && forall i | 0 <= i < |s| :: s[i] < n
    ensures Increasing(s + [n])
  {
  }

  lemma InHandNext(p: WorkerPool.State, a: WorkerPool.Action)
    requires WorkerPool.BoundsOK(p) && SerialOK(p) && WorkerPool.Enabled(p, a)
    ensures SerialOK(WorkerPool.Next(p, a))
  {
  }

  lemma SerialNext(s: State, a: Action)
    requires WorkerPool.BoundsOK(s.pool) && SerialOK(s.pool) && Enabled(s, a)
    ensures SerialOK(NextPool(s, a))
  {
    match a {
      case BeginSubmit => InHandNext(s.pool, WorkerPool.Submit(s.fetcher.n));
      case EndSubmit(step) => InHandNext(s.pool, step);
      case Pool(step) => InHandNext(s.pool, step);
      case _ =>
    }
  }

  lemma RequestedNext(s: State, a: Action, n: nat)
    requires Enabled(s, a) && Requested(s, n)
    ensures Requested(Next(s, a), n)
  {
    var i :| 0 <= i < |s.commits| && s.commits[i].n == n;
    assert Next(s, a).commits[i].n == n;
  }

  lemma DoneNext(s: State, a: Action)
    requires Enabled(s, a)
    ensures NextPool(s, a).done ==
      if a.Pool? && a.step.Finish? then s.pool.done + [TaskOf(s, a.step.w)] else s.pool.done
  {
  }

  /** A task a worker has is an accepted one. */
  lemma WorkingIsAccepted(s: State, w: nat)
    requires WorkerPool.Inv(s.pool) && Working(s, w)
    ensures TaskOf(s, w) in s.pool.submits && s.pool.submits[TaskOf(s, w)] == WorkerPool.Accepted
  {
    var p, n := s.pool, TaskOf(s, w);
    RunningHere(p.workers, |p.workers|, w);
    assert WorkerPool.TaskOK(p, n);
    assert n in multiset(p.taken) && n in p.accepted;
  }

  lemma {:induction false} RunningHere(workers: seq<WorkerPool.Worker>, n: nat, w: nat)
    requires w < n <= |workers| && workers[w].Busy?
    ensures WorkerPool.Running(workers, n, workers[w].task) >= 1
  {
    if w < n - 1 {
      RunningHere(workers, n - 1, w);
    }
  }

  lemma OutcomesNext(s: State, a: Action)
    requires WorkerPool.Inv(s.pool) && FetcherOK(s) && OutcomesOK(s) && Enabled(s, a)
    ensures OutcomesOK(Next(s, a))
  {
    SubmitsNext(s, a);
    if a.HandlerReturns? {
      WorkingIsAccepted(s, a.w);
      WorkingIsTaken(s, a.w);
    }
  }

  lemma SettledNext(s: State, a: Action, n: nat)
    requires Enabled(s, a) && Settled(s, n)
    ensures Settled(Next(s, a), n)
  {
    if s.outcome[n] {
      RequestedNext(s, a, n);
    }
  }

  lemma DonesNext(s: State, a: Action)
    requires DonesOK(s) && Enabled(s, a)
    ensures DonesOK(Next(s, a))
  {
    DoneNext(s, a);
    var s' := Next(s, a);
    forall i | 0 <= i < |s'.pool.done| ensures Settled(s', s'.pool.done[i]) {
      SettledNext(s, a, s'.pool.done[i]);
    }
  }

  lemma CommitsNext(s: State, a: Action)
    requires CommitsOK(s) && Enabled(s, a)
    ensures CommitsOK(Next(s, a))
  {
  }

  lemma InvNext(s: State, a: Action)
    requires Inv(s) && Enabled(s, a)
    ensures Inv(Next(s, a))
  {
    PoolNext(s, a);
    PlacesNext(s, a);
    FetcherNext(s, a);
    OffsetsNext(s, a);
    OutcomesNext(s, a);
    DonesNext(s, a);
    CommitsNext(s, a);
    IncreasingNext(s, a);
    SerialNext(s, a);
  }

  lemma {:induction false} InvRun(run: seq<State>, actions: seq<Action>, poolSize: nat, i: nat)
    requires Run(run, actions, poolSize) && i < |run|
    ensures Inv(run[i]) && run[i].pool.size == poolSize && run[i].pool.capacity == 2 * poolSize
    ensures run[i].handled == run[0].handled
  {
    if i > 0 {
      InvRun(run, actions, poolSize, i - 1);
      assert StepAt(run, actions, i - 1);
      InvNext(run[i - 1], actions[i - 1]);
    }
  }

  // ---------- Theorems on every reachable state ----------

  /** Every fetched message is in exactly one place, exactly once: held by the fetch loop, skipped,
    * queued, with a worker, finished, or dropped by the Submit that failed. No message is handled twice.
    */
  lemma EachMessageInOnePlace(run: seq<State>, actions: seq<Action>, poolSize: nat, i: nat, n: nat)
    requires Run(run, actions, poolSize) && i < |run|
    ensures var s := run[i];
      One(Holding(s, n)) + One(n in s.skipped) + Queued(s, n) + Running(s, n) + Finished(s, n) + One(Dropped(s, n))
      == One(n < |s.fetched|)
  {
    InvRun(run, actions, poolSize, i);
    var s := run[i];
    assert WorkerPool.TaskOK(s.pool, n);
    assert multiset(s.pool.accepted)[n] == multiset(s.pool.taken)[n] + multiset(s.pool.queue)[n];
    AcceptedOnce(s.pool, n);
  }

  lemma {:induction false} CountDistinct(s: seq<nat>, n: nat)
    requires NoDuplicates(s)
    ensures multiset(s)[n] == One(n in s)
  {
    if s != [] {
      var k := |s| - 1;
      assert s == s[..k] + [s[k]];
      CountDistinct(s[..k], n);
    }
  }

  lemma AcceptedOnce(p: WorkerPool.State, n: nat)
    requires WorkerPool.AnswersOK(p)
    ensures multiset(p.accepted)[n] == One(n in p.submits && p.submits[n] == WorkerPool.Accepted)
  {
    CountDistinct(p.accepted, n);
  }

  /** The messages fetched and neither skipped, dropped nor finished. */
  ghost function Unfinished(s: State): set<nat> {
    set n | 0 <= n < |s.fetched| && n !in s.skipped && !Dropped(s, n) && Finished(s, n) == 0
  }

  ghost function BusyTasks(workers: seq<WorkerPool.Worker>, n: nat): (tasks: set<nat>)
    requires n <= |workers|
    ensures |tasks| <= n
  {
    if n == 0 then {}
    else BusyTasks(workers, n - 1) + if workers[n - 1].Busy? then {workers[n - 1].task} else {}
  }

  lemma {:induction false} RunningIsBusy(workers: seq<WorkerPool.Worker>, n: nat, t: nat)
    requires n <= |workers|
    ensures WorkerPool.Running(workers, n, t) > 0 ==> t in BusyTasks(workers, n)
  {
    if n > 0 {
      RunningIsBusy(workers, n - 1, t);
    }
  }

  lemma {:induction false} FewElements(s: seq<nat>)
    ensures |Elements(s)| <= |s|
  {
    if s != [] {
      var k := |s| - 1;
      FewElements(s[..k]);
      assert Elements(s) == Elements(s[..k]) + {s[k]};
    }
  }

  lemma SubsetIsSmaller(a: set<nat>, b: set<nat>)
    requires a <= b
    ensures |a| <= |b|
  {
    assert b == a + (b - a);
  }

  /** Backpressure: at most 2 * poolSize queued, poolSize running and 1 in the fetch loop's hands. */
  lemma BacklogBound(run: seq<State>, actions: seq<Action>, poolSize: nat, i: nat)
    requires Run(run, actions, poolSize) && i < |run|
    ensures |Unfinished(run[i])| <= 3 * poolSize + 1
  {
    var s := run[i];
    InvRun(run, actions, poolSize, i);
    var queued, busy := Elements(s.pool.queue), BusyTasks(s.pool.workers, |s.pool.workers|);
    var held := if s.fetcher.Held? || s.fetcher.Submitting? then {s.fetcher.n} else {};
    forall n | n in Unfinished(s) ensures n in queued + busy + held {
      EachMessageInOnePlace(run, actions, poolSize, i, n);
      RunningIsBusy(s.pool.workers, |s.pool.workers|, n);
    }
    FewElements(s.pool.queue);
    SubsetIsSmaller(Unfinished(s), queued + busy + held);
  }

  /** A commit is requested only for a message whose handler returned nil or whose topic has none. */
  lemma CommitsAreEarned(run: seq<State>, actions: seq<Action>, poolSize: nat, i: nat, k: nat)
    requires Run(run, actions, poolSize) && i < |run| && k < |run[i].commits|
    ensures var s, n := run[i], run[i].commits[k].n;
      && n < |s.fetched|
      && if s.fetched[n].partition.topic in s.handled then n in s.outcome && s.outcome[n] else n in s.skipped
  {
    InvRun(run, actions, poolSize, i);
    var s, n := run[i], run[i].commits[k].n;
    assert Earned(s, n);
    assert n in s.skipped || n in s.pool.submits;
  }

  // ---------- What a committed offset stands for ----------

  /** The messages a commit of n covers: those of its partition at lower offsets. */
  predicate Below(s: State, m: nat, n: nat) {
    && m < |s.fetched| && n < |s.fetched|
    && s.fetched[m].partition == s.fetched[n].partition && s.fetched[m].offset < s.fetched[n].offset
  }

  ghost predicate AllBelowHandled(s: State, n: nat) {
    forall m | Below(s, m, n) :: m in s.outcome && s.outcome[m]
  }

  ghost predicate NoFailureBelow(s: State, n: nat) {
    forall m | Below(s, m, n) :: !(m in s.outcome && !s.outcome[m])
  }

  lemma BelowIsEarlier(s: State, m: nat, n: nat)
    requires OffsetsOK(s) && Below(s, m, n)
    ensures m < n
  {
  }

  lemma SubmittedIsAccepted(s: State, m: nat, n: nat)
    requires Inv(s) && m < n < |s.fetched| && n in s.pool.submits
    requires s.fetched[m].partition == s.fetched[n].partition
    ensures m in s.pool.accepted
  {
  }

  lemma {:induction false} RunsSomewhere(workers: seq<WorkerPool.Worker>, n: nat, t: nat) returns (w: nat)
    requires n <= |workers| && WorkerPool.Running(workers, n, t) > 0
    ensures w < n && workers[w] == WorkerPool.Busy(t)
  {
    if workers[n - 1] == WorkerPool.Busy(t) {
      w := n - 1;
    } else {
      w := RunsSomewhere(workers, n - 1, t);
    }
  }

  /** Messages leave the queue in the order they were fetched. */
  lemma TakenInOrder(p: WorkerPool.State, m: nat, n: nat)
    requires WorkerPool.OrderOK(p) && Increasing(p.accepted) && m in p.accepted && n in p.taken && m <= n
    ensures m in p.taken
  {
    var i :| 0 <= i < |p.accepted| && p.accepted[i] == m;
    var j :| 0 <= j < |p.taken| && p.taken[j] == n;
    assert p.accepted[j] == n;
    assert i <= j && p.taken[i] == m;
  }

  lemma WorkingIsTaken(s: State, w: nat)
    requires WorkerPool.Inv(s.pool) && Working(s, w)
    ensures TaskOf(s, w) in s.pool.taken
  {
    RunningHere(s.pool.workers, |s.pool.workers|, w);
    assert WorkerPool.TaskOK(s.pool, TaskOf(s, w));
  }

  lemma TakenIsReturnedOrOut(s: State, m: nat) returns (w: nat)
    requires Inv(s) && m in s.pool.taken
    ensures m in s.outcome || (Working(s, w) && TaskOf(s, w) == m)
  {
    assert WorkerPool.TaskOK(s.pool, m) && multiset(s.pool.taken)[m] > 0;
    w := 0;
    if m in s.pool.done {
      var i :| 0 <= i < |s.pool.done| && s.pool.done[i] == m;
      assert Settled(s, s.pool.done[i]);
    } else {
      assert multiset(s.pool.done)[m] == 0;
      w := RunsSomewhere(s.pool.workers, |s.pool.workers|, m);
    }
  }

  /** Once n has been taken, a message below n has been returned by its handler or is with a worker. */
  lemma BelowIsReturnedOrOut(s: State, m: nat, n: nat) returns (w: nat)
    requires Inv(s) && n in s.pool.taken && n in s.pool.submits && Below(s, m, n)
    ensures m in s.outcome || (Working(s, w) && TaskOf(s, w) == m)
  {
    BelowIsEarlier(s, m, n);
    SubmittedIsAccepted(s, m, n);
    TakenInOrder(s.pool, m, n);
    w := TakenIsReturnedOrOut(s, m);
  }

  /** No worker has a message below n whose handler has yet to return. */
  ghost predicate NoneOutBelow(s: State, n: nat) {
    forall w | Working(s, w) && Below(s, TaskOf(s, w), n) :: TaskOf(s, w) in s.outcome
  }

  /** With any number of workers: a commit covers only handled messages exactly when no handler below
    * it has failed and none is still at work. Nothing below it can still be queued.
    */
  lemma CommitIff(run: seq<State>, actions: seq<Action>, poolSize: nat, i: nat)
    requires Run(run, actions, poolSize) && i < |actions| && actions[i].CommitHandled?
    ensures Working(run[i], actions[i].w)
    ensures var s, n := run[i], TaskOf(run[i], actions[i].w);
      AllBelowHandled(s, n) <==> NoFailureBelow(s, n) && NoneOutBelow(s, n)
  {
    InvRun(run, actions, poolSize, i);
    assert StepAt(run, actions, i);
    var s, w := run[i], actions[i].w;
    WorkingIsTaken(s, w);
    WorkingIsAccepted(s, w);
    if NoFailureBelow(s, TaskOf(s, w)) && NoneOutBelow(s, TaskOf(s, w)) {
      forall m | Below(s, m, TaskOf(s, w)) ensures m in s.outcome && s.outcome[m] {
        var _ := BelowIsReturnedOrOut(s, m, TaskOf(s, w));
      }
    }
  }

  /** What a committed cursor at n stands for: the messages below have all been dealt with. */
  ghost predicate AllBelowEarned(s: State, n: nat) {
    forall m | Below(s, m, n) :: Earned(s, m)
  }

  lemma BelowSkippedIsSkipped(s: State, m: nat, n: nat)
    requires Inv(s) && n in s.skipped && Below(s, m, n)
    ensures m in s.skipped
  {
    BelowIsEarlier(s, m, n);
    assert Holding(s, m) || m in s.skipped || m in s.pool.submits;
  }

  /** In every reachable state, of every commit ever requested: all the messages its cursor covers have
    * been handled, or have no handler, exactly when no handler below it has failed and none is at work.
    */
  lemma CursorIff(run: seq<State>, actions: seq<Action>, poolSize: nat, i: nat, k: nat)
    requires Run(run, actions, poolSize) && i < |run| && k < |run[i].commits|
    ensures var s, n := run[i], run[i].commits[k].n;
      AllBelowEarned(s, n) <==> NoFailureBelow(s, n) && NoneOutBelow(s, n)
  {
    InvRun(run, actions, poolSize, i);
    var s, n := run[i], run[i].commits[k].n;
    assert Earned(s, n);
    forall m | Below(s, m, n) ensures m in s.skipped || m in s.outcome || !NoneOutBelow(s, n) {
      if n in s.skipped {
        BelowSkippedIsSkipped(s, m, n);
      } else {
        var _ := BelowIsReturnedOrOut(s, m, n);
      }
    }
    forall m | Earned(s, m) ensures m in s.skipped ==> m !in s.outcome {
    }
    forall w | Working(s, w) ensures TaskOf(s, w) !in s.skipped {
      WorkingIsAccepted(s, w);
    }
  }

  /** With one worker, of every commit ever requested: its cursor covers only messages handled, or without
    * a handler, exactly when no handler below it has failed.
    */
  lemma SerialCursorIff(run: seq<State>, actions: seq<Action>, i: nat, k: nat)
    requires Run(run, actions, 1) && i < |run| && k < |run[i].commits|
    ensures var s, n := run[i], run[i].commits[k].n;
      AllBelowEarned(s, n) <==> NoFailureBelow(s, n)
  {
    CursorIff(run, actions, 1, i, k);
    InvRun(run, actions, 1, i);
    var s, n := run[i], run[i].commits[k].n;
    assert Earned(s, n);
    forall w | Working(s, w) ensures !Below(s, TaskOf(s, w), n) {
      LastTaken(s, w, n);
    }
  }

  lemma LastIsGreatest(p: WorkerPool.State, n: nat)
    requires WorkerPool.OrderOK(p) && Increasing(p.accepted) && n in p.taken
    ensures n <= p.taken[|p.taken| - 1]
  {
    var i :| 0 <= i < |p.taken| && p.taken[i] == n;
    assert p.accepted[i] == n && p.accepted[|p.taken| - 1] == p.taken[|p.taken| - 1];
  }

  /** What the single worker has is the last it has taken, so nothing at work is below another message. */
  lemma LastTaken(s: State, w: nat, n: nat)
    requires Inv(s) && s.pool.size == 1 && Working(s, w) && Earned(s, n)
    ensures !Below(s, TaskOf(s, w), n)
  {
    WorkingIsAccepted(s, w);
    if n in s.pool.taken {
      LastIsGreatest(s.pool, n);
      assert n <= TaskOf(s, w);
    }
    if Below(s, TaskOf(s, w), n) {
      BelowIsEarlier(s, TaskOf(s, w), n);
    }
    if Below(s, TaskOf(s, w), n) && n in s.skipped {
      BelowSkippedIsSkipped(s, TaskOf(s, w), n);
    }
  }

  lemma OnlyWorkerOut(s: State, w: nat)
    requires WorkerPool.BoundsOK(s.pool) && s.pool.size == 1 && Working(s, w)
    ensures NoneOutBelow(s, TaskOf(s, w))
  {
  }

  /** With one worker a commit covers only handled messages exactly when no handler below it failed. */
  lemma SerialCommitIff(run: seq<State>, actions: seq<Action>, i: nat)
    requires Run(run, actions, 1) && i < |actions| && actions[i].CommitHandled?
    ensures Working(run[i], actions[i].w)
    ensures var s, n := run[i], TaskOf(run[i], actions[i].w);
      AllBelowHandled(s, n) <==> NoFailureBelow(s, n)
  {
    CommitIff(run, actions, 1, i);
    InvRun(run, actions, 1, i);
    OnlyWorkerOut(run[i], actions[i].w);
  }

  // ---------- Runs whose commits cover unhandled messages ----------

  lemma Extended(run: seq<State>, actions: seq<Action>, poolSize: nat, a: Action)
    returns (run': seq<State>, actions': seq<Action>)
    requires Run(run, actions, poolSize) && Enabled(run[|run| - 1], a)
    ensures Run(run', actions', poolSize) && run'[|run'| - 1] == Next(run[|run| - 1], a)
  {
    run', actions' := run + [Next(run[|run| - 1], a)], actions + [a];
    forall i | 0 <= i < |actions'| ensures StepAt(run', actions', i) {
      assert i < |actions| ==> StepAt(run, actions, i);
    }
  }

  /** Worker w is idle, and the fetch loop ready. */
  ghost predicate Ready(s: State, w: nat) {
    && s.fetcher == Fetching && WorkerPool.Is(s.pool, w, WorkerPool.Idle) && s.pool.queue == [] && !s.pool.closed
    && |s.fetched| !in s.pool.submits && |s.fetched| !in s.outcome
  }

  /** A message is fetched and handed straight to worker w. */
  lemma HandedOver(run: seq<State>, actions: seq<Action>, poolSize: nat, msg: Message, w: nat)
    returns (run': seq<State>, actions': seq<Action>)
    requires Run(run, actions, poolSize) && Ready(run[|run| - 1], w)
    requires var s := run[|run| - 1]; msg.partition.topic in s.handled && Enabled(s, Fetch(msg))
    ensures Run(run', actions', poolSize)
    ensures var s, s' := run[|run| - 1], run'[|run'| - 1];
      && var n := |s.fetched|;
      && s'.fetched == s.fetched + [msg] && s'.fetcher == Fetching && s'.handled == s.handled
      && s'.outcome == s.outcome && s'.commits == s.commits && s'.pool.queue == [] && !s'.pool.closed
      && s'.pool.workers == s.pool.workers[w := WorkerPool.Busy(n)]
      && s'.pool.submits == s.pool.submits[n := WorkerPool.Accepted]
  {
    var n := |run[|run| - 1].fetched|;
    run', actions' := Extended(run, actions, poolSize, Fetch(msg));
    run', actions' := Extended(run', actions', poolSize, BeginSubmit);
    run', actions' := Extended(run', actions', poolSize, EndSubmit(WorkerPool.Handoff(n, w)));
  }

  const P0 := Partition("t", 0)

  function NewPool(poolSize: nat): WorkerPool.State {
    WorkerPool.State(poolSize, 2 * poolSize, false, [], false, [], WorkerPool.Spawning, false,
      map[], {}, map[], {}, [], [], [])
  }

  function NewState(poolSize: nat): State {
    State(NewPool(poolSize), {"t"}, [], Fetching, {}, map[], [])
  }

  lemma HandlerAtWork() returns (run: seq<State>, actions: seq<Action>)
    ensures Run(run, actions, 1)
    ensures var last := run[|run| - 1];
      && last.handled == {"t"} && last.fetched == [Message(P0, 0)] && last.pool.workers == [WorkerPool.Busy(0)]
      && last.pool.queue == [] && !last.pool.closed && last.pool.submits == map[0 := WorkerPool.Accepted]
      && last.fetcher == Fetching && last.outcome == map[] && last.commits == []
  {
    run, actions := [NewState(1)], [];
    run, actions := Extended(run, actions, 1, Pool(WorkerPool.Spawn));
    run, actions := HandedOver(run, actions, 1, Message(P0, 0), 0);
  }

  lemma FirstHandlerFails() returns (run: seq<State>, actions: seq<Action>)
    ensures Run(run, actions, 1) && Ready(run[|run| - 1], 0)
    ensures var last := run[|run| - 1];
      && last.handled == {"t"} && last.fetched == [Message(P0, 0)] && last.pool.workers == [WorkerPool.Idle]
      && last.outcome == map[0 := false] && last.commits == []
  {
    run, actions := HandlerAtWork();
    run, actions := Extended(run, actions, 1, HandlerReturns(0, false));
    run, actions := Extended(run, actions, 1, Pool(WorkerPool.Finish(0)));
  }

  /** One worker, one partition: the handler of offset 0 fails, that of offset 1 succeeds, and the
    * cursor moves past both.
    */
  lemma FailedMessageCommittedPast() returns (run: seq<State>, actions: seq<Action>)
    ensures Run(run, actions, 1)
    ensures var last := run[|run| - 1];
      && last.commits == [Commit(1, true)] && Below(last, 0, 1)
      && last.outcome == map[0 := false, 1 := true]
  {
    run, actions := FirstHandlerFails();
    run, actions := HandedOver(run, actions, 1, Message(P0, 1), 0);
    run, actions := Extended(run, actions, 1, HandlerReturns(0, true));
    run, actions := Extended(run, actions, 1, CommitHandled(0, true));
  }

  lemma TwoHandlersAtWork() returns (run: seq<State>, actions: seq<Action>)
    ensures Run(run, actions, 2)
    ensures var last := run[|run| - 1];
      && last.fetched == [Message(P0, 0), Message(P0, 1)] && last.outcome == map[] && last.commits == []
      && last.pool.workers == [WorkerPool.Busy(0), WorkerPool.Busy(1)]
  {
    run, actions := [NewState(2)], [];
    run, actions := Extended(run, actions, 2, Pool(WorkerPool.Spawn));
    run, actions := Extended(run, actions, 2, Pool(WorkerPool.Spawn));
    run, actions := HandedOver(run, actions, 2, Message(P0, 0), 0);
    run, actions := HandedOver(run, actions, 2, Message(P0, 1), 1);
  }

  /** Two workers: the cursor moves past a message whose handler is still at work. */
  lemma RunningMessageCommittedPast() returns (run: seq<State>, actions: seq<Action>)
    ensures Run(run, actions, 2)
    ensures var last := run[|run| - 1];
      && last.commits == [Commit(1, true)] && Below(last, 0, 1)
      && last.pool.workers == [WorkerPool.Busy(0), WorkerPool.Busy(1)] && last.outcome == map[1 := true]
  {
    run, actions := TwoHandlersAtWork();
    run, actions := Extended(run, actions, 2, HandlerReturns(1, true));
    run, actions := Extended(run, actions, 2, CommitHandled(1, true));
  }

  // ---------- What each outcome and commit comes from ----------

  /** At step p the handler of message n returns, with nil or not. */
  predicate ReturnsAt(run: seq<State>, actions: seq<Action>, p: nat, n: nat, ok: bool) {
    && p < |actions| && p < |run| && actions[p].HandlerReturns? && actions[p].ok == ok
    && Working(run[p], actions[p].w) && TaskOf(run[p], actions[p].w) == n
  }

  /** At step p a commit of message n is requested, by the loop or by the worker that handled it. */
  predicate RequestsAt(run: seq<State>, actions: seq<Action>, p: nat, c: Commit) {
    && p < |actions| && p < |run|
    && ((actions[p] == SkipUnhandled(c.acked) && run[p].fetcher == Held(c.n))
        || (actions[p].CommitHandled? && actions[p].acked == c.acked
            && Working(run[p], actions[p].w) && TaskOf(run[p], actions[p].w) == c.n))
  }

  /** At step p the loop is left: no more to fetch, or Submit has refused its message. */
  predicate LeavesAt(actions: seq<Action>, p: nat) {
    && p < |actions|
    && (actions[p] == StopFetching
        || (actions[p].EndSubmit? && (actions[p].step.SendOnClosed? || actions[p].step.GiveUp?)))
  }

  ghost predicate ReturnedBefore(run: seq<State>, actions: seq<Action>, i: nat, n: nat, ok: bool) {
    exists p: nat :: p < i && ReturnsAt(run, actions, p, n, ok)
  }

  ghost predicate RequestedBefore(run: seq<State>, actions: seq<Action>, i: nat, c: Commit) {
    exists p: nat :: p < i && RequestsAt(run, actions, p, c)
  }

  ghost predicate LeftBefore(actions: seq<Action>, i: nat) {
    exists p: nat :: p < i && LeavesAt(actions, p)
  }

  ghost predicate Traced(run: seq<State>, actions: seq<Action>, i: nat)
    requires i < |run|
  {
    && (forall n | n in run[i].outcome :: ReturnedBefore(run, actions, i, n, run[i].outcome[n]))
    && (forall k | 0 <= k < |run[i].commits| :: RequestedBefore(run, actions, i, run[i].commits[k]))
    && (run[i].fetcher == Returned <==> LeftBefore(actions, i))
  }

  lemma OutcomeTraced(run: seq<State>, actions: seq<Action>, poolSize: nat, i: nat, n: nat)
    requires Run(run, actions, poolSize) && i < |actions| && Traced(run, actions, i) && n in run[i + 1].outcome
    ensures ReturnedBefore(run, actions, i + 1, n, run[i + 1].outcome[n])
  {
    assert StepAt(run, actions, i);
    if actions[i].HandlerReturns? && TaskOf(run[i], actions[i].w) == n {
      assert ReturnsAt(run, actions, i, n, actions[i].ok);
    } else {
      assert ReturnedBefore(run, actions, i, n, run[i].outcome[n]);
      var p: nat :| p < i && ReturnsAt(run, actions, p, n, run[i].outcome[n]);
    }
  }

  lemma CommitTraced(run: seq<State>, actions: seq<Action>, poolSize: nat, i: nat, k: nat)
    requires Run(run, actions, poolSize) && i < |actions| && Traced(run, actions, i) && k < |run[i + 1].commits|
    ensures RequestedBefore(run, actions, i + 1, run[i + 1].commits[k])
  {
    assert StepAt(run, actions, i);
    var c := run[i + 1].commits[k];
    if k < |run[i].commits| {
      assert c == run[i].commits[k] && RequestedBefore(run, actions, i, c);
      var p: nat :| p < i && RequestsAt(run, actions, p, c);
    } else {
      assert RequestsAt(run, actions, i, c);
    }
  }

  lemma LeavingTraced(run: seq<State>, actions: seq<Action>, poolSize: nat, i: nat)
    requires Run(run, actions, poolSize) && i < |actions| && Traced(run, actions, i)
    ensures run[i + 1].fetcher == Returned <==> LeftBefore(actions, i + 1)
  {
    assert StepAt(run, actions, i);
    assert LeavesAt(actions, i) <==> run[i].fetcher != Returned && run[i + 1].fetcher == Returned;
    if run[i].fetcher == Returned {
      var p: nat :| p < i && LeavesAt(actions, p);
    }
  }

  /** In every reachable state: an outcome is what the message's handler returned, a commit is one
    * requested by the loop or by the worker that handled the message, and the loop is over exactly
    * when fetching ended or Submit refused a message.
    */
  lemma {:induction false} TracedInRun(run: seq<State>, actions: seq<Action>, poolSize: nat, i: nat)
    requires Run(run, actions, poolSize) && i < |run|
    ensures Traced(run, actions, i)
  {
    if i > 0 {
      TracedInRun(run, actions, poolSize, i - 1);
      forall n | n in run[i].outcome ensures ReturnedBefore(run, actions, i, n, run[i].outcome[n]) {
        OutcomeTraced(run, actions, poolSize, i - 1, n);
      }
      forall k | 0 <= k < |run[i].commits| ensures RequestedBefore(run, actions, i, run[i].commits[k]) {
        CommitTraced(run, actions, poolSize, i - 1, k);
      }
      LeavingTraced(run, actions, poolSize, i - 1);
    }
  }

  lemma {:induction false} SkippedIsRequested(run: seq<State>, actions: seq<Action>, poolSize: nat, i: nat, n: nat)
    requires Run(run, actions, poolSize) && i < |run| && n in run[i].skipped
    ensures Requested(run[i], n)
  {
    assert i > 0;
    assert StepAt(run, actions, i - 1);
    if n in run[i - 1].skipped {
      SkippedIsRequested(run, actions, poolSize, i - 1, n);
      RequestedNext(run[i - 1], actions[i - 1], n);
    } else {
      assert run[i].commits[|run[i].commits| - 1].n == n;
    }
  }

  /** A message the consumer is through with, finished or skipped, has been put up for commit exactly
    * when its topic has no handler or its handler returned nil.
    */
  lemma CommittedIff(run: seq<State>, actions: seq<Action>, poolSize: nat, i: nat, n: nat)
    requires Run(run, actions, poolSize) && i < |run| && (n in run[i].skipped || n in run[i].pool.done)
    ensures var s := run[i];
      && n < |s.fetched| && (n in s.skipped <==> s.fetched[n].partition.topic !in s.handled)
      && (Requested(s, n) <==> n in s.skipped || (n in s.outcome && s.outcome[n]))
      && (n !in s.skipped ==> n in s.outcome)
  {
    var s := run[i];
    InvRun(run, actions, poolSize, i);
    if n in s.skipped {
      SkippedIsRequested(run, actions, poolSize, i, n);
    } else {
      var k :| 0 <= k < |s.pool.done| && s.pool.done[k] == n;
      assert Settled(s, s.pool.done[k]);
    }
    if Requested(s, n) {
      var k :| 0 <= k < |s.commits| && s.commits[k].n == n;
      assert Earned(s, s.commits[k].n);
    }
  }

  lemma SubmitGoesOn(s: State, n: nat)
    requires FetcherOK(s) && s.fetcher == Submitting(n)
    ensures !s.pool.closed && |s.pool.queue| < s.pool.capacity ==> Enabled(s, EndSubmit(WorkerPool.Send(n)))
    ensures s.pool.closed ==> Enabled(s, EndSubmit(WorkerPool.SendOnClosed(n)))
    ensures s.pool.ctxDone ==> Enabled(s, Pool(WorkerPool.SubmitCtxDone(n)))
    ensures n in s.pool.submitDone ==> Enabled(s, EndSubmit(WorkerPool.GiveUp(n)))
  {
    assert WorkerPool.Pending(s.pool, n);
  }

  lemma WorkerGoesOn(s: State, w: nat)
    requires Working(s, w)
    ensures || Enabled(s, HandlerReturns(w, true)) || Enabled(s, CommitHandled(w, true))
            || Enabled(s, Pool(WorkerPool.Finish(w)))
  {
  }

  /** Neither the loop nor a worker is stuck but where it should be: Submit waits for room, for the pool's
    * close or for ctx's end, and a worker for its handler.
    */
  lemma ConsumerGoesOn(run: seq<State>, actions: seq<Action>, poolSize: nat, i: nat, w: nat)
    requires Run(run, actions, poolSize) && i < |run|
    ensures run[i].fetcher.Held? ==> Enabled(run[i], SkipUnhandled(true)) || Enabled(run[i], BeginSubmit)
    ensures run[i].fetcher.Submitting? && (run[i].pool.closed || |run[i].pool.queue| < run[i].pool.capacity) ==>
              exists step :: Enabled(run[i], EndSubmit(step))
    ensures run[i].fetcher.Submitting? && run[i].pool.ctxDone ==>
              Enabled(run[i], Pool(WorkerPool.SubmitCtxDone(run[i].fetcher.n)))
    ensures Working(run[i], w) ==>
      || Enabled(run[i], HandlerReturns(w, true)) || Enabled(run[i], CommitHandled(w, true))
      || Enabled(run[i], Pool(WorkerPool.Finish(w)))
  {
    InvRun(run, actions, poolSize, i);
    if run[i].fetcher.Submitting? {
      SubmitGoesOn(run[i], run[i].fetcher.n);
    }
    if Working(run[i], w) {
      WorkerGoesOn(run[i], w);
    }
  }

  ghost predicate EndOK(s: State) {
    && (s.pool.closed || s.pool.submitDone != {} ==> s.pool.ctxDone)
    && (forall n | n in s.pool.submits && Dropped(s, n) :: s.pool.ctxDone)
  }

  lemma EndNext(s: State, a: Action)
    requires EndOK(s) && FetcherOK(s) && Enabled(s, a)
    ensures EndOK(Next(s, a))
  {
    SubmitsNext(s, a);
  }

  /** The loop is refused a message only once Start's ctx has ended. */
  lemma {:induction false} RefusedOnlyAtEnd(run: seq<State>, actions: seq<Action>, poolSize: nat, i: nat)
    requires Run(run, actions, poolSize) && i < |run|
    ensures EndOK(run[i])
    ensures forall n | Dropped(run[i], n) :: run[i].pool.ctxDone
  {
    if i > 0 {
      RefusedOnlyAtEnd(run, actions, poolSize, i - 1);
      InvRun(run, actions, poolSize, i - 1);
      assert StepAt(run, actions, i - 1);
      EndNext(run[i - 1], actions[i - 1]);
    }
  }

  // ---------- The fetch loop as code ----------

  datatype Fetch = Fetched(msg: Message, acked: bool) | Canceled | ReaderClosed | Failed(ctxDone: bool)

  /** How many of the first k fetches brought a message. */
  function Brought(fetches: seq<Fetch>, k: nat): nat
    requires k <= |fetches|
  {
    if k == 0 then 0 else Brought(fetches, k - 1) + if fetches[k - 1].Fetched? then 1 else 0
  }

  /** The reader hands out each partition's messages in the order of their offsets. */
  ghost predicate InOffsetOrder(fetches: seq<Fetch>) {
    forall i, j | 0 <= i < j < |fetches| && fetches[i].Fetched? && fetches[j].Fetched? ::
      fetches[i].msg.partition == fetches[j].msg.partition ==> fetches[i].msg.offset < fetches[j].msg.offset
  }

  /** The k fetches so far have brought the messages fetched, in their order. */
  ghost predicate Holds(s: State, fetches: seq<Fetch>, k: nat) {
    && k <= |fetches| && |s.fetched| == Brought(fetches, k)
    && forall j | 0 <= j < k && fetches[j].Fetched? ::
         Brought(fetches, j) < |s.fetched| && s.fetched[Brought(fetches, j)] == fetches[j].msg
  }

  lemma {:induction false} BroughtGrows(fetches: seq<Fetch>, j: nat, k: nat)
    requires j <= k <= |fetches|
    ensures Brought(fetches, j) <= Brought(fetches, k)
    ensures j < k && fetches[j].Fetched? ==> Brought(fetches, j) < Brought(fetches, k)
    decreases k
  {
    if j < k {
      BroughtGrows(fetches, j, k - 1);
    }
  }

  lemma {:induction false} BroughtBy(fetches: seq<Fetch>, k: nat, n: nat) returns (j: nat)
    requires k <= |fetches| && n < Brought(fetches, k)
    ensures j < k && fetches[j].Fetched? && Brought(fetches, j) == n
  {
    if fetches[k - 1].Fetched? && Brought(fetches, k - 1) == n {
      j := k - 1;
    } else {
      j := BroughtBy(fetches, k - 1, n);
    }
  }

  lemma CanFetchNext(s: State, fetches: seq<Fetch>, k: nat)
    requires Holds(s, fetches, k) && InOffsetOrder(fetches) && s.fetcher == Fetching
    requires k < |fetches| && fetches[k].Fetched?
    ensures Enabled(s, Action.Fetch(fetches[k].msg))
  {
    forall m | 0 <= m < |s.fetched| && s.fetched[m].partition == fetches[k].msg.partition
      ensures s.fetched[m].offset < fetches[k].msg.offset
    {
      var j := BroughtBy(fetches, k, m);
      assert s.fetched[Brought(fetches, j)] == fetches[j].msg;
    }
  }

  lemma HoldsNext(s: State, s': State, fetches: seq<Fetch>, k: nat)
    requires Holds(s, fetches, k) && k < |fetches|
    requires s'.fetched == s.fetched + if fetches[k].Fetched? then [fetches[k].msg] else []
    ensures Holds(s', fetches, k + 1)
  {
    forall j | 0 <= j < k + 1 && fetches[j].Fetched?
      ensures Brought(fetches, j) < |s'.fetched| && s'.fetched[Brought(fetches, j)] == fetches[j].msg
    {
      BroughtGrows(fetches, j, k);
    }
  }

  /** A step of the fetch loop. */
  predicate OfLoop(a: Action) {
    a.Fetch? || a.StopFetching? || a.SkipUnhandled? || a.BeginSubmit? || a.EndSubmit?
  }

  class Consumer {
    const handled: set<string>
    const poolSize: nat
    var pool: WorkerPool.State
    var fetched: seq<Message>
    var fetcher: Fetcher
    var skipped: set<nat>
    var outcome: map<nat, bool>
    var commits: seq<Commit>
    var clock: nat
    ghost var run: seq<State>
    ghost var actions: seq<Action>

    function Abs(): State
      reads this
    {
      State(pool, handled, fetched, fetcher, skipped, outcome, commits)
    }

    /** run is how the object came to its state. */
    ghost predicate Valid()
      reads this
    {
      Run(run, actions, poolSize) && run[|actions|] == Abs()
    }

    constructor (poolSize: nat, handled: set<string>)
      ensures Valid() && this.poolSize == poolSize && this.handled == handled && fetched == [] && fetcher == Fetching
    {
      this.poolSize, this.handled, clock := poolSize, handled, 0;
      pool := NewPool(poolSize);
      fetched, fetcher, skipped, outcome, commits := [], Fetching, {}, map[], [];
      actions := [];
      new;
      run := [Abs()];
    }

    ghost method Record(s: State, a: Action)
      requires Run(run, actions, poolSize) && run[|actions|] == s && Enabled(s, a) && Abs() == Next(s, a)
      modifies this`run, this`actions
      ensures Valid()
    {
      run, actions := Extended(run, actions, poolSize, a);
    }

    /** The pool's own steps, the handlers and the commits of the workers. */
    method Others(others: nat -> seq<Action>)
      requires Valid()
      modifies this
      ensures Valid() && fetched == old(fetched) && fetcher == old(fetcher)
    {
      var todo := others(clock);
      clock := clock + 1;
      for i := 0 to |todo|
        invariant Valid() && fetched == old(fetched) && fetcher == old(fetcher)
      {
        if !OfLoop(todo[i]) && Enabled(Abs(), todo[i]) {
          Other(todo[i]);
        }
      }
    }

    method Other(a: Action)
      requires Valid() && !OfLoop(a) && Enabled(Abs(), a)
      modifies this
      ensures Valid() && fetched == old(fetched) && fetcher == old(fetcher) && clock == old(clock)
    {
      var s := Abs();
      pool, commits := NextPool(s, a), NextCommits(s, a);
      if a.HandlerReturns? {
        outcome := outcome[TaskOf(s, a.w) := a.ok];
      }
      Record(s, a);
    }

    /** consume: it has gone on over k fetches, errors without ctx's end among them. It is left at the
      * k-th if that is ctx's end, a closed reader, or an error with ctx ended in the backoff, or brings
      * a message that Submit has refused or cannot yet take; else no fetch remains.
      */
    method Consume(fetches: seq<Fetch>, others: nat -> seq<Action>) returns (k: nat)
      requires Valid() && fetched == [] && fetcher == Fetching && InOffsetOrder(fetches)
      modifies this
      ensures Valid() && k <= |fetches| && (fetcher == Fetching <==> k == |fetches|)
      ensures forall j | 0 <= j < k ::
        fetches[j] != Canceled && fetches[j] != ReaderClosed && fetches[j] != Failed(true)
      ensures fetcher == Fetching ==> Holds(Abs(), fetches, k)
      ensures fetcher != Fetching && !fetches[k].Fetched? ==>
        && (fetches[k] == Canceled || fetches[k] == ReaderClosed || fetches[k] == Failed(true))
        && fetcher == Returned && Holds(Abs(), fetches, k)
      ensures fetcher != Fetching && fetches[k].Fetched? ==>
        && fetches[k].msg.partition.topic in handled && Holds(Abs(), fetches, k + 1)
        && (fetcher == Submitting(|fetched| - 1) || (fetcher == Returned && Dropped(Abs(), |fetched| - 1)))
      ensures forall n: nat | n < |fetched| :: Dealt(Abs(), n)
    {
      k := 0;
      while k < |fetches|
        invariant Valid() && k <= |fetches| && fetcher == Fetching && Holds(Abs(), fetches, k)
        invariant forall j | 0 <= j < k ::
          fetches[j] != Canceled && fetches[j] != ReaderClosed && fetches[j] != Failed(true)
      {
        Others(others);
        ghost var s := Abs();
        var ok := true;
        match fetches[k] {
          case Fetched(msg, acked) =>
            CanFetchNext(s, fetches, k);
            ok := Handle(msg, acked, others);
          case Failed(ctxDone) =>
            if ctxDone {
              ok := false;
              Leave();
            }
          case _ =>
            ok := false;
            Leave();
        }
        if ok || fetches[k].Fetched? {
          HoldsNext(s, Abs(), fetches, k);
        }
        if !ok {
          break;
        }
        k := k + 1;
      }
      AllDealt(run, actions, poolSize);
    }

    method Leave()
      requires Valid() && fetcher == Fetching
      modifies this`fetcher, this`run, this`actions
      ensures Valid() && fetcher == Returned && fetched == old(fetched)
    {
      ghost var s := Abs();
      fetcher := Returned;
      Record(s, StopFetching);
    }

    /** One message: committed if its topic has no handler, else submitted. False: Submit has refused
      * it, or cannot yet take it.
      */
    method Handle(msg: Message, acked: bool, others: nat -> seq<Action>) returns (ok: bool)
      requires Valid() && fetcher == Fetching && Enabled(Abs(), Action.Fetch(msg))
      modifies this
      ensures Valid() && fetched == old(fetched) + [msg] && (ok <==> fetcher == Fetching)
      ensures msg.partition.topic !in handled ==> ok
      ensures !ok ==> fetcher == Submitting(|fetched| - 1) || (fetcher == Returned && Dropped(Abs(), |fetched| - 1))
    {
      ghost var s := Abs();
      var n := |fetched|;
      fetched, fetcher := fetched + [msg], Held(n);
      Record(s, Action.Fetch(msg));
      Others(others);
      if msg.partition.topic !in handled {
        s := Abs();
        commits, skipped, fetcher := commits + [Commit(n, acked)], skipped + {n}, Fetching;
        Record(s, SkipUnhandled(acked));
        ok := true;
      } else {
        Begin(n);
        Others(others);
        ok := Submit(n);
      }
    }

    method Begin(n: nat)
      requires Valid() && fetcher == Held(n) && n < |fetched| && fetched[n].partition.topic in handled
      modifies this`pool, this`fetcher, this`run, this`actions
      ensures Valid() && fetcher == Submitting(n)
    {
      ghost var s := Abs();
      InvRun(run, actions, poolSize, |actions|);
      pool, fetcher := WorkerPool.Next(pool, WorkerPool.Submit(n)), Submitting(n);
      Record(s, BeginSubmit);
    }

    /** Submit's select, as far as a case is ready. */
    method Submit(n: nat) returns (ok: bool)
      requires Valid() && fetcher == Submitting(n)
      modifies this`pool, this`fetcher, this`run, this`actions
      ensures Valid() && (ok <==> fetcher == Fetching)
      ensures !ok ==> fetcher == Submitting(n) || (fetcher == Returned && Dropped(Abs(), n))
    {
      StillBlocked(run, actions, poolSize, n);
      ok := !pool.closed && |pool.queue| < pool.capacity;
      if ok {
        EndWith(n, WorkerPool.Send(n));
      } else if pool.closed {
        EndWith(n, WorkerPool.SendOnClosed(n));
      } else if n in pool.submitDone {
        EndWith(n, WorkerPool.GiveUp(n));
      }
    }

    method EndWith(n: nat, step: WorkerPool.Action)
      requires Valid() && fetcher == Submitting(n) && Ends(step, n) && WorkerPool.Enabled(pool, step)
      modifies this`pool, this`fetcher, this`run, this`actions
      ensures Valid() && fetcher == if step.Send? || step.Handoff? then Fetching else Returned
      ensures fetcher == Returned ==> Dropped(Abs(), n)
    {
      ghost var s := Abs();
      Answered(s, step);
      pool := WorkerPool.Next(pool, step);
      fetcher := if step.Send? || step.Handoff? then Fetching else Returned;
      Record(s, EndSubmit(step));
    }
  }

  lemma StillBlocked(run: seq<State>, actions: seq<Action>, poolSize: nat, n: nat)
    requires Run(run, actions, poolSize) && run[|actions|].fetcher == Submitting(n)
    ensures WorkerPool.Pending(run[|actions|].pool, n)
  {
    InvRun(run, actions, poolSize, |actions|);
  }

  lemma Answered(s: State, step: WorkerPool.Action)
    requires s.fetcher.Submitting? && Ends(step, s.fetcher.n) && WorkerPool.Enabled(s.pool, step)
    ensures var next := if step.Send? || step.Handoff? then Fetching else Returned;
      Next(s, EndSubmit(step)) == s.(pool := WorkerPool.Next(s.pool, step), fetcher := next)
      && (next == Returned ==> Dropped(Next(s, EndSubmit(step)), s.fetcher.n))
  {
    SubmitsNext(s, EndSubmit(step));
  }

  /** What has become of message n: its offset put up for commit without a handler, which its topic
    * does not have, or brought to Submit, because it does; unless the loop still holds it.
    */
  ghost predicate Dealt(s: State, n: nat)
    requires n < |s.fetched|
  {
    || s.fetcher == Held(n)
    || (s.fetched[n].partition.topic !in s.handled && n in s.skipped && n !in s.pool.submits && Requested(s, n))
    || (s.fetched[n].partition.topic in s.handled && n !in s.skipped && n in s.pool.submits)
  }

  /** In every reachable state each fetched message has been dealt with as its topic demands. */
  lemma AllDealt(run: seq<State>, actions: seq<Action>, poolSize: nat)
    requires Run(run, actions, poolSize)
    ensures var s := run[|actions|]; forall n: nat | n < |s.fetched| :: Dealt(s, n)
  {
    var s := run[|actions|];
    InvRun(run, actions, poolSize, |actions|);
    forall n: nat | n < |s.fetched| ensures Dealt(s, n) {
      assert Holding(s, n) || n in s.skipped || n in s.pool.submits;
      if n in s.skipped {
        SkippedIsRequested(run, actions, poolSize, |actions|, n);
      }
    }
  }
}
