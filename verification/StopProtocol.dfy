/** How a server stops: the goroutine that watches Start's context and any number of Stop calls share
  * one graceful shutdown, and a Stop whose context ends forces the connections closed. The HTTP and
  * the gRPC server follow the same steps.
  */
module StopProtocol {

  // ---------- State ----------

  datatype Who = Watcher | Helper(k: nat)

  /** shutdownOnce: whoever calls it while it is Running waits for it to be Finished. */
  datatype Once = Fresh | Running(who: Who) | Finished

  /** A goroutine on its way through shutdownOnce.Do. A helper closes done as it goes. */
  datatype Goroutine = NotLaunched | Watching | Wants | Inside | Left | Gone

  datatype Main = Entering | Selecting | Forcing | Joining | ReturnedNil | ReturnedErr

  datatype StopCall = StopCall(main: Main, helper: Goroutine)

  /** late: Serve was called on a server already told to stop. */
  datatype StartCall = NotStarted | Serving(late: bool) | Served(failed: bool) | StartReturned(err: bool)

  /** expired holds the Stop calls whose context has ended, made or not yet made. accepted, drained
    * and cut count connections; gracefulCalls counts calls of the server's own Shutdown; forced
    * holds the Stops that have issued a forced close. These five are history.
    */
  datatype State = State(
    grpc: bool,
    once: Once, draining: bool, closed: bool, conns: nat,
    handlers: nat,   // gRPC method handlers running; they may outlive their connections
    start: StartCall, ctxEnded: bool, watcher: Goroutine,
    stops: seq<StopCall>, expired: set<nat>,
    accepted: nat, drained: nat, cut: nat, gracefulCalls: nat, forced: set<nat>)

  ghost predicate Init(s: State) {
    s == State(s.grpc, Fresh, false, false, 0, 0, NotStarted, false, NotLaunched, [], {}, 0, 0, 0, 0, {})
  }

  // ---------- Steps ----------

  datatype Action =
    // the outside
    | Listen(ok: bool) | CallStop | EndCtx | Expire(k: nat) | Accept | FinishConn | StartRPC | EndRPC | Break
    // Start
    | ServeReturns | Join
    // the watcher and the helpers
    | Wake | Quit | Enter(who: Who) | Pass(who: Who) | Drain(who: Who) | Exit(who: Who)
    // the k-th Stop
    | Begin(k: nat) | SeeDone(k: nat) | SeeExpired(k: nat) | Force(k: nat) | ReturnErr(k: nat)

  predicate FromOutside(a: Action) {
    || a.Listen? || a.CallStop? || a.EndCtx? || a.Expire?
    || a.Accept? || a.FinishConn? || a.StartRPC? || a.EndRPC? || a.Break?
  }

  function Position(watcher: Goroutine, stops: seq<StopCall>, who: Who): Goroutine {
    match who
    case Watcher => watcher
    case Helper(k) => if k < |stops| then stops[k].helper else NotLaunched
  }

  function At(s: State, who: Who): Goroutine {
    Position(s.watcher, s.stops, who)
  }

  predicate MainIs(s: State, k: nat, m: Main) {
    k < |s.stops| && s.stops[k].main == m
  }

  /** The server has stopped listening. gRPC's Serve moreover waits for the graceful call's end. */
  predicate ServeCanReturn(s: State) {
    s.closed || s.start == Serving(true) || (if s.grpc then s.once == Finished else s.draining)
  }

  predicate Enabled(s: State, a: Action) {
    match a
    case Listen(_) => s.start == NotStarted
    case CallStop => true
    case EndCtx => true
    case Expire(_) => true
    case Accept => s.start.Serving? && !s.draining && !s.closed
    case FinishConn => s.conns > 0
    case StartRPC => s.grpc && s.conns > 0
    case EndRPC => s.handlers > 0
    case Break => s.start.Serving? && !s.draining && !s.closed
    case ServeReturns => s.start.Serving? && ServeCanReturn(s)
    case Join => s.start.Served? && s.watcher == Gone
    case Wake => s.watcher == Watching && s.ctxEnded
    case Quit => s.watcher == Watching && s.start.Served?
    case Enter(who) => At(s, who) == Wants && s.once == Fresh
    case Pass(who) => At(s, who) == Wants && s.once == Finished
    case Drain(who) => At(s, who) == Inside && s.conns == 0 && s.handlers == 0
    case Exit(who) => At(s, who) == Left
    case Begin(k) => MainIs(s, k, Entering)
    case SeeDone(k) => MainIs(s, k, Selecting) && At(s, Helper(k)) == Gone
    case SeeExpired(k) => MainIs(s, k, Selecting) && k in s.expired
    case Force(k) => MainIs(s, k, Forcing)
    case ReturnErr(k) => MainIs(s, k, Joining) && (At(s, Helper(k)) == Gone || At(s, Helper(k)) == NotLaunched)
  }

  function NextOnce(s: State, a: Action): Once {
    match a
    case Enter(who) => Running(who)
    case Drain(_) => Finished
    case _ => s.once
  }

  function NextStart(s: State, a: Action): StartCall
    requires Enabled(s, a)
  {
    match a
    case Listen(ok) => if ok then Serving(s.draining || s.closed) else StartReturned(true)
    case Break => Served(true)
    case ServeReturns => Served(false)
    case Join => StartReturned(s.start.failed && !s.grpc)
    case _ => s.start
  }

  /** Where a goroutine is after its own step. */
  function Moved(a: Action): Goroutine {
    match a
    case Wake => Wants
    case Enter(_) => Inside
    case Pass(_) => Left
    case Drain(_) => Left
    case _ => Gone
  }

  predicate MovesWatcher(a: Action) {
    a.Wake? || a.Quit? || ((a.Enter? || a.Pass? || a.Drain? || a.Exit?) && a.who == Watcher)
  }

  predicate MovesHelper(a: Action) {
    (a.Enter? || a.Pass? || a.Drain? || a.Exit?) && a.who.Helper?
  }

  function NextWatcher(s: State, a: Action): Goroutine {
    if a == Listen(true) then Watching else if MovesWatcher(a) then Moved(a) else s.watcher
  }

  function MovedMain(s: State, a: Action): StopCall
    requires Enabled(s, a) && (a.Begin? || a.SeeDone? || a.SeeExpired? || a.Force? || a.ReturnErr?)
  {
    match a
    case Begin(k) => if k in s.expired then StopCall(Forcing, NotLaunched) else StopCall(Selecting, Wants)
    case SeeDone(k) => s.stops[k].(main := ReturnedNil)
    case SeeExpired(k) => s.stops[k].(main := Forcing)
    case Force(k) => s.stops[k].(main := Joining)
    case ReturnErr(k) => s.stops[k].(main := ReturnedErr)
  }

  function NextStops(s: State, a: Action): seq<StopCall>
    requires Enabled(s, a)
  {
    if a.CallStop? then s.stops + [StopCall(Entering, NotLaunched)]
    else if MovesHelper(a) then s.stops[a.who.k := s.stops[a.who.k].(helper := Moved(a))]
    else if a.Begin? || a.SeeDone? || a.SeeExpired? || a.Force? || a.ReturnErr? then s.stops[a.k := MovedMain(s, a)]
    else s.stops
  }

  function NextConns(s: State, a: Action): nat
    requires Enabled(s, a)
  {
    match a
    case Accept => s.conns + 1
    case FinishConn => s.conns - 1
    case Force(_) => 0
    case _ => s.conns
  }

  function Next(s: State, a: Action): State
    requires Enabled(s, a)
  {
    State(s.grpc,
      NextOnce(s, a), s.draining || a.Enter?, s.closed || a.Force?, NextConns(s, a),
      if a.StartRPC? then s.handlers + 1 else if a.EndRPC? then s.handlers - 1 else s.handlers,
      NextStart(s, a), s.ctxEnded || a.EndCtx?, NextWatcher(s, a),
      NextStops(s, a), if a.Expire? then s.expired + {a.k} else s.expired,
      if a.Accept? then s.accepted + 1 else s.accepted,
      if a.FinishConn? then s.drained + 1 else s.drained,
      if a.Force? then s.cut + s.conns else s.cut,
      if a.Enter? then s.gracefulCalls + 1 else s.gracefulCalls,
      if a.Force? then s.forced + {a.k} else s.forced)
  }

  predicate StepAt(run: seq<State>, actions: seq<Action>, i: nat)
    requires i < |actions| && |run| == |actions| + 1
  {
    Enabled(run[i], actions[i]) && run[i + 1] == Next(run[i], actions[i])
  }

  ghost predicate Run(run: seq<State>, actions: seq<Action>) {
    && |run| == |actions| + 1 && Init(run[0])
    && forall i | 0 <= i < |actions| :: StepAt(run, actions, i)
  }

  // ---------- Invariants ----------

  /** Exactly the goroutine that runs the graceful shutdown is inside. */
  ghost predicate OnceOK(s: State) {
    && (forall who :: At(s, who) == Inside <==> s.once == Running(who))
    && (s.draining <==> s.once != Fresh)
    && s.gracefulCalls == (if s.once == Fresh then 0 else 1)
    && (s.once == Finished ==> s.conns == 0 && s.handlers == 0)
  }

  /** No connection is lost from the count, and only a forced close cuts any. */
  ghost predicate ConnsOK(s: State) {
    && s.accepted == s.drained + s.cut + s.conns
    && (s.closed ==> s.conns == 0)
    && (s.closed <==> s.forced != {})
    && (!s.closed ==> s.cut == 0)
    && s.forced <= s.expired
    && (!s.grpc ==> s.handlers == 0)
  }

  ghost predicate CallOK(s: State, k: nat)
    requires k < |s.stops|
  {
    var c := s.stops[k];
    && c.helper != Watching
    && (c.main == Entering ==> c.helper == NotLaunched)
    && (c.main == Selecting ==> c.helper != NotLaunched)
    && (c.main == ReturnedNil ==> c.helper == Gone)
    && (c.main == ReturnedErr ==> c.helper == Gone || c.helper == NotLaunched)
    && (c.main == Forcing ==> k in s.expired)
    && (c.main == Joining || c.main == ReturnedErr <==> k in s.forced)
    && (c.helper == Left || c.helper == Gone ==> s.once == Finished)
  }

  ghost predicate CallsOK(s: State) {
    && (forall k: nat | k < |s.stops| :: CallOK(s, k))
    && (forall k | k in s.forced :: k < |s.stops|)
  }

  ghost predicate StartOK(s: State) {
    && (s.start == NotStarted ==> s.watcher == NotLaunched)
    && (s.start.Serving? || s.start.Served? ==> s.watcher != NotLaunched)
    && (s.start.StartReturned? ==> s.watcher == Gone || s.watcher == NotLaunched)
    && (s.watcher == Left ==> s.once == Finished)
    && (s.start.Serving? && s.watcher == Gone ==> s.once == Finished)
  }

  ghost predicate Inv(s: State) {
    OnceOK(s) && ConnsOK(s) && CallsOK(s) && StartOK(s)
  }

  lemma OnceNext(s: State, a: Action)
    requires OnceOK(s) && CallsOK(s) && StartOK(s) && Enabled(s, a)
    ensures OnceOK(Next(s, a))
  {
    var s' := Next(s, a);
    forall who ensures At(s', who) == Inside <==> s'.once == Running(who) {
      InsideNext(s, a, who);
    }
  }

  lemma WatcherMoves(s: State, a: Action)
    requires StartOK(s) && Enabled(s, a)
    ensures NextWatcher(s, a) == Inside <==> a == Enter(Watcher) || (s.watcher == Inside && a != Drain(Watcher))
  {
  }

  lemma HelperMoves(s: State, a: Action, k: nat)
    requires CallsOK(s) && Enabled(s, a)
    ensures k < |NextStops(s, a)| && NextStops(s, a)[k].helper == Inside <==>
              a == Enter(Helper(k)) || (At(s, Helper(k)) == Inside && a != Drain(Helper(k)))
  {
    if k < |s.stops| {
      assert CallOK(s, k);
    }
  }

  /** No step but its own takes a goroutine inside, and none but its own takes it out. */
  lemma InsideMoves(s: State, a: Action, who: Who)
    requires CallsOK(s) && StartOK(s) && Enabled(s, a)
    ensures Position(NextWatcher(s, a), NextStops(s, a), who) == Inside <==>
              a == Enter(who) || (At(s, who) == Inside && a != Drain(who))
  {
    WatcherMoves(s, a);
    if who.Helper? {
      HelperMoves(s, a, who.k);
    }
  }

  lemma InsideNext(s: State, a: Action, who: Who)
    requires OnceOK(s) && CallsOK(s) && StartOK(s) && Enabled(s, a)
    ensures At(Next(s, a), who) == Inside <==> NextOnce(s, a) == Running(who)
  {
    InsideMoves(s, a, who);
    assert At(s, who) == Inside <==> s.once == Running(who);
    if a.Drain? {
      assert At(s, a.who) == Inside <==> s.once == Running(a.who);
    }
  }

  lemma ConnsNext(s: State, a: Action)
    requires ConnsOK(s) && CallsOK(s) && Enabled(s, a)
    ensures ConnsOK(Next(s, a))
  {
    if a.Force? {
      assert CallOK(s, a.k);
      assert a.k in Next(s, a).forced;
    }
  }

  lemma CallNext(s: State, a: Action, k: nat)
    requires OnceOK(s) && CallsOK(s) && Enabled(s, a) && k < |Next(s, a).stops|
    ensures CallOK(Next(s, a), k)
  {
    if k < |s.stops| {
      assert CallOK(s, k);
      assert At(s, Helper(k)) == Inside <==> s.once == Running(Helper(k));
    }
  }

  lemma CallsNext(s: State, a: Action)
    requires OnceOK(s) && CallsOK(s) && Enabled(s, a)
    ensures CallsOK(Next(s, a))
  {
    forall k: nat | k < |Next(s, a).stops| ensures CallOK(Next(s, a), k) {
      CallNext(s, a, k);
    }
  }

  lemma StartNext(s: State, a: Action)
    requires StartOK(s) && OnceOK(s) && Enabled(s, a)
    ensures StartOK(Next(s, a))
  {
  }

  lemma InvNext(s: State, a: Action)
    requires Inv(s) && Enabled(s, a)
    ensures Inv(Next(s, a))
  {
    OnceNext(s, a);
    ConnsNext(s, a);
    CallsNext(s, a);
    StartNext(s, a);
  }

  lemma {:induction false} InvRun(run: seq<State>, actions: seq<Action>, i: nat)
    requires Run(run, actions) && i < |run|
    ensures Inv(run[i]) && run[i].grpc == run[0].grpc
  {
    if i > 0 {
      InvRun(run, actions, i - 1);
      assert StepAt(run, actions, i - 1);
      InvNext(run[i - 1], actions[i - 1]);
    }
  }

  // ---------- What Stop's answers mean ----------

  /** No connection will ever be accepted again. */
  predicate Shut(s: State) {
    s.draining || s.closed
  }

  ghost predicate Later(s: State, s': State) {
    && (s.once == Finished ==> s'.once == Finished) && (s.draining ==> s'.draining) && (s.closed ==> s'.closed)
    && (Shut(s) ==> s'.accepted == s.accepted && s'.conns <= s.conns)
    && (s.closed ==> s'.handlers <= s.handlers) && (s.ctxEnded ==> s'.ctxEnded)
    && s.expired <= s'.expired && s.forced <= s'.forced && |s.stops| <= |s'.stops|
    && s.gracefulCalls <= s'.gracefulCalls
  }

  predicate Returned(s: State, k: nat, m: Main) {
    MainIs(s, k, m) && (m == ReturnedNil || m == ReturnedErr)
  }

  lemma LaterNext(s: State, a: Action)
    requires Inv(s) && Enabled(s, a)
    ensures Later(s, Next(s, a))
  {
  }

  lemma {:induction false} LaterInRun(run: seq<State>, actions: seq<Action>, i: nat, j: nat)
    requires Run(run, actions) && i <= j < |run|
    ensures Later(run[i], run[j])
    decreases j
  {
    if i < j {
      LaterInRun(run, actions, i, j - 1);
      InvRun(run, actions, j - 1);
      assert StepAt(run, actions, j - 1);
      LaterNext(run[j - 1], actions[j - 1]);
    }
  }

  /** The server's own graceful shutdown is called at most once, whoever asks and however often. */
  lemma GracefulAtMostOnce(run: seq<State>, actions: seq<Action>, i: nat)
    requires Run(run, actions) && i < |run|
    ensures run[i].gracefulCalls <= 1
    ensures run[i].gracefulCalls == 1 <==> run[i].draining
    ensures forall who, who' :: At(run[i], who) == Inside && At(run[i], who') == Inside ==> who == who'
  {
    InvRun(run, actions, i);
  }

  /** Step p of the run is a forced close that finds connections open. */
  predicate CutsAt(run: seq<State>, actions: seq<Action>, p: nat)
    requires |run| == |actions| + 1
  {
    p < |actions| && actions[p].Force? && run[p].conns > 0
  }

  lemma {:induction false} CutIff(run: seq<State>, actions: seq<Action>, i: nat)
    requires Run(run, actions) && i < |run|
    ensures run[i].cut > 0 <==> exists p: nat :: p < i && CutsAt(run, actions, p)
  {
    if i > 0 {
      CutIff(run, actions, i - 1);
      assert StepAt(run, actions, i - 1);
      assert run[i].cut > run[i - 1].cut <==> CutsAt(run, actions, i - 1);
    }
  }

  /** A nil from Stop means that the one graceful call has returned and that every connection ever
    * accepted has gone, then and for good. Each one has drained, none been cut, exactly when no
    * other Stop's forced close has found a connection open.
    */
  lemma NilIsDrained(run: seq<State>, actions: seq<Action>, i: nat, j: nat, k: nat)
    requires Run(run, actions) && i <= j < |run| && Returned(run[i], k, ReturnedNil)
    ensures run[j].once == Finished && run[j].gracefulCalls == 1 && run[j].conns == 0 && run[j].handlers == 0
    ensures run[j].accepted == run[i].accepted == run[j].drained + run[j].cut
    ensures run[j].drained == run[j].accepted <==> !exists p: nat :: p < i && CutsAt(run, actions, p)
    ensures forall p: nat | p < i && CutsAt(run, actions, p) :: actions[p].k != k
  {
    InvRun(run, actions, i);
    assert CallOK(run[i], k);
    LaterInRun(run, actions, i, j);
    InvRun(run, actions, j);
    CutIff(run, actions, j);
    forall p: nat | i <= p < j ensures !CutsAt(run, actions, p) {
      InvRun(run, actions, p);
      LaterInRun(run, actions, i, p);
    }
    forall p: nat | p < i && CutsAt(run, actions, p) ensures actions[p].k != k {
      assert StepAt(run, actions, p);
      LaterInRun(run, actions, p + 1, i);
      assert actions[p].k in run[p + 1].forced;
    }
  }

  lemma RunGrows(run: seq<State>, actions: seq<Action>, a: Action)
    requires Run(run, actions) && Enabled(run[|actions|], a)
    ensures Run(run + [Next(run[|actions|], a)], actions + [a])
  {
    forall i | 0 <= i < |actions + [a]| ensures StepAt(run + [Next(run[|actions|], a)], actions + [a], i) {
      assert i < |actions| ==> StepAt(run, actions, i);
    }
  }

  lemma Then(run: seq<State>, actions: seq<Action>, a: Action) returns (run': seq<State>, actions': seq<Action>)
    requires Run(run, actions) && Enabled(run[|actions|], a)
    ensures Run(run', actions') && run'[|actions'|] == Next(run[|actions|], a)
  {
    RunGrows(run, actions, a);
    run', actions' := run + [Next(run[|actions|], a)], actions + [a];
  }

  lemma OneConnection(grpc: bool) returns (run: seq<State>, actions: seq<Action>)
    ensures Run(run, actions)
    ensures run[|actions|] == State(grpc, Fresh, false, false, 1, 0, Serving(false), false, Watching,
                                [], {}, 1, 0, 0, 0, {})
  {
    var s := State(grpc, Fresh, false, false, 0, 0, NotStarted, false, NotLaunched, [], {}, 0, 0, 0, 0, {});
    run, actions := [s], [];
    run, actions := Then(run, actions, Listen(true));
    run, actions := Then(run, actions, Accept);
  }

  /** A first Stop is called; on a gRPC server, the connection's method handler runs. */
  lemma HandlerRuns(grpc: bool) returns (run: seq<State>, actions: seq<Action>)
    ensures Run(run, actions)
    ensures run[|actions|] == State(grpc, Fresh, false, false, 1, if grpc then 1 else 0, Serving(false), false,
                                Watching, [StopCall(Entering, NotLaunched)], {}, 1, 0, 0, 0, {})
  {
    run, actions := OneConnection(grpc);
    if grpc {
      run, actions := Then(run, actions, StartRPC);
    }
    run, actions := Then(run, actions, CallStop);
  }

  /** The first Stop's helper is inside the graceful shutdown, with a connection open. */
  lemma DrainBegun(grpc: bool) returns (run: seq<State>, actions: seq<Action>)
    ensures Run(run, actions)
    ensures run[|actions|] == State(grpc, Running(Helper(0)), true, false, 1, if grpc then 1 else 0,
                                Serving(false), false, Watching, [StopCall(Selecting, Inside)], {}, 1, 0, 0, 1, {})
  {
    run, actions := HandlerRuns(grpc);
    run, actions := Then(run, actions, Begin(0));
    run, actions := Then(run, actions, Enter(Helper(0)));
  }

  /** A second Stop finds its context ended. */
  lemma OtherExpired() returns (run: seq<State>, actions: seq<Action>)
    ensures Run(run, actions)
    ensures run[|actions|] == State(false, Running(Helper(0)), true, false, 1, 0, Serving(false), false, Watching,
                                [StopCall(Selecting, Inside), StopCall(Forcing, NotLaunched)], {1}, 1, 0, 0, 1, {})
  {
    run, actions := DrainBegun(false);
    run, actions := Then(run, actions, CallStop);
    run, actions := Then(run, actions, Expire(1));
    run, actions := Then(run, actions, Begin(1));
  }

  /** It forces the connection closed. */
  lemma OtherForces() returns (run: seq<State>, actions: seq<Action>)
    ensures Run(run, actions)
    ensures run[|actions|] == State(false, Running(Helper(0)), true, true, 0, 0, Serving(false), false, Watching,
                                [StopCall(Selecting, Inside), StopCall(Joining, NotLaunched)], {1}, 1, 0, 1, 1, {1})
  {
    run, actions := OtherExpired();
    run, actions := Then(run, actions, Force(1));
  }

  /** A nil Stop whose connection was cut, not drained: another Stop has forced it closed. */
  lemma NilAfterCut() returns (run: seq<State>, actions: seq<Action>)
    ensures Run(run, actions) && Returned(run[|actions|], 0, ReturnedNil)
    ensures var last := run[|actions|]; last.accepted == 1 && last.cut == 1 && last.drained == 0
  {
    run, actions := OtherForces();
    run, actions := Then(run, actions, Drain(Helper(0)));
    run, actions := Then(run, actions, Exit(Helper(0)));
    run, actions := Then(run, actions, SeeDone(0));
  }

  /** An error from Stop means that its own context ended and that it forced the connections closed. */
  lemma ErrorIsForced(run: seq<State>, actions: seq<Action>, i: nat, j: nat, k: nat)
    requires Run(run, actions) && i <= j < |run| && Returned(run[i], k, ReturnedErr)
    ensures k in run[i].expired && k in run[i].forced
    ensures run[j].closed && run[j].conns == 0 && run[j].accepted == run[i].accepted
  {
    InvRun(run, actions, i);
    assert CallOK(run[i], k);
    LaterInRun(run, actions, i, j);
    InvRun(run, actions, j);
  }

  /** Stop k, if it has got anywhere, is on its way to an error without having launched a helper. */
  predicate NeverNil(s: State, k: nat) {
    && k in s.expired
    && (k < |s.stops| ==> s.stops[k].helper == NotLaunched)
    && (k < |s.stops| ==> s.stops[k].main != Selecting && s.stops[k].main != ReturnedNil)
  }

  lemma NeverNilNext(s: State, a: Action, k: nat)
    requires NeverNil(s, k) && Enabled(s, a)
    ensures NeverNil(Next(s, a), k)
  {
  }

  /** A Stop whose context has ended before it looks never answers nil. */
  lemma {:induction false} ExpiredNeverNil(run: seq<State>, actions: seq<Action>, i: nat, j: nat, k: nat)
    requires Run(run, actions) && i <= j < |run|
    requires k in run[i].expired && (k >= |run[i].stops| || MainIs(run[i], k, Entering))
    ensures !Returned(run[j], k, ReturnedNil) && NeverNil(run[j], k)
    decreases j
  {
    if i < j {
      ExpiredNeverNil(run, actions, i, j - 1, k);
      assert StepAt(run, actions, j - 1);
      NeverNilNext(run[j - 1], actions[j - 1], k);
    } else {
      InvRun(run, actions, i);
      assert k < |run[i].stops| ==> CallOK(run[i], k);
    }
  }

  /** The end of Start's context, of Stop k's, and a call of Stop each leave their mark for good. */
  lemma OutsideIsHeard(run: seq<State>, actions: seq<Action>, p: nat, n: nat)
    requires Run(run, actions) && p < |actions| && p < n < |run|
    ensures actions[p] == EndCtx ==> run[n].ctxEnded
    ensures actions[p].Expire? ==> actions[p].k in run[n].expired
    ensures actions[p] == CallStop ==> |run[p].stops| < |run[n].stops|
  {
    assert StepAt(run, actions, p);
    LaterInRun(run, actions, p + 1, n);
  }

  // ---------- What Start answers ----------

  predicate BrokeAt(actions: seq<Action>, p: nat) {
    p < |actions| && actions[p] == Break
  }

  predicate NotBoundAt(actions: seq<Action>, p: nat) {
    p < |actions| && actions[p] == Listen(false)
  }

  predicate BoundAt(actions: seq<Action>, p: nat) {
    p < |actions| && actions[p] == Listen(true)
  }

  /** What Start's progress tells of the steps before. */
  ghost predicate StartTraced(run: seq<State>, actions: seq<Action>, i: nat)
    requires i < |run|
  {
    var broke := exists p: nat :: p < i && BrokeAt(actions, p);
    var bound := exists p: nat :: p < i && BoundAt(actions, p);
    var notBound := exists p: nat :: p < i && NotBoundAt(actions, p);
    match run[i].start
    case NotStarted => !bound && !notBound && !broke
    case Serving(_) => bound && !notBound && !broke
    case Served(failed) => bound && !notBound && (failed <==> broke)
    case StartReturned(err) => (bound <==> !notBound) && (err <==> notBound || (broke && !run[i].grpc))
  }

  lemma StartTracedNext(run: seq<State>, actions: seq<Action>, i: nat)
    requires Run(run, actions) && i < |actions| && StartTraced(run, actions, i)
    ensures StartTraced(run, actions, i + 1)
  {
    assert StepAt(run, actions, i);
    assert BrokeAt(actions, i) <==> actions[i] == Break;
    assert BoundAt(actions, i) <==> actions[i] == Listen(true);
    assert NotBoundAt(actions, i) <==> actions[i] == Listen(false);
  }

  lemma {:induction false} StartTracedInRun(run: seq<State>, actions: seq<Action>, i: nat)
    requires Run(run, actions) && i < |run|
    ensures StartTraced(run, actions, i)
  {
    if i > 0 {
      StartTracedInRun(run, actions, i - 1);
      StartTracedNext(run, actions, i - 1);
    }
  }

  /** Start answers with an error exactly when it could not listen, or, for HTTP, when Serve failed of
    * itself. A Serve that was told to stop is no error.
    */
  lemma StartErrsIff(run: seq<State>, actions: seq<Action>, i: nat, err: bool)
    requires Run(run, actions) && i < |run| && run[i].start == StartReturned(err)
    ensures err <==>
      || (exists p: nat :: p < i && NotBoundAt(actions, p))
      || (!run[0].grpc && exists p: nat :: p < i && BrokeAt(actions, p))
    ensures !err ==> run[i].watcher == Gone
  {
    StartTracedInRun(run, actions, i);
    InvRun(run, actions, i);
    if !err {
      WatcherLaunched(run, actions, i);
    }
  }

  lemma {:induction false} WatcherLaunched(run: seq<State>, actions: seq<Action>, i: nat)
    requires Run(run, actions) && i < |run| && exists p: nat :: p < i && BoundAt(actions, p)
    ensures run[i].watcher != NotLaunched
  {
    assert StepAt(run, actions, i - 1);
    if exists p: nat :: p < i - 1 && BoundAt(actions, p) {
      WatcherLaunched(run, actions, i - 1);
      assert At(run[i - 1], Watcher) == run[i - 1].watcher;
    }
  }

  // ---------- Nothing is left behind ----------

  function GoroutineWork(x: Goroutine): nat {
    match x
    case Watching => 4
    case Wants => 3
    case Inside => 2
    case Left => 1
    case _ => 0
  }

  function CallWork(c: StopCall): nat {
    GoroutineWork(c.helper) + match c.main
      case Entering => 7
      case Selecting => 3
      case Forcing => 2
      case Joining => 1
      case _ => 0
  }

  function CallsWork(stops: seq<StopCall>, n: nat): nat
    requires n <= |stops|
  {
    if n == 0 then 0 else CallsWork(stops, n - 1) + CallWork(stops[n - 1])
  }

  /** The most steps that Start, the watcher, the helpers and the Stops made so far can still take. */
  function Work(s: State): nat {
    StartWork(s.watcher, s.start) + CallsWork(s.stops, |s.stops|)
  }

  /** Nothing is running: Start and every Stop have returned, and no goroutine is left. */
  predicate AllGone(s: State) {
    && (s.start == NotStarted || s.start.StartReturned?) && (s.watcher == Gone || s.watcher == NotLaunched)
    && forall k: nat | k < |s.stops| :: CallGone(s.stops[k])
  }

  predicate CallGone(c: StopCall) {
    (c.main == ReturnedNil || c.main == ReturnedErr) && (c.helper == Gone || c.helper == NotLaunched)
  }

  lemma {:induction false} CallsWorkSame(stops: seq<StopCall>, stops': seq<StopCall>, n: nat)
    requires n <= |stops| && n <= |stops'| && forall k: nat | k < n :: stops[k] == stops'[k]
    ensures CallsWork(stops, n) == CallsWork(stops', n)
  {
    if n > 0 {
      CallsWorkSame(stops, stops', n - 1);
    }
  }

  lemma {:induction false} CallsWorkUpdate(stops: seq<StopCall>, k: nat, c: StopCall, n: nat)
    requires k < n <= |stops|
    ensures CallsWork(stops[k := c], n) + CallWork(stops[k]) == CallsWork(stops, n) + CallWork(c)
  {
    if k < n - 1 {
      CallsWorkUpdate(stops, k, c, n - 1);
    } else {
      CallsWorkSame(stops, stops[k := c], n - 1);
    }
  }

  /** What a new call of Start or Stop adds. */
  function Brings(a: Action): nat {
    if a.CallStop? then 7 else if a == Listen(true) then 6 else 0
  }

  predicate MovesCall(a: Action) {
    MovesHelper(a) || a.Begin? || a.SeeDone? || a.SeeExpired? || a.Force? || a.ReturnErr?
  }

  lemma CallMoved(s: State, a: Action, k: nat)
    requires CallsOK(s) && Enabled(s, a) && MovesCall(a) && k == if MovesHelper(a) then a.who.k else a.k
    ensures k < |s.stops| == |NextStops(s, a)| && NextStops(s, a) == s.stops[k := NextStops(s, a)[k]]
    ensures CallWork(NextStops(s, a)[k]) < CallWork(s.stops[k])
  {
  }

  lemma CallWorkNext(s: State, a: Action)
    requires CallsOK(s) && Enabled(s, a) && MovesCall(a)
    ensures CallsWork(Next(s, a).stops, |s.stops|) < CallsWork(s.stops, |s.stops|) && |Next(s, a).stops| == |s.stops|
  {
    var k := if MovesHelper(a) then a.who.k else a.k;
    CallMoved(s, a, k);
    CallsWorkUpdate(s.stops, k, NextStops(s, a)[k], |s.stops|);
  }

  function StartWork(watcher: Goroutine, start: StartCall): nat {
    GoroutineWork(watcher) + if start.Serving? then 2 else if start.Served? then 1 else 0
  }

  lemma StartWorkNext(s: State, a: Action)
    requires StartOK(s) && Enabled(s, a) && !MovesCall(a)
    ensures StartWork(NextWatcher(s, a), NextStart(s, a)) + (if FromOutside(a) then 0 else 1)
            <= StartWork(s.watcher, s.start) + if a == Listen(true) then 6 else 0
  {
  }

  /** Every step of the protocol uses up work; from outside only new calls bring any. */
  lemma WorkNext(s: State, a: Action)
    requires CallsOK(s) && StartOK(s) && Enabled(s, a)
    ensures Work(Next(s, a)) + (if FromOutside(a) then 0 else 1) <= Work(s) + Brings(a)
  {
    if MovesCall(a) {
      CallWorkNext(s, a);
      assert !FromOutside(a) && NextWatcher(s, a) == s.watcher && NextStart(s, a) == s.start;
    } else {
      CallsWorkSame(s.stops, NextStops(s, a), |s.stops|);
      StartWorkNext(s, a);
    }
  }

  ghost predicate CanStep(s: State) {
    exists a :: !FromOutside(a) && Enabled(s, a)
  }

  /** Serving, with neither a Stop under way nor Start's context ended. */
  predicate Undisturbed(s: State) {
    s.start.Serving? && s.once == Fresh && !s.closed && !s.ctxEnded
  }

  /** The graceful shutdown waits for connections that nobody has forced closed. */
  predicate WaitsForConns(s: State) {
    s.once.Running? && s.conns > 0 && !s.closed
  }

  /** The graceful call of a gRPC server waits for handlers, of connections drained or cut, to return. */
  predicate WaitsForHandlers(s: State) {
    s.once.Running? && s.conns == 0 && s.handlers > 0
  }

  predicate Waits(s: State) {
    WaitsForConns(s) || WaitsForHandlers(s)
  }

  lemma CallCanStep(s: State, k: nat)
    requires Inv(s) && k < |s.stops| && CallWork(s.stops[k]) > 0
    ensures CanStep(s) || Waits(s)
  {
    var c := s.stops[k];
    assert CallOK(s, k);
    assert At(s, Helper(k)) == c.helper;
    OnceCanStep(s, Helper(k));
    if c.helper == Gone || c.helper == NotLaunched {
      var a := if c.main == Entering then Begin(k) else if c.main == Selecting then SeeDone(k)
               else if c.main == Forcing then Force(k) else ReturnErr(k);
      assert !FromOutside(a) && Enabled(s, a);
    }
  }

  /** Whoever is in or before shutdownOnce.Do can go on, or waits for one who waits for connections. */
  lemma OnceCanStep(s: State, who: Who)
    requires Inv(s)
    ensures var x := At(s, who); x == Wants || x == Inside || x == Left ==> CanStep(s) || Waits(s)
  {
    var x := At(s, who);
    if x == Wants || x == Inside || x == Left {
      if s.once.Running? {
        assert At(s, s.once.who) == Inside;
        assert Enabled(s, Drain(s.once.who)) <==> s.conns == 0 && s.handlers == 0;
        assert !FromOutside(Drain(s.once.who));
      } else {
        assert x == Inside <==> s.once == Running(who);
        var a := if x == Left then Exit(who) else if s.once == Fresh then Enter(who) else Pass(who);
        assert !FromOutside(a) && Enabled(s, a);
      }
    }
  }

  lemma StartCanStep(s: State)
    requires Inv(s) && (s.start.Serving? || s.start.Served?)
    ensures CanStep(s) || Waits(s) || Undisturbed(s)
  {
    assert At(s, Watcher) == s.watcher;
    OnceCanStep(s, Watcher);
    if s.once.Running? {
      assert At(s, s.once.who) == Inside;
      OnceCanStep(s, s.once.who);
    }
    if s.start.Serving? {
      assert !FromOutside(ServeReturns) && (Enabled(s, ServeReturns) <==> ServeCanReturn(s));
      assert !FromOutside(Wake) && (Enabled(s, Wake) <==> s.watcher == Watching && s.ctxEnded);
    } else {
      assert !FromOutside(Quit) && !FromOutside(Join);
      assert s.watcher == Watching ==> Enabled(s, Quit);
      assert s.watcher == Gone ==> Enabled(s, Join);
    }
  }

  /** No deadlock: when nothing in the protocol can step, nothing is left, or the server is serving
    * undisturbed, or its one graceful shutdown waits for open connections.
    */
  lemma StuckOnlyForAReason(s: State)
    requires Inv(s)
    ensures AllGone(s) ==> !CanStep(s)
    ensures !CanStep(s) ==> AllGone(s) || Undisturbed(s) || Waits(s)
  {
    if AllGone(s) {
      NothingSteps(s);
    } else if s.start.Serving? || s.start.Served? {
      StartCanStep(s);
    } else {
      var k: nat :| k < |s.stops| && !CallGone(s.stops[k]);
      assert CallOK(s, k);
      CallCanStep(s, k);
    }
  }

  lemma NothingSteps(s: State)
    requires AllGone(s)
    ensures !CanStep(s)
  {
  }

  function Steps(actions: seq<Action>, i: nat, j: nat): nat
    requires i <= j <= |actions|
    decreases j
  {
    if i == j then 0 else Steps(actions, i, j - 1) + if FromOutside(actions[j - 1]) then 0 else 1
  }

  function Brought(actions: seq<Action>, i: nat, j: nat): nat
    requires i <= j <= |actions|
    decreases j
  {
    if i == j then 0 else Brought(actions, i, j - 1) + Brings(actions[j - 1])
  }

  /** After a forced close the protocol can step until Start, the watcher, every helper and every
    * Stop has gone, whatever the connections do, and it takes boundedly many steps to get there. Only
    * gRPC handlers that have yet to return can hold it up, and none is started any more.
    */
  lemma {:induction false} ForcedCloseFinishes(run: seq<State>, actions: seq<Action>, i: nat, j: nat)
    requires Run(run, actions) && i <= j < |run|
    ensures Steps(actions, i, j) + Work(run[j]) <= Work(run[i]) + Brought(actions, i, j)
    ensures run[i].closed ==> (CanStep(run[j]) <==> !AllGone(run[j])) || (run[0].grpc && WaitsForHandlers(run[j]))
    ensures run[i].closed ==> run[j].handlers <= run[i].handlers && (AllGone(run[j]) ==> !CanStep(run[j]))
    decreases j
  {
    InvRun(run, actions, j);
    LaterInRun(run, actions, i, j);
    StuckOnlyForAReason(run[j]);
    if i < j {
      ForcedCloseFinishes(run, actions, i, j - 1);
      InvRun(run, actions, j - 1);
      assert StepAt(run, actions, j - 1);
      WorkNext(run[j - 1], actions[j - 1]);
    }
  }

  // ---------- A handler can hold a forced Stop ----------

  lemma StopExpires() returns (run: seq<State>, actions: seq<Action>)
    ensures Run(run, actions)
    ensures run[|actions|] == State(true, Running(Helper(0)), true, false, 1, 1, Serving(false), false, Watching,
                                [StopCall(Forcing, Inside)], {0}, 1, 0, 0, 1, {})
  {
    run, actions := DrainBegun(true);
    run, actions := Then(run, actions, Expire(0));
    run, actions := Then(run, actions, SeeExpired(0));
  }

  lemma StopForces() returns (run: seq<State>, actions: seq<Action>)
    ensures Run(run, actions)
    ensures run[|actions|] == State(true, Running(Helper(0)), true, true, 0, 1, Served(false), false, Watching,
                                [StopCall(Joining, Inside)], {0}, 1, 0, 1, 1, {0})
  {
    run, actions := StopExpires();
    run, actions := Then(run, actions, Force(0));
    run, actions := Then(run, actions, ServeReturns);
  }

  /** A gRPC Stop whose context has ended and whose forced close has cut every connection can still
    * not return: the graceful call waits for a handler.
    */
  lemma HandlerHoldsStop() returns (run: seq<State>, actions: seq<Action>)
    ensures Run(run, actions)
    ensures var last := run[|actions|];
      last.closed && 0 in last.expired && MainIs(last, 0, Joining) && last.handlers == 1 && !CanStep(last)
  {
    run, actions := StopForces();
    run, actions := Then(run, actions, Quit);
    run, actions := Then(run, actions, Join);
    OnlyHeld(run[|actions|]);
  }

  lemma OnlyHeld(s: State)
    requires s.start.StartReturned? && s.watcher == Gone && s.handlers == 1 && s.stops == [StopCall(Joining, Inside)]
    ensures !CanStep(s)
  {
    forall a | !FromOutside(a) ensures !Enabled(s, a) {
      assert forall who :: At(s, who) == Gone || At(s, who) == NotLaunched || At(s, who) == Inside;
    }
  }

  // ---------- The server as an object ----------

  /** What every goroutine but the one at hand does between its steps; pick settles select. */
  datatype World = World(others: nat -> seq<Action>, pick: bool)

  datatype Me = Caller(who: Who) | Stopper(k: nat)

  /** a is a step of the goroutine at hand. */
  predicate Mine(a: Action, me: Me) {
    match me
    case Caller(who) => (a.Enter? || a.Pass? || a.Drain? || a.Exit?) && a.who == who
    case Stopper(k) => (a.Begin? || a.SeeDone? || a.SeeExpired? || a.Force? || a.ReturnErr?) && a.k == k
  }

  /** The goroutine at hand has no step to take. */
  ghost predicate NoStepFor(s: State, me: Me) {
    forall a | Mine(a, me) :: !Enabled(s, a)
  }

  /** The others leave the goroutine at hand where it is. */
  predicate Untouched(s: State, s': State, me: Me) {
    match me
    case Caller(who) => At(s, who) == Wants || At(s, who) == Inside ==> At(s', who) == At(s, who)
    case Stopper(k) => k < |s.stops| ==> k < |s'.stops| && SameMain(s.stops[k], s'.stops[k])
  }

  predicate SameMain(c: StopCall, c': StopCall) {
    c'.main == c.main && (c.helper == NotLaunched ==> c'.helper == NotLaunched)
  }

  lemma OthersLeaveCaller(s: State, a: Action, who: Who)
    requires CallsOK(s) && StartOK(s) && Enabled(s, a) && !Mine(a, Caller(who))
    requires At(s, who) == Wants || At(s, who) == Inside
    ensures Position(NextWatcher(s, a), NextStops(s, a), who) == At(s, who)
  {
    if who.Helper? {
      assert CallOK(s, who.k);
    }
  }

  lemma OthersLeaveStop(s: State, a: Action, k: nat)
    requires Enabled(s, a) && !Mine(a, Stopper(k)) && k < |s.stops|
    ensures k < |NextStops(s, a)| && SameMain(s.stops[k], NextStops(s, a)[k])
  {
  }

  lemma OthersLeave(run: seq<State>, actions: seq<Action>, a: Action, me: Me)
    requires Run(run, actions) && Enabled(run[|actions|], a) && !Mine(a, me)
    ensures Untouched(run[|actions|], Next(run[|actions|], a), me) && Later(run[|actions|], Next(run[|actions|], a))
  {
    var s := run[|actions|];
    InvRun(run, actions, |actions|);
    LaterNext(s, a);
    match me
    case Caller(who) =>
      if At(s, who) == Wants || At(s, who) == Inside {
        OthersLeaveCaller(s, a, who);
      }
    case Stopper(k) =>
      if k < |s.stops| {
        OthersLeaveStop(s, a, k);
      }
  }

  function Placed(s: State, who: Who, x: Goroutine): State {
    match who
    case Watcher => s.(watcher := x)
    case Helper(k) => if k < |s.stops| then s.(stops := s.stops[k := s.stops[k].(helper := x)]) else s
  }

  lemma CallerMoves(s: State, a: Action)
    requires Enabled(s, a) && (a.Enter? || a.Pass? || a.Drain?)
    ensures var t := Placed(s, a.who, Moved(a));
      Next(s, a) == t.(once := NextOnce(s, a), draining := s.draining || a.Enter?,
                       gracefulCalls := if a.Enter? then s.gracefulCalls + 1 else s.gracefulCalls)
    ensures At(Next(s, a), a.who) == Moved(a)
  {
  }

  lemma MainMoves(s: State, a: Action)
    requires Enabled(s, a) && (a.Begin? || a.SeeDone? || a.SeeExpired? || a.Force? || a.ReturnErr?)
    ensures a.k < |s.stops|
    ensures var t := s.(stops := s.stops[a.k := MovedMain(s, a)]);
      Next(s, a) == if !a.Force? then t
        else t.(closed := true, conns := 0, cut := s.cut + s.conns, forced := s.forced + {a.k})
  {
  }

  lemma CallKnown(run: seq<State>, actions: seq<Action>, k: nat)
    requires Run(run, actions) && k < |run[|actions|].stops|
    ensures CallOK(run[|actions|], k)
    ensures var s := run[|actions|]; s.once == Finished ==> s.conns == 0 && s.handlers == 0 && s.gracefulCalls == 1
    ensures var s := run[|actions|]; s.forced <= s.expired && (s.forced != {} ==> s.closed && s.conns == 0)
  {
    InvRun(run, actions, |actions|);
  }

  lemma CallerHeld(s: State, who: Who)
    requires s.once.Running? && (At(s, who) == Wants || (At(s, who) == Inside && (s.conns > 0 || s.handlers > 0)))
    ensures NoStepFor(s, Caller(who))
  {
  }

  /** Who is behind a caller of shutdownOnce.Do. */
  lemma CallerWaits(run: seq<State>, actions: seq<Action>, who: Who)
    requires Run(run, actions)
    ensures var s := run[|actions|]; At(s, who) == Inside <==> s.once == Running(who)
    ensures var s := run[|actions|]; s.once == Finished ==> s.conns == 0 && s.handlers == 0 && s.gracefulCalls == 1
  {
    InvRun(run, actions, |actions|);
  }

  datatype Answer = Nil | Err | StillWaiting

  /** The history fields of State. */
  datatype Past = Past(accepted: nat, drained: nat, cut: nat, gracefulCalls: nat, forced: set<nat>)

  class Server {
    const grpc: bool
    var once: Once
    var draining: bool
    var closed: bool
    var conns: nat
    var handlers: nat
    var start: StartCall
    var ctxEnded: bool
    var watcher: Goroutine
    var stops: seq<StopCall>
    var expired: set<nat>
    var past: Past
    var clock: nat
    ghost var run: seq<State>
    ghost var actions: seq<Action>

    function Abs(): State
      reads this
    {
      State(grpc, once, draining, closed, conns, handlers, start, ctxEnded, watcher, stops, expired,
        past.accepted, past.drained, past.cut, past.gracefulCalls, past.forced)
    }

    /** run is how the object came to its state. */
    ghost predicate Valid()
      reads this
    {
      Run(run, actions) && run[|actions|] == Abs()
    }

    constructor (grpc: bool)
      ensures Valid() && Init(Abs()) && this.grpc == grpc
    {
      this.grpc, once, draining, closed, conns, handlers := grpc, Fresh, false, false, 0, 0;
      start, ctxEnded, watcher, stops, expired := NotStarted, false, NotLaunched, [], {};
      past, clock := Past(0, 0, 0, 0, {}), 0;
      actions := [];
      new;
      run := [Abs()];
    }

    ghost method Record(s: State, a: Action)
      requires Run(run, actions) && run[|actions|] == s && Enabled(s, a) && Abs() == Next(s, a)
      modifies this`run, this`actions
      ensures Valid() && run == old(run) + [Abs()] && actions == old(actions) + [a]
    {
      RunGrows(run, actions, a);
      run, actions := run + [Next(s, a)], actions + [a];
    }

    method Other(a: Action, me: Me)
      requires Valid() && !Mine(a, me) && Enabled(Abs(), a)
      modifies this
      ensures Valid() && Untouched(old(Abs()), Abs(), me) && Later(old(Abs()), Abs())
    {
      var s := Abs();
      OthersLeave(run, actions, a, me);
      Become(Next(s, a));
      Record(s, a);
    }

    method Become(s: State)
      requires s.grpc == grpc
      modifies this`once, this`draining, this`closed, this`conns, this`handlers, this`start, this`ctxEnded,
        this`watcher, this`stops, this`expired, this`past
      ensures Abs() == s
    {
      once, draining, closed, conns, handlers := s.once, s.draining, s.closed, s.conns, s.handlers;
      start, ctxEnded, watcher, stops, expired := s.start, s.ctxEnded, s.watcher, s.stops, s.expired;
      past := Past(s.accepted, s.drained, s.cut, s.gracefulCalls, s.forced);
    }

    method Others(w: World, me: Me)
      requires Valid()
      modifies this
      ensures Valid() && Untouched(old(Abs()), Abs(), me) && Later(old(Abs()), Abs())
    {
      var todo := w.others(clock);
      clock := clock + 1;
      for i := 0 to |todo|
        invariant Valid() && Untouched(old(Abs()), Abs(), me) && Later(old(Abs()), Abs())
      {
        if !Mine(todo[i], me) && Enabled(Abs(), todo[i]) {
          Other(todo[i], me);
        }
      }
    }

    /** The once-guarded shutdown, as the watcher or a helper calls it. It returns only when the one
      * graceful call has, whoever made it, and makes that call only if nobody had.
      */
    method GracefulShutdown(who: Who, w: World) returns (returned: bool)
      requires Valid() && At(Abs(), who) == Wants
      modifies this
      ensures Valid() && (returned <==> once == Finished)
      ensures At(Abs(), who) == if returned then Left else if once == Running(who) then Inside else Wants
      ensures returned ==> conns == 0 && handlers == 0 && past.gracefulCalls == 1
      ensures !returned ==> once.Running? && NoStepFor(Abs(), Caller(who))
    {
      Others(w, Caller(who));
      if once == Fresh {
        EnterOnce(who);
        Others(w, Caller(who));
        CallerWaits(run, actions, who);
        if conns == 0 && handlers == 0 {
          LeaveOnce(who, Drain(who));
        }
      } else if once == Finished {
        LeaveOnce(who, Pass(who));
      }
      CallerWaits(run, actions, who);
      returned := once == Finished;
      if !returned {
        CallerHeld(Abs(), who);
      }
    }

    method EnterOnce(who: Who)
      requires Valid() && Enabled(Abs(), Enter(who))
      modifies this
      ensures Valid() && once == Running(who) && At(Abs(), who) == Inside
    {
      var s := Abs();
      CallerMoves(s, Enter(who));
      once, draining, past := Running(who), true, past.(gracefulCalls := past.gracefulCalls + 1);
      Place(who, Inside);
      Record(s, Enter(who));
    }

    method LeaveOnce(who: Who, ghost a: Action)
      requires Valid() && Enabled(Abs(), a) && (a == Pass(who) || a == Drain(who))
      modifies this
      ensures Valid() && once == Finished && At(Abs(), who) == Left
    {
      ghost var s := Abs();
      CallerMoves(s, a);
      once := Finished;
      Place(who, Left);
      Record(s, a);
    }

    method Place(who: Who, x: Goroutine)
      requires At(Abs(), who) != NotLaunched
      modifies this`watcher, this`stops
      ensures Abs() == Placed(old(Abs()), who, x)
    {
      match who
      case Watcher => watcher := x;
      case Helper(k) => stops := stops[k := stops[k].(helper := x)];
    }

    /** Stop: nil, an error, or still waiting for the graceful call or for the context. */
    method Stop(w: World) returns (r: Answer)
      requires Valid()
      modifies this
      ensures Valid() && |old(stops)| < |stops|
      ensures var k := |old(stops)|;
        && (r == Nil ==> stops[k].main == ReturnedNil && once == Finished && past.gracefulCalls == 1)
        && (r == Nil ==> conns == 0 && handlers == 0)
        && (r == Err ==> stops[k].main == ReturnedErr && k in expired && closed && conns == 0)
        && (k in old(expired) ==> r == Err)
        && (r == StillWaiting ==> stops[k].main == Selecting || stops[k].main == Joining)
        && (r == StillWaiting ==> NoStepFor(Abs(), Stopper(k)))
    {
      var k := |stops|;
      AddStop();
      Others(w, Stopper(k));
      StepMain(k, Begin(k));
      if stops[k].main == Selecting {
        Select(w, k);
      }
      if stops[k].main == Forcing {
        ForceClosed(w, k);
      }
      r := if stops[k].main == ReturnedNil then Nil else if stops[k].main == ReturnedErr then Err else StillWaiting;
      CallKnown(run, actions, k);
    }

    /** The select between done and the context. */
    method Select(w: World, k: nat)
      requires Valid() && MainIs(Abs(), k, Selecting)
      modifies this
      ensures Valid() && k < |stops|
      ensures stops[k].main == Selecting || stops[k].main == ReturnedNil || stops[k].main == Forcing
      ensures stops[k].main == Selecting ==> NoStepFor(Abs(), Stopper(k))
    {
      Others(w, Stopper(k));
      var done := stops[k].helper == Gone;
      if done && (w.pick || k !in expired) {
        StepMain(k, SeeDone(k));
      } else if k in expired {
        StepMain(k, SeeExpired(k));
      }
    }

    /** The forced close and the wait for the helper, if there is one. */
    method ForceClosed(w: World, k: nat)
      requires Valid() && MainIs(Abs(), k, Forcing)
      modifies this
      ensures Valid() && k < |stops| && (stops[k].main == Joining || stops[k].main == ReturnedErr)
      ensures old(stops)[k].helper == NotLaunched ==> stops[k].main == ReturnedErr
      ensures stops[k].main == Joining ==> NoStepFor(Abs(), Stopper(k))
    {
      ForceClose(k);
      Others(w, Stopper(k));
      var helper := stops[k].helper;
      if helper == Gone || helper == NotLaunched {
        StepMain(k, ReturnErr(k));
      }
    }

    method AddStop()
      requires Valid()
      modifies this
      ensures Valid() && stops == old(stops) + [StopCall(Entering, NotLaunched)] && expired == old(expired)
    {
      var s := Abs();
      stops := stops + [StopCall(Entering, NotLaunched)];
      Record(s, CallStop);
    }

    /** One step of Stop k's own code, other than the forced close. */
    method StepMain(k: nat, a: Action)
      requires Valid() && Enabled(Abs(), a) && Mine(a, Stopper(k)) && !a.Force?
      modifies this`stops, this`run, this`actions
      ensures Valid() && stops == old(stops)[k := MovedMain(old(Abs()), a)]
    {
      var s := Abs();
      MainMoves(s, a);
      stops := stops[k := MovedMain(s, a)];
      Record(s, a);
    }

    method ForceClose(k: nat)
      requires Valid() && MainIs(Abs(), k, Forcing)
      modifies this
      ensures Valid() && stops == old(stops)[k := old(stops)[k].(main := Joining)]
    {
      var s := Abs();
      MainMoves(s, Force(k));
      stops := stops[k := stops[k].(main := Joining)];
      past := past.(cut := past.cut + conns, forced := past.forced + {k});
      closed, conns := true, 0;
      Record(s, Force(k));
    }
  }
}
