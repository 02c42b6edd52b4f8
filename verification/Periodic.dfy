/** The periodic runner: a tick loop, the invocations it launches, its busy flag and wait group. */
module Periodic {

  // ---------- State ----------

  /** A launched invocation: fn runs, then (if not overlapping) the busy flag is cleared, then wg.Done. */
  datatype Invocation = Running | FnReturned | Released | Exited

  datatype Phase = Immediate | Looping | Waiting | Returned

  /** launched[k] is the k-th invocation that a tick has launched. firsts, the calls of fn made before
    * the ticker, ticks and skipped are history.
    */
  datatype State = State(
    overlapping: bool, immediate: bool, phase: Phase, ctxDone: bool, busy: bool,
    launched: seq<Invocation>, firsts: nat, ticks: nat, skipped: nat)

  ghost predicate Init(s: State) {
    s == State(s.overlapping, s.immediate, if s.immediate then Immediate else Looping, false, false, [], 0, 0, 0)
  }

  // ---------- Steps ----------

  datatype Action =
    | CancelCtx
    | FirstReturns      // the call that WithImmediateStart makes before the ticker
    | Tick | SeeCancel | Return
    | ReturnFn(k: nat) | ClearBusy(k: nat) | Exit(k: nat)

  predicate Is(s: State, k: nat, x: Invocation) {
    k < |s.launched| && s.launched[k] == x
  }

  predicate Enabled(s: State, a: Action) {
    match a
    case CancelCtx => true
    case FirstReturns => s.phase == Immediate
    case Tick => s.phase == Looping
    case SeeCancel => s.phase == Looping && s.ctxDone
    case Return => s.phase == Waiting && forall k | 0 <= k < |s.launched| :: s.launched[k] == Exited
    case ReturnFn(k) => Is(s, k, Running)
    case ClearBusy(k) => Is(s, k, FnReturned) && !s.overlapping
    case Exit(k) => Is(s, k, if s.overlapping then FnReturned else Released)
  }

  predicate ByInvocation(a: Action) {
    a.ReturnFn? || a.ClearBusy? || a.Exit?
  }

  predicate Skips(s: State) {
    !s.overlapping && s.busy
  }

  function NextLaunched(s: State, a: Action): seq<Invocation>
    requires Enabled(s, a)
  {
    match a
    case Tick => if Skips(s) then s.launched else s.launched + [Running]
    case ReturnFn(k) => s.launched[k := FnReturned]
    case ClearBusy(k) => s.launched[k := Released]
    case Exit(k) => s.launched[k := Exited]
    case _ => s.launched
  }

  function NextPhase(s: State, a: Action): Phase {
    match a
    case FirstReturns => Looping
    case SeeCancel => Waiting
    case Return => Returned
    case _ => s.phase
  }

  function Next(s: State, a: Action): State
    requires Enabled(s, a)
  {
    State(s.overlapping, s.immediate, NextPhase(s, a), s.ctxDone || a.CancelCtx?,
      if a.Tick? && !s.overlapping then true else if a.ClearBusy? then false else s.busy,
      NextLaunched(s, a),
      if a.FirstReturns? then s.firsts + 1 else s.firsts,
      if a.Tick? then s.ticks + 1 else s.ticks,
      if a.Tick? && Skips(s) then s.skipped + 1 else s.skipped)
  }

  predicate StepAt(run: seq<State>, actions: seq<Action>, i: nat)
    requires i < |actions| && |run| == |actions| + 1
  {
    Enabled(run[i], actions[i]) && run[i + 1] == Next(run[i], actions[i])
  }

  ghost predicate Run(run: seq<State>, actions: seq<Action>) {
    && |run| == |actions| + 1 && Init(run[0])
    && forall i | 0 <= i < |actions| :: StepAt(run, actions, i)
  }

  // ---------- Invariants ----------

  /** The invocation has not yet given the busy flag back. */
  predicate Holds(x: Invocation) {
    x == Running || x == FnReturned
  }

  ghost predicate Inv(s: State) {
    && s.ticks == |s.launched| + s.skipped
    && (s.overlapping ==> !s.busy && s.skipped == 0)
    && (s.overlapping ==> forall k | 0 <= k < |s.launched| :: s.launched[k] != Released)
    && (!s.overlapping ==> (s.busy <==> exists k: nat :: k < |s.launched| && Holds(s.launched[k])))
    && (!s.overlapping ==> forall j: nat, k: nat | j < |s.launched| && k < |s.launched| ::
          Holds(s.launched[j]) && Holds(s.launched[k]) ==> j == k)
    && (s.phase == Immediate ==> s.immediate && s.firsts == 0 && s.ticks == 0)
    && (s.phase != Immediate ==> s.firsts == if s.immediate then 1 else 0)
    && (s.phase == Returned ==> forall k | 0 <= k < |s.launched| :: s.launched[k] == Exited)
  }

  lemma BusyNext(s: State, a: Action)
    requires Inv(s) && Enabled(s, a) && !s.overlapping
    ensures var s' := Next(s, a); s'.busy <==> exists k: nat :: k < |s'.launched| && Holds(s'.launched[k])
  {
    var s' := Next(s, a);
    if s.busy && !a.ClearBusy? {
      var k: nat :| k < |s.launched| && Holds(s.launched[k]);
      assert Holds(s'.launched[k]);
    }
    if a.Tick? && !s.busy {
      assert Holds(s'.launched[|s.launched|]);
    }
    if a.ClearBusy? {
      assert Holds(s.launched[a.k]);
    }
  }

  lemma InvNext(s: State, a: Action)
    requires Inv(s) && Enabled(s, a)
    ensures Inv(Next(s, a))
  {
    if !s.overlapping {
      BusyNext(s, a);
    }
  }

  lemma {:induction false} InvRun(run: seq<State>, actions: seq<Action>, i: nat)
    requires Run(run, actions) && i < |run|
    ensures Inv(run[i]) && run[i].overlapping == run[0].overlapping && run[i].immediate == run[0].immediate
  {
    if i > 0 {
      InvRun(run, actions, i - 1);
      assert StepAt(run, actions, i - 1);
      InvNext(run[i - 1], actions[i - 1]);
    }
  }

  /** Without overlapping at most one tick's invocation is running at any time; each tick launched
    * one or was skipped, and with overlapping none is skipped.
    */
  lemma AtMostOneRuns(run: seq<State>, actions: seq<Action>, i: nat, j: nat, k: nat)
    requires Run(run, actions) && i < |run|
    ensures !run[0].overlapping && Is(run[i], j, Running) && Is(run[i], k, Running) ==> j == k
    ensures |run[i].launched| + run[i].skipped == run[i].ticks
    ensures run[0].overlapping ==> |run[i].launched| == run[i].ticks
  {
    InvRun(run, actions, i);
  }

  /** A tick is skipped exactly when an invocation is running, or has returned and not yet cleared
    * the flag: nothing else ever keeps the flag set.
    */
  lemma SkippedIff(run: seq<State>, actions: seq<Action>, i: nat)
    requires Run(run, actions) && i < |actions| && actions[i] == Tick && !run[0].overlapping
    ensures run[i + 1].skipped == run[i].skipped + 1
            <==> exists k: nat :: k < |run[i].launched| && Holds(run[i].launched[k])
  {
    InvRun(run, actions, i);
    assert StepAt(run, actions, i);
  }

  /** A tick that is not skipped launches exactly one invocation; with overlapping every tick does. */
  lemma TickLaunchesIff(run: seq<State>, actions: seq<Action>, i: nat)
    requires Run(run, actions) && i < |actions| && actions[i] == Tick
    ensures run[i + 1].launched == run[i].launched + [Running] <==>
              run[0].overlapping || !exists k: nat :: k < |run[i].launched| && Holds(run[i].launched[k])
    ensures run[i + 1].launched == run[i].launched || run[i + 1].launched == run[i].launched + [Running]
  {
    InvRun(run, actions, i);
    assert StepAt(run, actions, i);
  }

  /** With WithImmediateStart fn is called once, before the first tick; without, not at all. */
  lemma FirstCallIff(run: seq<State>, actions: seq<Action>, i: nat)
    requires Run(run, actions) && i < |run| && (run[i].ticks > 0 || run[i].phase != Immediate)
    ensures run[i].firsts == if run[0].immediate then 1 else 0
  {
    InvRun(run, actions, i);
  }

  /** Start goes on but for the tick, ctx and, at the end, the invocations; ctx's end is seen when taken. */
  lemma StartGoesOn(s: State)
    requires Inv(s)
    ensures s.phase == Immediate ==> Enabled(s, FirstReturns) && Next(s, FirstReturns).phase == Looping
    ensures s.phase == Looping ==> Enabled(s, Tick) && (Enabled(s, SeeCancel) <==> s.ctxDone)
    ensures Enabled(s, SeeCancel) ==> Next(s, SeeCancel).phase == Waiting
    ensures s.phase == Waiting ==> (Enabled(s, Return) <==> !exists k: nat :: InFlight(s, k))
    ensures Enabled(s, Return) ==> Next(s, Return).phase == Returned
    ensures Next(s, CancelCtx).ctxDone
  {
    if s.phase == Waiting && !Enabled(s, Return) {
      var k :| 0 <= k < |s.launched| && s.launched[k] != Exited;
      assert InFlight(s, k);
    }
  }

  /** When Start has returned no invocation is in flight, and none is ever launched again. */
  lemma {:induction false} NoneAfterReturn(run: seq<State>, actions: seq<Action>, i: nat, j: nat)
    requires Run(run, actions) && i <= j < |run| && run[i].phase == Returned
    ensures run[j].phase == Returned && run[j].launched == run[i].launched
    ensures forall k | 0 <= k < |run[j].launched| :: run[j].launched[k] == Exited
    decreases j
  {
    if i < j {
      NoneAfterReturn(run, actions, i, j - 1);
      assert StepAt(run, actions, j - 1);
    } else {
      InvRun(run, actions, i);
    }
  }

  // ---------- Waiting for the invocations ----------

  function Left(x: Invocation): nat {
    match x
    case Running => 3
    case FnReturned => 2
    case Released => 1
    case Exited => 0
  }

  function Remaining(launched: seq<Invocation>, n: nat): nat
    requires n <= |launched|
  {
    if n == 0 then 0 else Remaining(launched, n - 1) + Left(launched[n - 1])
  }

  lemma {:induction false} RemainingUpdate(launched: seq<Invocation>, k: nat, x: Invocation, n: nat)
    requires n <= |launched| && k < |launched|
    ensures Remaining(launched[k := x], n) ==
            Remaining(launched, n) + if k < n then Left(x) - Left(launched[k]) else 0
  {
    if n > 0 {
      RemainingUpdate(launched, k, x, n - 1);
    }
  }

  /** Until the last has exited some invocation can step, and each step brings the end nearer. */
  lemma InvocationsFinish(s: State, a: Action)
    requires Inv(s)
    ensures (exists b :: ByInvocation(b) && Enabled(s, b)) <==> exists k: nat :: InFlight(s, k)
    ensures Enabled(s, a) && ByInvocation(a) ==>
              Remaining(Next(s, a).launched, |s.launched|) < Remaining(s.launched, |s.launched|)
  {
    if k: nat :| InFlight(s, k) {
      assert Enabled(s, StepOf(s, k));
    }
    if b :| ByInvocation(b) && Enabled(s, b) {
      assert InFlight(s, b.k);
    }
    if Enabled(s, a) && ByInvocation(a) {
      RemainingUpdate(s.launched, a.k, Next(s, a).launched[a.k], |s.launched|);
    }
  }

  predicate InFlight(s: State, k: nat) {
    k < |s.launched| && s.launched[k] != Exited
  }

  /** What invocation k does next. */
  function StepOf(s: State, k: nat): (a: Action)
    requires Inv(s) && InFlight(s, k)
    ensures ByInvocation(a) && Enabled(s, a)
  {
    match s.launched[k]
    case Running => ReturnFn(k)
    case FnReturned => if s.overlapping then Exit(k) else ClearBusy(k)
    case _ => Exit(k)
  }

  // ---------- The service as an object ----------

  /** The ticks among the first n events. */
  function Ticks(events: seq<Action>, n: nat): nat
    requires n <= |events|
  {
    if n == 0 then 0 else Ticks(events, n - 1) + if events[n - 1] == Tick then 1 else 0
  }

  lemma RunGrows(run: seq<State>, actions: seq<Action>, a: Action)
    requires Run(run, actions) && Enabled(run[|actions|], a)
    ensures Run(run + [Next(run[|actions|], a)], actions + [a])
  {
    forall i | 0 <= i < |actions + [a]| ensures StepAt(run + [Next(run[|actions|], a)], actions + [a], i) {
      assert i < |actions| ==> StepAt(run, actions, i);
    }
  }

  class Service {
    const overlapping: bool
    const immediateStart: bool
    var phase: Phase
    var ctxDone: bool
    var busy: bool
    var launched: seq<Invocation>
    var firsts: nat
    var ticks: nat
    var skipped: nat
    ghost var run: seq<State>
    ghost var actions: seq<Action>

    ghost function Abs(): State
      reads this
    {
      State(overlapping, immediateStart, phase, ctxDone, busy, launched, firsts, ticks, skipped)
    }

    /** run is how the object came to its state. */
    ghost predicate Valid()
      reads this
    {
      Run(run, actions) && run[|actions|] == Abs()
    }

    constructor (overlapping: bool, immediateStart: bool)
      ensures Valid() && Init(Abs()) && this.overlapping == overlapping && this.immediateStart == immediateStart
      ensures actions == []
    {
      this.overlapping, this.immediateStart := overlapping, immediateStart;
      phase, ctxDone, busy := if immediateStart then Immediate else Looping, false, false;
      launched, firsts, ticks, skipped := [], 0, 0, 0;
      actions := [];
      new;
      run := [Abs()];
    }

    ghost method Record(s: State, a: Action)
      requires Run(run, actions) && run[|actions|] == s && Enabled(s, a) && Abs() == Next(s, a)
      modifies this`run, this`actions
      ensures Valid() && actions == old(actions) + [a]
    {
      RunGrows(run, actions, a);
      run, actions := run + [Next(s, a)], actions + [a];
    }

    /** One tick in either loop. */
    method OnTick()
      requires Valid() && phase == Looping
      modifies this`busy, this`launched, this`ticks, this`skipped, this`run, this`actions
      ensures Valid() && actions == old(actions) + [Tick]
    {
      ghost var s := Abs();
      ticks := ticks + 1;
      if overlapping {
        launched := launched + [Running];
      } else if busy {
        skipped := skipped + 1;
      } else {
        busy, launched := true, launched + [Running];
      }
      Record(s, Tick);
    }

    /** Invocation k goes on: fn returns, the deferred busy.Store(false), the end of the goroutine. */
    method Proceed(k: nat)
      requires Valid() && Inv(Abs()) && InFlight(Abs(), k)
      modifies this`busy, this`launched, this`run, this`actions
      ensures Valid() && actions == old(actions) + [StepOf(old(Abs()), k)]
      ensures Abs() == Next(old(Abs()), StepOf(old(Abs()), k))
    {
      ghost var s := Abs();
      match launched[k] {
        case Running => launched := launched[k := FnReturned];
        case FnReturned =>
          if overlapping {
            launched := launched[k := Exited];
          } else {
            busy, launched := false, launched[k := Released];
          }
        case Released => launched := launched[k := Exited];
      }
      Record(s, StepOf(s, k));
    }

    /** Start: events holds, in order, the cases the loop's select takes and the steps of the
      * invocations; the n-th is the first to see ctx's end. However many invocations are then in
      * flight, all have exited when Start returns. The history is a run whose ticks are those of events.
      */
    method Start(events: seq<Action>) returns (n: nat)
      requires Valid() && Init(Abs()) && actions == [] && SeeCancel in events
      modifies this
      ensures n < |events| && events[n] == SeeCancel && forall m | 0 <= m < n :: events[m] != SeeCancel
      ensures Valid() && phase == Returned && Ticks(actions, |actions|) == Ticks(events, n) == ticks
      ensures |launched| + skipped == ticks && (overlapping ==> |launched| == ticks)
      ensures firsts == if immediateStart then 1 else 0
      ensures forall k | 0 <= k < |launched| :: launched[k] == Exited
    {
      if immediateStart {
        FirstCall();
      }
      n := 0;
      while events[n] != SeeCancel
        invariant Valid() && phase == Looping && n < |events| && Ticks(actions, |actions|) == Ticks(events, n)
        invariant forall m | 0 <= m < n :: events[m] != SeeCancel
        decreases |events| - n
      {
        Turn(events[n]);
        n := n + 1;
      }
      Canceled();
      Wait();
      End();
      TicksCounted(run, actions, |actions|);
      InvRun(run, actions, |actions|);
    }

    method FirstCall()
      requires Valid() && phase == Immediate
      modifies this`phase, this`firsts, this`run, this`actions
      ensures Valid() && phase == Looping && actions == old(actions) + [FirstReturns]
    {
      ghost var s := Abs();
      firsts, phase := firsts + 1, Looping;
      Record(s, FirstReturns);
    }

    method Turn(a: Action)
      requires Valid() && phase == Looping
      modifies this`busy, this`launched, this`ticks, this`skipped, this`run, this`actions
      ensures Valid()
      ensures a == Tick ==> actions == old(actions) + [Tick]
      ensures Ticks(actions, |actions|) == old(Ticks(actions, |actions|)) + if a == Tick then 1 else 0
      ensures |actions| == |old(actions)| + if a == Tick || (ByInvocation(a) && InFlight(old(Abs()), a.k)) then 1 else 0
    {
      ghost var before := actions;
      if a == Tick {
        OnTick();
        TicksGrow(before, actions[|before|]);
      } else if ByInvocation(a) && a.k < |launched| && launched[a.k] != Exited {
        InvRun(run, actions, |actions|);
        Proceed(a.k);
        TicksGrow(before, actions[|before|]);
      }
    }

    /** The context's end is seen. */
    method Canceled()
      requires Valid() && phase == Looping
      modifies this`ctxDone, this`phase, this`run, this`actions
      ensures Valid() && phase == Waiting && actions == old(actions) + [CancelCtx] + [SeeCancel]
      ensures Ticks(actions, |actions|) == old(Ticks(actions, |actions|))
    {
      ghost var s := Abs();
      TicksGrow(actions, CancelCtx);
      TicksGrow(actions + [CancelCtx], SeeCancel);
      ctxDone := true;
      Record(s, CancelCtx);
      s := Abs();
      phase := Waiting;
      Record(s, SeeCancel);
    }

    /** The deferred wg.Wait, while the invocations go on in any order. */
    method Wait()
      requires Valid() && phase == Waiting
      modifies this`busy, this`launched, this`run, this`actions
      ensures Valid() && Ticks(actions, |actions|) == old(Ticks(actions, |actions|))
      ensures forall k | 0 <= k < |launched| :: launched[k] == Exited
    {
      InvRun(run, actions, |actions|);
      while exists k | 0 <= k < |launched| :: launched[k] != Exited
        invariant Valid() && Inv(Abs()) && Ticks(actions, |actions|) == old(Ticks(actions, |actions|))
        decreases Remaining(launched, |launched|)
      {
        var k :| 0 <= k < |launched| && launched[k] != Exited;
        OneStep(k);
      }
    }

    method OneStep(k: nat)
      requires Valid() && Inv(Abs()) && InFlight(Abs(), k)
      modifies this`busy, this`launched, this`run, this`actions
      ensures Valid() && Inv(Abs()) && Ticks(actions, |actions|) == old(Ticks(actions, |actions|))
      ensures Remaining(launched, |launched|) < old(Remaining(launched, |launched|))
    {
      ghost var s := Abs();
      InvocationsFinish(s, StepOf(s, k));
      InvNext(s, StepOf(s, k));
      TicksGrow(actions, StepOf(s, k));
      Proceed(k);
    }

    method End()
      requires Valid() && phase == Waiting && forall k | 0 <= k < |launched| :: launched[k] == Exited
      modifies this`phase, this`run, this`actions
      ensures Valid() && phase == Returned && Ticks(actions, |actions|) == old(Ticks(actions, |actions|))
    {
      ghost var s := Abs();
      TicksGrow(actions, Return);
      phase := Returned;
      Record(s, Return);
    }
  }

  lemma {:induction false} TicksSame(a: seq<Action>, b: seq<Action>, n: nat)
    requires n <= |a| && n <= |b| && forall m | 0 <= m < n :: a[m] == b[m]
    ensures Ticks(a, n) == Ticks(b, n)
  {
    if n > 0 {
      TicksSame(a, b, n - 1);
    }
  }

  lemma TicksGrow(actions: seq<Action>, a: Action)
    ensures Ticks(actions + [a], |actions| + 1) == Ticks(actions, |actions|) + if a == Tick then 1 else 0
  {
    TicksSame(actions, actions + [a], |actions|);
  }

  /** The state counts the ticks of its run. */
  lemma {:induction false} TicksCounted(run: seq<State>, actions: seq<Action>, i: nat)
    requires Run(run, actions) && i < |run|
    ensures run[i].ticks == Ticks(actions, i)
  {
    if i > 0 {
      TicksCounted(run, actions, i - 1);
      assert StepAt(run, actions, i - 1);
    }
  }
}
