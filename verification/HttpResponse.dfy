/** The metrics and panic-recovery middleware: what its response writer records, against what
  * the client receives, and the gauge of requests in progress.
  */
module HttpResponse {

  /** One call a handler makes. A write offers some bytes, for which the connection and a declared
    * length leave room; routing sets the request's pattern.
    */
  datatype Act = WriteHeader(code: int) | Write(offered: nat, room: nat) | Flush | Route(pattern: string)

  /** A write of some bytes, and the room there is for it. */
  datatype Body = Body(size: nat, room: nat)

  /** A handler run: its calls, whether it then panics of its own accord, and the Problem with which
    * a panic would be answered. Its room, too, depends on the length the handler has declared.
    */
  datatype Handler = Handler(acts: seq<Act>, panics: bool, problem: Body)

  const OK := 200
  const INTERNAL_SERVER_ERROR := 500

  // ---------- The connection below ----------

  /** What has reached the client: the final status line, if sent, and body bytes. */
  datatype Wire = Wire(head: bool, sent: bool, status: int, body: nat)

  predicate Informational(code: int) {
    100 <= code <= 199 && code != 101
  }

  /** A code that can become the status of the response. */
  predicate Final(code: int) {
    100 <= code <= 999 && !Informational(code)
  }

  predicate BodyAllowed(status: int) {
    !(100 <= status <= 199) && status != 204 && status != 304
  }

  /** The first final header wins; a code outside 100-999 panics, unless a header is already out. */
  function WireHeader(w: Wire, code: int): (Wire, bool) {
    if w.sent then (w, false)
    else if !(100 <= code <= 999) then (w, true)
    else if Informational(code) then (w, false)
    else (w.(sent := true, status := code), false)
  }

  function WireCommit(w: Wire): Wire {
    if w.sent then w else w.(sent := true, status := OK)
  }

  /** Bytes for a status without a body are refused; those in answer to HEAD are taken and not sent. */
  function WireWrite(w: Wire, offered: nat, room: nat): (Wire, nat) {
    var w' := WireCommit(w);
    if !BodyAllowed(w'.status) then (w', 0)
    else
      var taken := if offered <= room then offered else room;
      (if w.head then w' else w'.(body := w'.body + taken), taken)
  }

  // ---------- The writer above it ----------

  datatype Recording = Recording(statusCode: int, size: nat, wroteHeader: bool, wire: Wire)

  function Fresh(head: bool): Recording {
    Recording(OK, 0, false, Wire(head, false, 0, 0))
  }

  /** The state after one call, and whether the call panicked. */
  function Apply(r: Recording, act: Act): (Recording, bool) {
    match act
    case WriteHeader(code) =>
      var (wire, panicked) := WireHeader(r.wire, code);
      (r.(statusCode := if r.wroteHeader then r.statusCode else code, wroteHeader := true, wire := wire), panicked)
    case Write(offered, room) =>
      var (wire, taken) := WireWrite(r.wire, offered, room);
      (r.(wroteHeader := true, size := r.size + taken, wire := wire), false)
    case Flush => (r.(wire := WireCommit(r.wire)), false)
    case Route(_) => (r, false)
  }

  /** All the calls in turn, up to one that panics. */
  function ApplyAll(r: Recording, acts: seq<Act>): (Recording, bool)
    decreases acts
  {
    if acts == [] then (r, false)
    else var (r', panicked) := Apply(r, acts[0]);
      if panicked then (r', true) else ApplyAll(r', acts[1..])
  }

  /** The Problem, written through the writer. */
  function WithProblem(r: Recording, problem: Body): Recording {
    Apply(Apply(r, WriteHeader(INTERNAL_SERVER_ERROR)).0, Write(problem.size, problem.room)).0
  }

  /** The recovery, and the server's own end of the response. */
  function Finish(r: Recording, panicked: bool, problem: Body): Recording {
    var r' := if panicked && !r.wroteHeader then WithProblem(r, problem) else r;
    r'.(wire := WireCommit(r'.wire))
  }

  datatype Served = Served(recording: Recording, panicked: bool, problem: bool)

  /** The whole request. */
  function Serve(h: Handler, head: bool): Served {
    var (r, stopped) := ApplyAll(Fresh(head), h.acts);
    var panicked := stopped || h.panics;
    Served(Finish(r, panicked, h.problem), panicked, panicked && !r.wroteHeader)
  }

  class ResponseWriter {
    var statusCode: int
    var size: nat
    var wroteHeader: bool
    var wire: Wire

    constructor (head: bool)
      ensures Abs() == Fresh(head)
    {
      statusCode, size, wroteHeader, wire := OK, 0, false, Wire(head, false, 0, 0);
    }

    function Abs(): Recording
      reads this
    {
      Recording(statusCode, size, wroteHeader, wire)
    }

    method WriteHeader(code: int) returns (panicked: bool)
      modifies this
      ensures (Abs(), panicked) == Apply(old(Abs()), Act.WriteHeader(code))
    {
      if !wroteHeader {
        statusCode := code;
        wroteHeader := true;
      }
      var below := WireHeader(wire, code);
      wire := below.0;
      panicked := below.1;
    }

    method Write(offered: nat, room: nat) returns (n: nat)
      modifies this
      ensures (Abs(), false) == Apply(old(Abs()), Act.Write(offered, room))
      ensures size == old(size) + n
    {
      if !wroteHeader {
        wroteHeader := true;
      }
      var below := WireWrite(wire, offered, room);
      wire := below.0;
      n := below.1;
      size := size + n;
    }

    method Flush()
      modifies this
      ensures (Abs(), false) == Apply(old(Abs()), Act.Flush)
    {
      wire := WireCommit(wire);
    }

    /** One call of the handler's. */
    method Do(act: Act) returns (panicked: bool)
      modifies this
      ensures (Abs(), panicked) == Apply(old(Abs()), act)
    {
      panicked := false;
      match act {
        case WriteHeader(code) => panicked := WriteHeader(code);
        case Write(offered, room) => var _ := Write(offered, room);
        case Flush => Flush();
        case Route(_) =>
      }
    }

    method WriteProblem(problem: Body)
      modifies this
      ensures Abs() == WithProblem(old(Abs()), problem)
    {
      var _ := WriteHeader(INTERNAL_SERVER_ERROR);
      var _ := Write(problem.size, problem.room);
    }

    /** The server's end of the response. */
    method Close()
      modifies this
      ensures Abs() == old(Abs()).(wire := WireCommit(old(wire)))
    {
      wire := WireCommit(wire);
    }
  }

  // ---------- Size ----------

  /** The same writer over a HEAD and another request: all alike, but that HEAD sends no body. */
  predicate Alike(r: Recording, r': Recording) {
    && r.wire.head && !r'.wire.head && r' == r.(wire := r'.wire)
    && r'.wire == r.wire.(head := false, body := r'.wire.body)
    && r.wire.body == 0 && r'.wire.body == r'.size
  }

  lemma {:induction false} StayAlike(r: Recording, r': Recording, acts: seq<Act>)
    requires Alike(r, r')
    ensures Alike(ApplyAll(r, acts).0, ApplyAll(r', acts).0) && ApplyAll(r, acts).1 == ApplyAll(r', acts).1
    decreases acts
  {
    if acts != [] && !Apply(r, acts[0]).1 {
      StayAlike(Apply(r, acts[0]).0, Apply(r', acts[0]).0, acts[1..]);
    }
  }

  /** The recorded size is what the request, made with GET, would be sent. */
  lemma SizeIsThatOfGet(h: Handler, head: bool)
    ensures Serve(h, head).recording.size == Serve(h, false).recording.wire.body
    ensures Serve(h, true).recording.wire.body == 0
  {
    StayAlike(Fresh(true), Fresh(false), h.acts);
  }

  /** The recorded size is the bytes the client was sent exactly when the request is not HEAD or no
    * byte was accepted.
    */
  lemma RecordedSizeIsSentIff(h: Handler, head: bool)
    ensures var s := Serve(h, head).recording; s.size == s.wire.body <==> !head || s.size == 0
  {
    SizeIsThatOfGet(h, head);
  }

  /** HEAD: five bytes are recorded, none is sent. */
  lemma HeadRecordsUnsent()
    ensures var s := Serve(Handler([Write(5, 5)], false, Body(0, 0)), true).recording; s.size == 5 && s.wire.body == 0
  {
    var r := Fresh(true);
    assert ApplyAll(r, [Write(5, 5)]) == ApplyAll(Apply(r, Write(5, 5)).0, []);
  }

  lemma {:induction false} NoBodyWithout(r: Recording, acts: seq<Act>)
    requires r.wire.sent && (r.wire.status == 204 || r.wire.status == 304)
    ensures var r' := ApplyAll(r, acts).0; r'.size == r.size && r'.wire == r.wire
    decreases acts
  {
    if acts != [] && !Apply(r, acts[0]).1 {
      NoBodyWithout(Apply(r, acts[0]).0, acts[1..]);
    }
  }

  /** After a header for 204 or 304 whatever the handler writes is neither sent nor recorded. */
  lemma BodilessSendsNothing(acts: seq<Act>, panics: bool, problem: Body, head: bool, status: int)
    requires status == 204 || status == 304
    ensures var s := Serve(Handler([WriteHeader(status)] + acts, panics, problem), head).recording;
      s.size == 0 && s.wire == Wire(head, true, status, 0)
  {
    var all := [WriteHeader(status)] + acts;
    var r := Apply(Fresh(head), WriteHeader(status)).0;
    assert all[1..] == acts;
    NoBodyWithout(r, acts);
    Committed(r, acts);
  }

  // ---------- Status ----------

  /** The handler's first word about the status is one the client will hear: a write; a final code
    * with nothing flushed before it, or 200 after a flush; or nothing at all, unless it panics
    * after flushing.
    */
  predicate Candid(acts: seq<Act>, panics: bool, flushed: bool) {
    if acts == [] then !(panics && flushed)
    else match acts[0]
      case Write(_, _) => true
      case WriteHeader(code) => if flushed then code == OK else Final(code)
      case Flush => Candid(acts[1..], panics, true)
      case Route(_) => Candid(acts[1..], panics, flushed)
  }

  /** After the first WriteHeader or Write the recorded status no longer moves, nor does one sent. */
  lemma {:induction false} Committed(r: Recording, acts: seq<Act>)
    requires r.wroteHeader
    ensures var r' := ApplyAll(r, acts).0;
      && r'.wroteHeader && r'.statusCode == r.statusCode
      && (r.wire.sent ==> r'.wire.sent && r'.wire.status == r.wire.status)
      && (!r.wire.sent && r'.wire.sent ==> Final(r'.wire.status))
    decreases acts
  {
    if acts != [] && !Apply(r, acts[0]).1 {
      Committed(Apply(r, acts[0]).0, acts[1..]);
    }
  }

  lemma {:induction false} StatusFrom(r: Recording, acts: seq<Act>, panics: bool, problem: Body)
    requires !r.wroteHeader && r.statusCode == OK && (r.wire.sent ==> r.wire.status == OK)
    ensures var (r', stopped) := ApplyAll(r, acts);
      var end := Finish(r', stopped || panics, problem);
      end.statusCode == end.wire.status <==> Candid(acts, panics, r.wire.sent)
    decreases acts
  {
    if acts != [] {
      var (next, panicked) := Apply(r, acts[0]);
      if acts[0].Flush? || acts[0].Route? {
        StatusFrom(next, acts[1..], panics, problem);
      } else if !panicked {
        Committed(next, acts[1..]);
      }
    }
  }

  /** The recorded status is the one the client got, for exactly the candid handlers. */
  lemma StatusAgreesIff(h: Handler, head: bool)
    ensures var s := Serve(h, head).recording;
      s.statusCode == s.wire.status <==> Candid(h.acts, h.panics, false)
  {
    StatusFrom(Fresh(head), h.acts, h.panics, h.problem);
  }

  // ---------- Panics ----------

  /** Nothing is written, and whether anything is flushed. */
  predicate WritesNothing(acts: seq<Act>) {
    forall i | 0 <= i < |acts| :: acts[i].Flush? || acts[i].Route?
  }

  predicate Flushes(acts: seq<Act>) {
    exists i :: 0 <= i < |acts| && acts[i].Flush?
  }

  lemma FirstAct(acts: seq<Act>)
    requires acts != []
    ensures WritesNothing(acts) <==> (acts[0].Flush? || acts[0].Route?) && WritesNothing(acts[1..])
    ensures Flushes(acts) <==> acts[0].Flush? || Flushes(acts[1..])
  {
    assert forall i | 0 < i < |acts| :: acts[i] == acts[1..][i - 1];
    assert forall i | 0 <= i < |acts[1..]| :: acts[1..][i] == acts[i + 1];
  }

  lemma {:induction false} NothingWritten(r: Recording, acts: seq<Act>)
    requires !r.wroteHeader
    ensures var (r', stopped) := ApplyAll(r, acts);
      && (!r'.wroteHeader <==> WritesNothing(acts))
      && (WritesNothing(acts) ==> !stopped && r' == r.(wire := if Flushes(acts) then WireCommit(r.wire) else r.wire))
    decreases acts
  {
    if acts != [] {
      FirstAct(acts);
      var (next, panicked) := Apply(r, acts[0]);
      if acts[0].Flush? || acts[0].Route? {
        NothingWritten(next, acts[1..]);
      } else if !panicked {
        Committed(next, acts[1..]);
      }
    }
  }

  /** The Problem is written exactly when the handler panics having written nothing. Its status, 500, is
    * then the client's unless something was flushed before; it is the whole body, in full exactly
    * when there is room for it, and none of it is sent to HEAD.
    */
  lemma ProblemIffNothingWritten(h: Handler, head: bool)
    ensures var s := Serve(h, head);
      && (s.problem <==> h.panics && WritesNothing(h.acts))
      && (s.problem ==>
            && s.recording.statusCode == INTERNAL_SERVER_ERROR
            && (s.recording.wire.status == INTERNAL_SERVER_ERROR <==> !Flushes(h.acts))
            && s.recording.size <= h.problem.size
            && (s.recording.size == h.problem.size <==> h.problem.size <= h.problem.room)
            && s.recording.wire.body == if head then 0 else s.recording.size)
  {
    NothingWritten(Fresh(head), h.acts);
  }

  /** A length too short for the Problem was declared before the panic: a 500 without a body. */
  lemma ProblemMayNotFit()
    ensures var s := Serve(Handler([], true, Body(75, 0)), false);
      s.problem && s.recording.wire == Wire(false, true, INTERNAL_SERVER_ERROR, 0) && s.recording.size == 0
  {
  }

  // ---------- Requests in progress ----------

  datatype Phase = Arrived | Serving(next: nat) | Unwinding(panicked: bool) | Gone

  /** captured is the middleware's own copy of the pattern, which routing may change meanwhile. */
  datatype Request = Request(
    handler: Handler, head: bool, pattern: string, captured: string, phase: Phase, rec: Recording)

  datatype State = State(gauge: map<string, int>, requests: map<nat, Request>)

  /** A step of request id. */
  datatype Action =
    | Arrive(id: nat, handler: Handler, head: bool, pattern: string)
    | Begin(id: nat)   // captures the pattern and counts the request in
    | Call(id: nat)    // the handler's next call
    | End(id: nat)     // the handler returns, or panics
    | Leave(id: nat)   // the deferred function, which counts it out

  predicate Enabled(s: State, a: Action) {
    if a.Arrive? then a.id !in s.requests
    else
      && a.id in s.requests
      && var r := s.requests[a.id];
         match a
         case Begin(_) => r.phase == Arrived
         case Call(_) => r.phase.Serving? && r.phase.next < |r.handler.acts|
         case End(_) => r.phase == Serving(|r.handler.acts|)
         case Leave(_) => r.phase.Unwinding?
         case _ => false
  }

  function NextRequest(s: State, a: Action): Request
    requires Enabled(s, a)
  {
    match a
    case Arrive(_, handler, head, pattern) => Request(handler, head, pattern, "", Arrived, Fresh(head))
    case Begin(id) => var r := s.requests[id]; r.(captured := r.pattern, phase := Serving(0))
    case Call(id) =>
      var r := s.requests[id];
      var act := r.handler.acts[r.phase.next];
      var (rec, panicked) := Apply(r.rec, act);
      r.(pattern := if act.Route? then act.pattern else r.pattern, rec := rec,
         phase := if panicked then Unwinding(true) else Serving(r.phase.next + 1))
    case End(id) => var r := s.requests[id]; r.(phase := Unwinding(r.handler.panics))
    case Leave(id) =>
      var r := s.requests[id];
      r.(phase := Gone, rec := Finish(r.rec, r.phase.panicked, r.handler.problem))
  }

  function Reading(gauge: map<string, int>, pattern: string): int {
    if pattern in gauge then gauge[pattern] else 0
  }

  function Added(gauge: map<string, int>, pattern: string, n: int): map<string, int> {
    gauge[pattern := Reading(gauge, pattern) + n]
  }

  function NextGauge(s: State, a: Action): map<string, int>
    requires Enabled(s, a)
  {
    match a
    case Begin(id) => Added(s.gauge, s.requests[id].pattern, 1)
    case Leave(id) => Added(s.gauge, s.requests[id].captured, -1)
    case _ => s.gauge
  }

  function Next(s: State, a: Action): State
    requires Enabled(s, a)
  {
    State(NextGauge(s, a), s.requests[a.id := NextRequest(s, a)])
  }

  predicate StepAt(run: seq<State>, actions: seq<Action>, i: nat)
    requires i < |actions| && |run| == |actions| + 1
  {
    Enabled(run[i], actions[i]) && run[i + 1] == Next(run[i], actions[i])
  }

  ghost predicate Run(run: seq<State>, actions: seq<Action>) {
    && |run| == |actions| + 1 && run[0] == State(map[], map[])
    && forall i | 0 <= i < |actions| :: StepAt(run, actions, i)
  }

  predicate InProgress(r: Request) {
    r.phase.Serving? || r.phase.Unwinding?
  }

  /** The requests in progress that were entered under the pattern. */
  ghost function Open(requests: map<nat, Request>, pattern: string): set<nat> {
    set id | id in requests && Counts(requests[id], pattern)
  }

  ghost predicate GaugeOK(s: State) {
    forall pattern :: Reading(s.gauge, pattern) == |Open(s.requests, pattern)|
  }

  /** What step a adds to the requests in progress under the pattern. */
  function Change(s: State, a: Action, pattern: string): int
    requires Enabled(s, a)
  {
    match a
    case Begin(id) => if s.requests[id].pattern == pattern then 1 else 0
    case Leave(id) => if s.requests[id].captured == pattern then -1 else 0
    case _ => 0
  }

  lemma ReadingNext(s: State, a: Action, pattern: string)
    requires Enabled(s, a)
    ensures Reading(NextGauge(s, a), pattern) == Reading(s.gauge, pattern) + Change(s, a, pattern)
  {
  }

  predicate Counts(r: Request, pattern: string) {
    InProgress(r) && r.captured == pattern
  }

  lemma OpenUpdate(requests: map<nat, Request>, id: nat, r: Request, pattern: string)
    ensures |Open(requests[id := r], pattern)| == |Open(requests, pattern)| + (if Counts(r, pattern) then 1 else 0)
              - (if id in requests && Counts(requests[id], pattern) then 1 else 0)
  {
    var open, others := Open(requests, pattern), Open(requests, pattern) - {id};
    assert open == if id in open then others + {id} else others;
    assert Open(requests[id := r], pattern) == if Counts(r, pattern) then others + {id} else others;
  }

  lemma CountsNext(s: State, a: Action, pattern: string)
    requires Enabled(s, a)
    ensures (if Counts(NextRequest(s, a), pattern) then 1 else 0)
              - (if a.id in s.requests && Counts(s.requests[a.id], pattern) then 1 else 0) == Change(s, a, pattern)
  {
  }

  lemma GaugeNext(s: State, a: Action)
    requires GaugeOK(s) && Enabled(s, a)
    ensures GaugeOK(Next(s, a))
  {
    forall pattern ensures Reading(NextGauge(s, a), pattern) == |Open(Next(s, a).requests, pattern)| {
      ReadingNext(s, a, pattern);
      OpenUpdate(s.requests, a.id, NextRequest(s, a), pattern);
      CountsNext(s, a, pattern);
    }
  }

  /** The request is on its way to the outcome Serve computes. */
  ghost predicate OnCourse(r: Request) {
    match r.phase
    case Arrived => r.rec == Fresh(r.head)
    case Serving(next) =>
      next <= |r.handler.acts| && ApplyAll(Fresh(r.head), r.handler.acts) == ApplyAll(r.rec, r.handler.acts[next..])
    case Unwinding(panicked) =>
      var (rec, stopped) := ApplyAll(Fresh(r.head), r.handler.acts);
      rec == r.rec && panicked == (stopped || r.handler.panics)
    case Gone => r.rec == Serve(r.handler, r.head).recording
  }

  lemma OnCourseNext(s: State, a: Action)
    requires Enabled(s, a) && (a.id in s.requests ==> OnCourse(s.requests[a.id]))
    ensures OnCourse(NextRequest(s, a))
  {
    match a
    case Begin(id) => assert s.requests[id].handler.acts[0..] == s.requests[id].handler.acts;
    case Call(id) =>
      var acts, k := s.requests[id].handler.acts, s.requests[id].phase.next;
      assert acts[k..][1..] == acts[k + 1..];
    case End(id) => assert s.requests[id].handler.acts[|s.requests[id].handler.acts|..] == [];
    case _ =>
  }

  ghost predicate Inv(s: State) {
    GaugeOK(s) && forall id | id in s.requests :: OnCourse(s.requests[id])
  }

  lemma InvNext(s: State, a: Action)
    requires Inv(s) && Enabled(s, a)
    ensures Inv(Next(s, a))
  {
    GaugeNext(s, a);
    OnCourseNext(s, a);
  }

  /** In every interleaving of requests the gauge of each pattern is the number of requests now in
    * progress that were entered under it, whatever routing has made of their patterns since and
    * however they end; and every request that has ended has the outcome of Serve.
    */
  lemma {:induction false} GaugeCountsOpenRequests(run: seq<State>, actions: seq<Action>, i: nat)
    requires Run(run, actions) && i < |run|
    ensures forall pattern :: Reading(run[i].gauge, pattern) == |Open(run[i].requests, pattern)|
    ensures forall id | id in run[i].requests && run[i].requests[id].phase == Gone ::
      run[i].requests[id].rec == Serve(run[i].requests[id].handler, run[i].requests[id].head).recording
    ensures Inv(run[i])
  {
    if i > 0 {
      GaugeCountsOpenRequests(run, actions, i - 1);
      assert StepAt(run, actions, i - 1);
      InvNext(run[i - 1], actions[i - 1]);
    }
  }

  // ---------- The middleware as an object ----------

  class Middleware {
    var gauge: map<string, int>
    var requests: map<nat, Request>
    var clock: nat

    function Abs(): State
      reads this
    {
      State(gauge, requests)
    }

    constructor ()
      ensures Inv(Abs()) && requests == map[]
    {
      gauge, requests, clock := map[], map[], 0;
    }

    /** The other requests take their steps. */
    method Others(id: nat, others: nat -> seq<Action>)
      requires Inv(Abs()) && id in requests
      modifies this
      ensures Inv(Abs()) && id in requests && requests[id] == old(requests[id])
    {
      var todo := others(clock);
      clock := clock + 1;
      for i := 0 to |todo|
        invariant Inv(Abs()) && id in requests && requests[id] == old(requests[id])
      {
        var s := Abs();
        if todo[i].id != id && Enabled(s, todo[i]) {
          InvNext(s, todo[i]);
          gauge, requests := NextGauge(s, todo[i]), requests[todo[i].id := NextRequest(s, todo[i])];
        }
      }
    }

    /** The handler's calls on the writer, one after the other, up to one that panics. */
    method Drive(id: nat, rw: ResponseWriter, others: nat -> seq<Action>) returns (panicked: bool)
      requires Inv(Abs()) && id in requests && requests[id].phase == Serving(0) && rw.Abs() == requests[id].rec
      modifies this, rw
      ensures Inv(Abs()) && id in requests && rw.Abs() == requests[id].rec
      ensures requests[id].phase == Unwinding(panicked) && requests[id].captured == old(requests[id].captured)
      ensures requests[id].handler == old(requests[id].handler) && requests[id].head == old(requests[id].head)
    {
      var h, k := requests[id].handler, 0;
      panicked := false;
      while k < |h.acts| && !panicked
        invariant Inv(Abs()) && id in requests && rw.Abs() == requests[id].rec && k <= |h.acts|
        invariant requests[id].phase == if panicked then Unwinding(true) else Serving(k)
        invariant requests[id].captured == old(requests[id].captured) && requests[id].head == old(requests[id].head)
        invariant requests[id].handler == h
        decreases |h.acts| - k
      {
        Others(id, others);
        panicked := Turn(id, rw, k);
        k := k + 1;
      }
      if !panicked {
        InvNext(Abs(), End(id));
        panicked := h.panics;
        requests := requests[id := requests[id].(phase := Unwinding(panicked))];
      }
    }

    /** The handler's k-th call. */
    method Turn(id: nat, rw: ResponseWriter, k: nat) returns (panicked: bool)
      requires Inv(Abs()) && id in requests && Enabled(Abs(), Call(id)) && requests[id].phase == Serving(k)
      requires rw.Abs() == requests[id].rec
      modifies this`requests, rw
      ensures Inv(Abs()) && Abs() == Next(old(Abs()), Call(id)) && rw.Abs() == requests[id].rec
      ensures requests[id].phase == if panicked then Unwinding(true) else Serving(k + 1)
    {
      InvNext(Abs(), Call(id));
      var r := requests[id];
      panicked := rw.Do(r.handler.acts[k]);
      if r.handler.acts[k].Route? {
        r := r.(pattern := r.handler.acts[k].pattern);
      }
      requests := requests[id := r.(rec := rw.Abs(), phase := if panicked then Unwinding(true) else Serving(k + 1))];
    }

    /** One request, among others at any stage: counted in under the pattern it came with, and out
      * under the same one whether the handler returns or panics.
      */
    method ServeHTTP(id: nat, others: nat -> seq<Action>)
      requires Inv(Abs()) && id in requests && requests[id].phase == Arrived
      modifies this
      ensures Inv(Abs()) && id in requests && requests[id].phase == Gone
      ensures requests[id].captured == old(requests[id].pattern)
      ensures requests[id].rec ==
        Serve(old(requests[id].handler), old(requests[id].head)).recording
    {
      var inflightPattern := requests[id].pattern;
      var rw := new ResponseWriter(requests[id].head);
      InvNext(Abs(), Begin(id));
      gauge := Added(gauge, inflightPattern, 1);
      requests := requests[id := requests[id].(captured := inflightPattern, phase := Serving(0))];

      var panicked := Drive(id, rw, others);

      Others(id, others);
      InvNext(Abs(), Leave(id));
      if panicked && !rw.wroteHeader {
        rw.WriteProblem(requests[id].handler.problem);
      }
      rw.Close();
      gauge := Added(gauge, inflightPattern, -1);
      requests := requests[id := requests[id].(phase := Gone, rec := rw.Abs())];
    }
  }
}
