/**
 The event dispatcher of src/ls_eventing.c as a state machine on values.

 A dispatcher owns a number of events (`lists`, one binding list per event) and a
 queue of moments.  While a moment runs it stays at the head of the queue.
 Callbacks are arbitrary: a `Program` maps everything logged so far to the list of
 calls that the callback just invoked makes on the dispatcher.

 `fault` is set where the C code would follow a pointer it must not follow.
 `misuse` is only there to state a theorem: it records that somebody broke the
 usage rules `MayUnbind` and `MayTrigger`, named an event that does not exist, or
 called into a dispatcher that was already destroyed.
 */
module EventModel {
  import opened Options

  /** One binding of a callback to an event; `id` is the identity of the node. */
  datatype Binding = Binding(id: nat, cb: nat, arg: int, unbound: bool, normal: bool)

  datatype ResultCb = ResultCb(cb: nat, arg: int)

  /** `saved` is the head of the event's list when the moment was triggered. */
  datatype Moment = Moment(id: nat, event: nat, data: int, saved: Option<nat>,
                           result: Option<ResultCb>, handled: bool)

  /** The calls a callback may make; `alloc` says whether malloc would succeed. */
  datatype Action =
    | Bind(event: nat, cb: nat, arg: int, alloc: bool)
    | Unbind(event: nat, cb: nat)
    | Trigger(event: nat, data: int, result: Option<ResultCb>, alloc: bool)
    | Destroy
    | SetHandled(flag: bool)

  datatype Entry =
    | Triggered(id: nat, event: nat, data: int, asked: Option<ResultCb>)
    | Started(id: nat, event: nat, data: int, listed: seq<nat>, asked: Option<ResultCb>)
    | Called(id: nat, event: nat, cb: nat, arg: int)
    | Reported(id: nat, event: nat, result: ResultCb, handled: bool)
    | Freed(id: nat)
    | Bound(event: nat, cb: nat, arg: int)
    | Unbound(event: nat, cb: nat)
    | Created(event: nat)
    | CloseRequested
    | Ended

  /** Everything that has happened, latest entry outermost. */
  datatype Log = Empty | Then(before: Log, last: Entry)

  type Program = Log -> seq<Action>

  /** The number of callbacks called so far, result callbacks included. */
  function CallCount(log: Log): nat {
    if log.Empty? then 0
    else CallCount(log.before) + (if log.last.Called? || log.last.Reported? then 1 else 0)
  }

  /** The program whose n-th callback runs the n-th script. */
  function Scripted(scripts: nat -> seq<Action>): Program {
    log => scripts(CallCount(log))
  }

  datatype State = State(
    lists: seq<seq<Binding>>,
    queue: seq<Moment>,
    running: Option<nat>,
    destroyPending: bool,
    nextId: nat,
    log: Log,
    fault: bool,
    misuse: bool)

  const EMPTY := State([], [], None, false, 0, Empty, false, false)

  // ---------- binding lists ----------

  function CbFrom(list: seq<Binding>, cb: nat, i: nat): (r: nat)
    requires i <= |list|
    ensures i <= r <= |list|
    ensures r < |list| ==> list[r].cb == cb
    ensures forall j :: i <= j < r ==> list[j].cb != cb
    decreases |list| - i
  {
    if i == |list| || list[i].cb == cb then i else CbFrom(list, cb, i + 1)
  }

  /** The position of the binding of `cb`, or the length of the list. */
  function IndexOfCb(list: seq<Binding>, cb: nat): nat {
    CbFrom(list, cb, 0)
  }

  function IdFrom(list: seq<Binding>, id: nat, i: nat): (r: nat)
    requires i <= |list|
    ensures i <= r <= |list|
    ensures r < |list| ==> list[r].id == id
    decreases |list| - i
  {
    if i == |list| || list[i].id == id then i else IdFrom(list, id, i + 1)
  }

  function IndexOfId(list: seq<Binding>, id: nat): nat {
    IdFrom(list, id, 0)
  }

  predicate Listed(list: seq<Binding>, cb: nat) {
    IndexOfCb(list, cb) < |list|
  }

  /** Rebinding keeps the position and the `normal` flag and cancels a pending unbind. */
  function BindIn(list: seq<Binding>, cb: nat, arg: int, id: nat): seq<Binding> {
    var i := IndexOfCb(list, cb);
    if i < |list| then list[i := list[i].(arg := arg, unbound := false)]
    else list + [Binding(id, cb, arg, false, false)]
  }

  function Remove(list: seq<Binding>, cb: nat): seq<Binding> {
    var i := IndexOfCb(list, cb);
    if i < |list| then list[..i] + list[i + 1..] else list
  }

  function MarkUnbound(list: seq<Binding>, cb: nat): seq<Binding> {
    var i := IndexOfCb(list, cb);
    if i < |list| then list[i := list[i].(unbound := true)] else list
  }

  function MarkNormal(list: seq<Binding>): seq<Binding> {
    seq(|list|, i requires 0 <= i < |list| => list[i].(normal := true))
  }

  function Sweep(list: seq<Binding>): seq<Binding> {
    if list == [] then []
    else if list[0].unbound then Sweep(list[1..])
    else [list[0]] + Sweep(list[1..])
  }

  lemma {:induction false} SweepConcat(a: seq<Binding>, b: seq<Binding>)
    ensures Sweep(a + b) == Sweep(a) + Sweep(b)
    decreases |a|
  {
    if a == [] {
      assert a + b == b;
    } else {
      assert (a + b)[1..] == a[1..] + b;
      SweepConcat(a[1..], b);
    }
  }

  function Head(list: seq<Binding>): Option<nat> {
    if list == [] then None else Some(list[0].id)
  }

  function Cbs(list: seq<Binding>): seq<nat> {
    seq(|list|, i requires 0 <= i < |list| => list[i].cb)
  }

  /** How many bindings from position `i` on were bound before the moment started. */
  function NormalFrom(list: seq<Binding>, i: nat): nat
    requires i <= |list|
    decreases |list| - i
  {
    if i == |list| then 0 else (if list[i].normal then 1 else 0) + NormalFrom(list, i + 1)
  }

  /** What callbacks may do to the running event's list: nothing moves, nothing leaves. */
  predicate Extends(old': seq<Binding>, new': seq<Binding>) {
    && |old'| <= |new'|
    && (forall i :: 0 <= i < |old'| ==>
          new'[i].id == old'[i].id && new'[i].cb == old'[i].cb && new'[i].normal == old'[i].normal)
    && (forall i :: |old'| <= i < |new'| ==> !new'[i].normal)
  }

  lemma {:induction false} ExtendsKeepsNormal(old': seq<Binding>, new': seq<Binding>, i: nat)
    requires Extends(old', new') && i <= |old'|
    ensures NormalFrom(new', i) == NormalFrom(old', i)
    decreases |new'| - i
  {
    if i < |old'| {
      ExtendsKeepsNormal(old', new', i + 1);
    } else if i < |new'| {
      NoneNormal(new', i);
    }
  }

  lemma {:induction false} NoneNormal(list: seq<Binding>, i: nat)
    requires i <= |list| && forall j :: i <= j < |list| ==> !list[j].normal
    ensures NormalFrom(list, i) == 0
    decreases |list| - i
  {
    if i < |list| {
      NoneNormal(list, i + 1);
    }
  }

  // ---------- operations common to callbacks and to the application ----------

  /** A moment is running: it is the head of the queue. */
  predicate InRun(s: State) {
    && |s.queue| > 0
    && s.queue[0].event < |s.lists|
    && s.running == Some(s.queue[0].event)
  }

  function Current(s: State): seq<Binding>
    requires InRun(s)
  {
    s.lists[s.queue[0].event]
  }

  function DoBind(s: State, e: nat, cb: nat, arg: int, alloc: bool): State
    requires e < |s.lists|
  {
    if !Listed(s.lists[e], cb) && !alloc then s
    else
      s.(lists := s.lists[e := BindIn(s.lists[e], cb, arg, s.nextId)],
         nextId := s.nextId + 1,
         log := Then(s.log, Bound(e, cb, arg)))
  }

  /** The number of queued moments that have started. */
  function Started'(s: State): nat {
    if s.running.None? then 0 else 1
  }

  /** Is a moment of event `e` waiting for its turn? */
  predicate HasWaiting(s: State, e: nat) {
    exists i :: Started'(s) <= i < |s.queue| && s.queue[i].event == e
  }

  /** Safe use: unbind what is listed, and not the head while a moment is waiting. */
  predicate MayUnbind(s: State, e: nat, cb: nat)
    requires e < |s.lists|
  {
    && (s.running == Some(e) ==> Listed(s.lists[e], cb))
    && (s.lists[e] != [] && s.lists[e][0].cb == cb ==> !HasWaiting(s, e))
  }

  /** Safe use: do not trigger an event whose first binding is about to be swept. */
  predicate MayTrigger(s: State, e: nat)
    requires e < |s.lists|
  {
    s.lists[e] != [] ==> !s.lists[e][0].unbound
  }

  function DoUnbind(s: State, e: nat, cb: nat): State
    requires e < |s.lists|
  {
    var misuse := s.misuse || !MayUnbind(s, e, cb);
    if s.running != Some(e) then
      s.(lists := s.lists[e := Remove(s.lists[e], cb)], misuse := misuse,
         log := Then(s.log, Unbound(e, cb)))
    else if Listed(s.lists[e], cb) then
      s.(lists := s.lists[e := MarkUnbound(s.lists[e], cb)], misuse := misuse,
         log := Then(s.log, Unbound(e, cb)))
    else
      s.(fault := true, misuse := misuse)
  }

  function Enqueue(s: State, e: nat, data: int, result: Option<ResultCb>, alloc: bool): State
    requires e < |s.lists|
  {
    if !alloc then s
    else
      s.(queue := s.queue + [Moment(s.nextId, e, data, Head(s.lists[e]), result, false)],
         nextId := s.nextId + 1,
         misuse := s.misuse || !MayTrigger(s, e),
         log := Then(s.log, Triggered(s.nextId, e, data, result)))
  }

  function BadUse(s: State): State {
    s.(fault := true, misuse := true)
  }

  // ---------- one moment ----------

  function WithHandled(s: State, flag: bool): State
    requires |s.queue| > 0
  {
    s.(queue := s.queue[0 := s.queue[0].(handled := flag)])
  }

  /** The part of the state that callbacks cannot change, apart from `handled`. */
  predicate SameRun(s: State, r: State)
    requires InRun(s)
  {
    && InRun(r) && |r.lists| == |s.lists|
    && r.queue[0] == s.queue[0].(handled := r.queue[0].handled)
  }

  /** One call made by a callback while a moment runs. */
  function Act(s: State, a: Action): (r: State)
    requires InRun(s)
    ensures SameRun(s, r)
  {
    if s.fault then s
    else
      match a
      case Bind(e, cb, arg, alloc) =>
        if e < |s.lists| then DoBind(s, e, cb, arg, alloc) else BadUse(s)
      case Unbind(e, cb) =>
        if e < |s.lists| then DoUnbind(s, e, cb) else BadUse(s)
      case Trigger(e, data, result, alloc) =>
        if e < |s.lists| then Enqueue(s, e, data, result, alloc) else BadUse(s)
      case Destroy => s.(destroyPending := true, log := Then(s.log, CloseRequested))
      case SetHandled(flag) => WithHandled(s, flag)
  }

  function RunScript(s: State, script: seq<Action>): (r: State)
    requires InRun(s)
    ensures SameRun(s, r)
    decreases |script|
  {
    if script == [] then s else RunScript(Act(s, script[0]), script[1..])
  }

  lemma {:induction false} FaultStays(s: State, script: seq<Action>)
    requires InRun(s) && s.fault
    ensures RunScript(s, script) == s
    decreases |script|
  {
    if script != [] {
      FaultStays(s, script[1..]);
    }
  }

  /** Logs `x` and lets the program react to it. */
  function Invoke(p: Program, s: State, x: Entry): (r: State)
    requires InRun(s)
    ensures SameRun(s, r)
  {
    if s.fault then s
    else
      var s1 := s.(log := Then(s.log, x));
      RunScript(s1, p(s1.log))
  }

  /** Calls the binding at position `i`; a callback cannot take back `handled`. */
  function CallAt(p: Program, s: State, i: nat): (r: State)
    requires InRun(s) && i < |Current(s)|
    ensures SameRun(s, r)
  {
    var b := Current(s)[i];
    var m := s.queue[0];
    var r := Invoke(p, s, Called(m.id, m.event, b.cb, b.arg));
    WithHandled(r, m.handled || r.queue[0].handled)
  }

  lemma {:induction false} ActExtends(s: State, a: Action)
    requires InRun(s)
    ensures Extends(Current(s), Current(Act(s, a)))
  {
  }

  lemma {:induction false} ScriptExtends(s: State, script: seq<Action>)
    requires InRun(s)
    ensures Extends(Current(s), Current(RunScript(s, script)))
    decreases |script|
  {
    if script != [] {
      ActExtends(s, script[0]);
      ScriptExtends(Act(s, script[0]), script[1..]);
    }
  }

  lemma {:induction false} CallExtends(p: Program, s: State, i: nat)
    requires InRun(s) && i < |Current(s)|
    ensures Extends(Current(s), Current(CallAt(p, s, i)))
  {
    if !s.fault {
      var b, m := Current(s)[i], s.queue[0];
      var s1 := s.(log := Then(s.log, Called(m.id, m.event, b.cb, b.arg)));
      ScriptExtends(s1, p(s1.log));
    }
  }

  /** Follows the list from position `i` to its end, whatever the callbacks do to it. */
  function RunCalls(p: Program, s: State, i: nat): (r: State)
    requires InRun(s) && i <= |Current(s)|
    ensures SameRun(s, r)
    decreases NormalFrom(Current(s), i), |Current(s)| - i
  {
    if s.fault || i == |Current(s)| then s
    else if Current(s)[i].normal then
      var s1 := CallAt(p, s, i);
      CallExtends(p, s, i);
      ExtendsKeepsNormal(Current(s), Current(s1), i + 1);
      RunCalls(p, s1, i + 1)
    else
      RunCalls(p, s, i + 1)
  }

  /** Where the saved head pointer leads: the end for null, nowhere for a freed node. */
  function StartIndex(list: seq<Binding>, saved: Option<nat>): Option<nat> {
    match saved
    case None => Some(|list|)
    case Some(id) => if IndexOfId(list, id) < |list| then Some(IndexOfId(list, id)) else None
  }

  /** Between moments. */
  predicate Ready(s: State) {
    s.running.None?
  }

  function Begin(s: State): (r: State)
    requires Ready(s) && |s.queue| > 0 && s.queue[0].event < |s.lists|
    ensures InRun(r)
  {
    var m := s.queue[0];
    var list := MarkNormal(s.lists[m.event]);
    var start := StartIndex(list, m.saved);
    var r := s.(running := Some(m.event), lists := s.lists[m.event := list]);
    if start.None? then r.(fault := true)
    else r.(log := Then(s.log, Started(m.id, m.event, m.data, Cbs(list[start.value..]), m.result)))
  }

  /** All callbacks of the moment. */
  function Serve(p: Program, s: State): (r: State)
    requires InRun(s)
    ensures InRun(r)
  {
    var start := StartIndex(Current(s), s.queue[0].saved);
    if start.None? then s else RunCalls(p, s, start.value)
  }

  function Report(p: Program, s: State): (r: State)
    requires InRun(s)
    ensures InRun(r)
  {
    var m := s.queue[0];
    if m.result.None? then s
    else Invoke(p, s, Reported(m.id, m.event, m.result.value, m.handled))
  }

  function Retire(s: State): (r: State)
    requires InRun(s)
    ensures !r.fault ==> Ready(r)
  {
    if s.fault then s
    else
      var e := s.queue[0].event;
      s.(lists := s.lists[e := Sweep(s.lists[e])],
         queue := s.queue[1..],
         running := None,
         log := Then(s.log, Freed(s.queue[0].id)))
  }

  /** `_handle_trigger_int`: runs the moment at the head of the queue. */
  function HandleMoment(p: Program, s: State): (r: State)
    requires Ready(s) && |s.queue| > 0
    ensures !r.fault ==> Ready(r)
  {
    if s.queue[0].event < |s.lists| then Retire(Report(p, Serve(p, Begin(s)))) else BadUse(s)
  }

  /** A moment without a fault has none at any of its stages. */
  lemma {:induction false} MomentFaultStays(p: Program, s: State)
    requires Ready(s) && |s.queue| > 0 && s.queue[0].event < |s.lists|
    ensures var b := Begin(s);
            && (b.fault ==> Serve(p, b).fault)
            && (Serve(p, b).fault ==> Report(p, Serve(p, b)).fault)
            && (Report(p, Serve(p, b)).fault ==> HandleMoment(p, s).fault)
            && (!s.fault && !b.fault ==> StartIndex(Current(b), b.queue[0].saved).Some?)
  {
  }

  // ---------- the drain loop and the application's own calls ----------

  predicate Quiet(s: State) {
    s.fault || s.queue == [] || s.destroyPending
  }

  /** At most `fuel` iterations of the loop in `_dispatch_trigger`. */
  function Drain(p: Program, s: State, fuel: nat): (r: State)
    requires !s.fault ==> Ready(s)
    ensures !r.fault ==> Ready(r)
    decreases fuel
  {
    if Quiet(s) || fuel == 0 then s else Drain(p, HandleMoment(p, s), fuel - 1)
  }

  /** The state in which draining comes to rest within `fuel` moments without a fault, if it does. */
  function RestOf(p: Program, s: State, fuel: nat): Option<State> {
    if !s.fault && !Ready(s) then None
    else
      var r := Drain(p, s, fuel);
      if Quiet(r) && !r.fault then Some(r) else None
  }

  lemma {:induction false} DrainUnrolls(p: Program, s: State, h: State, fuel: nat)
    requires Ready(s) && !Quiet(s) && h == HandleMoment(p, s) && fuel > 0
    ensures Drain(p, s, fuel) == Drain(p, h, fuel - 1)
  {
  }

  lemma {:induction false} DrainDone(p: Program, s: State, fuel: int)
    requires !s.fault ==> Ready(s)
    ensures fuel >= 0 && Quiet(s) ==> Drain(p, s, fuel) == s
  {
  }

  lemma {:induction false} AtRest(p: Program, s: State, fuel: nat)
    requires RestOf(p, s, fuel).Some?
    ensures Quiet(s) ==> Ready(s) && RestOf(p, s, fuel) == Some(s)
  {
  }

  lemma {:induction false} DrainNext(p: Program, s: State, fuel: nat) returns (left: nat)
    requires !Quiet(s) && RestOf(p, s, fuel).Some?
    ensures left < fuel && Ready(s)
    ensures var h := HandleMoment(p, s);
            && !h.fault && RestOf(p, h, left) == RestOf(p, s, fuel)
            && (Quiet(h) ==> Ready(h) && RestOf(p, s, fuel) == Some(h))
  {
    left := fuel - 1;
    DrainDone(p, HandleMoment(p, s), left);
  }

  function LogFrees(log: Log, queue: seq<Moment>): Log
    decreases |queue|
  {
    if queue == [] then log else LogFrees(Then(log, Freed(queue[0].id)), queue[1..])
  }

  /** Frees every waiting moment, every event and the dispatcher itself. */
  function Dispose(s: State): State {
    s.(lists := [], queue := [], log := Then(LogFrees(s.log, s.queue), Ended))
  }

  function Finish(s: State): (r: State)
    requires !s.fault ==> Ready(s)
    ensures !r.fault ==> Ready(r)
  {
    if !s.fault && s.destroyPending then Dispose(s) else s
  }

  datatype Op =
    | CreateEvent(alloc: bool)
    | AppBind(event: nat, cb: nat, arg: int, alloc: bool)
    | AppUnbind(event: nat, cb: nat)
    | AppTrigger(event: nat, data: int, result: Option<ResultCb>, alloc: bool, fuel: nat)
    | AppDestroy

  /** A call from outside any callback; naming an event that is not there is a fault. */
  function Step(p: Program, s: State, op: Op): (r: State)
    requires !s.fault ==> Ready(s)
    ensures !r.fault ==> Ready(r)
  {
    if s.fault then s
    else if s.destroyPending then BadUse(s)
    else
      match op
      case CreateEvent(alloc) =>
        if alloc then s.(lists := s.lists + [[]], log := Then(s.log, Created(|s.lists|))) else s
      case AppBind(e, cb, arg, alloc) =>
        if e < |s.lists| then DoBind(s, e, cb, arg, alloc) else BadUse(s)
      case AppUnbind(e, cb) =>
        if e < |s.lists| then DoUnbind(s, e, cb) else BadUse(s)
      case AppTrigger(e, data, result, alloc, fuel) =>
        if e >= |s.lists| then BadUse(s)
        else if !alloc then s
        else Finish(Drain(p, Enqueue(s, e, data, result, alloc), fuel))
      case AppDestroy =>
        Dispose(s.(destroyPending := true, log := Then(s.log, CloseRequested)))
  }

  function Run(p: Program, ops: seq<Op>): (s: State)
    ensures !s.fault ==> Ready(s)
    decreases |ops|
  {
    if ops == [] then EMPTY else Step(p, Run(p, ops[..|ops| - 1]), ops[|ops| - 1])
  }
}
