/**
 What the application and the callbacks ask for, read from the calls they make, and what
 becomes of it.

 A request is read twice: from the entries of the log, and from the calls themselves,
 which are the operations of a run and the scripts that the program runs in callbacks.
 In every run without a fault the two agree: no call is lost, doubled, moved or altered.
 */
module EventCalls {
  import opened Options
  import opened EventModel
  import opened EventLaws
  import opened EventTheorems

  datatype Request =
    | ToCreate(event: nat)
    | ToBind(event: nat, cb: nat, arg: int)
    | ToUnbind(event: nat, cb: nat)
    | ToTrigger(event: nat, data: int, result: Option<ResultCb>)
    | ToClose

  // ---------- readings of the log ----------

  function RequestOf(x: Entry): seq<Request> {
    match x
    case Created(e) => [ToCreate(e)]
    case Bound(e, cb, arg) => [ToBind(e, cb, arg)]
    case Unbound(e, cb) => [ToUnbind(e, cb)]
    case Triggered(_, e, data, result) => [ToTrigger(e, data, result)]
    case CloseRequested => [ToClose]
    case _ => []
  }

  function Requests(log: Log): seq<Request> {
    if log.Empty? then [] else Requests(log.before) + RequestOf(log.last)
  }

  function EventCount(log: Log): nat {
    if log.Empty? then 0 else EventCount(log.before) + if log.last.Created? then 1 else 0
  }

  /** The event whose moment is running. */
  function RunningIn(log: Log): Option<nat> {
    if log.Empty? then None
    else
      match log.last
      case Started(_, e, _, _, _) => Some(e)
      case Freed(_) => None
      case _ => RunningIn(log.before)
  }

  /** The callbacks with a node in the list of event `e`; while the event runs, none leaves. */
  function HeldBy(log: Log, e: nat): set<nat> {
    if log.Empty? then {}
    else
      var held := HeldBy(log.before, e);
      match log.last
      case Created(e') => if e' == e then {} else held
      case Bound(e', cb, _) => if e' == e then held + {cb} else held
      case Unbound(e', cb) => if e' == e && RunningIn(log.before) != Some(e) then held - {cb} else held
      case Freed(_) => if RunningIn(log.before) == Some(e) then Replay(log.before, e).Keys else held
      case _ => held
  }

  // ---------- the calls themselves ----------

  /** What call `a` asks for; without memory, a callback that is not there cannot be bound. */
  function Asked(log: Log, a: Action): seq<Request> {
    match a
    case Bind(e, cb, arg, alloc) => if alloc || cb in HeldBy(log, e) then [ToBind(e, cb, arg)] else []
    case Unbind(e, cb) => [ToUnbind(e, cb)]
    case Trigger(e, data, result, alloc) => if alloc then [ToTrigger(e, data, result)] else []
    case Destroy => [ToClose]
    case SetHandled(_) => []
  }

  /** The log as far as later calls of the same script depend on it. */
  function After(log: Log, a: Action): Log {
    match a
    case Bind(e, cb, arg, alloc) => if alloc || cb in HeldBy(log, e) then Then(log, Bound(e, cb, arg)) else log
    case Unbind(e, cb) => Then(log, Unbound(e, cb))
    case _ => log
  }

  function AskedBy(log: Log, script: seq<Action>): seq<Request>
    decreases |script|
  {
    if script == [] then [] else Asked(log, script[0]) + AskedBy(After(log, script[0]), script[1..])
  }

  /** What all callbacks but the first `n` have asked for. */
  function AskedSince(p: Program, n: nat, log: Log): seq<Request> {
    if CallCount(log) <= n then []
    else
      AskedSince(p, n, log.before) +
      if log.last.Called? || log.last.Reported? then AskedBy(log, p(log)) else []
  }

  /** What a call of the application asks for. */
  function AppAsked(log: Log, op: Op): seq<Request> {
    match op
    case CreateEvent(alloc) => if alloc then [ToCreate(EventCount(log))] else []
    case AppBind(e, cb, arg, alloc) => Asked(log, Bind(e, cb, arg, alloc))
    case AppUnbind(e, cb) => Asked(log, Unbind(e, cb))
    case AppTrigger(e, data, result, alloc, _) => Asked(log, Trigger(e, data, result, alloc))
    case AppDestroy => [ToClose]
  }

  /** All that is asked for in a run: by each operation, and then by the callbacks it sets off. */
  function AllAsked(p: Program, ops: seq<Op>): seq<Request>
    decreases |ops|
  {
    if ops == [] then []
    else
      var before, op := ops[..|ops| - 1], ops[|ops| - 1];
      var log := Run(p, before).log;
      AllAsked(p, before) + AppAsked(log, op) + AskedSince(p, CallCount(log), Run(p, ops).log)
  }

  // ---------- the lists hold what the log says ----------

  ghost predicate ListHeld(list: seq<Binding>, held: set<nat>) {
    && (forall i, j :: 0 <= i < j < |list| ==> list[i].cb != list[j].cb)
    && (forall cb :: cb in held <==> Listed(list, cb))
  }

  /** The log when moment `id` was triggered. */
  function TriggeredAt(log: Log, id: nat): Log {
    if log.Empty? then Empty
    else if log.last.Triggered? && log.last.id == id then log.before
    else TriggeredAt(log.before, id)
  }

  /** The moment saved no head exactly if no callback was held when it was triggered. */
  ghost predicate SavedThen(s: State, m: Moment) {
    m.id < s.nextId && (m.saved.None? <==> HeldBy(TriggeredAt(s.log, m.id), m.event) == {})
  }

  ghost predicate Held(s: State) {
    && RunningIn(s.log) == s.running
    && EventCount(s.log) == |s.lists|
    && (forall e :: 0 <= e < |s.lists| ==> ListHeld(s.lists[e], HeldBy(s.log, e)))
    && (forall i :: 0 <= i < |s.queue| ==> SavedThen(s, s.queue[i]))
  }

  lemma {:induction false} BindHeld(list: seq<Binding>, held: set<nat>, cb: nat, arg: int, id: nat)
    requires ListHeld(list, held)
    ensures ListHeld(BindIn(list, cb, arg, id), held + {cb})
  {
    var r, at := BindIn(list, cb, arg, id), IndexOfCb(list, cb);
    forall i | 0 <= i < |r|
      ensures r[i].cb == if i == at then cb else list[i].cb
    {
    }
    forall c
      ensures c in held + {cb} <==> Listed(r, c)
    {
      var k := IndexOfCb(list, c);
      if c == cb {
        assert r[at].cb == c;
      } else if k < |list| {
        assert r[k].cb == c;
      }
      var i := IndexOfCb(r, c);
      assert i < |list| && i != at ==> list[i].cb == r[i].cb;
    }
  }

  lemma {:induction false} RemoveHeld(list: seq<Binding>, held: set<nat>, cb: nat)
    requires ListHeld(list, held)
    ensures ListHeld(Remove(list, cb), held - {cb})
  {
    var r, at := Remove(list, cb), IndexOfCb(list, cb);
    forall i | 0 <= i < |r|
      ensures r[i] == list[if i < at then i else i + 1] && r[i].cb != cb
    {
    }
    forall c
      ensures c in held - {cb} <==> Listed(r, c)
    {
      var k := IndexOfCb(list, c);
      if c != cb && k < |list| {
        assert r[if k < at then k else k - 1].cb == c;
      }
      if Listed(r, c) {
        var i := IndexOfCb(r, c);
        assert list[if i < at then i else i + 1].cb == c;
      }
    }
  }

  /** Flags do not matter. */
  lemma {:induction false} FlagsHeld(list: seq<Binding>, r: seq<Binding>, held: set<nat>)
    requires ListHeld(list, held) && Cbs(r) == Cbs(list)
    ensures ListHeld(r, held)
  {
    forall i | 0 <= i < |list|
      ensures r[i].cb == list[i].cb
    {
      assert Cbs(r)[i] == Cbs(list)[i] && |Cbs(r)| == |r| && |Cbs(list)| == |list|;
    }
    assert |Cbs(r)| == |Cbs(list)|;
    forall c
      ensures Listed(r, c) <==> Listed(list, c)
    {
      var i, j := IndexOfCb(r, c), IndexOfCb(list, c);
      assert i < |r| ==> list[i].cb == c;
      assert j < |list| ==> r[j].cb == c;
    }
  }

  // ---------- one call ----------

  /** Logs in which the same callbacks are held while the same event runs. */
  ghost predicate Alike(a: Log, b: Log) {
    RunningIn(a) == RunningIn(b) && forall e :: HeldBy(a, e) == HeldBy(b, e)
  }

  lemma {:induction false} AlikeAsked(a: Log, b: Log, script: seq<Action>)
    requires Alike(a, b)
    ensures AskedBy(a, script) == AskedBy(b, script)
    decreases |script|
  {
    if script != [] {
      assert Asked(a, script[0]) == Asked(b, script[0]);
      AlikeAsked(After(a, script[0]), After(b, script[0]), script[1..]);
    }
  }

  /** An operation that is answered: it logs exactly what was asked for, and calls nobody. */
  ghost predicate Answers(s: State, r: State, asked: seq<Request>) {
    && Held(r)
    && Requests(r.log) == Requests(s.log) + asked
    && CallCount(r.log) == CallCount(s.log)
    && forall p: Program, n :: AskedSince(p, n, r.log) == AskedSince(p, n, s.log)
  }

  lemma {:induction false} BindAnswers(s: State, e: nat, cb: nat, arg: int, alloc: bool)
    requires Held(s) && e < |s.lists|
    ensures var r, a := DoBind(s, e, cb, arg, alloc), Bind(e, cb, arg, alloc);
            Answers(s, r, Asked(s.log, a)) && Alike(After(s.log, a), r.log)
  {
    var r := DoBind(s, e, cb, arg, alloc);
    assert ListHeld(s.lists[e], HeldBy(s.log, e));
    if r != s {
      BindHeld(s.lists[e], HeldBy(s.log, e), cb, arg, s.nextId);
    } else {
      assert Requests(s.log) + [] == Requests(s.log);
    }
  }

  lemma {:induction false} UnbindAnswers(s: State, e: nat, cb: nat)
    requires Held(s) && e < |s.lists| && !s.fault && !DoUnbind(s, e, cb).fault
    ensures var r, a := DoUnbind(s, e, cb), Unbind(e, cb);
            Answers(s, r, Asked(s.log, a)) && Alike(After(s.log, a), r.log)
  {
    var list, r := s.lists[e], DoUnbind(s, e, cb);
    assert ListHeld(list, HeldBy(s.log, e));
    if s.running == Some(e) {
      FlagsHeld(list, MarkUnbound(list, cb), HeldBy(s.log, e));
    } else {
      RemoveHeld(list, HeldBy(s.log, e), cb);
    }
  }

  lemma {:induction false} TriggerAnswers(s: State, e: nat, data: int, result: Option<ResultCb>, alloc: bool)
    requires Held(s) && e < |s.lists|
    ensures var r, a := Enqueue(s, e, data, result, alloc), Trigger(e, data, result, alloc);
            Answers(s, r, Asked(s.log, a)) && Alike(After(s.log, a), r.log)
  {
    var r, list, held := Enqueue(s, e, data, result, alloc), s.lists[e], HeldBy(s.log, e);
    assert Requests(s.log) + [] == Requests(s.log);
    assert ListHeld(list, held);
    assert list != [] ==> Listed(list, list[0].cb);
    assert list == [] ==> forall cb :: !Listed(list, cb);
    forall i | 0 <= i < |r.queue|
      ensures SavedThen(r, r.queue[i])
    {
      if i < |s.queue| {
        assert SavedThen(s, s.queue[i]);
      }
    }
  }

  lemma {:induction false} ActAnswers(s: State, a: Action)
    requires InRun(s) && Held(s) && !s.fault && !Act(s, a).fault
    ensures Answers(s, Act(s, a), Asked(s.log, a)) && Alike(After(s.log, a), Act(s, a).log)
  {
    match a
    case Bind(e, cb, arg, alloc) => BindAnswers(s, e, cb, arg, alloc);
    case Unbind(e, cb) => UnbindAnswers(s, e, cb);
    case Trigger(e, data, result, alloc) => TriggerAnswers(s, e, data, result, alloc);
    case Destroy =>
    case SetHandled(_) =>
      assert Requests(s.log) + [] == Requests(s.log);
  }

  lemma {:induction false} ScriptAnswers(s: State, script: seq<Action>)
    requires InRun(s) && Held(s) && !s.fault && !RunScript(s, script).fault
    ensures Answers(s, RunScript(s, script), AskedBy(s.log, script))
    decreases |script|
  {
    if script == [] {
      assert Requests(s.log) + [] == Requests(s.log);
    } else {
      var s1, rest := Act(s, script[0]), script[1..];
      if s1.fault {
        FaultStays(s1, rest);
      }
      ActAnswers(s, script[0]);
      ScriptAnswers(s1, rest);
      AlikeAsked(After(s.log, script[0]), s1.log, rest);
      BothAnswer(s, s1, RunScript(s1, rest), Asked(s.log, script[0]), AskedBy(s1.log, rest));
    }
  }

  lemma {:induction false} BothAnswer(s: State, s1: State, r: State, first: seq<Request>, more: seq<Request>)
    requires Answers(s, s1, first) && Answers(s1, r, more)
    ensures Answers(s, r, first + more)
  {
    assert Requests(s.log) + first + more == Requests(s.log) + (first + more);
  }

  // ---------- one moment, and a drain ----------

  /** Since `base`, the log has everything that the callbacks after the first `n` asked for. */
  ghost predicate Told(p: Program, s: State, n: nat, base: seq<Request>) {
    !s.fault ==>
      && Held(s) && n <= CallCount(s.log)
      && Requests(s.log) == base + AskedSince(p, n, s.log)
  }

  lemma {:induction false} InvokeTold(p: Program, s: State, x: Entry, n: nat, base: seq<Request>)
    requires InRun(s) && Told(p, s, n, base) && (x.Called? || x.Reported?)
    ensures Told(p, Invoke(p, s, x), n, base)
  {
    var r := Invoke(p, s, x);
    if !r.fault {
      FaultlessBefore(p, s, x);
      var s1 := s.(log := Then(s.log, x));
      EnteredHeld(s, x);
      ScriptAnswers(s1, p(s1.log));
      var asked := AskedBy(s1.log, p(s1.log));
      assert Requests(s1.log) == Requests(s.log) + [] == Requests(s.log);
      assert AskedSince(p, n, r.log) == AskedSince(p, n, s.log) + asked;
      assert base + AskedSince(p, n, s.log) + asked == base + (AskedSince(p, n, s.log) + asked);
    }
  }

  lemma {:induction false} FaultlessBefore(p: Program, s: State, x: Entry)
    requires InRun(s) && !Invoke(p, s, x).fault
    ensures !s.fault
  {
  }

  lemma {:induction false} EnteredHeld(s: State, x: Entry)
    requires Held(s) && (x.Called? || x.Reported?)
    ensures Held(s.(log := Then(s.log, x)))
  {
    var s1 := s.(log := Then(s.log, x));
    assert forall e :: HeldBy(s1.log, e) == HeldBy(s.log, e);
  }

  lemma {:induction false} CallsTold(p: Program, s: State, i: nat, n: nat, base: seq<Request>)
    requires InRun(s) && i <= |Current(s)| && Told(p, s, n, base)
    ensures Told(p, RunCalls(p, s, i), n, base)
    decreases NormalFrom(Current(s), i), |Current(s)| - i
  {
    if s.fault || i == |Current(s)| {
    } else if Current(s)[i].normal {
      var b, m, s1 := Current(s)[i], s.queue[0], CallAt(p, s, i);
      InvokeTold(p, s, Called(m.id, m.event, b.cb, b.arg), n, base);
      CallExtends(p, s, i);
      ExtendsKeepsNormal(Current(s), Current(s1), i + 1);
      CallsTold(p, s1, i + 1, n, base);
    } else {
      CallsTold(p, s, i + 1, n, base);
    }
  }

  lemma {:induction false} BeginTold(p: Program, s: State, n: nat, base: seq<Request>)
    requires Ready(s) && |s.queue| > 0 && s.queue[0].event < |s.lists| && Told(p, s, n, base)
    ensures Told(p, Begin(s), n, base)
  {
    var r, e := Begin(s), s.queue[0].event;
    if !r.fault {
      FlagsHeld(s.lists[e], MarkNormal(s.lists[e]), HeldBy(s.log, e));
      assert forall f :: HeldBy(r.log, f) == HeldBy(s.log, f);
      assert Requests(s.log) + [] == Requests(s.log);
      assert AskedSince(p, n, s.log) + [] == AskedSince(p, n, s.log);
    }
  }

  /** The sweep leaves in the running list what is in force. */
  lemma {:induction false} RetireTold(p: Program, s: State, n: nat, base: seq<Request>)
    requires InRun(s) && Told(p, s, n, base) && Lists(Retire(s))
    ensures Told(p, Retire(s), n, base)
  {
    var r, e := Retire(s), s.queue[0].event;
    if !s.fault {
      forall f | 0 <= f < |r.lists|
        ensures ListHeld(r.lists[f], HeldBy(r.log, f))
      {
        assert ListHeld(s.lists[f], HeldBy(s.log, f));
        if f == e {
          assert EventOk(r, e);
          ShownHeld(r.lists[e], Replay(r.log, e));
        }
      }
      assert Requests(s.log) + [] == Requests(s.log);
      assert AskedSince(p, n, s.log) + [] == AskedSince(p, n, s.log);
    }
  }

  lemma {:induction false} ShownHeld(list: seq<Binding>, m: map<nat, int>)
    requires Distinct(list) && Shows(list, m) && Idle(list)
    ensures ListHeld(list, m.Keys)
  {
    forall cb
      ensures cb in m <==> Listed(list, cb)
    {
      if cb in m {
        assert InForce(list, cb);
      }
    }
  }

  lemma {:induction false} MomentTold(p: Program, s: State, n: nat, base: seq<Request>)
    requires Ready(s) && !Quiet(s) && Inv(p, s, [], false) && Told(p, s, n, base)
    ensures Told(p, HandleMoment(p, s), n, base)
  {
    if !HandleMoment(p, s).fault {
      var b := Begin(s);
      var v := Serve(p, b);
      var start, m := StartIndex(Current(b), b.queue[0].saved), v.queue[0];
      BeginTold(p, s, n, base);
      if start.Some? {
        CallsTold(p, b, start.value, n, base);
      }
      if m.result.Some? {
        InvokeTold(p, v, Reported(m.id, m.event, m.result.value, m.handled), n, base);
      }
      MomentKeeps(p, s);
      RetireTold(p, Report(p, v), n, base);
    }
  }

  lemma {:induction false} DrainTold(p: Program, s: State, fuel: nat, n: nat, base: seq<Request>)
    requires (!s.fault ==> Ready(s)) && Inv(p, s, [], false) && Told(p, s, n, base)
    ensures Told(p, Drain(p, s, fuel), n, base)
  {
    var good := (x: State) => (!x.fault ==> Ready(x)) && Inv(p, x, [], false) && Told(p, x, n, base);
    forall x: State | good(x) && !Quiet(x)
      ensures Ready(x) && good(HandleMoment(p, x))
    {
      MomentKeeps(p, x);
      MomentTold(p, x, n, base);
    }
    DrainPreserves(p, s, fuel, good);
  }

  // ---------- a whole run ----------

  lemma {:induction false} FreesAskNothing(p: Program, log: Log, queue: seq<Moment>, n: nat)
    ensures var r := LogFrees(log, queue);
            && Requests(r) == Requests(log) && CallCount(r) == CallCount(log)
            && AskedSince(p, n, r) == AskedSince(p, n, log)
    decreases |queue|
  {
    if queue != [] {
      var next := Then(log, Freed(queue[0].id));
      assert Requests(log) + [] == Requests(log) && AskedSince(p, n, log) + [] == AskedSince(p, n, log);
      FreesAskNothing(p, next, queue[1..], n);
    }
  }

  lemma {:induction false} DisposeAsksNothing(p: Program, s: State, n: nat)
    ensures var r := Dispose(s);
            Requests(r.log) == Requests(s.log) && AskedSince(p, n, r.log) == AskedSince(p, n, s.log)
  {
    FreesAskNothing(p, s.log, s.queue, n);
    var log := LogFrees(s.log, s.queue);
    assert Requests(log) + [] == Requests(log) && AskedSince(p, n, log) + [] == AskedSince(p, n, log);
  }

  /** What holds after each operation: the log tells of everything that was asked for. */
  ghost predicate AllTold(p: Program, ops: seq<Op>) {
    var s := Run(p, ops);
    !s.fault ==>
      && (!s.destroyPending ==> Held(s))
      && Requests(s.log) == AllAsked(p, ops)
  }

  lemma {:induction false} AppTriggerTold(p: Program, w: State, e: nat, data: int, result: Option<ResultCb>, fuel: nat)
    requires Ready(w) && !w.fault && Held(w) && Inv(p, w, [], false) && e < |w.lists|
    ensures var r := Finish(Drain(p, Enqueue(w, e, data, result, true), fuel));
            !r.fault ==>
              && (!r.destroyPending ==> Held(r))
              && Requests(r.log)
              == Requests(w.log) + [ToTrigger(e, data, result)] + AskedSince(p, CallCount(w.log), r.log)
  {
    var s, n := Enqueue(w, e, data, result, true), CallCount(w.log);
    var base := Requests(w.log) + [ToTrigger(e, data, result)];
    TriggerAnswers(w, e, data, result, true);
    assert AskedSince(p, n, w.log) == [];
    EnqueueKeeps(p, w, e, data, result, true, [], false);
    DrainTold(p, s, fuel, n, base);
    DisposeAsksNothing(p, Drain(p, s, fuel), n);
  }

  lemma {:induction false} StepTold(p: Program, w: State, op: Op)
    requires Ready(w) && !w.fault && !w.destroyPending && Held(w) && Inv(p, w, [], false)
    ensures var r := Step(p, w, op);
            !r.fault ==>
              && (!r.destroyPending ==> Held(r))
              && Requests(r.log) == Requests(w.log) + AppAsked(w.log, op) + AskedSince(p, CallCount(w.log), r.log)
  {
    var r, asked := Step(p, w, op), Requests(w.log) + AppAsked(w.log, op);
    if !r.fault {
      assert AskedSince(p, CallCount(w.log), w.log) == [];
      assert asked + [] == asked && Requests(w.log) + [] == Requests(w.log);
      match op
      case CreateEvent(alloc) => CreateTold(p, w, alloc);
      case AppBind(e, cb, arg, alloc) => BindAnswers(w, e, cb, arg, alloc);
      case AppUnbind(e, cb) => UnbindAnswers(w, e, cb);
      case AppTrigger(e, data, result, alloc, fuel) =>
        if alloc { AppTriggerTold(p, w, e, data, result, fuel); }
      case AppDestroy =>
        DisposeAsksNothing(p, w.(destroyPending := true, log := Then(w.log, CloseRequested)), CallCount(w.log));
    }
  }

  lemma {:induction false} CreateTold(p: Program, w: State, alloc: bool)
    requires Ready(w) && !w.fault && !w.destroyPending && Held(w)
    ensures var r := Step(p, w, CreateEvent(alloc));
            Held(r) && Requests(r.log) == Requests(w.log) + AppAsked(w.log, CreateEvent(alloc))
            && CallCount(r.log) == CallCount(w.log)
  {
    var r := Step(p, w, CreateEvent(alloc));
    if alloc {
      forall e | 0 <= e < |r.lists|
        ensures ListHeld(r.lists[e], HeldBy(r.log, e))
      {
        if e < |w.lists| {
          assert ListHeld(w.lists[e], HeldBy(w.log, e));
        }
      }
    } else {
      assert Requests(w.log) + [] == Requests(w.log);
    }
  }

  lemma {:induction false} RunTold(p: Program, ops: seq<Op>)
    ensures AllTold(p, ops)
    decreases |ops|
  {
    if ops != [] {
      var before, op := ops[..|ops| - 1], ops[|ops| - 1];
      var w := Run(p, before);
      RunTold(p, before);
      RunKeeps(p, before);
      if !w.fault && !w.destroyPending {
        StepTold(p, w, op);
      }
    }
  }

  /**
   In every run without a fault the requests in the log are exactly those that were made,
   by the application and by the scripts of the callbacks, in the order in which they were
   made and with all their arguments.
   */
  lemma {:induction false} EveryRequestIsLogged(p: Program, ops: seq<Op>)
    requires !Run(p, ops).fault
    ensures Requests(Run(p, ops).log) == AllAsked(p, ops)
    ensures !Run(p, ops).destroyPending ==> |Run(p, ops).lists| == EventCount(Run(p, ops).log)
  {
    RunTold(p, ops);
  }

  // ---------- the lists, the calls and the moments are as asked ----------

  /** The callbacks bound to event `e`, with their arguments, if every request took effect at once. */
  function Wanted(asked: seq<Request>, e: nat): map<nat, int> {
    if asked == [] then map[]
    else
      var m := Wanted(asked[..|asked| - 1], e);
      match asked[|asked| - 1]
      case ToCreate(e') => if e' == e then map[] else m
      case ToBind(e', cb, arg) => if e' == e then m[cb := arg] else m
      case ToUnbind(e', cb) => if e' == e then m - {cb} else m
      case _ => m
  }

  lemma {:induction false} RequestsNext(log: Log)
    requires log.Then? && RequestOf(log.last) != []
    ensures var rs := Requests(log);
            rs != [] && rs[..|rs| - 1] == Requests(log.before) && [rs[|rs| - 1]] == RequestOf(log.last)
  {
    assert |RequestOf(log.last)| == 1;
  }

  lemma {:induction false} ReplayIsWanted(log: Log, e: nat)
    ensures Replay(log, e) == Wanted(Requests(log), e)
  {
    if log.Then? {
      ReplayIsWanted(log.before, e);
      if RequestOf(log.last) == [] {
        assert Requests(log.before) + [] == Requests(log.before);
      } else {
        RequestsNext(log);
      }
    }
  }

  /**
   After every run, an event's list is the map that results from applying all requests of
   the application and of the callbacks at once and in the order in which they were made.
   */
  lemma {:induction false} EveryListIsAsWanted(p: Program, ops: seq<Op>, e: nat)
    requires var s := Run(p, ops); !s.fault && !s.destroyPending && e < |s.lists|
    ensures Table(Run(p, ops).lists[e]) == Wanted(AllAsked(p, ops), e)
  {
    DeferredRefinesImmediate(p, ops, e);
    RunTold(p, ops);
    ReplayIsWanted(Run(p, ops).log, e);
  }

  /** The argument that the last request to bind `cb` to event `e` gave. */
  function LastArg(asked: seq<Request>, e: nat, cb: nat): Option<int> {
    if asked == [] then None
    else
      match asked[|asked| - 1]
      case ToBind(e', cb', arg) =>
        if e' == e && cb' == cb then Some(arg) else LastArg(asked[..|asked| - 1], e, cb)
      case _ => LastArg(asked[..|asked| - 1], e, cb)
  }

  lemma {:induction false} LastArgNext(asked: seq<Request>, more: seq<Request>, e: nat, cb: nat)
    requires |more| <= 1
    ensures LastArg(asked + more, e, cb)
         == if more != [] && more[0].ToBind? && more[0].event == e && more[0].cb == cb then Some(more[0].arg)
            else LastArg(asked, e, cb)
  {
    if more == [] {
      assert asked + more == asked;
    } else {
      assert (asked + more)[..|asked|] == asked;
    }
  }

  function ArgOf(args: map<nat, int>, cb: nat): Option<int> {
    if cb in args then Some(args[cb]) else None
  }

  lemma {:induction false} ArgOfNext(log: Log, e: nat, cb: nat)
    requires log.Then?
    ensures var more := RequestOf(log.last);
            |more| <= 1 && ArgOf(Args(log, e), cb)
            == if more != [] && more[0].ToBind? && more[0].event == e && more[0].cb == cb then Some(more[0].arg)
               else ArgOf(Args(log.before, e), cb)
  {
  }

  lemma {:induction false} ArgsAreLast(log: Log, e: nat, cb: nat)
    ensures LastArg(Requests(log), e, cb) == ArgOf(Args(log, e), cb)
  {
    if log.Then? {
      ArgsAreLast(log.before, e, cb);
      ArgOfNext(log, e, cb);
      LastArgNext(Requests(log.before), RequestOf(log.last), e, cb);
    }
  }

  /** The requests to trigger. */
  function Orders(asked: seq<Request>): seq<Request> {
    if asked == [] then []
    else Orders(asked[..|asked| - 1]) + if asked[|asked| - 1].ToTrigger? then [asked[|asked| - 1]] else []
  }

  lemma {:induction false} OrdersNext(log: Log)
    requires log.Then?
    ensures Orders(Requests(log))
         == Orders(Requests(log.before)) + if log.last.Triggered? then RequestOf(log.last) else []
  {
    if RequestOf(log.last) == [] {
      assert Requests(log.before) + [] == Requests(log.before);
    } else {
      RequestsNext(log);
    }
    assert Orders(Requests(log.before)) + [] == Orders(Requests(log.before));
  }

  /** Moment `id` is the `k`-th one triggered, and was ordered with this data and result callback. */
  predicate Ordered(log: Log, id: nat, e: nat, data: int, result: Option<ResultCb>, k: nat) {
    && k < |Triggers(log)| && k < |Orders(Requests(log))|
    && Triggers(log)[k] == id && Orders(Requests(log))[k] == ToTrigger(e, data, result)
  }

  lemma {:induction false} OrdersCounted(log: Log)
    ensures |Orders(Requests(log))| == |Triggers(log)|
  {
    if log.Then? {
      OrdersCounted(log.before);
      OrdersNext(log);
    }
  }

  lemma {:induction false} TriggerOrdered(log: Log, id: nat) returns (k: nat)
    requires TriggerOf(log, id).Some?
    ensures var x := TriggerOf(log, id).value; Ordered(log, id, x.event, x.data, x.asked, k)
  {
    OrdersNext(log);
    OrdersCounted(log.before);
    if log.last.Triggered? && log.last.id == id {
      k := |Triggers(log.before)|;
    } else {
      k := TriggerOrdered(log.before, id);
    }
  }

  /**
   Each callback is called with the argument of the last request to bind it; each moment
   starts with the event, data and result callback of the request that made it, and the
   k-th moment triggered is that of the k-th such request.
   */
  ghost predicate AsAsked(log: Log) {
    log.Empty? || (
      && AsAsked(log.before)
      && var before := log.before;
         match log.last
         case Called(_, e, cb, arg) => LastArg(Requests(before), e, cb) == Some(arg)
         case Started(id, e, data, _, result) => exists k :: Ordered(before, id, e, data, result, k)
         case _ => true)
  }

  lemma {:induction false} TruthfulIsAsAsked(p: Program, log: Log)
    requires Truthful(p, log)
    ensures AsAsked(log)
  {
    if log.Then? {
      TruthfulIsAsAsked(p, log.before);
      match log.last
      case Called(_, e, cb, _) => ArgsAreLast(log.before, e, cb);
      case Started(id, _, _, _, _) => var k := TriggerOrdered(log.before, id);
      case _ =>
    }
  }

  /** In every run the moments and the calls are as the requests that were really made ask for. */
  lemma {:induction false} EveryRunIsAsAsked(p: Program, ops: seq<Op>)
    requires !Run(p, ops).fault
    ensures AsAsked(Run(p, ops).log) && Requests(Run(p, ops).log) == AllAsked(p, ops)
  {
    RunTold(p, ops);
    EveryRunIsTruthful(p, ops);
    TruthfulIsAsAsked(p, Run(p, ops).log);
  }

  // ---------- which moments miss their list ----------

  lemma {:induction false} BetweenHeld(p: Program, s: State)
    requires Between(p, s) && !s.fault
    ensures Held(s)
  {
    var ops: seq<Op>, e: nat, data: int, result: Option<ResultCb>, fuel: nat :|
      var w := Run(p, ops);
      !w.fault && !w.destroyPending && e < |w.lists| && s == Drain(p, Enqueue(w, e, data, result, true), fuel);
    var w := Run(p, ops);
    var base := Requests(w.log) + [ToTrigger(e, data, result)];
    RunTold(p, ops);
    RunKeeps(p, ops);
    TriggerAnswers(w, e, data, result, true);
    EnqueueKeeps(p, w, e, data, result, true, [], false);
    DrainTold(p, Enqueue(w, e, data, result, true), fuel, CallCount(w.log), base);
  }

  /**
   Within the usage rules, a moment calls its whole list if and only if some callback was
   bound to its event when it was triggered, or none is when it starts: the application
   misses nothing but first bindings that come after the trigger.
   */
  lemma {:induction false} ListIsMissedIffBoundLate(p: Program, s: State)
    requires Between(p, s) && !Quiet(s) && Ready(s) && !s.misuse && !HandleMoment(p, s).fault
    ensures var m := s.queue[0];
            && m.event < |s.lists|
            && (CallsFor(HandleMoment(p, s).log, m.id) == Cbs(s.lists[m.event]) <==>
                HeldBy(TriggeredAt(s.log, m.id), m.event) != {} || s.lists[m.event] == [])
  {
    EveryMomentCallsItsListIff(p, s);
    MissedOnlyIfEmptyBefore(p, s);
    BetweenHeld(p, s);
    assert SavedThen(s, s.queue[0]);
  }

  // ---------- single requests ----------

  lemma {:induction false} TableAt(list: seq<Binding>, c: nat)
    requires Distinct(list)
    ensures c in Table(list) <==> Listed(list, c)
    ensures Listed(list, c) ==> Table(list)[c] == list[IndexOfCb(list, c)].arg
  {
    TableMembers(list);
  }

  /** What binding does to the list for callback `c`. */
  lemma {:induction false} BoundAt(list: seq<Binding>, cb: nat, arg: int, id: nat, c: nat)
    requires Distinct(list) && forall i :: 0 <= i < |list| ==> list[i].id < id
    ensures var r := BindIn(list, cb, arg, id);
            && Distinct(r) && (Listed(r, c) <==> c == cb || Listed(list, c))
            && (Listed(r, c) ==> r[IndexOfCb(r, c)].arg == if c == cb then arg else list[IndexOfCb(list, c)].arg)
  {
    var r, at := BindIn(list, cb, arg, id), IndexOfCb(list, cb);
    var i, k := IndexOfCb(list, c), IndexOfCb(r, c);
    assert r[at].cb == cb;
    assert forall j :: 0 <= j < |list| && j != at ==> r[j] == list[j];
    if c == cb {
      assert k == at;
    } else if i < |list| {
      assert k == i;
    }
  }

  lemma {:induction false} TableBound(list: seq<Binding>, cb: nat, arg: int, id: nat)
    requires Distinct(list) && forall i :: 0 <= i < |list| ==> list[i].id < id
    ensures Table(BindIn(list, cb, arg, id)) == Table(list)[cb := arg]
  {
    var r := BindIn(list, cb, arg, id);
    forall c
      ensures c in Table(r) <==> c in Table(list)[cb := arg]
      ensures c in Table(r) ==> Table(r)[c] == Table(list)[cb := arg][c]
    {
      BoundAt(list, cb, arg, id, c);
      TableAt(list, c);
      TableAt(r, c);
    }
  }

  /** From `s` to `r` callback `cb` was bound to event `e` with `arg`, or could not be. */
  ghost predicate Binds(s: State, r: State, e: nat, cb: nat, arg: int, alloc: bool)
    requires e < |s.lists|
  {
    && !r.fault && |r.lists| == |s.lists|
    && (forall f :: 0 <= f < |s.lists| && f != e ==> r.lists[f] == s.lists[f])
    && Table(r.lists[e]) == if alloc || cb in Cbs(s.lists[e]) then Table(s.lists[e])[cb := arg] else Table(s.lists[e])
  }

  /**
   A call that binds, by the application or by a callback, changes the argument map of its
   event at its callback and no other event, if there is memory or the callback is listed.
   */
  lemma {:induction false} BindSetsArgument(p: Program, s: State, e: nat, cb: nat, arg: int, alloc: bool)
    requires !s.fault && !s.destroyPending && Lists(s) && e < |s.lists|
    ensures Ready(s) ==> Binds(s, Step(p, s, AppBind(e, cb, arg, alloc)), e, cb, arg, alloc)
    ensures InRun(s) ==> Binds(s, Act(s, Bind(e, cb, arg, alloc)), e, cb, arg, alloc)
  {
    assert EventOk(s, e);
    TableBound(s.lists[e], cb, arg, s.nextId);
    var list, at := s.lists[e], IndexOfCb(s.lists[e], cb);
    assert cb in Cbs(list) <==> at < |list| by {
      if at < |list| {
        assert Cbs(list)[at] == cb;
      }
    }
  }

  /**
   A callback that triggers appends one moment, with the event, data and result callback
   given and the head of the event's list, and changes nothing else that is seen.
   */
  lemma {:induction false} TriggerAppends(s: State, e: nat, data: int, result: Option<ResultCb>)
    requires InRun(s) && !s.fault && e < |s.lists|
    ensures var r := Act(s, Trigger(e, data, result, true));
            && !r.fault && |r.queue| == |s.queue| + 1 && r.queue[..|s.queue|] == s.queue
            && r.lists == s.lists && r.destroyPending == s.destroyPending
            && var m := r.queue[|s.queue|];
               && m.event == e && m.data == data && m.result == result && !m.handled
               && m.saved == (if s.lists[e] == [] then None else Some(s.lists[e][0].id))
  {
  }
}
