/**
 Concrete runs of the dispatcher in which things go wrong, each with the callbacks that
 make them so.
 */
module EventRuns {
  import opened Options
  import opened EventModel
  import opened EventLaws
  import opened EventTheorems

  /** Every call of callback `cb` runs `script`; other callbacks do nothing. */
  function Only(cb: nat, script: seq<Action>): Program {
    (log: Log) => if log.Then? && log.last.Called? && log.last.cb == cb then script else []
  }

  lemma {:induction false} ScriptOfTwo(s: State, a: Action, b: Action)
    requires InRun(s)
    ensures RunScript(s, [a, b]) == Act(Act(s, a), b)
  {
    var s1 := Act(s, a);
    assert [a, b][1..] == [b] && [b][1..] == [];
    assert RunScript(Act(s1, b), []) == Act(s1, b);
    assert RunScript(s1, [b]) == Act(s1, b);
  }

  /** The head's callback has been called, and has made two calls. */
  function Answered(s: State, a: Action, b: Action): (r: State)
    requires InRun(s) && Current(s) != []
    ensures SameRun(s, r)
  {
    var m, x := s.queue[0], Current(s)[0];
    Act(Act(s.(log := Then(s.log, Called(m.id, m.event, x.cb, x.arg))), a), b)
  }

  lemma {:induction false} CallOfTwo(s: State, a: Action, b: Action)
    requires InRun(s) && !s.fault && Current(s) != []
    ensures var p, r := Only(Current(s)[0].cb, [a, b]), Answered(s, a, b);
            CallAt(p, s, 0) == WithHandled(r, s.queue[0].handled || r.queue[0].handled)
  {
    var m, x := s.queue[0], Current(s)[0];
    ScriptOfTwo(s.(log := Then(s.log, Called(m.id, m.event, x.cb, x.arg))), a, b);
  }

  /** The loop over a list of one binding, which is called and leaves no other behind it. */
  lemma {:induction false} OneCall(p: Program, s: State)
    requires InRun(s) && !s.fault && |Current(s)| == 1 && Current(s)[0].normal
    requires |Current(CallAt(p, s, 0))| == 1
    ensures RunCalls(p, s, 0) == CallAt(p, s, 0)
  {
    var after := CallAt(p, s, 0);
    assert RunCalls(p, after, 1) == after;
  }

  /** A moment with one binding, whose callback makes two calls. */
  lemma {:induction false} TwoCalls(a: Action, b: Action, s: State)
    requires Ready(s) && !Quiet(s) && s.queue[0].event < |s.lists| && s.queue[0].result.None?
    requires var list := s.lists[s.queue[0].event];
             |list| == 1 && s.queue[0].saved == Some(list[0].id)
    requires !Begin(s).fault && |Current(Answered(Begin(s), a, b))| == 1
    ensures var p, m := Only(s.lists[s.queue[0].event][0].cb, [a, b]), s.queue[0];
            var r := Answered(Begin(s), a, b);
            HandleMoment(p, s) == Retire(WithHandled(r, m.handled || r.queue[0].handled))
  {
    var p, m, g := Only(s.lists[s.queue[0].event][0].cb, [a, b]), s.queue[0], Begin(s);
    CallOfTwo(g, a, b);
    OneCall(p, g);
    assert StartIndex(Current(g), m.saved) == Some(0);
    assert Serve(p, g) == CallAt(p, g, 0);
  }

  /** The dispatcher with `n` events, the first of which has one binding. */
  function Prepared(n: nat): seq<Op>
    requires 1 <= n <= 2
  {
    (if n == 1 then [CreateEvent(true)] else [CreateEvent(true), CreateEvent(true)]) + [AppBind(0, 7, 0, true)]
  }

  lemma {:induction false} PreparedRun(p: Program, n: nat)
    requires 1 <= n <= 2
    ensures var w := Run(p, Prepared(n));
            && w.lists == [[Binding(0, 7, 0, false, false)]] + (if n == 1 then [] else [[]])
            && w.queue == [] && w.running.None? && w.nextId == 1
            && !w.destroyPending && !w.fault && !w.misuse
  {
    var ops := Prepared(n);
    assert Run(p, []) == EMPTY;
    assert ops[..1] == [CreateEvent(true)] && ops[..1][..0] == [];
    assert Run(p, ops[..1]) == Step(p, EMPTY, CreateEvent(true));
    if n == 2 {
      assert ops[..2][..1] == ops[..1];
      assert Run(p, ops[..2]) == Step(p, Run(p, ops[..1]), CreateEvent(true));
    }
    assert ops[..n + 1] == ops && ops[..n + 1][..n] == ops[..n];
    assert Run(p, ops) == Step(p, Run(p, ops[..n]), AppBind(0, 7, 0, true));
    assert BindIn([], 7, 0, 0) == [Binding(0, 7, 0, false, false)];
  }

  /** The first event is triggered, and its moment is about to start. */
  ghost predicate Opening(s: State, n: nat)
    requires 1 <= n <= 2
  {
    && s.lists == [[Binding(0, 7, 0, false, false)]] + (if n == 1 then [] else [[]])
    && s.queue == [Moment(1, 0, 0, Some(0), None, false)]
    && s.running.None? && s.nextId == 2 && !s.destroyPending && !s.fault && !s.misuse
  }

  /** What the first callback finds when it is called. */
  lemma {:induction false} FirstCall(s: State, n: nat)
    requires 1 <= n <= 2 && Opening(s, n)
    ensures var g := Begin(s);
            && !g.fault && !g.misuse && !g.destroyPending && g.nextId == 2
            && g.queue == s.queue && g.running == Some(0)
            && g.lists == [[Binding(0, 7, 0, false, true)]] + (if n == 1 then [] else [[]])
  {
    HeadFound(s.lists[0], Some(0));
    assert MarkNormal(s.lists[0]) == [Binding(0, 7, 0, false, true)];
  }

  lemma {:induction false} Opened(p: Program, n: nat) returns (w: State, s: State)
    requires 1 <= n <= 2
    ensures w == Run(p, Prepared(n)) && |w.lists| == n && !w.fault && !w.destroyPending
    ensures s == Enqueue(w, 0, 0, None, true) && Opening(s, n)
  {
    PreparedRun(p, n);
    w := Run(p, Prepared(n));
    s := Enqueue(w, 0, 0, None, true);
  }

  // ---------- a freed head is followed ----------

  /**
   A callback triggers its own event again and unbinds itself.  The new moment has saved
   a head that is flagged, and freed before the moment starts.
   */
  lemma {:induction false} StaleHead(s: State)
    requires Opening(s, 1)
    ensures var p := Only(7, [Trigger(0, 0, None, true), Unbind(0, 7)]);
            var h := HandleMoment(p, s);
            && !h.fault && Ready(h) && !Quiet(h) && h.lists == [[]]
            && h.queue == [Moment(2, 0, 0, Some(0), None, false)] && HandleMoment(p, h).fault
  {
    var p := Only(7, [Trigger(0, 0, None, true), Unbind(0, 7)]);
    FirstCall(s, 1);
    var r := Answered(Begin(s), Trigger(0, 0, None, true), Unbind(0, 7));
    assert MarkUnbound([Binding(0, 7, 0, false, true)], 7) == [Binding(0, 7, 0, true, true)];
    assert r.lists == [[Binding(0, 7, 0, true, true)]];
    assert r.queue == [Moment(1, 0, 0, Some(0), None, false), Moment(2, 0, 0, Some(0), None, false)];
    assert Sweep([Binding(0, 7, 0, true, true)]) == [];
    TwoCalls(Trigger(0, 0, None, true), Unbind(0, 7), s);
  }

  /** The run in which it happens, on one event with one binding. */
  lemma {:induction false} StaleHeadRun()
    ensures var p := Only(7, [Trigger(0, 0, None, true), Unbind(0, 7)]);
            Run(p, Prepared(1) + [AppTrigger(0, 0, None, true, 2)]).fault
  {
    var p := Only(7, [Trigger(0, 0, None, true), Unbind(0, 7)]);
    var ops := Prepared(1) + [AppTrigger(0, 0, None, true, 2)];
    var w, s := Opened(p, 1);
    StaleHead(s);
    assert ops[..|ops| - 1] == Prepared(1);
    var h := HandleMoment(p, s);
    DrainUnrolls(p, s, h, 2);
    DrainUnrolls(p, h, HandleMoment(p, h), 1);
    DrainDone(p, HandleMoment(p, h), 0);
  }

  // ---------- the running list is run off ----------

  /** The run in which a callback sets handled and unbinds a callback that was never bound. */
  lemma {:induction false} RunOffRun()
    ensures var p := Only(7, [SetHandled(true), Unbind(0, 8)]);
            Run(p, Prepared(1) + [AppTrigger(0, 0, None, true, 1)]).fault
  {
    var p := Only(7, [SetHandled(true), Unbind(0, 8)]);
    var ops := Prepared(1) + [AppTrigger(0, 0, None, true, 1)];
    var w, s := Opened(p, 1);
    FirstCall(s, 1);
    var r := Answered(Begin(s), SetHandled(true), Unbind(0, 8));
    assert r.fault && Current(r) == [Binding(0, 7, 0, false, true)];
    TwoCalls(SetHandled(true), Unbind(0, 8), s);
    assert ops[..|ops| - 1] == Prepared(1);
    var h := HandleMoment(p, s);
    DrainUnrolls(p, s, h, 1);
    DrainDone(p, h, 0);
  }

  // ---------- a late binding is missed ----------

  lemma {:induction false} LateBinding(s: State)
    requires Opening(s, 2)
    ensures var p := Only(7, [Trigger(1, 0, None, true), Bind(1, 8, 0, true)]);
            var h := HandleMoment(p, s);
            && !h.fault && !h.misuse && Ready(h) && !Quiet(h)
            && h.lists[1..] == [[Binding(3, 8, 0, false, false)]]
            && h.queue == [Moment(2, 1, 0, None, None, false)]
            && !HandleMoment(p, h).fault
  {
    var p := Only(7, [Trigger(1, 0, None, true), Bind(1, 8, 0, true)]);
    FirstCall(s, 2);
    var r := Answered(Begin(s), Trigger(1, 0, None, true), Bind(1, 8, 0, true));
    assert BindIn([], 8, 0, 3) == [Binding(3, 8, 0, false, false)];
    assert r.lists == [[Binding(0, 7, 0, false, true)], [Binding(3, 8, 0, false, false)]];
    assert r.queue == [Moment(1, 0, 0, Some(0), None, false), Moment(2, 1, 0, None, None, false)];
    TwoCalls(Trigger(1, 0, None, true), Bind(1, 8, 0, true), s);
    var h := HandleMoment(p, s);
    HeadFound(h.lists[1], None);
  }

  /**
   A run within the usage rules: a callback triggers the second event, whose list is
   empty, and then binds to it.  When the moment starts, the binding is there, but it is
   not called.
   */
  lemma {:induction false} LateBindingIsMissed()
    ensures var p := Only(7, [Trigger(1, 0, None, true), Bind(1, 8, 0, true)]);
            exists s: State ::
              && Between(p, s) && !s.misuse && !Quiet(s) && Ready(s) && !HandleMoment(p, s).fault
              && |s.lists| == 2 && s.queue[0].event == 1 && Cbs(s.lists[1]) == [8]
              && CallsFor(HandleMoment(p, s).log, s.queue[0].id) == []
  {
    var p := Only(7, [Trigger(1, 0, None, true), Bind(1, 8, 0, true)]);
    var w, s := Opened(p, 2);
    LateBinding(s);
    var h := HandleMoment(p, s);
    DrainUnrolls(p, s, h, 1);
    DrainDone(p, h, 0);
    assert h == Drain(p, Enqueue(Run(p, Prepared(2)), 0, 0, None, true), 1);
    assert Between(p, h);
    EveryMomentCallsItsListIff(p, h);
  }
}
