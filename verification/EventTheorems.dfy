/**
 The main results about the event dispatcher, for every program of callbacks and every
 sequence of application calls.
 */
module EventTheorems {
  import opened Options
  import opened EventModel
  import opened EventLaws

  // ---------- order, exactly-once and deferred destruction ----------

  function Triggers(log: Log): seq<nat> {
    if log.Empty? then []
    else Triggers(log.before) + (if log.last.Triggered? then [log.last.id] else [])
  }

  function Starts(log: Log): seq<nat> {
    if log.Empty? then []
    else Starts(log.before) + (if log.last.Started? then [log.last.id] else [])
  }

  function FreesOf(log: Log): seq<nat> {
    if log.Empty? then []
    else FreesOf(log.before) + (if log.last.Freed? then [log.last.id] else [])
  }

  predicate CloseAsked(log: Log) {
    log.Then? && (log.last.CloseRequested? || CloseAsked(log.before))
  }

  /** The callbacks moment `id` was to call, and those it has called, in order. */
  function ListedFor(log: Log, id: nat): seq<nat> {
    if log.Empty? then []
    else if log.last.Started? && log.last.id == id then log.last.listed
    else ListedFor(log.before, id)
  }

  function CallsFor(log: Log, id: nat): seq<nat> {
    if log.Empty? then []
    else CallsFor(log.before, id) + (if log.last.Called? && log.last.id == id then [log.last.cb] else [])
  }

  /** The result callback that moment `id` owed, and the ones it has called. */
  function OwedBy(log: Log, id: nat): seq<ResultCb> {
    if log.Empty? then []
    else if log.last.Started? && log.last.id == id then (if log.last.asked.Some? then [log.last.asked.value] else [])
    else OwedBy(log.before, id)
  }

  function ReportsOf(log: Log, id: nat): seq<ResultCb> {
    if log.Empty? then []
    else ReportsOf(log.before, id) + (if log.last.Reported? && log.last.id == id then [log.last.result] else [])
  }

  /**
   At every point of the log: a moment starts only when all earlier ones are freed, in
   trigger order, and not after a destroy request; a started moment is freed only when
   it has made exactly its calls and its report, if it owes one, after all of them;
   nothing follows the end.
   */
  predicate Orderly(log: Log) {
    log.Empty? || (
      && Orderly(log.before)
      && Starts(log) <= Triggers(log)
      && FreesOf(log) <= Triggers(log)
      && (log.before.Then? ==> !log.before.last.Ended?)
      && InOrder(log.before, log.last))
  }

  /** The last entry comes at the right time. */
  predicate InOrder(before: Log, x: Entry) {
    var log := Then(before, x);
    match x
    case Started(id, _, _, _, _) => !CloseAsked(before) && Starts(before) == FreesOf(before)
    case Reported(id, _, _, _) => CallsFor(log, id) == ListedFor(log, id)
    case Freed(id) =>
      id in Starts(log) ==> CallsFor(log, id) == ListedFor(log, id) && ReportsOf(log, id) == OwedBy(log, id)
    case Ended => CloseAsked(before) && FreesOf(log) == Triggers(log)
    case _ => true
  }

  /** What the automaton's fields mean in terms of the log. */
  ghost predicate Reads(log: Log, w: Monitor) {
    && w.triggered == Triggers(log)
    && w.freed == FreesOf(log)
    && w.closing == CloseAsked(log)
    && (w.ended <==> log.Then? && log.last.Ended?)
    && Starts(log) <= w.freed + InHand(w)
    && (!w.closing || w.current.Some? ==> Starts(log) == w.freed + InHand(w))
  }

  lemma {:induction false} NextReads(log: Log, x: Entry)
    requires Watch(log).Some? && Next(Watch(log).value, x).Some?
    requires Reads(log, Watch(log).value)
    ensures Reads(Then(log, x), Next(Watch(log).value, x).value)
  {
  }

  ghost predicate Serves(log: Log, w: Monitor, id: nat) {
    && (id in w.freed && id in Starts(log) ==>
          CallsFor(log, id) == ListedFor(log, id) && ReportsOf(log, id) == OwedBy(log, id))
    && (w.current == Some(id) ==>
          && CallsFor(log, id) + w.todo == ListedFor(log, id)
          && OwedBy(log, id) == (if w.owed.Some? then [w.owed.value] else [])
          && ReportsOf(log, id) == (if w.reported then OwedBy(log, id) else []))
    && (id !in Starts(log) ==> CallsFor(log, id) == [] && ListedFor(log, id) == [] && ReportsOf(log, id) == [])
  }

  lemma {:induction false} InHandOnly(w: Monitor, id: nat)
    requires Conserved(w)
    ensures w.current == Some(id) ==> id !in w.freed && id !in w.waiting
    ensures w.waiting != [] && w.waiting[0] == id ==> id !in w.freed && w.current != Some(id)
  {
    var at := |w.freed|;
    forall i | 0 <= i < |w.freed|
      ensures w.current.Some? ==> w.freed[i] != w.current.value
      ensures w.waiting != [] ==> w.freed[i] != w.waiting[0]
    {
      assert w.triggered[i] == w.freed[i];
      assert w.current.Some? ==> w.triggered[at] == w.current.value;
      assert w.waiting != [] ==> w.triggered[at + |InHand(w)|] == w.waiting[0];
    }
    if w.current.Some? {
      CurrentNotWaiting(w);
    }
  }

  lemma {:induction false} CurrentStarted(log: Log, w: Monitor, id: nat)
    requires Reads(log, w) && w.current == Some(id)
    ensures id in Starts(log)
  {
    assert Starts(log)[|w.freed|] == id;
  }

  lemma TakeFirst(calls: seq<nat>, todo: seq<nat>)
    requires todo != []
    ensures calls + [todo[0]] + todo[1..] == calls + todo
  {
  }

  lemma {:induction false} CallServes(log: Log, x: Entry)
    requires Watch(log).Some? && Next(Watch(log).value, x).Some? && x.Called?
    requires Conserved(Watch(log).value) && Reads(log, Watch(log).value) && Serves(log, Watch(log).value, x.id)
    ensures Serves(Then(log, x), Next(Watch(log).value, x).value, x.id)
  {
    var w, id := Watch(log).value, x.id;
    assert id !in w.freed by {
      InHandOnly(w, id);
    }
    assert id in Starts(log) by {
      CurrentStarted(log, w, id);
    }
    CallReads(log, x);
    TakeFirst(CallsFor(log, id), w.todo);
  }

  /** What a call changes in the accounts of its moment. */
  lemma {:induction false} CallReads(log: Log, x: Entry)
    requires x.Called?
    ensures var r := Then(log, x);
            && Starts(r) == Starts(log) && CallsFor(r, x.id) == CallsFor(log, x.id) + [x.cb]
            && ListedFor(r, x.id) == ListedFor(log, x.id)
            && ReportsOf(r, x.id) == ReportsOf(log, x.id) && OwedBy(r, x.id) == OwedBy(log, x.id)
  {
    assert Starts(log) + [] == Starts(log);
    assert ReportsOf(log, x.id) + [] == ReportsOf(log, x.id);
  }

  /** A call or report of another moment, or an entry about no moment, leaves its accounts alone. */
  lemma {:induction false} OtherServes(log: Log, x: Entry, id: nat)
    requires Watch(log).Some? && Next(Watch(log).value, x).Some?
    requires if x.Called? || x.Reported? then x.id != id else !x.Started? && !x.Freed?
    requires Serves(log, Watch(log).value, id)
    ensures Serves(Then(log, x), Next(Watch(log).value, x).value, id)
  {
    assert CallsFor(log, id) + [] == CallsFor(log, id) && ReportsOf(log, id) + [] == ReportsOf(log, id);
  }

  lemma {:induction false} StartServes(log: Log, x: Entry, id: nat)
    requires Watch(log).Some? && Next(Watch(log).value, x).Some? && x.Started?
    requires Conserved(Watch(log).value) && Reads(log, Watch(log).value) && Serves(log, Watch(log).value, id)
    ensures Serves(Then(log, x), Next(Watch(log).value, x).value, id)
  {
    var w := Watch(log).value;
    InHandOnly(w, id);
    InHandOnly(w, x.id);
    assert Starts(log) == w.freed + [];
    assert [] + x.listed == x.listed;
  }

  lemma {:induction false} FreeServes(log: Log, x: Entry, id: nat)
    requires Watch(log).Some? && Next(Watch(log).value, x).Some? && x.Freed?
    requires Conserved(Watch(log).value) && Reads(log, Watch(log).value) && Serves(log, Watch(log).value, id)
    ensures Serves(Then(log, x), Next(Watch(log).value, x).value, id)
  {
    var w := Watch(log).value;
    InHandOnly(w, id);
    assert CallsFor(log, id) + [] == CallsFor(log, id);
    if w.current.None? && id == x.id {
      assert w.freed + InHand(w) == w.freed;
      assert id !in Starts(log);
    }
  }

  lemma {:induction false} ReportServes(log: Log, x: Entry, id: nat)
    requires Watch(log).Some? && Next(Watch(log).value, x).Some? && x.Reported?
    requires Conserved(Watch(log).value) && Reads(log, Watch(log).value) && Serves(log, Watch(log).value, id)
    ensures Serves(Then(log, x), Next(Watch(log).value, x).value, id)
  {
    var w := Watch(log).value;
    InHandOnly(w, id);
    assert Starts(log)[|Starts(log)| - 1] == x.id;
    assert CallsFor(log, id) + [] == CallsFor(log, id) && ReportsOf(log, id) + [] == ReportsOf(log, id);
    assert [] + [x.result] == [x.result];
  }

  lemma {:induction false} NextServes(log: Log, x: Entry, id: nat)
    requires Watch(log).Some? && Next(Watch(log).value, x).Some?
    requires Conserved(Watch(log).value) && Reads(log, Watch(log).value) && Serves(log, Watch(log).value, id)
    ensures Serves(Then(log, x), Next(Watch(log).value, x).value, id)
  {
    match x
    case Started(_, _, _, _, _) => StartServes(log, x, id);
    case Called(_, _, _, _) => if id == x.id { CallServes(log, x); } else { OtherServes(log, x, id); }
    case Freed(_) => FreeServes(log, x, id);
    case Reported(_, _, _, _) => ReportServes(log, x, id);
    case _ => OtherServes(log, x, id);
  }

  /** Everything the automaton accepts is orderly. */
  lemma {:induction false} WatchedIsOrderly(log: Log)
    requires Watch(log).Some?
    ensures Orderly(log) && Reads(log, Watch(log).value) && Conserved(Watch(log).value)
    ensures forall id :: Serves(log, Watch(log).value, id)
  {
    if log.Then? {
      var w := Watch(log.before).value;
      WatchedIsOrderly(log.before);
      NextReads(log.before, log.last);
      NextConserves(w, log.last);
      forall id
        ensures Serves(log, Watch(log).value, id)
      {
        NextServes(log.before, log.last, id);
      }
      EntryInOrder(log);
    }
  }

  lemma {:induction false} EntryInOrder(log: Log)
    requires log.Then? && Watch(log).Some? && Orderly(log.before)
    requires Reads(log.before, Watch(log.before).value) && Conserved(Watch(log.before).value)
    requires Reads(log, Watch(log).value) && Conserved(Watch(log).value)
    requires forall id :: Serves(log, Watch(log).value, id)
    ensures Orderly(log)
  {
    PrefixesOfTriggers(log, Watch(log).value);
    if log.last.Freed? {
      FreedInOrder(log);
    } else if log.last.Reported? {
      ReportedInOrder(log);
    }
  }

  lemma {:induction false} PrefixesOfTriggers(log: Log, w: Monitor)
    requires Reads(log, w) && Conserved(w)
    ensures Starts(log) <= Triggers(log) && FreesOf(log) <= Triggers(log)
  {
    assert w.triggered == (w.freed + InHand(w)) + w.waiting;
  }

  lemma {:induction false} FreedInOrder(log: Log)
    requires log.Then? && Watch(log).Some? && log.last.Freed? && Serves(log, Watch(log).value, log.last.id)
    ensures InOrder(log.before, log.last)
  {
    var r := Watch(log).value;
    assert r.freed[|r.freed| - 1] == log.last.id;
  }

  lemma {:induction false} ReportedInOrder(log: Log)
    requires log.Then? && Watch(log).Some? && log.last.Reported? && Serves(log, Watch(log).value, log.last.id)
    ensures InOrder(log.before, log.last)
  {
    assert CallsFor(log, log.last.id) + [] == CallsFor(log, log.last.id);
  }

  /**
   Moments start in the order they were triggered, one at a time, each makes exactly
   the calls it listed when it started and then its report, if it owes one; every moment
   is freed at most once; a live dispatcher with an empty queue has started and freed all
   of them, a dispatcher that is gone has freed all of them, and nothing starts after a
   destroy request.  A run that destroys the dispatcher ends with that.
   */
  lemma {:induction false} EveryRunIsOrderly(p: Program, ops: seq<Op>)
    requires !Run(p, ops).fault
    ensures var s := Run(p, ops);
            && Orderly(s.log)
            && NoDup(Triggers(s.log))
            && (s.destroyPending ==> FreesOf(s.log) == Triggers(s.log) && s.log.Then? && s.log.last.Ended?)
            && (!s.destroyPending && s.queue == [] ==>
                  Starts(s.log) == Triggers(s.log) && FreesOf(s.log) == Triggers(s.log))
  {
    var s := Run(p, ops);
    RunKeeps(p, ops);
    WatchedIsOrderly(s.log);
    if !s.destroyPending && s.queue == [] {
      var w := Watch(s.log).value;
      assert w.freed + InHand(w) + w.waiting == w.freed && w.freed + InHand(w) == w.freed;
    }
  }

  /**
   A moment starts with the event, data and result callback it was triggered with; every
   callback is passed the argument bound last; and the result callback is told `handled`
   exactly when some callback of its moment set the flag and left it set.
   */
  lemma {:induction false} EveryRunIsTruthful(p: Program, ops: seq<Op>)
    requires !Run(p, ops).fault
    ensures Truthful(p, Run(p, ops).log)
  {
    RunKeeps(p, ops);
  }

  /** Keeping to the usage rules rules out every fault, whatever the callbacks do. */
  lemma {:induction false} NoFaultWithoutMisuse(p: Program, ops: seq<Op>)
    requires !Run(p, ops).misuse
    ensures !Run(p, ops).fault
  {
    RunKeeps(p, ops);
  }

  // ---------- deferred unbinding refines immediate unbinding ----------

  /** The callback-to-argument map a list stands for. */
  function Table(list: seq<Binding>): map<nat, int> {
    if list == [] then map[]
    else Table(list[..|list| - 1])[list[|list| - 1].cb := list[|list| - 1].arg]
  }

  lemma {:induction false} TableMembers(list: seq<Binding>)
    requires Distinct(list)
    ensures forall i :: 0 <= i < |list| ==> list[i].cb in Table(list) && Table(list)[list[i].cb] == list[i].arg
    ensures forall cb :: cb in Table(list) ==> exists i :: 0 <= i < |list| && list[i].cb == cb
  {
    if list != [] {
      var front, last := list[..|list| - 1], list[|list| - 1];
      TableMembers(front);
      forall i | 0 <= i < |list|
        ensures list[i].cb in Table(list) && Table(list)[list[i].cb] == list[i].arg
      {
        if i < |front| {
          assert front[i] == list[i];
        }
      }
      forall cb | cb in Table(list)
        ensures exists i :: 0 <= i < |list| && list[i].cb == cb
      {
        if cb == last.cb {
          assert list[|front|].cb == cb;
        } else {
          assert cb in Table(front);
          var i :| 0 <= i < |front| && front[i].cb == cb;
          assert list[i] == front[i];
        }
      }
    }
  }

  lemma {:induction false} ShownIsTable(list: seq<Binding>, m: map<nat, int>)
    requires Distinct(list) && Shows(list, m) && Idle(list)
    ensures Table(list) == m
  {
    TableMembers(list);
    forall cb | cb in m
      ensures cb in Table(list) && Table(list)[cb] == m[cb]
    {
      assert InForce(list, cb);
    }
  }

  /**
   Between moments, an event's list is the map that results from applying every bind
   and unbind request at once and in order, however many of them were deferred; no
   callback is listed twice, and the list is in the order of first binding.
   */
  lemma {:induction false} DeferredRefinesImmediate(p: Program, ops: seq<Op>, e: nat)
    requires var s := Run(p, ops); !s.fault && !s.destroyPending && e < |s.lists|
    ensures var s := Run(p, ops);
            Table(s.lists[e]) == Replay(s.log, e) && Distinct(s.lists[e])
  {
    RunKeeps(p, ops);
    var s := Run(p, ops);
    assert EventOk(s, e);
    ShownIsTable(s.lists[e], Replay(s.log, e));
  }

  // ---------- the order of bindings across a moment ----------

  lemma {:induction false} ExtendsTrans(a: seq<Binding>, b: seq<Binding>, c: seq<Binding>)
    requires Extends(a, b) && Extends(b, c)
    ensures Extends(a, c)
  {
  }

  lemma {:induction false} CallsExtend(p: Program, s: State, i: nat)
    requires InRun(s) && i <= |Current(s)|
    ensures Extends(Current(s), Current(RunCalls(p, s, i)))
    decreases NormalFrom(Current(s), i), |Current(s)| - i
  {
    if s.fault || i == |Current(s)| {
    } else if Current(s)[i].normal {
      var s1 := CallAt(p, s, i);
      CallExtends(p, s, i);
      ExtendsKeepsNormal(Current(s), Current(s1), i + 1);
      CallsExtend(p, s1, i + 1);
      ExtendsTrans(Current(s), Current(s1), Current(RunCalls(p, s1, i + 1)));
    } else {
      CallsExtend(p, s, i + 1);
    }
  }

  lemma {:induction false} ReportExtends(p: Program, s: State)
    requires InRun(s)
    ensures Extends(Current(s), Current(Report(p, s)))
  {
    var m := s.queue[0];
    if m.result.Some? && !s.fault {
      var s1 := s.(log := Then(s.log, Reported(m.id, m.event, m.result.value, m.handled)));
      ScriptExtends(s1, p(s1.log));
    }
  }

  /** `xs` can be had from `ys` by leaving elements out. */
  predicate Sublist(xs: seq<nat>, ys: seq<nat>) {
    if xs == [] then true
    else if ys == [] then false
    else if xs[0] == ys[0] then Sublist(xs[1..], ys[1..])
    else Sublist(xs, ys[1..])
  }

  lemma {:induction false} SublistSkip(xs: seq<nat>, ys: seq<nat>)
    requires ys != [] && Sublist(xs, ys[1..])
    ensures Sublist(xs, ys)
    decreases |ys|, 0
  {
    if xs != [] && xs[0] == ys[0] {
      SublistTail(xs, ys[1..]);
    }
  }

  lemma {:induction false} SublistTail(xs: seq<nat>, ys: seq<nat>)
    requires xs != [] && Sublist(xs, ys)
    ensures Sublist(xs[1..], ys)
    decreases |ys|, 1
  {
    if xs[0] == ys[0] {
      SublistSkip(xs[1..], ys);
    } else {
      SublistTail(xs, ys[1..]);
      SublistSkip(xs[1..], ys);
    }
  }

  lemma {:induction false} SweepSublist(list: seq<Binding>)
    ensures Sublist(Cbs(Sweep(list)), Cbs(list))
  {
    if list != [] {
      SweepSublist(list[1..]);
      assert Cbs(list) == [list[0].cb] + Cbs(list[1..]);
      if list[0].unbound {
        SublistSkip(Cbs(Sweep(list)), Cbs(list));
      } else {
        assert Cbs(Sweep(list)) == [list[0].cb] + Cbs(Sweep(list[1..]));
      }
    }
  }

  /** The callbacks of `list` that are not flagged in `left`, in order. */
  function Unflagged(list: seq<Binding>, left: seq<Binding>): seq<nat>
    requires |list| <= |left|
  {
    if list == [] then []
    else (if left[0].unbound then [] else [list[0].cb]) + Unflagged(list[1..], left[1..])
  }

  lemma {:induction false} SweepUnflagged(list: seq<Binding>, left: seq<Binding>)
    requires |list| == |left| && forall i :: 0 <= i < |list| ==> list[i].cb == left[i].cb
    ensures Cbs(Sweep(left)) == Unflagged(list, left)
  {
    if left != [] {
      SweepUnflagged(list[1..], left[1..]);
      if !left[0].unbound {
        assert Cbs(Sweep(left)) == [left[0].cb] + Cbs(Sweep(left[1..]));
      }
    }
  }

  /**
   The moment's event ends up with the callbacks of its list that are not left flagged
   when the moment ends, in their old order, followed by those bound during the moment
   that are not left flagged.
   */
  lemma {:induction false} SurvivorsKeepOrder(p: Program, s: State)
    requires Ready(s) && |s.queue| > 0 && s.queue[0].event < |s.lists|
    requires !HandleMoment(p, s).fault
    ensures var e := s.queue[0].event;
            var list, left, r := s.lists[e], Current(Report(p, Serve(p, Begin(s)))), HandleMoment(p, s);
            && |list| <= |left| && e < |r.lists|
            && Cbs(r.lists[e]) == Unflagged(list, left) + Unflagged(left[|list|..], left[|list|..])
            && Sublist(Unflagged(list, left), Cbs(list))
            && forall i :: |list| <= i < |left| ==> !left[i].normal
  {
    var list, left := s.lists[s.queue[0].event], Current(Report(p, Serve(p, Begin(s))));
    MomentExtends(p, s);
    SweptParts(list, left);
  }

  lemma {:induction false} SweptParts(list: seq<Binding>, left: seq<Binding>)
    requires |list| <= |left| && forall i :: 0 <= i < |list| ==> list[i].cb == left[i].cb
    ensures Cbs(Sweep(left)) == Unflagged(list, left) + Unflagged(left[|list|..], left[|list|..])
    ensures Sublist(Unflagged(list, left), Cbs(list))
  {
    var front, back := left[..|list|], left[|list|..];
    SweepConcat(front, back);
    assert front + back == left;
    SweepUnflagged(list, front);
    UnflaggedTake(list, left);
    SweepUnflagged(back, back);
    assert Cbs(Sweep(left)) == Cbs(Sweep(front)) + Cbs(Sweep(back));
    SweepSublist(front);
    assert Cbs(front) == Cbs(list);
  }

  lemma {:induction false} UnflaggedTake(list: seq<Binding>, left: seq<Binding>)
    requires |list| <= |left|
    ensures Unflagged(list, left[..|list|]) == Unflagged(list, left)
  {
    if list != [] {
      UnflaggedTake(list[1..], left[1..]);
      assert left[..|list|][1..] == left[1..][..|list| - 1];
    }
  }

  /** Until the sweep nothing moves in the list of the moment's event, and nothing leaves it. */
  lemma {:induction false} MomentExtends(p: Program, s: State)
    requires Ready(s) && |s.queue| > 0 && s.queue[0].event < |s.lists|
    ensures var b := Begin(s);
            var w := Report(p, Serve(p, b));
            && SameRun(b, w) && Extends(MarkNormal(s.lists[s.queue[0].event]), Current(w))
  {
    var b := Begin(s);
    var v := Serve(p, b);
    var start := StartIndex(Current(b), b.queue[0].saved);
    if start.Some? {
      CallsExtend(p, b, start.value);
    }
    ReportExtends(p, v);
    ServeSame(p, b);
    ReportSame(p, v);
    ExtendsTrans(Current(b), Current(v), Current(Report(p, v)));
  }

  lemma {:induction false} ServeSame(p: Program, s: State)
    requires InRun(s)
    ensures SameRun(s, Serve(p, s))
  {
  }

  lemma {:induction false} ReportSame(p: Program, s: State)
    requires InRun(s)
    ensures SameRun(s, Report(p, s))
  {
  }

  // ---------- which callbacks a moment calls ----------

  /**
   A moment that starts sets out to call all bindings its event has at that time, if
   and only if the head it saved when it was triggered is still the head.
   */
  lemma {:induction false} WholeListIffHeadUnchanged(s: State)
    requires Ready(s) && !s.fault && |s.queue| > 0 && s.queue[0].event < |s.lists|
    requires Distinct(s.lists[s.queue[0].event])
    ensures var m, r := s.queue[0], Begin(s);
            var list := s.lists[m.event];
            (!r.fault && r.log == Then(s.log, Started(m.id, m.event, m.data, Cbs(list), m.result)))
            <==> m.saved == Head(list)
  {
    var m, r := s.queue[0], Begin(s);
    var list := s.lists[m.event];
    var marked := MarkNormal(list);
    assert Cbs(marked) == Cbs(list);
    if m.saved == Head(list) {
      HeadFound(list, m.saved);
      assert marked[0..] == marked && marked[if m.saved.None? then |list| else 0..] == marked;
    } else if !r.fault {
      var start := StartIndex(marked, m.saved).value;
      assert start > 0;
      assert |Cbs(marked[start..])| < |Cbs(list)|;
    }
  }

  /** Only the start of a moment starts or lists anything. */
  lemma {:induction false} ActLists(s: State, a: Action, id: nat)
    requires InRun(s)
    ensures ListedFor(Act(s, a).log, id) == ListedFor(s.log, id) && Starts(Act(s, a).log) == Starts(s.log)
  {
    assert Starts(s.log) + [] == Starts(s.log);
  }

  lemma {:induction false} ScriptLists(s: State, script: seq<Action>, id: nat)
    requires InRun(s)
    ensures ListedFor(RunScript(s, script).log, id) == ListedFor(s.log, id)
    ensures Starts(RunScript(s, script).log) == Starts(s.log)
    decreases |script|
  {
    if script != [] {
      ActLists(s, script[0], id);
      ScriptLists(Act(s, script[0]), script[1..], id);
    }
  }

  lemma {:induction false} CallsList(p: Program, s: State, i: nat, id: nat)
    requires InRun(s) && i <= |Current(s)|
    ensures ListedFor(RunCalls(p, s, i).log, id) == ListedFor(s.log, id)
    ensures Starts(RunCalls(p, s, i).log) == Starts(s.log)
    decreases NormalFrom(Current(s), i), |Current(s)| - i
  {
    if s.fault || i == |Current(s)| {
    } else if Current(s)[i].normal {
      var b, m := Current(s)[i], s.queue[0];
      var s0 := s.(log := Then(s.log, Called(m.id, m.event, b.cb, b.arg)));
      ScriptLists(s0, p(s0.log), id);
      CallExtends(p, s, i);
      ExtendsKeepsNormal(Current(s), Current(CallAt(p, s, i)), i + 1);
      CallsList(p, CallAt(p, s, i), i + 1, id);
    } else {
      CallsList(p, s, i + 1, id);
    }
  }

  lemma {:induction false} ReportLists(p: Program, s: State, id: nat)
    requires InRun(s)
    ensures ListedFor(Report(p, s).log, id) == ListedFor(s.log, id)
    ensures Starts(Report(p, s).log) == Starts(s.log)
  {
    var m := s.queue[0];
    if m.result.Some? && !s.fault {
      var s1 := s.(log := Then(s.log, Reported(m.id, m.event, m.result.value, m.handled)));
      ScriptLists(s1, p(s1.log), id);
    }
  }

  lemma {:induction false} MomentLists(p: Program, s: State)
    requires Ready(s) && !Quiet(s) && !HandleMoment(p, s).fault
    ensures ListedFor(HandleMoment(p, s).log, s.queue[0].id) == ListedFor(Begin(s).log, s.queue[0].id)
    ensures Starts(HandleMoment(p, s).log) == Starts(Begin(s).log)
    ensures Begin(s).log.Then? && Begin(s).log.last.Started? && Begin(s).log.last.id == s.queue[0].id
    ensures !Begin(s).fault && HandleMoment(p, s).log.Then? && HandleMoment(p, s).log.last == Freed(s.queue[0].id)
  {
    var b, id := Begin(s), s.queue[0].id;
    MomentFaultStays(p, s);
    CallsList(p, b, StartIndex(Current(b), b.queue[0].saved).value, id);
    ReportLists(p, Serve(p, b), id);
    ServeSame(p, b);
    ReportSame(p, Serve(p, b));
  }

  /** When the moment is over, it has made exactly the calls it set out to make. */
  lemma {:induction false} MomentCallsListed(p: Program, s: State)
    requires Ready(s) && !Quiet(s) && Inv(p, s, [], false) && !HandleMoment(p, s).fault
    ensures var id := s.queue[0].id;
            CallsFor(HandleMoment(p, s).log, id) == ListedFor(Begin(s).log, id)
  {
    var id, r := s.queue[0].id, HandleMoment(p, s);
    MomentLists(p, s);
    MomentKeeps(p, s);
    WatchedIsOrderly(r.log);
    assert id in Starts(r.log) by {
      assert Starts(r.log)[|Starts(r.log)| - 1] == id;
    }
  }

  /** The same as below, for a state that is known to keep the invariant. */
  lemma {:induction false} MomentCallsItsListIff(p: Program, s: State)
    requires Ready(s) && !Quiet(s) && Inv(p, s, [], false) && !HandleMoment(p, s).fault
    ensures var m := s.queue[0];
            && m.event < |s.lists| && NoDup(Cbs(s.lists[m.event]))
            && (CallsFor(HandleMoment(p, s).log, m.id) == Cbs(s.lists[m.event]) <==> m.saved == Head(s.lists[m.event]))
  {
    assert EventOk(s, s.queue[0].event);
    MomentCallsListed(p, s);
    MomentLists(p, s);
    WholeListIffHeadUnchanged(s);
  }

  /** `s` lies between two moments of some run: after a trigger and any number of moments. */
  ghost predicate Between(p: Program, s: State) {
    exists ops: seq<Op>, e: nat, data: int, result: Option<ResultCb>, fuel: nat ::
      var w := Run(p, ops);
      !w.fault && !w.destroyPending && e < |w.lists| && s == Drain(p, Enqueue(w, e, data, result, true), fuel)
  }

  lemma {:induction false} BetweenKeeps(p: Program, s: State)
    requires Between(p, s)
    ensures Inv(p, s, [], false) && (!s.fault ==> Ready(s))
  {
    var ops: seq<Op>, e: nat, data: int, result: Option<ResultCb>, fuel: nat :|
      var w := Run(p, ops);
      !w.fault && !w.destroyPending && e < |w.lists| && s == Drain(p, Enqueue(w, e, data, result, true), fuel);
    RunKeeps(p, ops);
    EnqueueKeeps(p, Run(p, ops), e, data, result, true, [], false);
    DrainKeeps(p, Enqueue(Run(p, ops), e, data, result, true), fuel);
  }

  /**
   Between any two moments too, every event's list is the map of all requests applied at
   once: a callback survives a moment exactly if the last request about it was a bind.
   */
  lemma {:induction false} DeferredRefinesImmediateBetween(p: Program, s: State, e: nat)
    requires Between(p, s) && !s.fault && e < |s.lists|
    ensures Table(s.lists[e]) == Replay(s.log, e) && Distinct(s.lists[e])
    ensures forall cb :: cb in Cbs(s.lists[e]) <==> cb in Replay(s.log, e)
  {
    BetweenKeeps(p, s);
    assert EventOk(s, e);
    ShownIsTable(s.lists[e], Replay(s.log, e));
    TableMembers(s.lists[e]);
    forall cb | cb in Replay(s.log, e)
      ensures cb in Cbs(s.lists[e])
    {
      var i :| 0 <= i < |s.lists[e]| && s.lists[e][i].cb == cb;
      assert Cbs(s.lists[e])[i] == cb;
    }
  }

  /**
   Every moment of every run calls exactly the callbacks that its event's list holds when
   it starts, each once and in list order, whatever they bind, unbind, trigger or destroy,
   if and only if the head that was saved when it was triggered is still the head of the
   list; otherwise it calls nobody.
   */
  lemma {:induction false} EveryMomentCallsItsListIff(p: Program, s: State)
    requires Between(p, s) && !Quiet(s) && Ready(s) && !HandleMoment(p, s).fault
    ensures var m := s.queue[0];
            && m.event < |s.lists| && NoDup(Cbs(s.lists[m.event]))
            && var calls, list := CallsFor(HandleMoment(p, s).log, m.id), s.lists[m.event];
               && (calls == Cbs(list) <==> m.saved == Head(list))
               && (m.saved != Head(list) ==> calls == [])
  {
    BetweenKeeps(p, s);
    MomentCallsItsListIff(p, s);
    var list := s.lists[s.queue[0].event];
    if s.queue[0].saved != Head(list) {
      MomentCallsListed(p, s);
      MomentLists(p, s);
      SavedHeadStale(p, s);
      assert Cbs(MarkNormal(list)[|list|..]) == [];
    }
  }

  /**
   The start of a moment follows a saved head that was freed if and only if a head was
   saved and it is not the head any more: identities rise along a list, so a node that was
   first once is either still first or gone.
   */
  lemma {:induction false} SavedHeadStale(p: Program, s: State)
    requires Ready(s) && !Quiet(s) && Inv(p, s, [], false)
    ensures var m := s.queue[0];
            && m.event < |s.lists|
            && (Begin(s).fault <==> m.saved.Some? && m.saved != Head(s.lists[m.event]))
  {
    var m := s.queue[0];
    assert SavedFirst(s, m) && EventOk(s, m.event);
    var list, marked := s.lists[m.event], MarkNormal(s.lists[m.event]);
    if m.saved == Head(list) || m.saved.None? {
      HeadFound(list, m.saved);
    }
  }

  /** The same for every moment of every run, whether or not the usage rules were kept. */
  lemma {:induction false} EveryStartFaultsIff(p: Program, s: State)
    requires Between(p, s) && !Quiet(s) && Ready(s)
    ensures var m := s.queue[0];
            && m.event < |s.lists|
            && (Begin(s).fault <==> m.saved.Some? && m.saved != Head(s.lists[m.event]))
  {
    BetweenKeeps(p, s);
    SavedHeadStale(p, s);
  }

  /** A call that names an event there is not, or unbinds from the running list what is not in it. */
  predicate BadCall(s: State, a: Action)
    requires InRun(s)
  {
    match a
    case Bind(e, _, _, _) => e >= |s.lists|
    case Unbind(e, cb) => e >= |s.lists| || (s.running == Some(e) && !Listed(s.lists[e], cb))
    case Trigger(e, _, _, _) => e >= |s.lists|
    case _ => false
  }

  /** The calls that a callback makes fault if and only if one of them is bad when it is made. */
  lemma {:induction false} ScriptFaultsIff(s: State, script: seq<Action>)
    requires InRun(s) && !s.fault
    ensures RunScript(s, script).fault <==>
            exists i :: 0 <= i < |script| && BadCall(RunScript(s, script[..i]), script[i])
    decreases |script|
  {
    if script != [] {
      var s1, rest := Act(s, script[0]), script[1..];
      assert script[..0] == [];
      assert s1.fault <==> BadCall(RunScript(s, script[..0]), script[0]);
      forall i | 0 <= i < |rest|
        ensures RunScript(s1, rest[..i]) == RunScript(s, script[..i + 1]) && rest[i] == script[i + 1]
      {
        assert script[..i + 1][0] == script[0] && script[..i + 1][1..] == rest[..i];
      }
      if s1.fault {
        FaultStays(s1, rest);
      } else {
        ScriptFaultsIff(s1, rest);
        if RunScript(s, script).fault {
          var i :| 0 <= i < |rest| && BadCall(RunScript(s1, rest[..i]), rest[i]);
          assert BadCall(RunScript(s, script[..i + 1]), script[i + 1]);
        } else {
          forall j | 0 <= j < |script|
            ensures !BadCall(RunScript(s, script[..j]), script[j])
          {
            if j > 0 {
              assert RunScript(s1, rest[..j - 1]) == RunScript(s, script[..j]) && rest[j - 1] == script[j];
            }
          }
        }
      }
    }
  }

  /** Within the usage rules only a late first binding can make a moment miss its list. */
  lemma {:induction false} MissedOnlyIfEmptyBefore(p: Program, s: State)
    requires Between(p, s) && !Quiet(s) && !s.misuse
    ensures var m := s.queue[0];
            && m.event < |s.lists|
            && (m.saved == Head(s.lists[m.event]) || m.saved.None?)
  {
    BetweenKeeps(p, s);
    assert Fresh(s, s.queue[0]);
  }

  /** Unbinding from inside a moment works exactly for callbacks that are listed. */
  lemma {:induction false} InRunUnbindIffListed(s: State, cb: nat)
    requires InRun(s) && !s.fault
    ensures var r := DoUnbind(s, s.queue[0].event, cb);
            && (r.fault <==> forall i :: 0 <= i < |Current(s)| ==> Current(s)[i].cb != cb)
            && (!r.fault ==> Cbs(Current(r)) == Cbs(Current(s)))
  {
    var r := DoUnbind(s, s.queue[0].event, cb);
    if !r.fault {
      assert |Current(r)| == |Current(s)|;
    }
  }

  // ---------- termination of the drain loop ----------

  function EventOf(log: Log): Option<nat> {
    if log.Empty? then None
    else
      match log.last
      case Called(_, e, _, _) => Some(e)
      case Reported(_, e, _, _) => Some(e)
      case _ => None
  }

  /** A callback of event `e` triggers only events of lower rank than `e`. */
  ghost predicate Ranked(p: Program, rank: nat -> nat) {
    forall log, i :: 0 <= i < |p(log)| && p(log)[i].Trigger? ==>
      EventOf(log).Some? && rank(p(log)[i].event) < rank(EventOf(log).value)
  }

  ghost predicate LowScript(script: seq<Action>, rank: nat -> nat, k: nat) {
    forall i :: 0 <= i < |script| && script[i].Trigger? ==> rank(script[i].event) < k
  }

  /** The queue has only grown, by moments of rank below `k`. */
  ghost predicate Grew(s: State, r: State, rank: nat -> nat, k: nat) {
    && |s.queue| <= |r.queue|
    && (forall i :: 0 < i < |s.queue| ==> r.queue[i] == s.queue[i])
    && (forall i :: |s.queue| <= i < |r.queue| ==> rank(r.queue[i].event) < k)
  }

  lemma {:induction false} ScriptGrows(s: State, script: seq<Action>, rank: nat -> nat, k: nat)
    requires InRun(s) && LowScript(script, rank, k)
    ensures Grew(s, RunScript(s, script), rank, k)
    decreases |script|
  {
    if script != [] {
      var s1 := Act(s, script[0]);
      assert Grew(s, s1, rank, k);
      assert LowScript(script[1..], rank, k) by {
        forall i | 0 <= i < |script[1..]| && script[1..][i].Trigger?
          ensures rank(script[1..][i].event) < k
        {
          assert script[1..][i] == script[i + 1];
        }
      }
      ScriptGrows(s1, script[1..], rank, k);
    }
  }

  lemma {:induction false} CallsGrow(p: Program, s: State, i: nat, rank: nat -> nat)
    requires InRun(s) && i <= |Current(s)| && Ranked(p, rank)
    ensures Grew(s, RunCalls(p, s, i), rank, rank(s.queue[0].event))
    decreases NormalFrom(Current(s), i), |Current(s)| - i
  {
    if s.fault || i == |Current(s)| {
    } else if Current(s)[i].normal {
      var b, m := Current(s)[i], s.queue[0];
      var s0 := s.(log := Then(s.log, Called(m.id, m.event, b.cb, b.arg)));
      ScriptGrows(s0, p(s0.log), rank, rank(m.event));
      var s1 := CallAt(p, s, i);
      CallExtends(p, s, i);
      ExtendsKeepsNormal(Current(s), Current(s1), i + 1);
      CallsGrow(p, s1, i + 1, rank);
    } else {
      CallsGrow(p, s, i + 1, rank);
    }
  }

  lemma {:induction false} ReportGrows(p: Program, s: State, rank: nat -> nat)
    requires InRun(s) && Ranked(p, rank)
    ensures Grew(s, Report(p, s), rank, rank(s.queue[0].event))
  {
    var m := s.queue[0];
    if m.result.Some? && !s.fault {
      var s1 := s.(log := Then(s.log, Reported(m.id, m.event, m.result.value, m.handled)));
      ScriptGrows(s1, p(s1.log), rank, rank(m.event));
    }
  }

  lemma {:induction false} MomentGrows(p: Program, s: State, rank: nat -> nat)
    requires Ready(s) && |s.queue| > 0 && Ranked(p, rank) && !HandleMoment(p, s).fault
    ensures var r := HandleMoment(p, s);
            && |r.queue| >= |s.queue| - 1
            && (forall i :: 0 <= i < |s.queue| - 1 ==> r.queue[i] == s.queue[i + 1])
            && (forall i :: |s.queue| - 1 <= i < |r.queue| ==> rank(r.queue[i].event) < rank(s.queue[0].event))
  {
    var b := Begin(s);
    var v := Serve(p, b);
    var start := StartIndex(Current(b), b.queue[0].saved);
    if start.Some? {
      CallsGrow(p, b, start.value, rank);
    }
    ServeSame(p, b);
    ReportGrows(p, v, rank);
    var w := Report(p, v);
    assert HandleMoment(p, s).queue == w.queue[1..];
  }

  /**
   The first `n` waiting moments have rank at most `top` and the others less: running
   one either shortens that first generation or, when it is used up, lowers `top`.
   */
  lemma {:induction false} GenerationsEnd(p: Program, s: State, rank: nat -> nat, top: nat, n: nat)
    returns (fuel: nat)
    requires Ready(s) && Ranked(p, rank) && n <= |s.queue|
    requires forall i :: 0 <= i < n ==> rank(s.queue[i].event) <= top
    requires forall i :: n <= i < |s.queue| ==> rank(s.queue[i].event) < top
    ensures Quiet(Drain(p, s, fuel))
    decreases top, n
  {
    if Quiet(s) {
      fuel := 0;
    } else if n == 0 {
      assert rank(s.queue[0].event) < top;
      fuel := GenerationsEnd(p, s, rank, top - 1, |s.queue|);
    } else if HandleMoment(p, s).fault {
      fuel := DrainAfter(p, s, 0);
    } else {
      MomentGrows(p, s, rank);
      var rest := GenerationsEnd(p, HandleMoment(p, s), rank, top, n - 1);
      fuel := DrainAfter(p, s, rest);
    }
  }

  lemma {:induction false} DrainAfter(p: Program, s: State, rest: nat) returns (fuel: nat)
    requires Ready(s) && !Quiet(s)
    requires HandleMoment(p, s).fault || Quiet(Drain(p, HandleMoment(p, s), rest))
    ensures Quiet(Drain(p, s, fuel))
  {
    var h := HandleMoment(p, s);
    fuel := rest + 1;
    DrainUnrolls(p, s, h, fuel);
    DrainDone(p, h, rest);
  }

  function MaxRank(queue: seq<Moment>, rank: nat -> nat): (r: nat)
    ensures forall i :: 0 <= i < |queue| ==> rank(queue[i].event) <= r
  {
    if queue == [] then 0
    else
      var r := MaxRank(queue[1..], rank);
      if r < rank(queue[0].event) then rank(queue[0].event) else r
  }

  /** Callbacks that trigger only lower-ranked events, any number of times, let every drain end. */
  lemma {:induction false} RankedDrainEnds(p: Program, s: State, rank: nat -> nat)
    requires Ready(s) && Ranked(p, rank)
    ensures exists fuel :: Quiet(Drain(p, s, fuel))
  {
    var fuel := GenerationsEnd(p, s, rank, MaxRank(s.queue, rank), |s.queue|);
  }

  /** The next moment, as far as faults and rest are concerned. */
  lemma {:induction false} DrainsTo(p: Program, s: State, fuel: nat) returns (h: State)
    requires Ready(s) && !Quiet(s) && fuel > 0
    ensures !h.fault ==> Ready(h)
    ensures forall n: nat :: 0 < n ==>
              && (Drain(p, s, n).fault <==> Drain(p, h, n - 1).fault)
              && (RestOf(p, s, n).Some? <==> RestOf(p, h, n - 1).Some?)
  {
    h := HandleMoment(p, s);
    forall n: nat | 0 < n
      ensures (Drain(p, s, n).fault <==> Drain(p, h, n - 1).fault)
      ensures (RestOf(p, s, n).Some? <==> RestOf(p, h, n - 1).Some?)
    {
      DrainUnrolls(p, s, h, n);
    }
  }

  lemma {:induction false} RestIsFaultless(p: Program, s: State, fuel: nat, other: nat)
    requires RestOf(p, s, fuel).Some?
    ensures (!s.fault ==> Ready(s)) && !Drain(p, s, other).fault
    decreases fuel
  {
    if Quiet(s) {
      DrainDone(p, s, fuel);
      DrainDone(p, s, other);
    } else if other > 0 {
      var h := DrainsTo(p, s, fuel);
      RestIsFaultless(p, h, fuel - 1, other - 1);
    }
  }

  /** With such callbacks a drain comes to rest without a fault if and only if it never has one. */
  lemma {:induction false} RankedDrainRestsIff(p: Program, s: State, rank: nat -> nat)
    requires Ready(s) && Ranked(p, rank)
    ensures (exists fuel: nat :: RestOf(p, s, fuel).Some?) <==> (forall fuel: nat :: !Drain(p, s, fuel).fault)
  {
    var rest := GenerationsEnd(p, s, rank, MaxRank(s.queue, rank), |s.queue|);
    if exists fuel: nat :: RestOf(p, s, fuel).Some? {
      var fuel: nat :| RestOf(p, s, fuel).Some?;
      forall other: nat
        ensures !Drain(p, s, other).fault
      {
        RestIsFaultless(p, s, fuel, other);
      }
    } else {
      assert RestOf(p, s, rest).None?;
      assert Drain(p, s, rest).fault;
    }
  }

  /** A trigger that comes to rest leaves an empty queue. */
  lemma {:induction false} RestedRun(p: Program, ops: seq<Op>, e: nat, data: int, result: Option<ResultCb>, fuel: nat)
    requires var w := Run(p, ops);
             && !w.fault && !w.destroyPending && e < |w.lists|
             && RestOf(p, Enqueue(w, e, data, result, true), fuel).Some?
    ensures var r := Run(p, ops + [AppTrigger(e, data, result, true, fuel)]); !r.fault && r.queue == []
  {
    var op := AppTrigger(e, data, result, true, fuel);
    assert (ops + [op])[..|ops|] == ops;
    assert Run(p, ops + [op]) == Step(p, Run(p, ops), op);
  }

  /**
   In any run, a trigger whose callbacks trigger only lower-ranked events and keep to the
   usage rules comes to rest without a fault.
   */
  lemma {:induction false} RuleAbidingTriggerRests(p: Program, ops: seq<Op>, e: nat, data: int,
                                                   result: Option<ResultCb>, rank: nat -> nat)
    requires Ranked(p, rank)
    requires var w := Run(p, ops);
             && !w.fault && !w.destroyPending && e < |w.lists|
             && forall fuel: nat :: !Drain(p, Enqueue(w, e, data, result, true), fuel).misuse
    ensures exists fuel: nat :: RestOf(p, Enqueue(Run(p, ops), e, data, result, true), fuel).Some?
    ensures exists fuel: nat ::
              var r := Run(p, ops + [AppTrigger(e, data, result, true, fuel)]); !r.fault && r.queue == []
  {
    var w := Run(p, ops);
    var s := Enqueue(w, e, data, result, true);
    RunKeeps(p, ops);
    EnqueueKeeps(p, w, e, data, result, true, [], false);
    forall fuel: nat
      ensures !Drain(p, s, fuel).fault
    {
      DrainKeeps(p, s, fuel);
      assert !Drain(p, s, fuel).misuse;
    }
    RankedDrainRestsIff(p, s, rank);
    var fuel: nat :| RestOf(p, s, fuel).Some?;
    RestedRun(p, ops, e, data, result, fuel);
  }
}
