/**
 What every run of the event dispatcher keeps.

 Three independent readings of the log serve as specifications: `Watch`, an automaton
 for the order in which moments are started, served and freed; `Replay`, which applies
 bind and unbind requests to a map at once; and `HandledIn`, which asks whether some
 callback of a moment left its handled flag set.
 */
module EventLaws {
  import opened Options
  import opened EventModel

  // ---------- readings of the log ----------

  /**
   The order automaton.  `todo` holds the callbacks the current moment still has to
   call, and `owed` its result callback; a moment may be freed only when it is served and
   has reported, or unserved once closing.
   */
  datatype Monitor = Monitor(triggered: seq<nat>, waiting: seq<nat>, current: Option<nat>,
                             todo: seq<nat>, owed: Option<ResultCb>, reported: bool, freed: seq<nat>,
                             closing: bool, ended: bool)

  function Next(w: Monitor, x: Entry): Option<Monitor> {
    if w.ended then None
    else
      match x
      case Triggered(id, _, _, _) =>
        if id in w.triggered then None
        else Some(w.(triggered := w.triggered + [id], waiting := w.waiting + [id]))
      case Started(id, _, _, listed, asked) =>
        if w.current.Some? || w.closing || w.waiting == [] || w.waiting[0] != id then None
        else
          Some(w.(current := Some(id), todo := listed, owed := asked, reported := false,
                  waiting := w.waiting[1..]))
      case Called(id, _, cb, _) =>
        if w.current != Some(id) || w.reported || w.todo == [] || w.todo[0] != cb then None
        else Some(w.(todo := w.todo[1..]))
      case Reported(id, _, result, _) =>
        if w.current != Some(id) || w.todo != [] || w.owed != Some(result) || w.reported then None
        else Some(w.(reported := true))
      case Freed(id) =>
        if w.current == Some(id) && w.todo == [] && w.reported == w.owed.Some? then
          Some(w.(current := None, owed := None, reported := false, freed := w.freed + [id]))
        else if w.current.None? && w.closing && w.waiting != [] && w.waiting[0] == id then
          Some(w.(waiting := w.waiting[1..], freed := w.freed + [id]))
        else None
      case CloseRequested => Some(w.(closing := true))
      case Ended =>
        if w.closing && w.current.None? && w.waiting == [] then Some(w.(ended := true)) else None
      case _ => Some(w)
  }

  const START := Monitor([], [], None, [], None, false, [], false, false)

  function Watch(log: Log): Option<Monitor> {
    if log.Empty? then Some(START)
    else
      match Watch(log.before)
      case None => None
      case Some(w) => Next(w, log.last)
  }

  /** The callback-to-argument map of event `e` if every request took effect at once. */
  function Replay(log: Log, e: nat): map<nat, int> {
    if log.Empty? then map[]
    else
      var m := Replay(log.before, e);
      match log.last
      case Created(e') => if e' == e then map[] else m
      case Bound(e', cb, arg) => if e' == e then m[cb := arg] else m
      case Unbound(e', cb) => if e' == e then m - {cb} else m
      case _ => m
  }

  /** The argument of the latest successful bind of each callback to event `e`. */
  function Args(log: Log, e: nat): map<nat, int> {
    if log.Empty? then map[]
    else
      var m := Args(log.before, e);
      match log.last
      case Bound(e', cb, arg) => if e' == e then m[cb := arg] else m
      case _ => m
  }

  /** The handled flag after a script that starts with it at `flag`. */
  function LastFlag(script: seq<Action>, flag: bool): bool {
    if script == [] then flag
    else LastFlag(script[1..], if script[0].SetHandled? then script[0].flag else flag)
  }

  /** Did some callback of moment `id` leave the flag set by its own doing? */
  function HandledIn(p: Program, log: Log, id: nat): bool {
    log.Then? && (
      || HandledIn(p, log.before, id)
      || (var x := log.last; x.Called? && x.id == id && LastFlag(p(log), false)))
  }

  /** The trigger of moment `id`. */
  function TriggerOf(log: Log, id: nat): (r: Option<Entry>)
    ensures r.Some? ==> r.value.Triggered?
  {
    if log.Empty? then None
    else if log.last.Triggered? && log.last.id == id then Some(log.last)
    else TriggerOf(log.before, id)
  }

  /** Starts, calls and reports pass on what was triggered and bound, and what really happened. */
  predicate Truthful(p: Program, log: Log) {
    log.Empty? || (
      && Truthful(p, log.before)
      && var before := log.before;
         match log.last
         case Started(id, e, data, _, asked) => TriggerOf(before, id) == Some(Triggered(id, e, data, asked))
         case Called(id, e, cb, arg) =>
           && TriggerOf(before, id).Some? && TriggerOf(before, id).value.event == e
           && cb in Args(before, e) && Args(before, e)[cb] == arg
         case Reported(id, e, _, handled) =>
           && TriggerOf(before, id).Some? && TriggerOf(before, id).value.event == e
           && handled == HandledIn(p, before, id)
         case _ => true)
  }

  // ---------- what an accepted log says ----------

  ghost predicate NoDup(xs: seq<nat>) {
    forall i, j :: 0 <= i < j < |xs| ==> xs[i] != xs[j]
  }

  function InHand(w: Monitor): seq<nat> {
    if w.current.Some? then [w.current.value] else []
  }

  /** Every triggered moment is freed, in hand or waiting: none is lost or doubled. */
  ghost predicate Conserved(w: Monitor) {
    NoDup(w.triggered) && w.triggered == w.freed + InHand(w) + w.waiting
  }

  lemma {:induction false} NextConserves(w: Monitor, x: Entry)
    requires Conserved(w) && Next(w, x).Some?
    ensures Conserved(Next(w, x).value)
  {
    var r := Next(w, x).value;
    match x
    case Triggered(id, _, _, _) =>
      assert r.triggered == w.freed + InHand(w) + (w.waiting + [id]);
    case Started(id, _, _, _, _) =>
      assert w.waiting == [id] + r.waiting;
    case Freed(id) =>
      if w.current.None? {
        assert w.waiting == [id] + r.waiting;
      }
    case _ =>
  }

  lemma {:induction false} WatchConserves(log: Log)
    requires Watch(log).Some?
    ensures Conserved(Watch(log).value)
  {
    if log.Then? {
      WatchConserves(log.before);
      NextConserves(Watch(log.before).value, log.last);
    }
  }

  lemma {:induction false} CurrentNotWaiting(w: Monitor)
    requires Conserved(w) && w.current.Some?
    ensures w.current.value in w.triggered && w.current.value !in w.waiting
  {
    assert w.triggered[|w.freed|] == w.current.value;
    forall i | 0 <= i < |w.waiting|
      ensures w.waiting[i] != w.current.value
    {
      assert w.triggered[|w.freed| + 1 + i] == w.waiting[i];
    }
  }

  /** Nothing happens to a moment before its turn. */
  lemma {:induction false} NotYet(w: Monitor, x: Entry, id: nat)
    requires Conserved(w) && Next(w, x).Some?
    requires var r := Next(w, x).value; id in r.waiting || id !in r.triggered
    ensures id in w.waiting || id !in w.triggered
    ensures x.Called? ==> x.id != id
  {
    var r := Next(w, x).value;
    if x.Called? {
      CurrentNotWaiting(w);
    }
    if id in r.waiting {
      assert x.Triggered? ==> r.waiting == w.waiting + [x.id];
    }
  }

  lemma {:induction false} WaitingUnhandled(p: Program, log: Log, id: nat)
    requires Watch(log).Some?
    requires var w := Watch(log).value; id in w.waiting || id !in w.triggered
    ensures !HandledIn(p, log, id)
  {
    if log.Then? {
      var before := log.before;
      WatchConserves(before);
      NotYet(Watch(before).value, log.last, id);
      WaitingUnhandled(p, before, id);
    }
  }

  // ---------- the state invariant ----------

  ghost predicate Distinct(list: seq<Binding>) {
    forall i, j :: 0 <= i < j < |list| ==> list[i].cb != list[j].cb && list[i].id < list[j].id
  }

  /** Some binding of `cb` is in force: listed, and no unbind pending. */
  ghost predicate InForce(list: seq<Binding>, cb: nat) {
    exists i :: 0 <= i < |list| && list[i].cb == cb && !list[i].unbound
  }

  /** The bindings in force are exactly `m`. */
  ghost predicate Shows(list: seq<Binding>, m: map<nat, int>) {
    && (forall i :: 0 <= i < |list| && !list[i].unbound ==> list[i].cb in m && m[list[i].cb] == list[i].arg)
    && (forall cb :: cb in m ==> InForce(list, cb))
  }

  ghost predicate Idle(list: seq<Binding>) {
    forall i :: 0 <= i < |list| ==> !list[i].unbound
  }

  /** Every listed binding has the argument `args` gives for its callback. */
  ghost predicate ArgsOk(list: seq<Binding>, args: map<nat, int>) {
    forall i :: 0 <= i < |list| ==> list[i].cb in args && args[list[i].cb] == list[i].arg
  }

  ghost predicate ListOk(list: seq<Binding>, nextId: nat, m: map<nat, int>, args: map<nat, int>) {
    && Distinct(list)
    && (forall i :: 0 <= i < |list| ==> list[i].id < nextId)
    && Shows(list, m)
    && ArgsOk(list, args)
  }

  ghost predicate EventOk(s: State, e: nat)
    requires e < |s.lists|
  {
    && ListOk(s.lists[e], s.nextId, Replay(s.log, e), Args(s.log, e))
    && (s.running != Some(e) ==> Idle(s.lists[e]))
  }

  ghost predicate Lists(s: State) {
    forall e :: 0 <= e < |s.lists| ==> EventOk(s, e)
  }

  function Ids(queue: seq<Moment>): seq<nat> {
    seq(|queue|, i requires 0 <= i < |queue| => queue[i].id)
  }

  /** What the automaton should say of state `s`; `served` is (todo, reported) of a running moment. */
  function Expected(s: State, triggered: seq<nat>, freed: seq<nat>, todo: seq<nat>, reported: bool): Monitor {
    if s.running.Some? && s.queue != [] then
      Monitor(triggered, Ids(s.queue[1..]), Some(s.queue[0].id), todo, s.queue[0].result, reported,
              freed, s.destroyPending, false)
    else
      Monitor(triggered, Ids(s.queue), None, [], None, false, freed, s.destroyPending, false)
  }

  /** The automaton accepts the log and is in the state the dispatcher is in. */
  ghost predicate Logged(s: State, todo: seq<nat>, reported: bool) {
    && Watch(s.log).Some?
    && var w := Watch(s.log).value;
       && w == Expected(s, w.triggered, w.freed, todo, reported)
       && (forall i :: 0 <= i < |w.triggered| ==> w.triggered[i] < s.nextId)
  }

  /** The saved head of `m` is null or still the head of its event, and will stay. */
  ghost predicate Fresh(s: State, m: Moment) {
    && m.event < |s.lists|
    && (m.saved.Some? ==>
          && s.lists[m.event] != []
          && s.lists[m.event][0].id == m.saved.value
          && !s.lists[m.event][0].unbound)
  }

  /** The moment is as it was triggered. */
  ghost predicate AsTriggered(s: State, m: Moment) {
    m.id < s.nextId && TriggerOf(s.log, m.id) == Some(Triggered(m.id, m.event, m.data, m.result))
  }

  ghost predicate NoneBelow(list: seq<Binding>, id: nat) {
    forall i :: 0 <= i < |list| ==> id <= list[i].id
  }

  /** The saved head is not younger than anything listed: it is still first, or gone. */
  ghost predicate SavedFirst(s: State, m: Moment) {
    && m.event < |s.lists|
    && (m.saved.Some? ==> m.saved.value < s.nextId && NoneBelow(s.lists[m.event], m.saved.value))
  }

  ghost predicate Genuine(s: State) {
    forall i :: 0 <= i < |s.queue| ==> AsTriggered(s, s.queue[i]) && SavedFirst(s, s.queue[i])
  }

  ghost predicate Pending(s: State) {
    forall i :: Started'(s) <= i < |s.queue| ==>
      !s.queue[i].handled && (s.misuse || Fresh(s, s.queue[i]))
  }

  ghost predicate Inv(p: Program, s: State, todo: seq<nat>, reported: bool) {
    if s.fault then s.misuse
    else Lists(s) && Logged(s, todo, reported) && Truthful(p, s.log) && Genuine(s) && Pending(s)
  }

  // ---------- binding lists ----------

  lemma {:induction false} BindShows(list: seq<Binding>, m: map<nat, int>, cb: nat, arg: int, id: nat)
    requires Distinct(list) && Shows(list, m)
    ensures Shows(BindIn(list, cb, arg, id), m[cb := arg])
  {
    var r, at := BindIn(list, cb, arg, id), IndexOfCb(list, cb);
    assert r[at].cb == cb && r[at].arg == arg && !r[at].unbound;
    forall c | c in m[cb := arg]
      ensures InForce(r, c)
    {
      if c != cb {
        assert InForce(list, c);
        var i :| 0 <= i < |list| && list[i].cb == c && !list[i].unbound;
        assert r[i] == list[i];
      }
    }
    forall i | 0 <= i < |r| && !r[i].unbound
      ensures r[i].cb in m[cb := arg] && m[cb := arg][r[i].cb] == r[i].arg
    {
      assert i != at ==> r[i] == list[i];
    }
  }

  lemma {:induction false} BindArgs(list: seq<Binding>, args: map<nat, int>, cb: nat, arg: int, id: nat)
    requires Distinct(list) && ArgsOk(list, args)
    ensures ArgsOk(BindIn(list, cb, arg, id), args[cb := arg])
  {
    var r, at := BindIn(list, cb, arg, id), IndexOfCb(list, cb);
    forall i | 0 <= i < |r|
      ensures r[i].cb in args[cb := arg] && args[cb := arg][r[i].cb] == r[i].arg
    {
      assert i != at ==> r[i] == list[i];
    }
  }

  lemma {:induction false} BindOk(list: seq<Binding>, nextId: nat, m: map<nat, int>, args: map<nat, int>,
                                  cb: nat, arg: int)
    requires ListOk(list, nextId, m, args)
    ensures ListOk(BindIn(list, cb, arg, nextId), nextId + 1, m[cb := arg], args[cb := arg])
    ensures Idle(list) ==> Idle(BindIn(list, cb, arg, nextId))
  {
    BindShows(list, m, cb, arg, nextId);
    BindArgs(list, args, cb, arg, nextId);
  }

  lemma {:induction false} MarkOk(list: seq<Binding>, nextId: nat, m: map<nat, int>, args: map<nat, int>, cb: nat)
    requires ListOk(list, nextId, m, args)
    ensures ListOk(MarkUnbound(list, cb), nextId, m - {cb}, args)
  {
    var r := MarkUnbound(list, cb);
    forall c | c in m - {cb}
      ensures InForce(r, c)
    {
      assert InForce(list, c);
      var i :| 0 <= i < |list| && list[i].cb == c && !list[i].unbound;
      assert r[i] == list[i];
    }
  }

  lemma {:induction false} RemoveAt(list: seq<Binding>, cb: nat)
    requires Distinct(list)
    ensures var r, at := Remove(list, cb), IndexOfCb(list, cb);
            && Distinct(r) && (forall i :: 0 <= i < |r| ==> r[i].cb != cb)
            && |r| == (if at < |list| then |list| - 1 else |list|)
            && forall i :: 0 <= i < |r| ==> r[i] == list[if i < at then i else i + 1]
  {
    var r, at := Remove(list, cb), IndexOfCb(list, cb);
    assert forall i :: 0 <= i < |r| ==> r[i] == list[if i < at then i else i + 1];
  }

  lemma {:induction false} RemoveShows(list: seq<Binding>, cb: nat, c: nat)
    requires Distinct(list) && InForce(list, c) && c != cb
    ensures InForce(Remove(list, cb), c)
  {
    RemoveAt(list, cb);
    var r, at := Remove(list, cb), IndexOfCb(list, cb);
    var i :| 0 <= i < |list| && list[i].cb == c && !list[i].unbound;
    assert r[if i < at then i else i - 1] == list[i];
  }

  lemma {:induction false} RemoveOk(list: seq<Binding>, nextId: nat, m: map<nat, int>, args: map<nat, int>, cb: nat)
    requires ListOk(list, nextId, m, args) && Idle(list)
    ensures ListOk(Remove(list, cb), nextId, m - {cb}, args) && Idle(Remove(list, cb))
  {
    RemoveAt(list, cb);
    var r, at := Remove(list, cb), IndexOfCb(list, cb);
    forall i | 0 <= i < |r|
      ensures r[i].id < nextId && !r[i].unbound && r[i].cb != cb
      ensures r[i].cb in m && m[r[i].cb] == r[i].arg && r[i].cb in args && args[r[i].cb] == r[i].arg
    {
      assert r[i] == list[if i < at then i else i + 1];
    }
    forall c | c in m - {cb}
      ensures InForce(r, c)
    {
      assert InForce(list, c);
      RemoveShows(list, cb, c);
    }
  }

  lemma {:induction false} MarkNormalOk(list: seq<Binding>, nextId: nat, m: map<nat, int>, args: map<nat, int>)
    requires ListOk(list, nextId, m, args)
    ensures ListOk(MarkNormal(list), nextId, m, args)
  {
    var r := MarkNormal(list);
    forall c | c in m
      ensures InForce(r, c)
    {
      assert InForce(list, c);
      var i :| 0 <= i < |list| && list[i].cb == c && !list[i].unbound;
      assert r[i].cb == c && !r[i].unbound;
    }
  }

  /** Sweeping drops the flagged bindings and nothing else, and keeps the order. */
  lemma {:induction false} SweepMembers(list: seq<Binding>)
    ensures forall b :: b in Sweep(list) <==> b in list && !b.unbound
    ensures Distinct(list) ==> Distinct(Sweep(list))
  {
    if list != [] {
      SweepMembers(list[1..]);
      var r := Sweep(list[1..]);
      assert forall b :: b in list <==> b == list[0] || b in list[1..];
      if Distinct(list) {
        assert Distinct(list[1..]);
        forall i | 0 <= i < |r|
          ensures list[0].cb != r[i].cb && list[0].id < r[i].id
        {
          assert r[i] in list[1..];
        }
      }
    }
  }

  lemma {:induction false} SweepShows(list: seq<Binding>, m: map<nat, int>)
    requires Shows(list, m)
    ensures Shows(Sweep(list), m)
  {
    SweepMembers(list);
    var r := Sweep(list);
    forall i | 0 <= i < |r|
      ensures r[i].cb in m && m[r[i].cb] == r[i].arg
    {
      assert r[i] in r;
      var j :| 0 <= j < |list| && list[j] == r[i];
    }
    forall c | c in m
      ensures InForce(r, c)
    {
      assert InForce(list, c);
      var i :| 0 <= i < |list| && list[i].cb == c && !list[i].unbound;
      assert list[i] in r;
      var j :| 0 <= j < |r| && r[j] == list[i];
    }
  }

  lemma {:induction false} SweepOk(list: seq<Binding>, nextId: nat, m: map<nat, int>, args: map<nat, int>)
    requires ListOk(list, nextId, m, args)
    ensures ListOk(Sweep(list), nextId, m, args) && Idle(Sweep(list))
  {
    SweepMembers(list);
    SweepShows(list, m);
    var r := Sweep(list);
    forall i | 0 <= i < |r|
      ensures r[i].id < nextId && !r[i].unbound && r[i].cb in args && args[r[i].cb] == r[i].arg
    {
      assert r[i] in r;
      var j :| 0 <= j < |list| && list[j] == r[i];
    }
  }

  lemma {:induction false} SweepHead(list: seq<Binding>)
    requires list != [] && !list[0].unbound
    ensures Sweep(list) != [] && Sweep(list)[0] == list[0]
  {
  }

  // ---------- bind, unbind and trigger keep the invariant ----------

  /** Changing the list of one event, and logging it, leaves the other events alone. */
  lemma {:induction false} OneListChanged(s: State, r: State, e: nat, x: Entry)
    requires Lists(s) && e < |s.lists| && |r.lists| == |s.lists|
    requires forall f :: 0 <= f < |s.lists| && f != e ==> r.lists[f] == s.lists[f]
    requires r.log == Then(s.log, x) && r.running == s.running && s.nextId <= r.nextId
    requires x.Bound? || x.Unbound?
    requires x.event == e && EventOk(r, e)
    ensures Lists(r)
  {
    forall f | 0 <= f < |r.lists| && f != e
      ensures EventOk(r, f)
    {
      assert EventOk(s, f);
    }
  }

  lemma {:induction false} ListReplaced(s: State, r: State, e: nat, x: Entry,
                                        list: seq<Binding>, m: map<nat, int>, args: map<nat, int>)
    requires Lists(s) && e < |s.lists| && r.lists == s.lists[e := list]
    requires r.log == Then(s.log, x) && r.running == s.running && s.nextId <= r.nextId
    requires (x.Bound? || x.Unbound?) && x.event == e && m == Replay(r.log, e) && args == Args(r.log, e)
    requires ListOk(list, r.nextId, m, args) && (r.running != Some(e) ==> Idle(list))
    ensures Lists(r)
  {
    OneListChanged(s, r, e, x);
  }

  /** Bind and unbind entries do not concern the order automaton. */
  lemma {:induction false} NeutralEntry(p: Program, s: State, r: State, x: Entry, todo: seq<nat>, reported: bool)
    requires Logged(s, todo, reported) && Truthful(p, s.log)
    requires x.Bound? || x.Unbound? || x.Created?
    requires r.log == Then(s.log, x) && r.queue == s.queue && r.running == s.running
    requires r.destroyPending == s.destroyPending && s.nextId <= r.nextId
    ensures Logged(r, todo, reported) && Truthful(p, r.log)
  {
  }

  lemma {:induction false} BindLists(s: State, e: nat, cb: nat, arg: int)
    requires e < |s.lists| && Lists(s)
    ensures Lists(DoBind(s, e, cb, arg, true))
  {
    var r := DoBind(s, e, cb, arg, true);
    assert EventOk(s, e);
    BindOk(s.lists[e], s.nextId, Replay(s.log, e), Args(s.log, e), cb, arg);
    OneListChanged(s, r, e, Bound(e, cb, arg));
  }

  lemma {:induction false} BindPending(s: State, e: nat, cb: nat, arg: int)
    requires e < |s.lists| && Pending(s)
    ensures Pending(DoBind(s, e, cb, arg, true))
  {
    var r := DoBind(s, e, cb, arg, true);
    assert s.lists[e] != [] ==> r.lists[e][0].id == s.lists[e][0].id;
    forall i | Started'(s) <= i < |s.queue| && !s.misuse
      ensures Fresh(r, s.queue[i])
    {
      assert Fresh(s, s.queue[i]);
    }
  }

  lemma {:induction false} BindGenuine(s: State, e: nat, cb: nat, arg: int)
    requires e < |s.lists| && Genuine(s)
    ensures Genuine(DoBind(s, e, cb, arg, true))
  {
    var r := DoBind(s, e, cb, arg, true);
    forall i | 0 <= i < |r.queue|
      ensures AsTriggered(r, r.queue[i]) && SavedFirst(r, r.queue[i])
    {
      assert AsTriggered(s, s.queue[i]) && SavedFirst(s, s.queue[i]);
    }
  }

  lemma {:induction false} BindKeeps(p: Program, s: State, e: nat, cb: nat, arg: int, alloc: bool,
                                     todo: seq<nat>, reported: bool)
    requires !s.fault && e < |s.lists| && Inv(p, s, todo, reported)
    ensures Inv(p, DoBind(s, e, cb, arg, alloc), todo, reported)
  {
    var r := DoBind(s, e, cb, arg, alloc);
    if r != s {
      BindLists(s, e, cb, arg);
      NeutralEntry(p, s, r, Bound(e, cb, arg), todo, reported);
      BindPending(s, e, cb, arg);
      BindGenuine(s, e, cb, arg);
    }
  }

  lemma {:induction false} UnbindLists(s: State, e: nat, cb: nat)
    requires e < |s.lists| && Lists(s) && !s.fault && !DoUnbind(s, e, cb).fault
    ensures Lists(DoUnbind(s, e, cb))
  {
    var r := DoUnbind(s, e, cb);
    assert EventOk(s, e);
    if s.running == Some(e) {
      MarkOk(s.lists[e], s.nextId, Replay(s.log, e), Args(s.log, e), cb);
      ListReplaced(s, r, e, Unbound(e, cb), MarkUnbound(s.lists[e], cb), Replay(s.log, e) - {cb}, Args(s.log, e));
    } else {
      RemoveOk(s.lists[e], s.nextId, Replay(s.log, e), Args(s.log, e), cb);
      ListReplaced(s, r, e, Unbound(e, cb), Remove(s.lists[e], cb), Replay(s.log, e) - {cb}, Args(s.log, e));
    }
  }

  lemma {:induction false} UnbindGenuine(s: State, e: nat, cb: nat)
    requires e < |s.lists| && Genuine(s) && Lists(s) && !DoUnbind(s, e, cb).fault
    ensures Genuine(DoUnbind(s, e, cb))
  {
    var r := DoUnbind(s, e, cb);
    assert EventOk(s, e);
    RemoveAt(s.lists[e], cb);
    forall i | 0 <= i < |r.queue|
      ensures AsTriggered(r, r.queue[i]) && SavedFirst(r, r.queue[i])
    {
      assert AsTriggered(s, s.queue[i]) && SavedFirst(s, s.queue[i]);
    }
  }

  lemma {:induction false} UnbindKeeps(p: Program, s: State, e: nat, cb: nat, todo: seq<nat>, reported: bool)
    requires !s.fault && e < |s.lists| && Inv(p, s, todo, reported)
    ensures Inv(p, DoUnbind(s, e, cb), todo, reported)
  {
    var r := DoUnbind(s, e, cb);
    if !r.fault {
      UnbindLists(s, e, cb);
      NeutralEntry(p, s, r, Unbound(e, cb), todo, reported);
      UnbindPending(s, e, cb);
      UnbindGenuine(s, e, cb);
    }
  }

  lemma {:induction false} UnbindPending(s: State, e: nat, cb: nat)
    requires e < |s.lists| && Lists(s) && Pending(s)
    ensures Pending(DoUnbind(s, e, cb))
  {
    var r := DoUnbind(s, e, cb);
    forall i | Started'(s) <= i < |s.queue| && !r.misuse
      ensures Fresh(r, s.queue[i])
    {
      var m := s.queue[i];
      assert Fresh(s, m);
      if m.event == e {
        assert HasWaiting(s, e);
        assert EventOk(s, e);
        RemoveAt(s.lists[e], cb);
      }
    }
  }

  lemma {:induction false} EnqueueLogged(p: Program, s: State, e: nat, data: int, result: Option<ResultCb>,
                                         todo: seq<nat>, reported: bool)
    requires e < |s.lists| && (s.running.Some? ==> |s.queue| > 0)
    requires Logged(s, todo, reported) && Truthful(p, s.log)
    ensures var r := Enqueue(s, e, data, result, true);
            Logged(r, todo, reported) && Truthful(p, r.log)
  {
    var r := Enqueue(s, e, data, result, true);
    assert Ids(r.queue) == Ids(s.queue) + [s.nextId];
    if s.running.Some? {
      assert Ids(r.queue[1..]) == Ids(s.queue[1..]) + [s.nextId];
    }
  }

  lemma {:induction false} EnqueueGenuine(s: State, e: nat, data: int, result: Option<ResultCb>)
    requires e < |s.lists| && Genuine(s) && Lists(s)
    ensures Genuine(Enqueue(s, e, data, result, true))
  {
    var r := Enqueue(s, e, data, result, true);
    assert EventOk(s, e);
    forall i | 0 <= i < |r.queue|
      ensures AsTriggered(r, r.queue[i]) && SavedFirst(r, r.queue[i])
    {
      if i < |s.queue| {
        assert AsTriggered(s, s.queue[i]) && SavedFirst(s, s.queue[i]);
      }
    }
  }

  lemma {:induction false} EnqueueKeeps(p: Program, s: State, e: nat, data: int, result: Option<ResultCb>,
                                        alloc: bool, todo: seq<nat>, reported: bool)
    requires !s.fault && e < |s.lists| && Inv(p, s, todo, reported)
    requires s.running.Some? ==> |s.queue| > 0
    ensures Inv(p, Enqueue(s, e, data, result, alloc), todo, reported)
  {
    var r := Enqueue(s, e, data, result, alloc);
    if alloc {
      EnqueueLogged(p, s, e, data, result, todo, reported);
      EnqueueGenuine(s, e, data, result);
      ListsAfter(s, r, r.log.last);
      forall i | Started'(r) <= i < |r.queue|
        ensures !r.queue[i].handled && (r.misuse || Fresh(r, r.queue[i]))
      {
        if i < |s.queue| {
          assert !s.queue[i].handled && (s.misuse || Fresh(s, s.queue[i]));
        }
      }
    }
  }

  // ---------- one moment keeps the invariant ----------

  lemma {:induction false} ActKeeps(p: Program, s: State, a: Action, todo: seq<nat>, reported: bool)
    requires InRun(s) && Inv(p, s, todo, reported)
    ensures Inv(p, Act(s, a), todo, reported)
  {
    if !s.fault {
      match a
      case Bind(e, cb, arg, alloc) =>
        if e < |s.lists| { BindKeeps(p, s, e, cb, arg, alloc, todo, reported); }
      case Unbind(e, cb) =>
        if e < |s.lists| { UnbindKeeps(p, s, e, cb, todo, reported); }
      case Trigger(e, data, result, alloc) =>
        if e < |s.lists| { EnqueueKeeps(p, s, e, data, result, alloc, todo, reported); }
      case Destroy =>
        ListsAfter(s, Act(s, a), CloseRequested);
      case SetHandled(flag) =>
        var r := Act(s, a);
        ListsSame(s, r);
        assert Ids(r.queue) == Ids(s.queue);
    }
  }

  lemma {:induction false} ListsSame(s: State, r: State)
    requires Lists(s) && r.lists == s.lists && r.log == s.log
    requires r.running == s.running && s.nextId <= r.nextId
    ensures Lists(r)
  {
    forall e | 0 <= e < |r.lists|
      ensures EventOk(r, e)
    {
      assert EventOk(s, e);
    }
  }

  /** Entries about moments do not concern the binding lists. */
  lemma {:induction false} ListsAfter(s: State, r: State, x: Entry)
    requires Lists(s) && r.lists == s.lists && r.log == Then(s.log, x)
    requires r.running == s.running && s.nextId <= r.nextId
    requires !x.Bound? && !x.Unbound? && !x.Created?
    ensures Lists(r)
  {
    forall e | 0 <= e < |r.lists|
      ensures EventOk(r, e)
    {
      assert EventOk(s, e);
    }
  }

  lemma {:induction false} ScriptKeeps(p: Program, s: State, script: seq<Action>, todo: seq<nat>, reported: bool)
    requires InRun(s) && Inv(p, s, todo, reported)
    ensures Inv(p, RunScript(s, script), todo, reported)
    decreases |script|
  {
    if script != [] {
      ActKeeps(p, s, script[0], todo, reported);
      ScriptKeeps(p, Act(s, script[0]), script[1..], todo, reported);
    }
  }

  lemma {:induction false} ActHandled(p: Program, s: State, a: Action, id: nat)
    requires InRun(s) && !Act(s, a).fault
    ensures Act(s, a).queue[0].handled == LastFlag([a], s.queue[0].handled)
    ensures HandledIn(p, Act(s, a).log, id) == HandledIn(p, s.log, id)
  {
    var r := Act(s, a);
    assert [a][1..] == [];
  }

  lemma {:induction false} ScriptHandled(p: Program, s: State, script: seq<Action>, id: nat)
    requires InRun(s) && !RunScript(s, script).fault
    ensures RunScript(s, script).queue[0].handled == LastFlag(script, s.queue[0].handled)
    ensures HandledIn(p, RunScript(s, script).log, id) == HandledIn(p, s.log, id)
    decreases |script|
  {
    if script != [] {
      var s1 := Act(s, script[0]);
      if s1.fault {
        FaultStays(s1, script[1..]);
      }
      ActHandled(p, s, script[0], id);
      ScriptHandled(p, s1, script[1..], id);
      assert [script[0]][1..] == [];
    }
  }

  /** The callbacks still to be called from position `i` on. */
  function NormalCbs(list: seq<Binding>, i: nat): seq<nat>
    requires i <= |list|
    decreases |list| - i
  {
    if i == |list| then []
    else (if list[i].normal then [list[i].cb] else []) + NormalCbs(list, i + 1)
  }

  lemma {:induction false} ExtendsKeepsCbs(old': seq<Binding>, new': seq<Binding>, i: nat)
    requires Extends(old', new') && i <= |old'|
    ensures NormalCbs(new', i) == NormalCbs(old', i)
    decreases |old'| - i
  {
    if i < |old'| {
      ExtendsKeepsCbs(old', new', i + 1);
    } else {
      NoNormalCbs(new', i);
    }
  }

  lemma {:induction false} NoNormalCbs(list: seq<Binding>, i: nat)
    requires i <= |list| && forall j :: i <= j < |list| ==> !list[j].normal
    ensures NormalCbs(list, i) == []
    decreases |list| - i
  {
    if i < |list| {
      NoNormalCbs(list, i + 1);
    }
  }

  lemma {:induction false} CbsFrom(list: seq<Binding>, i: nat)
    requires i < |list|
    ensures Cbs(list[i..]) == [list[i].cb] + Cbs(list[i + 1..])
  {
    forall j | 0 <= j < |list| - i
      ensures Cbs(list[i..])[j] == ([list[i].cb] + Cbs(list[i + 1..]))[j]
    {
      assert list[i..][j] == list[i + j] && (j > 0 ==> list[i + 1..][j - 1] == list[i + j]);
    }
  }

  lemma {:induction false} AllNormalCbs(list: seq<Binding>, i: nat)
    requires i <= |list| && forall j :: i <= j < |list| ==> list[j].normal
    ensures NormalCbs(list, i) == Cbs(list[i..])
    decreases |list| - i
  {
    if i < |list| {
      AllNormalCbs(list, i + 1);
      CbsFrom(list, i);
    } else {
      assert list[i..] == [];
    }
  }

  /** Between calls the flag says exactly what the callbacks so far have done. */
  ghost predicate FlagOk(p: Program, s: State)
    requires InRun(s)
  {
    !s.fault ==> s.queue[0].handled == HandledIn(p, s.log, s.queue[0].id)
  }

  /** The state in which the callback at position `i` is entered. */
  function Entered(s: State, i: nat): (r: State)
    requires InRun(s) && i < |Current(s)|
    ensures SameRun(s, r)
  {
    var b, m := Current(s)[i], s.queue[0];
    s.(log := Then(s.log, Called(m.id, m.event, b.cb, b.arg)))
  }

  lemma {:induction false} EnteredKeeps(p: Program, s: State, i: nat)
    requires InRun(s) && !s.fault && i < |Current(s)| && Current(s)[i].normal
    requires Inv(p, s, NormalCbs(Current(s), i), false)
    ensures Inv(p, Entered(s, i), NormalCbs(Current(s), i + 1), false)
  {
    var s1, todo := Entered(s, i), NormalCbs(Current(s), i + 1);
    assert EventOk(s, s.queue[0].event) && AsTriggered(s, s.queue[0]);
    ListsAfter(s, s1, s1.log.last);
    assert NormalCbs(Current(s), i)[1..] == todo;
  }

  /** Restoring the flag concerns nothing else. */
  lemma {:induction false} HandledKeeps(p: Program, s: State, flag: bool, todo: seq<nat>, reported: bool)
    requires InRun(s) && Inv(p, s, todo, reported)
    ensures Inv(p, WithHandled(s, flag), todo, reported)
  {
    var r := WithHandled(s, flag);
    if !s.fault {
      ListsSame(s, r);
      assert Ids(r.queue) == Ids(s.queue);
    }
  }

  lemma {:induction false} CallFlagged(p: Program, s: State, i: nat)
    requires InRun(s) && !s.fault && i < |Current(s)| && FlagOk(p, s)
    ensures FlagOk(p, CallAt(p, s, i))
  {
    var m, s1 := s.queue[0], Entered(s, i);
    if !RunScript(s1, p(s1.log)).fault {
      ScriptHandled(p, s1, p(s1.log), m.id);
      if !m.handled {
        assert LastFlag(p(s1.log), m.handled) == LastFlag(p(s1.log), false);
      }
    }
  }

  lemma {:induction false} CallKeeps(p: Program, s: State, i: nat)
    requires InRun(s) && !s.fault && i < |Current(s)| && Current(s)[i].normal
    requires Inv(p, s, NormalCbs(Current(s), i), false) && FlagOk(p, s)
    ensures Inv(p, CallAt(p, s, i), NormalCbs(Current(s), i + 1), false) && FlagOk(p, CallAt(p, s, i))
  {
    var s1, todo := Entered(s, i), NormalCbs(Current(s), i + 1);
    var s2 := RunScript(s1, p(s1.log));
    EnteredKeeps(p, s, i);
    ScriptKeeps(p, s1, p(s1.log), todo, false);
    HandledKeeps(p, s2, s.queue[0].handled || s2.queue[0].handled, todo, false);
    CallFlagged(p, s, i);
  }

  lemma {:induction false} CallsKeep(p: Program, s: State, i: nat)
    requires InRun(s) && i <= |Current(s)|
    requires Inv(p, s, NormalCbs(Current(s), i), false) && FlagOk(p, s)
    ensures Inv(p, RunCalls(p, s, i), [], false) && FlagOk(p, RunCalls(p, s, i))
    decreases NormalFrom(Current(s), i), |Current(s)| - i
  {
    if s.fault || i == |Current(s)| {
    } else if Current(s)[i].normal {
      var s1 := CallAt(p, s, i);
      CallKeeps(p, s, i);
      CallExtends(p, s, i);
      ExtendsKeepsNormal(Current(s), Current(s1), i + 1);
      ExtendsKeepsCbs(Current(s), Current(s1), i + 1);
      CallsKeep(p, s1, i + 1);
    } else {
      CallsKeep(p, s, i + 1);
    }
  }

  /** The moment is at its start: its callbacks, from the saved head on, are still to be called. */
  ghost predicate AtStart(p: Program, s: State) {
    && InRun(s)
    && var start := StartIndex(Current(s), s.queue[0].saved);
       && s.fault == start.None?
       && Inv(p, s, if start.Some? then NormalCbs(Current(s), start.value) else [], false)
       && FlagOk(p, s)
  }

  lemma {:induction false} BeginLogged(p: Program, s: State)
    requires Ready(s) && |s.queue| > 0 && s.queue[0].event < |s.lists| && !s.destroyPending
    requires Logged(s, [], false) && Truthful(p, s.log) && !Begin(s).fault
    requires AsTriggered(s, s.queue[0])
    ensures var r := Begin(s);
            && Logged(r, r.log.last.listed, false) && Truthful(p, r.log)
            && !HandledIn(p, r.log, s.queue[0].id)
  {
    var r := Begin(s);
    assert Ids(s.queue) == [s.queue[0].id] + Ids(s.queue[1..]);
    WaitingUnhandled(p, s.log, s.queue[0].id);
  }

  /** A saved head that is null or still the head leads to a position in the list. */
  lemma {:induction false} HeadFound(list: seq<Binding>, saved: Option<nat>)
    requires saved.None? || (list != [] && list[0].id == saved.value)
    ensures StartIndex(MarkNormal(list), saved) == Some(if saved.None? then |list| else 0)
  {
  }

  lemma {:induction false} BeginKeeps(p: Program, s: State)
    requires Ready(s) && |s.queue| > 0 && s.queue[0].event < |s.lists|
    requires !s.fault && !s.destroyPending && Inv(p, s, [], false)
    ensures AtStart(p, Begin(s))
  {
    var r := Begin(s);
    var e := s.queue[0].event;
    assert Current(r) == MarkNormal(s.lists[e]);
    if !s.misuse {
      assert Fresh(s, s.queue[0]);
      HeadFound(s.lists[e], s.queue[0].saved);
    }
    if !r.fault {
      var start := StartIndex(Current(r), s.queue[0].saved);
      assert AsTriggered(s, s.queue[0]);
      AllNormalCbs(Current(r), start.value);
      MarkKeepsLists(s, r, e, r.log.last);
      BeginLogged(p, s);
    }
  }

  lemma {:induction false} ServeKeeps(p: Program, s: State)
    requires AtStart(p, s)
    ensures Inv(p, Serve(p, s), [], false) && FlagOk(p, Serve(p, s))
  {
    var start := StartIndex(Current(s), s.queue[0].saved);
    if start.Some? {
      CallsKeep(p, s, start.value);
    }
  }

  lemma {:induction false} MarkKeepsLists(s: State, r: State, e: nat, x: Entry)
    requires Lists(s) && s.running.None? && e < |s.lists|
    requires r.lists == s.lists[e := MarkNormal(s.lists[e])] && r.log == Then(s.log, x)
    requires r.running == Some(e) && r.nextId == s.nextId && x.Started?
    ensures Lists(r)
  {
    forall f | 0 <= f < |r.lists|
      ensures EventOk(r, f)
    {
      assert EventOk(s, f);
      if f == e {
        MarkNormalOk(s.lists[e], s.nextId, Replay(s.log, e), Args(s.log, e));
      }
    }
  }

  lemma {:induction false} ReportKeeps(p: Program, s: State)
    requires InRun(s) && Inv(p, s, [], false) && FlagOk(p, s)
    ensures Inv(p, Report(p, s), [], s.queue[0].result.Some?)
  {
    var m := s.queue[0];
    if !s.fault && m.result.Some? {
      var x := Reported(m.id, m.event, m.result.value, m.handled);
      var s1 := s.(log := Then(s.log, x));
      ListsAfter(s, s1, x);
      ScriptKeeps(p, s1, p(s1.log), [], true);
    }
  }

  lemma {:induction false} RetirePending(s: State)
    requires InRun(s) && !s.fault && Pending(s)
    ensures Pending(Retire(s))
  {
    var r := Retire(s);
    var e := s.queue[0].event;
    forall i | 0 <= i < |r.queue|
      ensures !r.queue[i].handled && (r.misuse || Fresh(r, r.queue[i]))
    {
      var q := s.queue[i + 1];
      assert !q.handled && (s.misuse || Fresh(s, q));
      if !s.misuse && q.event == e && q.saved.Some? {
        SweepHead(s.lists[e]);
      }
    }
  }

  lemma {:induction false} RetireGenuine(s: State)
    requires InRun(s) && !s.fault && Genuine(s)
    ensures Genuine(Retire(s))
  {
    var r, e := Retire(s), s.queue[0].event;
    SweepMembers(s.lists[e]);
    forall i | 0 <= i < |r.queue|
      ensures AsTriggered(r, r.queue[i]) && SavedFirst(r, r.queue[i])
    {
      var m := s.queue[i + 1];
      assert AsTriggered(s, m) && SavedFirst(s, m);
      forall j | 0 <= j < |r.lists[m.event]|
        ensures m.saved.Some? ==> m.saved.value <= r.lists[m.event][j].id
      {
        assert m.event == e ==> r.lists[e][j] in s.lists[e];
      }
    }
  }

  lemma {:induction false} RetireLogged(p: Program, s: State)
    requires InRun(s) && !s.fault && Logged(s, [], s.queue[0].result.Some?) && Truthful(p, s.log)
    ensures Logged(Retire(s), [], false) && Truthful(p, Retire(s).log)
  {
  }

  lemma {:induction false} RetireKeeps(p: Program, s: State)
    requires InRun(s) && Inv(p, s, [], s.queue[0].result.Some?)
    ensures Inv(p, Retire(s), [], false)
  {
    if !s.fault {
      RetireLogged(p, s);
      SweepKeepsLists(s, Retire(s), s.queue[0].event);
      RetirePending(s);
      RetireGenuine(s);
    }
  }

  lemma {:induction false} SweepKeepsLists(s: State, r: State, e: nat)
    requires Lists(s) && s.running == Some(e) && e < |s.lists|
    requires r.lists == s.lists[e := Sweep(s.lists[e])] && r.running.None? && r.nextId == s.nextId
    requires exists id :: r.log == Then(s.log, Freed(id))
    ensures Lists(r)
  {
    var id :| r.log == Then(s.log, Freed(id));
    forall f | 0 <= f < |r.lists|
      ensures EventOk(r, f)
    {
      assert EventOk(s, f);
      if f == e {
        SweepOk(s.lists[e], s.nextId, Replay(s.log, e), Args(s.log, e));
      }
    }
  }

  lemma {:induction false} WrapUpKeeps(p: Program, s: State)
    requires InRun(s) && Inv(p, s, [], false) && FlagOk(p, s)
    ensures Inv(p, Retire(Report(p, s)), [], false)
  {
    ReportKeeps(p, s);
    assert SameRun(s, Report(p, s));
    RetireKeeps(p, Report(p, s));
  }

  lemma {:induction false} BegunKeeps(p: Program, s: State)
    requires AtStart(p, s)
    ensures Inv(p, Retire(Report(p, Serve(p, s))), [], false)
  {
    ServeKeeps(p, s);
    WrapUpKeeps(p, Serve(p, s));
  }

  lemma {:induction false} MomentKeeps(p: Program, s: State)
    requires Ready(s) && !Quiet(s) && Inv(p, s, [], false)
    ensures Inv(p, HandleMoment(p, s), [], false)
  {
    if s.queue[0].event < |s.lists| {
      BeginKeeps(p, s);
      BegunKeeps(p, Begin(s));
    }
  }

  // ---------- every run ----------

  /** What every moment preserves, a drain preserves. */
  lemma {:induction false} DrainPreserves(p: Program, s: State, fuel: nat, good: State -> bool)
    requires (!s.fault ==> Ready(s)) && good(s)
    requires forall x: State :: good(x) && !Quiet(x) ==> Ready(x) && good(HandleMoment(p, x))
    ensures good(Drain(p, s, fuel))
    decreases fuel
  {
    if !Quiet(s) && fuel > 0 {
      DrainPreserves(p, HandleMoment(p, s), fuel - 1, good);
    }
  }

  lemma {:induction false} DrainKeeps(p: Program, s: State, fuel: nat)
    requires (!s.fault ==> Ready(s)) && Inv(p, s, [], false)
    ensures Inv(p, Drain(p, s, fuel), [], false)
  {
    var good := (x: State) => (!x.fault ==> Ready(x)) && Inv(p, x, [], false);
    forall x: State | good(x) && !Quiet(x)
      ensures Ready(x) && good(HandleMoment(p, x))
    {
      MomentKeeps(p, x);
    }
    DrainPreserves(p, s, fuel, good);
  }

  /** The dispatcher is gone: everything triggered has been freed. */
  ghost predicate Over(p: Program, s: State) {
    && s.queue == [] && s.lists == [] && s.destroyPending && Truthful(p, s.log)
    && Watch(s.log).Some? && Watch(s.log).value.ended
  }

  ghost predicate Closing(p: Program, log: Log, waiting: seq<nat>) {
    && Watch(log).Some? && Truthful(p, log)
    && var w := Watch(log).value;
       w.waiting == waiting && w.current.None? && w.closing && !w.ended
  }

  lemma {:induction false} FreeOneWatched(p: Program, log: Log, waiting: seq<nat>)
    requires Closing(p, log, waiting) && waiting != []
    ensures Closing(p, Then(log, Freed(waiting[0])), waiting[1..])
  {
  }

  lemma {:induction false} FreesWatched(p: Program, log: Log, queue: seq<Moment>)
    requires Closing(p, log, Ids(queue))
    ensures Closing(p, LogFrees(log, queue), [])
    decreases |queue|
  {
    if queue != [] {
      FreeOneWatched(p, log, Ids(queue));
      assert Ids(queue)[1..] == Ids(queue[1..]);
      FreesWatched(p, Then(log, Freed(queue[0].id)), queue[1..]);
    }
  }

  lemma {:induction false} DisposeEnds(p: Program, s: State)
    requires Ready(s) && !s.fault && s.destroyPending && Inv(p, s, [], false)
    ensures Over(p, Dispose(s))
  {
    FreesWatched(p, s.log, s.queue);
  }

  ghost predicate RunInv(p: Program, s: State) {
    match (s.fault, s.destroyPending)
    case (true, _) => s.misuse
    case (false, true) => Over(p, s)
    case (false, false) => Inv(p, s, [], false)
  }

  lemma {:induction false} FinishKeeps(p: Program, s: State)
    requires (!s.fault ==> Ready(s)) && Inv(p, s, [], false)
    ensures RunInv(p, Finish(s))
  {
    if !s.fault && s.destroyPending {
      DisposeEnds(p, s);
    }
  }

  lemma {:induction false} DrainFinishKeeps(p: Program, s: State, fuel: nat)
    requires Ready(s) && Inv(p, s, [], false)
    ensures RunInv(p, Finish(Drain(p, s, fuel)))
  {
    DrainKeeps(p, s, fuel);
    FinishKeeps(p, Drain(p, s, fuel));
  }

  lemma {:induction false} TriggerKeeps(p: Program, s: State, e: nat, data: int,
                                        result: Option<ResultCb>, fuel: nat)
    requires Ready(s) && !s.fault && e < |s.lists| && Inv(p, s, [], false)
    ensures RunInv(p, Finish(Drain(p, Enqueue(s, e, data, result, true), fuel)))
  {
    EnqueueKeeps(p, s, e, data, result, true, [], false);
    DrainFinishKeeps(p, Enqueue(s, e, data, result, true), fuel);
  }

  lemma {:induction false} DestroyKeeps(p: Program, s: State)
    requires Ready(s) && !s.fault && Inv(p, s, [], false)
    ensures var s1 := s.(destroyPending := true, log := Then(s.log, CloseRequested));
            Over(p, Dispose(s1))
  {
    var s1 := s.(destroyPending := true, log := Then(s.log, CloseRequested));
    ListsAfter(s, s1, CloseRequested);
    DisposeEnds(p, s1);
  }

  lemma {:induction false} CreateLists(s: State)
    requires Lists(s) && s.running.None?
    ensures Lists(s.(lists := s.lists + [[]], log := Then(s.log, Created(|s.lists|))))
  {
    var r := s.(lists := s.lists + [[]], log := Then(s.log, Created(|s.lists|)));
    forall e | 0 <= e < |r.lists|
      ensures EventOk(r, e)
    {
      if e < |s.lists| {
        assert EventOk(s, e);
      }
    }
  }

  lemma {:induction false} CreateKeeps(p: Program, s: State)
    requires Ready(s) && !s.fault && Inv(p, s, [], false)
    ensures Inv(p, s.(lists := s.lists + [[]], log := Then(s.log, Created(|s.lists|))), [], false)
  {
    var r := s.(lists := s.lists + [[]], log := Then(s.log, Created(|s.lists|)));
    CreateLists(s);
    NeutralEntry(p, s, r, Created(|s.lists|), [], false);
  }

  lemma {:induction false} StepKeeps(p: Program, s: State, op: Op)
    requires (!s.fault ==> Ready(s)) && RunInv(p, s)
    ensures RunInv(p, Step(p, s, op))
  {
    if !s.fault && !s.destroyPending {
      match op
      case CreateEvent(alloc) =>
        if alloc { CreateKeeps(p, s); }
      case AppBind(e, cb, arg, alloc) =>
        if e < |s.lists| { BindKeeps(p, s, e, cb, arg, alloc, [], false); }
      case AppUnbind(e, cb) =>
        if e < |s.lists| { UnbindKeeps(p, s, e, cb, [], false); }
      case AppTrigger(e, data, result, alloc, fuel) =>
        if e < |s.lists| && alloc { TriggerKeeps(p, s, e, data, result, fuel); }
      case AppDestroy => DestroyKeeps(p, s);
    }
  }

  lemma {:induction false} RunKeeps(p: Program, ops: seq<Op>)
    ensures RunInv(p, Run(p, ops))
    decreases |ops|
  {
    if ops != [] {
      RunKeeps(p, ops[..|ops| - 1]);
      StepKeeps(p, Run(p, ops[..|ops| - 1]), ops[|ops| - 1]);
    }
  }
}
