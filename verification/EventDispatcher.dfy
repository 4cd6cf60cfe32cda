/**
 The dispatcher of src/ls_eventing.c on the heap: events with their linked bindings and
 the linked queue of moments, changed in place.  Every method is proved to do to the
 abstract state `model` what the functions of EventModel say.
 */
module EventDispatcher {
  import opened Options
  import opened EventModel
  import opened EventList

  /** One triggering of an event; `bindings` is the list head saved at that time. */
  class MomentNode {
    ghost const id: nat
    ghost const event: nat
    const notifier: Event
    const data: int
    const bindings: BindingNode?
    const result: Option<ResultCb>
    var handled: bool
    var next: MomentNode?

    constructor (ghost id: nat, ghost event: nat, notifier: Event, data: int,
                 bindings: BindingNode?, result: Option<ResultCb>)
      ensures this.id == id && this.event == event && this.notifier == notifier && this.data == data
      ensures this.bindings == bindings && this.result == result && !handled && next == null
    {
      this.id, this.event, this.notifier, this.data := id, event, notifier, data;
      this.bindings, this.result, handled, next := bindings, result, false, null;
    }

    ghost function View(): Moment
      reads this
    {
      Moment(id, event, data, if bindings == null then None else Some(bindings.id), result, handled)
    }
  }

  /** The fields `next_moment` and `moment_queue_tail` and the chain between them. */
  class MomentQueue {
    var head: MomentNode?
    var tail: MomentNode?
    ghost var nodes: seq<MomentNode>
    ghost var contents: seq<Moment>
    ghost var footprint: set<object>

    ghost function At(i: nat): MomentNode?
      reads this
    {
      if i < |nodes| then nodes[i] else null
    }

    ghost predicate Valid()
      reads this, footprint
    {
      && this in footprint
      && |contents| == |nodes|
      && (forall i :: 0 <= i < |nodes| ==> nodes[i] in footprint && nodes[i].View() == contents[i])
      && (forall i, j :: 0 <= i < j < |nodes| ==> nodes[i] != nodes[j])
      && head == At(0)
      && tail == (if nodes == [] then null else nodes[|nodes| - 1])
      && (forall i {:trigger nodes[i].next} :: 0 <= i < |nodes| ==> nodes[i].next == At(i + 1))
    }

    constructor ()
      ensures Valid() && nodes == [] && contents == [] && fresh(footprint)
    {
      head, tail := null, null;
      nodes, contents, footprint := [], [], {this};
    }

    method Append(moment: MomentNode)
      requires Valid() && moment !in footprint && moment.next == null
      modifies footprint
      ensures Valid() && footprint == old(footprint) + {moment}
      ensures nodes == old(nodes) + [moment] && contents == old(contents) + [moment.View()]
    {
      if tail != null {
        tail.next := moment;
      }
      if head == null {
        head := moment;
      }
      tail := moment;
      nodes := nodes + [moment];
      contents := contents + [moment.View()];
      footprint := footprint + {moment};
    }

    method DropHead()
      requires Valid() && head != null
      modifies this
      ensures Valid() && footprint == old(footprint)
      ensures nodes == old(nodes)[1..] && contents == old(contents)[1..]
    {
      head := head.next;
      if head == null {
        tail := null;
      }
      nodes := nodes[1..];
      contents := contents[1..];
    }

    method SetHandled(flag: bool)
      requires Valid() && head != null
      modifies footprint
      ensures Valid() && nodes == old(nodes) && footprint == old(footprint) && head == old(head) && head.handled == flag
      ensures contents == old(contents)[0 := old(contents)[0].(handled := flag)]
    {
      head.handled := flag;
      contents := contents[0 := contents[0].(handled := flag)];
    }
  }

  class Dispatcher {
    var names: seq<string>
    var events: seq<Event>
    var running: Event?
    const queue: MomentQueue
    var destroyPending: bool
    var calls: nat
    ghost var model: State
    ghost var repr: set<object>

    ghost predicate HoldsEvent(i: nat)
      requires i < |events|
      reads this, repr
    {
      && i < |model.lists|
      && events[i] in repr && queue in repr
      && events[i].footprint <= repr
      && events[i].footprint !! queue.footprint && this !in events[i].footprint
      && (forall k :: 0 <= k < |events[i].spine| ==>
            events[i].spine[k].id < model.nextId && events[i].Names(events[i].spine[k]))
      && events[i].Valid()
      && events[i].contents == model.lists[i]
    }

    ghost predicate EventsValid()
      reads this, repr
    {
      && |model.lists| == |events|
      && (forall i :: 0 <= i < |events| ==> events[i] in repr)
      && (forall i :: 0 <= i < |events| ==> HoldsEvent(i))
      && (forall i, j :: 0 <= i < j < |events| ==> events[i].footprint !! events[j].footprint)
    }

    ghost predicate HoldsMoment(m: MomentNode)
      reads this, repr
    {
      && m.event < |events| && m.notifier == events[m.event] && m.notifier in repr
      && (m.bindings != null ==> m.bindings.id < model.nextId && m.notifier.Names(m.bindings))
    }

    ghost predicate QueueValid()
      reads this, repr
    {
      && queue in repr && queue.footprint <= repr && this !in queue.footprint
      && (forall k :: 0 <= k < |queue.nodes| ==> HoldsMoment(queue.nodes[k]))
      && queue.Valid()
      && queue.contents == model.queue
    }

    ghost predicate Valid()
      reads this, repr
    {
      && this in repr && |names| == |events|
      && EventsValid()
      && QueueValid()
      && (model.running.Some? ==> model.running.value < |events|)
      && running == (if model.running.Some? then events[model.running.value] else null)
      && !model.fault && model.destroyPending == destroyPending && calls == CallCount(model.log)
    }

    constructor ()
      ensures Valid() && fresh(repr) && model == EMPTY
    {
      names, events := [], [];
      running := null;
      queue := new MomentQueue();
      destroyPending := false;
      calls := 0;
      new;
      model := EMPTY;
      repr := {this} + queue.footprint;
    }

    // ---------- frames: what an operation on one part leaves alone ----------

    /** The dispatcher's own bookkeeping may grow without disturbing what it holds. */
    twostate predicate Grown()
      reads this
    {
      old(repr) <= repr && old(events) <= events && old(model).nextId <= model.nextId
    }

    twostate lemma EventKept(i: nat)
      requires Grown() && i < |old(events)| && old(HoldsEvent(i))
      requires i < |model.lists| && model.lists[i] == old(model).lists[i]
      requires forall o :: o in old(events[i].footprint) ==> unchanged(o)
      requires queue.footprint !! events[i].footprint
      ensures HoldsEvent(i)
    {
      assert events[i] == old(events[i]);
      assert old(events[i].Valid());
    }

    /** Nodes join an event's list only with a new stamp. */
    twostate predicate NodesKept(event: Event)
      reads event
    {
      forall k :: 0 <= k < |event.spine| ==>
        event.spine[k] in old(event.spine) || event.spine[k].id >= old(model).nextId
    }

    twostate lemma QueueKept()
      requires Grown() && old(QueueValid()) && model.queue == old(model).queue
      requires forall o :: o in old(queue.footprint) ==> unchanged(o)
      requires forall i :: 0 <= i < |old(events)| ==> NodesKept(events[i])
      ensures QueueValid()
    {
      assert old(queue.Valid());
      forall k | 0 <= k < |queue.nodes|
        ensures HoldsMoment(queue.nodes[k])
      {
        assert old(HoldsMoment(queue.nodes[k]));
        assert NodesKept(events[queue.nodes[k].event]);
      }
    }

    /**
     `ls_event_dispatcher_create_event`: a name that is empty or, up to `alike`, in use is
     refused; `alloc` says whether there is memory.
     */
    method CreateEvent(name: string, alike: (string, string) -> bool, alloc: bool, ghost p: Program)
      returns (event: Event?)
      requires Valid() && Ready(model) && !model.destroyPending
      modifies this
      ensures Valid() && fresh(repr - old(repr))
      ensures event != null <==>
              name != "" && alloc && forall i :: 0 <= i < |old(names)| ==> !alike(old(names)[i], name)
      ensures if event == null then events == old(events) && names == old(names)
              else events == old(events) + [event] && names == old(names) + [name]
      ensures model == Step(p, old(model), EventModel.CreateEvent(event != null))
    {
      if name == "" || !alloc || exists i :: 0 <= i < |names| && alike(names[i], name) {
        return null;
      }
      event := new Event();
      names := names + [name];
      events := events + [event];
      Record(model.(lists := model.lists + [[]], log := Then(model.log, Created(|model.lists|))), event.footprint);
      assert forall o :: o in old(repr) && o != this ==> unchanged(o);
      EventJoins(event);
    }

    twostate lemma EventJoins(new event: Event)
      requires old(Valid()) && events == old(events) + [event] && fresh(event.footprint)
      requires event.Valid() && event.contents == [] && event.spine == [] && event.footprint <= repr
      requires Grown() && model.lists == old(model).lists + [[]] && model.queue == old(model).queue
      requires forall o :: o in old(repr) && o != this ==> unchanged(o)
      ensures EventsValid() && QueueValid()
    {
      forall i | 0 <= i < |events|
        ensures HoldsEvent(i)
        ensures i < |old(events)| ==> events[i].footprint == old(events[i].footprint) && NodesKept(events[i])
      {
        if i < |old(events)| {
          assert old(HoldsEvent(i));
          assert old(events[i].Valid());
          EventKept(i);
        }
      }
      QueueKept();
    }

    /** An operation on event `e` alone keeps the whole. */
    twostate lemma OneEventChanged(e: nat)
      requires old(Valid()) && Grown() && events == old(events)
      requires e < |events| && HoldsEvent(e) && NodesKept(events[e])
      requires fresh(events[e].footprint - old(events[e].footprint))
      requires |model.lists| == |old(model).lists| && model.queue == old(model).queue
      requires forall i :: 0 <= i < |events| && i != e ==> model.lists[i] == old(model).lists[i]
      requires forall o :: o in old(repr) && o !in old(events[e].footprint) && o != this ==> unchanged(o)
      ensures EventsValid() && QueueValid() && queue.nodes == old(queue.nodes)
      ensures forall i :: 0 <= i < |events| && i != e ==> events[i].spine == old(events[i].spine)
    {
      assert old(HoldsEvent(e));
      assert forall o :: o in old(queue.footprint) ==> unchanged(o);
      forall i | 0 <= i < |events|
        ensures HoldsEvent(i)
        ensures i != e ==> events[i].footprint == old(events[i].footprint) && NodesKept(events[i])
        ensures i != e ==> events[i].spine == old(events[i].spine)
      {
        assert old(HoldsEvent(i));
        if i != e {
          assert old(events[i].footprint !! events[e].footprint);
          assert forall o :: o in old(events[i].footprint) ==> unchanged(o);
          EventKept(i);
        }
      }
      QueueKept();
    }

    /** The ghost bookkeeping at the end of an operation. */
    ghost method Record(result: State, added: set<object>)
      modifies this`model, this`repr
      ensures model == result && repr == old(repr) + added
    {
      model := result;
      repr := repr + added;
    }

    /** An event whose list has grown by at most one newly stamped node is still held. */
    twostate lemma EventBound(e: nat, new node: BindingNode?)
      requires old(Valid()) && Grown() && events == old(events)
      requires e < |events| && e < |model.lists| && events[e].Valid() && events[e].contents == model.lists[e]
      requires events[e].spine == old(events[e].spine) + (if node == null then [] else [node])
      requires events[e].footprint == old(events[e].footprint) + (if node == null then {} else {node})
      requires queue.footprint == old(queue.footprint)
      requires node != null ==> node in repr && fresh(node) && node.id == old(model).nextId < model.nextId
      ensures HoldsEvent(e) && NodesKept(events[e])
    {
      assert old(HoldsEvent(e));
      var spine, was := events[e].spine, old(events[e].spine);
      forall k | 0 <= k < |spine|
        ensures spine[k].id < model.nextId && events[e].Names(spine[k])
        ensures spine[k] in was || spine[k].id >= old(model).nextId
      {
        assert k < |was| ==> spine[k] == was[k];
      }
    }

    /** What a bind on event `e` leaves behind, before the bookkeeping is checked. */
    twostate predicate BoundOn(e: nat, new node: BindingNode?)
      requires e < |events| && e < |old(events)|
      reads this, events[e], queue
    {
      && events == old(events)
      && events[e].spine == old(events[e].spine) + (if node == null then [] else [node])
      && events[e].footprint == old(events[e].footprint) + (if node == null then {} else {node})
      && queue.footprint == old(queue.footprint)
      && (node != null ==> node in repr && fresh(node) && node.id == old(model).nextId < model.nextId)
    }

    /** Outside the lists nothing has changed that callers can see. */
    twostate predicate Unmoved()
      reads this
    {
      && events == old(events) && names == old(names) && running == old(running)
      && destroyPending == old(destroyPending) && calls == old(calls)
      && !model.fault && model.running == old(model).running && model.queue == old(model).queue
      && model.destroyPending == old(model).destroyPending && CallCount(model.log) == CallCount(old(model).log)
    }

    twostate lemma BindSettles(e: nat, new node: BindingNode?)
      requires old(Valid()) && Grown() && Unmoved() && e < |events| && BoundOn(e, node)
      requires events[e].Valid() && model.lists == old(model).lists[e := events[e].contents]
      requires forall o :: o in old(repr) && o !in old(events[e].footprint) && o != this ==> unchanged(o)
      ensures Valid() && queue.nodes == old(queue.nodes)
      ensures forall i :: 0 <= i < |events| && i != e ==> events[i].spine == old(events[i].spine)
    {
      EventBound(e, node);
      OneEventChanged(e);
    }

    /** `ls_event_bind`. */
    method BindOn(e: nat, cb: nat, arg: int, alloc: bool) returns (ok: bool)
      requires Valid() && e < |events|
      modifies this, repr
      ensures Valid() && fresh(repr - old(repr)) && ok == (Listed(old(model).lists[e], cb) || alloc)
      ensures model == DoBind(old(model), e, cb, arg, alloc)
      ensures events == old(events) && queue.nodes == old(queue.nodes) && old(events[e].spine) <= events[e].spine
      ensures forall i :: 0 <= i < |events| && i != e ==> events[i].spine == old(events[i].spine)
    {
      assert HoldsEvent(e);
      var event := events[e];
      ghost var node;
      ok, node := event.Bind(cb, arg, alloc, model.nextId);
      Record(DoBind(model, e, cb, arg, alloc), if node == null then {} else {node});
      BindSettles(e, node);
    }

    /** An event whose list has at most lost nodes, in any order of fields, is still held. */
    twostate lemma ShrunkSettles(e: nat)
      requires old(Valid()) && Grown() && e < |events| && events == old(events)
      requires events[e].Valid() && |model.lists| == |events|
      requires forall k :: 0 <= k < |events[e].spine| ==> events[e].spine[k] in old(events[e].spine)
      requires events[e].footprint <= old(events[e].footprint) && queue.footprint == old(queue.footprint)
      requires model.lists == old(model).lists[e := events[e].contents] && model.queue == old(model).queue
      requires forall o :: o in old(repr) && o !in old(events[e].footprint) && o != this ==> unchanged(o)
      ensures EventsValid() && QueueValid() && queue.nodes == old(queue.nodes)
      ensures forall i :: 0 <= i < |events| && i != e ==> events[i].spine == old(events[i].spine)
    {
      assert old(HoldsEvent(e));
      forall k | 0 <= k < |events[e].spine|
        ensures events[e].spine[k].id < model.nextId && events[e].Names(events[e].spine[k])
      {
        var n := events[e].spine[k];
        var j :| 0 <= j < |old(events[e].spine)| && old(events[e].spine)[j] == n;
        assert old(events[e].Names(events[e].spine[j]));
      }
      assert HoldsEvent(e);
      OneEventChanged(e);
    }

    /** `ls_event_unbind` on an event that is not running. */
    method UnbindIdle(e: nat, cb: nat)
      requires Valid() && e < |events| && model.running != Some(e)
      modifies this, repr
      ensures Valid() && fresh(repr - old(repr))
      ensures model == DoUnbind(old(model), e, cb) && events == old(events) && queue.nodes == old(queue.nodes)
      ensures forall i :: 0 <= i < |events| && i != e ==> events[i].spine == old(events[i].spine)
    {
      assert HoldsEvent(e);
      events[e].UnbindNow(cb);
      Record(DoUnbind(model, e, cb), {});
      ShrunkSettles(e);
    }

    /** `ls_event_unbind` on the running event; what is not listed is not found, and nothing changes. */
    method UnbindRunning(e: nat, cb: nat) returns (found: bool)
      requires Valid() && e < |events| && model.running == Some(e)
      modifies this, repr
      ensures Valid() && fresh(repr - old(repr)) && found == Listed(old(model).lists[e], cb)
      ensures model == if found then DoUnbind(old(model), e, cb) else old(model)
      ensures events == old(events) && queue.nodes == old(queue.nodes)
      ensures forall i :: 0 <= i < |events| ==> events[i].spine == old(events[i].spine)
    {
      assert HoldsEvent(e);
      found := events[e].UnbindLater(cb);
      Record(if found then DoUnbind(model, e, cb) else model, {});
      ShrunkSettles(e);
    }

    /** The events are as they were, whatever happened to the queue. */
    twostate lemma EventsKept()
      requires old(EventsValid()) && Grown() && events == old(events) && model.lists == old(model).lists
      requires queue.footprint !! (old(repr) - old(queue.footprint))
      requires forall o :: o in old(repr) && o !in old(queue.footprint) && o != this ==> unchanged(o)
      ensures EventsValid() && forall i :: 0 <= i < |events| ==> unchanged(events[i])
    {
      forall i | 0 <= i < |events|
        ensures HoldsEvent(i) && events[i].footprint == old(events[i].footprint) && unchanged(events[i])
      {
        assert old(HoldsEvent(i));
        assert old(events[i].Valid());
        assert forall o :: o in old(events[i].footprint) ==> unchanged(o);
        EventKept(i);
      }
    }

    lemma HeadNamed(e: nat)
      requires e < |events| && HoldsEvent(e)
      ensures events[e].bindings != null ==> events[e].bindings.id < model.nextId && events[e].Names(events[e].bindings)
      ensures Head(model.lists[e]) == if events[e].bindings == null then None else Some(events[e].bindings.id)
    {
      if events[e].bindings != null {
        assert events[e].spine[0].View() == model.lists[e][0];
      }
    }

    /** A queue that kept, lost or won moments is still held; a new one saved its event's head. */
    twostate lemma QueueSettles()
      requires old(Valid()) && Grown() && events == old(events) && model.lists == old(model).lists
      requires queue.footprint !! (old(repr) - old(queue.footprint))
      requires queue.footprint <= repr && this !in queue.footprint
      requires forall o :: o in old(repr) && o !in old(queue.footprint) && o != this ==> unchanged(o)
      requires queue.Valid() && queue.contents == model.queue
      requires forall k :: 0 <= k < |queue.nodes| ==>
        var m := queue.nodes[k];
        m in old(queue.nodes) || (
          m.event < |events| && m.notifier == events[m.event] && m.bindings == events[m.event].bindings)
      ensures EventsValid() && QueueValid() && forall i :: 0 <= i < |events| ==> unchanged(events[i])
    {
      EventsKept();
      forall k | 0 <= k < |queue.nodes|
        ensures HoldsMoment(queue.nodes[k])
      {
        var m := queue.nodes[k];
        if m in old(queue.nodes) {
          var j :| 0 <= j < |old(queue.nodes)| && old(queue.nodes)[j] == m;
          assert old(HoldsMoment(queue.nodes[j]));
        } else {
          assert unchanged(events[m.event]);
          HeadNamed(m.event);
        }
      }
    }

    /** The first half of `_dispatch_trigger`: the moment joins the queue. */
    method Dispatch(moment: MomentNode)
      requires Valid() && moment !in repr && moment.next == null
      requires moment.event < |events| && moment.notifier == events[moment.event]
      requires moment.bindings == events[moment.event].bindings
      requires moment.View() ==
        Moment(model.nextId, moment.event, moment.data, Head(model.lists[moment.event]), moment.result, false)
      modifies this, queue.footprint
      ensures Valid() && repr == old(repr) + {moment} && events == old(events)
      ensures queue.nodes == old(queue.nodes) + [moment]
      ensures model == Enqueue(old(model), moment.event, moment.data, moment.result, true)
      ensures forall i :: 0 <= i < |events| ==> events[i].spine == old(events[i].spine)
    {
      assert HoldsEvent(moment.event);
      queue.Append(moment);
      Record(Enqueue(model, moment.event, moment.data, moment.result, true), {moment});
      QueueSettles();
    }

    /** `_trigger_prepared` up to the dispatch: sets up the moment and enqueues it. */
    method EnqueueOn(e: nat, data: int, result: Option<ResultCb>)
      requires Valid() && e < |events|
      modifies this, repr
      ensures Valid() && fresh(repr - old(repr)) && events == old(events) && old(queue.nodes) <= queue.nodes
      ensures model == Enqueue(old(model), e, data, result, true)
      ensures forall i :: 0 <= i < |events| ==> events[i].spine == old(events[i].spine)
    {
      assert HoldsEvent(e);
      HeadNamed(e);
      var moment := new MomentNode(model.nextId, e, events[e], data, events[e].bindings, result);
      Dispatch(moment);
    }

    // ---------- callbacks ----------

    /** Only the dispatcher's own fields have changed. */
    twostate lemma NothingElse()
      requires old(Valid()) && Grown() && events == old(events)
      requires model.lists == old(model).lists && model.queue == old(model).queue
      requires forall o :: o in old(repr) && o != this ==> unchanged(o)
      ensures EventsValid() && QueueValid() && queue.nodes == old(queue.nodes)
      ensures forall i :: 0 <= i < |events| ==> events[i].spine == old(events[i].spine)
    {
      assert old(queue.Valid());
      forall k | 0 <= k < |queue.nodes|
        ensures queue.nodes[k] in old(queue.nodes)
      {
      }
      QueueSettles();
    }

    /** A callback sets or clears the handled flag of the running moment. */
    method MarkHandled(flag: bool)
      requires Valid() && InRun(model)
      modifies this, repr
      ensures Valid() && fresh(repr - old(repr))
      ensures model == WithHandled(old(model), flag) && events == old(events) && queue.nodes == old(queue.nodes)
      ensures forall i :: 0 <= i < |events| ==> events[i].spine == old(events[i].spine)
    {
      queue.SetHandled(flag);
      model := WithHandled(model, flag);
      QueueSettles();
    }

    lemma DistinctEvents(i: nat, j: nat)
      requires Valid() && i < |events| && j < |events|
      ensures events[i] == events[j] ==> i == j
    {
      assert HoldsEvent(i) && HoldsEvent(j);
      assert events[i] in events[i].footprint;
    }

    /** One call that a callback makes. */
    method Perform(a: Action)
      requires Valid() && InRun(model) && !Act(model, a).fault
      modifies this, repr
      ensures Valid() && fresh(repr - old(repr))
      ensures model == Act(old(model), a) && events == old(events) && old(queue.nodes) <= queue.nodes
      ensures var e := old(model).queue[0].event; e < |events| && old(events[e].spine) <= events[e].spine
    {
      match a
      case Bind(e, cb, arg, alloc) => var _ := BindOn(e, cb, arg, alloc);
      case Unbind(e, cb) =>
        DistinctEvents(e, model.running.value);
        if running != events[e] {
          UnbindIdle(e, cb);
        } else {
          var found := UnbindRunning(e, cb);
          assert found;
        }
      case Trigger(e, data, result, alloc) =>
        if alloc {
          EnqueueOn(e, data, result);
        }
      case Destroy =>
        destroyPending := true;
        Record(Act(model, a), {});
        NothingElse();
      case SetHandled(flag) => MarkHandled(flag);
    }

    /** All the calls of one callback. */
    method PerformAll(script: seq<Action>)
      requires Valid() && InRun(model) && !RunScript(model, script).fault
      modifies this, repr
      ensures Valid() && fresh(repr - old(repr))
      ensures model == RunScript(old(model), script) && events == old(events) && old(queue.nodes) <= queue.nodes
      ensures var e := old(model).queue[0].event; e < |events| && old(events[e].spine) <= events[e].spine
    {
      ghost var e := model.queue[0].event;
      var k := 0;
      while k < |script|
        invariant 0 <= k <= |script| && Valid() && fresh(repr - old(repr))
        invariant events == old(events) && old(queue.nodes) <= queue.nodes
        invariant InRun(model) && model.queue[0].event == e && old(events[e].spine) <= events[e].spine
        invariant RunScript(model, script[k..]) == RunScript(old(model), script)
      {
        ghost var next := Act(model, script[k]);
        assert script[k..][1..] == script[k + 1..];
        if next.fault {
          FaultStays(next, script[k + 1..]);
        }
        Perform(script[k]);
        k := k + 1;
      }
    }

    // ---------- one moment ----------

    /** The moment at the head of the queue starts. */
    method Start()
      requires Valid() && Ready(model) && |model.queue| > 0 && model.queue[0].event < |model.lists|
      requires !Begin(model).fault
      modifies this, repr
      ensures Valid() && fresh(repr - old(repr)) && events == old(events) && queue.nodes == old(queue.nodes)
      ensures model == Begin(old(model))
    {
      ghost var e := model.queue[0].event;
      assert HoldsEvent(e);
      StartEvent(e);
      Record(Begin(model), {});
      StartSettles(e);
    }

    twostate lemma StartSettles(e: nat)
      requires old(Valid()) && e < |old(events)| && events == old(events)
      requires Ready(old(model)) && |old(model).queue| > 0 && old(model).queue[0].event == e
      requires model == Begin(old(model)) && !model.fault && repr == old(repr)
      requires names == old(names) && destroyPending == old(destroyPending) && calls == old(calls)
      requires running == events[e] && events[e].Valid() && events[e].contents == MarkNormal(old(model).lists[e])
      requires events[e].footprint == old(events[e].footprint) && events[e].spine == old(events[e].spine)
      requires queue.footprint == old(queue.footprint)
      requires forall o :: o in old(repr) && o !in old(events[e].footprint) && o != this ==> unchanged(o)
      ensures Valid() && queue.nodes == old(queue.nodes)
    {
      ShrunkSettles(e);
    }

    /** The event of the moment at the head of the queue becomes the running one. */
    method StartEvent(ghost e: nat)
      requires Valid() && e < |events| && |model.queue| > 0 && model.queue[0].event == e
      modifies this`running, events[e].footprint
      ensures events == old(events) && running == events[e]
      ensures events[e].Valid() && events[e].contents == MarkNormal(old(model).lists[e])
      ensures events[e].footprint == old(events[e].footprint) && events[e].spine == old(events[e].spine)
      ensures queue.footprint == old(queue.footprint) && queue.nodes == old(queue.nodes)
    {
      assert HoldsMoment(queue.nodes[0]) && queue.contents[0] == queue.nodes[0].View();
      assert HoldsEvent(e);
      running := queue.head.notifier;
      running.SetBindStatus();
    }

    /** What a callback is passed: its argument, the event's data, and the handled flag so far. */
    ghost predicate Passes(x: Entry, cb: nat, arg: int, data: int, handled: bool)
      requires |model.queue| > 0
      reads this
    {
      var m := model.queue[0];
      && m.data == data && m.handled == handled
      && (x == Called(m.id, m.event, cb, arg) || x == Reported(m.id, m.event, ResultCb(cb, arg), handled))
    }

    /** Callback `cb` is called, which runs its script; `x` is how the call is logged. */
    method RunCallback(scripts: nat -> seq<Action>, cb: nat, arg: int, data: int, handled: bool, ghost x: Entry)
      requires Valid() && InRun(model) && Passes(x, cb, arg, data, handled)
      requires !Invoke(Scripted(scripts), model, x).fault
      modifies this, repr
      ensures Valid() && fresh(repr - old(repr))
      ensures model == Invoke(Scripted(scripts), old(model), x)
      ensures events == old(events) && old(queue.nodes) <= queue.nodes
      ensures var e := old(model).queue[0].event; e < |events| && old(events[e].spine) <= events[e].spine
    {
      calls := calls + 1;
      Record(model.(log := Then(model.log, x)), {});
      NothingElse();
      PerformAll(scripts(calls));
    }

    /** Calls one binding; a callback cannot take back `handled`. */
    method CallBinding(scripts: nat -> seq<Action>, binding: BindingNode, ghost i: nat)
      requires Valid() && InRun(model) && i < |Current(model)| && binding.View() == Current(model)[i]
      requires !CallAt(Scripted(scripts), model, i).fault
      modifies this, repr
      ensures Valid() && fresh(repr - old(repr))
      ensures model == CallAt(Scripted(scripts), old(model), i)
      ensures events == old(events) && old(queue.nodes) <= queue.nodes
      ensures var e := old(model).queue[0].event; e < |events| && old(events[e].spine) <= events[e].spine
    {
      ghost var m := model.queue[0];
      assert queue.contents[0] == queue.nodes[0].View();
      var handled := queue.head.handled;
      RunCallback(scripts, binding.cb, binding.arg, queue.head.data, handled,
                  Called(m.id, m.event, binding.cb, binding.arg));
      assert queue.contents[0] == queue.nodes[0].View();
      MarkHandled(handled || queue.head.handled);
    }

    /** The saved head pointer leads to the position that the model computes. */
    lemma SavedHeadLeadsTo(m: MomentNode)
      requires Valid() && InRun(model) && queue.head == m
      ensures m.event < |events| && m.notifier == events[m.event] && HoldsEvent(m.event)
      ensures m.View() == model.queue[0]
      ensures var start := StartIndex(Current(model), model.queue[0].saved);
              start.Some? ==> m.bindings == m.notifier.At(start.value)
    {
      assert queue.contents[0] == queue.nodes[0].View() && HoldsMoment(queue.nodes[0]);
      assert HoldsEvent(m.event);
      var start := StartIndex(Current(model), model.queue[0].saved);
      if start.Some? && m.bindings != null {
        assert m.notifier.spine[start.value].View() == Current(model)[start.value];
      }
    }

    /** One turn of the loop over the bindings: called only if bound before the moment. */
    method Visit(scripts: nat -> seq<Action>, binding: BindingNode, ghost e: nat, ghost i: nat)
      requires Valid() && InRun(model) && model.queue[0].event == e && i < |events[e].spine|
      requires HoldsEvent(e) && binding == events[e].spine[i]
      requires !RunCalls(Scripted(scripts), model, i).fault
      modifies this, repr
      ensures Valid() && fresh(repr - old(repr)) && events == old(events) && old(queue.nodes) <= queue.nodes
      ensures InRun(model) && model.queue[0].event == e && i < |Current(model)|
      ensures RunCalls(Scripted(scripts), model, i + 1) == RunCalls(Scripted(scripts), old(model), i)
      ensures HoldsEvent(e) && i < |events[e].spine| && binding == events[e].spine[i]
      ensures NormalFrom(Current(model), i + 1) < NormalFrom(Current(old(model)), i)
        || (NormalFrom(Current(model), i + 1) == NormalFrom(Current(old(model)), i) && model == old(model))
    {
      ghost var p := Scripted(scripts);
      assert binding.View() == Current(model)[i];
      if binding.normalBound {
        CallExtends(p, model, i);
        ExtendsKeepsNormal(Current(model), Current(CallAt(p, model, i)), i + 1);
        CallBinding(scripts, binding, i);
        assert HoldsEvent(e);
      }
    }

    /** The callbacks of the running moment, from the saved head to the end of the list. */
    method CallAll(scripts: nat -> seq<Action>)
      requires Valid() && InRun(model) && StartIndex(Current(model), model.queue[0].saved).Some?
      requires !Serve(Scripted(scripts), model).fault
      modifies this, repr
      ensures Valid() && fresh(repr - old(repr))
      ensures model == Serve(Scripted(scripts), old(model))
      ensures events == old(events) && old(queue.nodes) <= queue.nodes
    {
      ghost var p := Scripted(scripts);
      var moment := queue.head;
      SavedHeadLeadsTo(moment);
      ghost var e := moment.event;
      ghost var i: nat := StartIndex(Current(model), model.queue[0].saved).value;
      var binding := moment.bindings;
      while binding != null
        invariant Valid() && fresh(repr - old(repr)) && events == old(events) && old(queue.nodes) <= queue.nodes
        invariant InRun(model) && model.queue[0].event == e && i <= |Current(model)|
        invariant RunCalls(p, model, i) == Serve(p, old(model))
        invariant HoldsEvent(e) && binding == events[e].At(i)
        decreases NormalFrom(Current(model), i), |Current(model)| - i
      {
        Visit(scripts, binding, e, i);
        binding := binding.next;
        i := i + 1;
      }
    }

    /** The result callback, if the moment has one. */
    method ReportResult(scripts: nat -> seq<Action>)
      requires Valid() && InRun(model) && !Report(Scripted(scripts), model).fault
      modifies this, repr
      ensures Valid() && fresh(repr - old(repr))
      ensures model == Report(Scripted(scripts), old(model))
      ensures events == old(events) && old(queue.nodes) <= queue.nodes
    {
      assert queue.contents[0] == queue.nodes[0].View();
      var moment := queue.head;
      if moment.result.Some? {
        ghost var m := model.queue[0];
        var result := moment.result.value;
        RunCallback(scripts, result.cb, result.arg, moment.data, moment.handled,
                    Reported(m.id, m.event, m.result.value, m.handled));
      }
    }

    /** Unbinds that were put off take effect. */
    method SweepRunning()
      requires Valid() && InRun(model)
      modifies this, repr
      ensures Valid() && fresh(repr - old(repr))
      ensures var e := old(model).queue[0].event;
              model == old(model).(lists := old(model).lists[e := Sweep(old(model).lists[e])])
      ensures events == old(events) && queue.nodes == old(queue.nodes)
    {
      ghost var e := model.queue[0].event;
      assert HoldsEvent(e);
      running.ProcessPendingUnbinds();
      Record(model.(lists := model.lists[e := Sweep(model.lists[e])]), {});
      ShrunkSettles(e);
    }

    /** The moment leaves the queue and is freed. */
    method DropMoment()
      requires Valid() && |model.queue| > 0
      modifies this, repr
      ensures Valid() && fresh(repr - old(repr))
      ensures model == old(model).(queue := old(model).queue[1..], running := None,
                                   log := Then(old(model).log, Freed(old(model).queue[0].id)))
      ensures events == old(events)
    {
      ghost var goal := model.(queue := model.queue[1..], running := None,
                               log := Then(model.log, Freed(model.queue[0].id)));
      assert HoldsMoment(queue.nodes[0]);
      queue.DropHead();
      running := null;
      Record(goal, {});
      HeadDropped();
    }

    /** The queue has lost its head, and nothing else has changed. */
    twostate lemma HeadDropped()
      requires old(Valid()) && Grown() && events == old(events) && names == old(names)
      requires destroyPending == old(destroyPending) && calls == old(calls)
      requires !model.fault && model.running.None? && running == null && model.lists == old(model).lists
      requires model.destroyPending == old(model).destroyPending && CallCount(model.log) == CallCount(old(model).log)
      requires forall o :: o in old(repr) && o != queue && o != this ==> unchanged(o)
      requires queue.Valid() && queue.footprint == old(queue.footprint) && queue.contents == model.queue
      requires |old(queue.nodes)| > 0 && queue.nodes == old(queue.nodes)[1..]
      ensures Valid()
    {
      forall k | 0 <= k < |queue.nodes|
        ensures queue.nodes[k] in old(queue.nodes)
      {
        assert queue.nodes[k] == old(queue.nodes)[k + 1];
      }
      QueueSettles();
    }

    /** The first half of `_handle_trigger_int`: the callbacks. */
    method ServeMoment(scripts: nat -> seq<Action>)
      requires Valid() && Ready(model) && |model.queue| > 0 && model.queue[0].event < |model.lists|
      requires !Serve(Scripted(scripts), Begin(model)).fault
      modifies this, repr
      ensures Valid() && fresh(repr - old(repr))
      ensures model == Serve(Scripted(scripts), Begin(old(model)))
    {
      MomentFaultStays(Scripted(scripts), model);
      Start();
      CallAll(scripts);
    }

    /** The second half: the result, the sweep and the end of the moment. */
    method WrapUp(scripts: nat -> seq<Action>)
      requires Valid() && InRun(model) && !Report(Scripted(scripts), model).fault
      modifies this, repr
      ensures Valid() && fresh(repr - old(repr))
      ensures model == Retire(Report(Scripted(scripts), old(model)))
    {
      ReportResult(scripts);
      RetireMoment();
    }

    /** The sweep and the end of the moment. */
    method RetireMoment()
      requires Valid() && InRun(model)
      modifies this, repr
      ensures Valid() && fresh(repr - old(repr)) && model == Retire(old(model))
    {
      SweepRunning();
      DropMoment();
    }

    /** `_handle_trigger_int`. */
    method HandleTrigger(scripts: nat -> seq<Action>)
      requires Valid() && Ready(model) && |model.queue| > 0
      requires !HandleMoment(Scripted(scripts), model).fault
      modifies this, repr
      ensures Valid() && fresh(repr - old(repr))
      ensures model == HandleMoment(Scripted(scripts), old(model))
    {
      MomentFaultStays(Scripted(scripts), model);
      ServeMoment(scripts);
      WrapUp(scripts);
    }

    // ---------- the drain loop and destruction ----------

    /** One turn of the drain loop, on the way to the state of rest `goal`. */
    method DrainOne(scripts: nat -> seq<Action>, ghost p: Program, ghost fuel: nat, ghost goal: Option<State>)
      returns (ghost left: nat)
      requires Valid() && p == Scripted(scripts) && !Quiet(model) && goal.Some? && RestOf(p, model, fuel) == goal
      modifies this, repr
      ensures Valid() && fresh(repr - old(repr))
      ensures left < fuel && RestOf(p, model, left) == goal
      ensures Quiet(model) ==> Ready(model) && model == goal.value
    {
      left := DrainNext(p, model, fuel);
      HandleTrigger(scripts);
    }

    /** The loop in `_dispatch_trigger`, for a run that comes to rest in state `goal`. */
    method DrainQueue(scripts: nat -> seq<Action>, ghost p: Program, ghost fuel: nat, ghost goal: Option<State>)
      requires Valid() && p == Scripted(scripts) && goal.Some? && RestOf(p, model, fuel) == goal
      modifies this, repr
      ensures Valid() && fresh(repr - old(repr)) && Ready(model) && model == goal.value
    {
      ghost var left := fuel;
      AtRest(p, model, left);
      while queue.head != null && !destroyPending
        invariant Valid() && fresh(repr - old(repr)) && RestOf(p, model, left) == goal
        invariant Quiet(model) ==> Ready(model) && model == goal.value
        decreases left
      {
        assert !Quiet(model);
        left := DrainOne(scripts, p, left, goal);
      }
    }

    /** `ls_event_dispatcher_destroy` when nothing is running. */
    method FreeAll()
      requires Valid() && Ready(model)
      modifies this, repr
      ensures Valid() && fresh(repr - old(repr)) && model == Dispose(old(model))
    {
      while queue.head != null
        invariant Valid() && fresh(repr - old(repr)) && Ready(model)
        invariant Dispose(model) == Dispose(old(model))
        decreases |model.queue|
      {
        DropMoment();
      }
      assert model.queue == [];
      names, events := [], [];
      Record(Dispose(model), {});
    }

    /** `ls_event_dispatcher_destroy` called by the application. */
    method Destroy()
      requires Valid() && Ready(model) && !model.destroyPending
      modifies this, repr
      ensures Valid() && fresh(repr - old(repr))
      ensures forall p :: model == Step(p, old(model), AppDestroy)
    {
      destroyPending := true;
      Record(model.(destroyPending := true, log := Then(model.log, CloseRequested)), {});
      NothingElse();
      FreeAll();
    }

    /** The second half of `_dispatch_trigger`: drain, then destroy if that was asked for. */
    method DrainAndFinish(scripts: nat -> seq<Action>, ghost p: Program, ghost fuel: nat)
      requires Valid() && Ready(model) && p == Scripted(scripts) && RestOf(p, model, fuel).Some?
      modifies this, repr
      ensures Valid() && fresh(repr - old(repr))
      ensures model == Finish(Drain(p, old(model), fuel))
    {
      DrainQueue(scripts, p, fuel, RestOf(p, model, fuel));
      if destroyPending {
        FreeAll();
      }
    }

    /** `ls_event_trigger` called by the application; `alloc` says whether the moment can be allocated. */
    method Trigger(e: nat, data: int, result: Option<ResultCb>, alloc: bool, scripts: nat -> seq<Action>,
                   ghost p: Program, ghost fuel: nat)
      returns (ok: bool)
      requires Valid() && Ready(model) && !model.destroyPending && e < |events| && p == Scripted(scripts)
      requires alloc ==> RestOf(p, Enqueue(model, e, data, result, true), fuel).Some?
      modifies this, repr
      ensures Valid() && fresh(repr - old(repr)) && ok == alloc
      ensures model == Step(p, old(model), AppTrigger(e, data, result, alloc, fuel))
    {
      if !alloc {
        return false;
      }
      ghost var goal := Step(p, model, AppTrigger(e, data, result, true, fuel));
      assert goal == Finish(Drain(p, Enqueue(model, e, data, result, true), fuel));
      EnqueueOn(e, data, result);
      DrainAndFinish(scripts, p, fuel);
      assert model == goal;
      return true;
    }
  }
}
