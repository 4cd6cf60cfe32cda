/**
 The main results about the tube protocol: for every number of managers and every
 interleaving of application calls and deliveries by a network that does not forge.
 */
module TubeTheorems {
  import opened SpudWire
  import opened TubeModel
  import opened TubeLaws
  import TableModel

  // ---------- safety ----------

  /**
   Each fact rests on earlier ones: a tube is accepted only for an OPEN that was sent for
   an ID that an initiator opened; only the manager that accepted an ID confirms it; an
   initiator's tube runs only after some responder accepted and confirmed its ID; data
   is raised only for opened IDs and only as it was sent.
   */
  lemma {:induction false} EveryRunIsHonest(n: nat, ops: seq<Op>)
    ensures Honest(Run(n, ops).log)
  {
    RunKeeps(n, ops);
  }

  lemma {:induction false} StartedConfirmed(log: Log, me: nat, id: TubeId, obj: nat)
    requires Honest(log) && Happened(log, Raised(me, id, obj, Started))
    ensures WasConfirmed(log, id)
  {
    if log.last != Raised(me, id, obj, Started) {
      StartedConfirmed(log.before, me, id, obj);
    }
    StillConfirmed(log, id);
  }

  lemma {:induction false} OpenedIsInitiator(log: Log, me: nat, id: TubeId, obj: nat)
    requires Follow(log, obj).Alive? && Happened(log, Opened(me, id, obj))
    ensures Follow(log, obj).life.initiator
  {
    if Follow(log.before, obj).Unborn? {
      UnbornIsUnborn(log.before, me, id, obj);
    } else {
      OpenedIsInitiator(log.before, me, id, obj);
    }
  }

  lemma {:induction false} UsedIsOpened(log: Log, me: nat, id: TubeId, obj: nat)
    requires Happened(log, Opened(me, id, obj))
    ensures IdUsed(log, id)
  {
    if log.last != Opened(me, id, obj) {
      UsedIsOpened(log.before, me, id, obj);
    }
  }

  /** The manager and the object of each opened ID are the only ones. */
  ghost predicate OpenersUnique(log: Log) {
    forall me, id, obj, me', obj' ::
      Happened(log, Opened(me, id, obj)) && Happened(log, Opened(me', id, obj')) ==> me == me' && obj == obj'
  }

  /** `r` opens nothing that `log` did not. */
  ghost predicate OpensNothing(log: Log, r: Log) {
    forall me, id, obj :: Happened(r, Opened(me, id, obj)) ==> Happened(log, Opened(me, id, obj))
  }

  lemma {:induction false} ReceiveOpensNothing(s: Site, me: nat, p: Packet)
    ensures OpensNothing(s.log, Receive(s, me, p).log)
  {
    var r := Receive(s, me, p).log;
    forall m, i, o | Happened(r, Opened(m, i, o))
      ensures Happened(s.log, Opened(m, i, o))
    {
      if p.id !in s.mgr.tubes && s.mgr.responder && p.cmd == OPEN {
        var l1 := Then(s.log, Accepted(me, p.id, s.nextObj));
        var l2 := Then(l1, Raised(me, p.id, s.nextObj, Added));
        assert r == Post(l2, me, Control(p.id, ACK));
        assert Happened(l2, Opened(m, i, o)) && Happened(l1, Opened(m, i, o));
      } else if p.id in s.mgr.tubes && p.cmd == CLOSE && s.mgr.tubes[p.id].state != UNKNOWN {
        var l1 := Then(s.log, Raised(me, p.id, s.mgr.tubes[p.id].obj, Closed));
        assert r == Then(l1, Raised(me, p.id, s.mgr.tubes[p.id].obj, Removed));
        assert Happened(l1, Opened(m, i, o));
      }
    }
  }

  lemma {:induction false} ApplyOpens(s: Site, me: nat, c: Call)
    ensures var r := Apply(s, me, c).log;
            forall m, i, o :: Happened(r, Opened(m, i, o)) ==>
              Happened(s.log, Opened(m, i, o)) || (c == CallOpen(i) && m == me && o == s.nextObj)
  {
    var r := Apply(s, me, c).log;
    forall m, i, o | Happened(r, Opened(m, i, o))
      ensures Happened(s.log, Opened(m, i, o)) || (c == CallOpen(i) && m == me && o == s.nextObj)
    {
      match c
      case CallOpen(id) =>
        var l1 := Then(s.log, Opened(me, id, s.nextObj));
        var l2 := if id in s.mgr.tubes then Clean(l1, me, id, s.mgr.tubes[id]) else l1;
        var l3 := Then(l2, Raised(me, id, s.nextObj, Added));
        assert r == Post(l3, me, Control(id, OPEN));
        assert Happened(l3, Opened(m, i, o)) && Happened(l2, Opened(m, i, o)) && Happened(l1, Opened(m, i, o));
      case CallRemove(id) =>
        if id in s.mgr.tubes {
          var l1 := Then(s.log, Raised(me, id, s.mgr.tubes[id].obj, Removed));
          assert r == Clean(l1, me, id, s.mgr.tubes[id]) && Happened(l1, Opened(m, i, o));
        }
      case _ =>
    }
  }

  lemma {:induction false} FreshOpenersUnique(n: nat, ops: seq<Op>)
    requires FreshIds(n, ops)
    ensures OpenersUnique(Run(n, ops).log)
    decreases |ops|
  {
    if ops != [] {
      var w, op := Run(n, ops[..|ops| - 1]), ops[|ops| - 1];
      FreshOpenersUnique(n, ops[..|ops| - 1]);
      if op.me < |w.mgrs| {
        match op
        case Deliver(me, p) => ReceiveOpensNothing(SiteOf(w, me), me, p);
        case App(me, c) =>
          ApplyOpens(SiteOf(w, me), me, c);
          forall m, i, o | Happened(w.log, Opened(m, i, o))
            ensures IdUsed(w.log, i)
          {
            UsedIsOpened(w.log, m, i, o);
          }
      }
    }
  }

  /** What `r` accepted that `s` had not is an unknown ID, by `me`, which responds. */
  ghost predicate Accepts(s: Site, r: Site, me: nat, id: TubeId) {
    forall m, i, o :: Happened(r.log, Accepted(m, i, o)) ==>
      || Happened(s.log, Accepted(m, i, o))
      || (m == me && i == id && s.mgr.responder
          && id !in s.mgr.tubes && id in r.mgr.tubes && r.mgr.tubes[id].obj == s.nextObj)
  }

  lemma {:induction false} ReceiveAccepts(s: Site, me: nat, p: Packet)
    ensures Accepts(s, Receive(s, me, p), me, p.id)
  {
    var r := Receive(s, me, p);
    forall m, i, o | Happened(r.log, Accepted(m, i, o))
      ensures || Happened(s.log, Accepted(m, i, o))
              || (m == me && i == p.id && s.mgr.responder
                  && p.id !in s.mgr.tubes && p.id in r.mgr.tubes && r.mgr.tubes[p.id].obj == s.nextObj)
    {
      if p.id in s.mgr.tubes && p.cmd == CLOSE && s.mgr.tubes[p.id].state != UNKNOWN {
        var l1 := Then(s.log, Raised(me, p.id, s.mgr.tubes[p.id].obj, Closed));
        assert r.log == Then(l1, Raised(me, p.id, s.mgr.tubes[p.id].obj, Removed));
        assert Happened(l1, Accepted(m, i, o));
      } else if p.id !in s.mgr.tubes && s.mgr.responder && p.cmd == OPEN {
        var l1 := Then(s.log, Accepted(me, p.id, s.nextObj));
        var l2 := Then(l1, Raised(me, p.id, s.nextObj, Added));
        assert r.log == Post(l2, me, Control(p.id, ACK));
        assert Happened(l2, Accepted(m, i, o)) && Happened(l1, Accepted(m, i, o));
      }
    }
  }

  lemma {:induction false} ApplyAccepts(s: Site, me: nat, c: Call)
    ensures forall m, i, o :: Happened(Apply(s, me, c).log, Accepted(m, i, o)) ==> Happened(s.log, Accepted(m, i, o))
  {
    var r := Apply(s, me, c).log;
    forall m, i, o | Happened(r, Accepted(m, i, o))
      ensures Happened(s.log, Accepted(m, i, o))
    {
      match c
      case CallOpen(id) =>
        var l1 := Then(s.log, Opened(me, id, s.nextObj));
        var l2 := if id in s.mgr.tubes then Clean(l1, me, id, s.mgr.tubes[id]) else l1;
        var l3 := Then(l2, Raised(me, id, s.nextObj, Added));
        assert r == Post(l3, me, Control(id, OPEN));
        assert Happened(l3, Accepted(m, i, o)) && Happened(l2, Accepted(m, i, o)) && Happened(l1, Accepted(m, i, o));
      case CallRemove(id) =>
        if id in s.mgr.tubes {
          var l1 := Then(s.log, Raised(me, id, s.mgr.tubes[id].obj, Removed));
          assert r == Clean(l1, me, id, s.mgr.tubes[id]) && Happened(l1, Accepted(m, i, o));
        }
      case _ =>
    }
  }

  lemma {:induction false} AcceptedIsUsed(log: Log, me: nat, id: TubeId, obj: nat)
    requires Honest(log) && Happened(log, Accepted(me, id, obj))
    ensures IdUsed(log, id)
  {
    if log.last == Accepted(me, id, obj) {
      var m, o :| Happened(log.before, Opened(m, id, o));
      UsedIsOpened(log.before, m, id, o);
    } else {
      AcceptedIsUsed(log.before, me, id, obj);
    }
  }

  /** The manager has not accepted the ID of this tube, if it opened the tube itself. */
  ghost predicate NotOwn(log: Log, me: nat, id: TubeId, t: Tube) {
    Happened(log, Opened(me, id, t.obj)) ==> forall o :: !Happened(log, Accepted(me, id, o))
  }

  ghost predicate OwnNotAccepted(w: World) {
    forall me, id :: 0 <= me < |w.mgrs| && id in w.mgrs[me].tubes ==> NotOwn(w.log, me, id, w.mgrs[me].tubes[id])
  }

  lemma {:induction false} DeliverNotOwn(w: World, at: nat, p: Packet)
    requires Inv(w) && OwnNotAccepted(w) && at < |w.mgrs|
    ensures OwnNotAccepted(Install(w, at, Receive(SiteOf(w, at), at, p)))
  {
    var s, r := SiteOf(w, at), Install(w, at, Receive(SiteOf(w, at), at, p));
    ReceiveOpensNothing(s, at, p);
    ReceiveAccepts(s, at, p);
    forall me, id | 0 <= me < |r.mgrs| && id in r.mgrs[me].tubes
      ensures NotOwn(r.log, me, id, r.mgrs[me].tubes[id])
    {
      var t := r.mgrs[me].tubes[id];
      if Happened(r.log, Opened(me, id, t.obj)) {
        OpenedNotNext(w, me, id, t.obj);
        assert id in w.mgrs[me].tubes && NotOwn(w.log, me, id, w.mgrs[me].tubes[id]);
      }
    }
  }

  lemma {:induction false} ApplyNotOwn(w: World, at: nat, c: Call)
    requires Inv(w) && OwnNotAccepted(w) && at < |w.mgrs|
    requires c.CallOpen? ==> !IdUsed(w.log, c.id)
    ensures OwnNotAccepted(Install(w, at, Apply(SiteOf(w, at), at, c)))
  {
    var s, r := SiteOf(w, at), Install(w, at, Apply(SiteOf(w, at), at, c));
    ApplyOpens(s, at, c);
    ApplyAccepts(s, at, c);
    forall me, id | 0 <= me < |r.mgrs| && id in r.mgrs[me].tubes
      ensures NotOwn(r.log, me, id, r.mgrs[me].tubes[id])
    {
      if c == CallOpen(id) {
        forall o
          ensures !Happened(r.log, Accepted(me, id, o))
        {
          if Happened(w.log, Accepted(me, id, o)) {
            AcceptedIsUsed(w.log, me, id, o);
          }
        }
      } else {
        assert id in w.mgrs[me].tubes && NotOwn(w.log, me, id, w.mgrs[me].tubes[id]);
      }
    }
  }

  lemma {:induction false} OpenedNotNext(w: World, me: nat, id: TubeId, obj: nat)
    requires Inv(w) && Happened(w.log, Opened(me, id, obj))
    ensures obj < w.nextObj
  {
    if obj >= w.nextObj {
      UnbornIsUnborn(w.log, me, id, obj);
    }
  }

  lemma {:induction false} FreshOwnNotAccepted(n: nat, ops: seq<Op>)
    requires FreshIds(n, ops)
    ensures OwnNotAccepted(Run(n, ops))
    decreases |ops|
  {
    if ops != [] {
      FreshOwnNotAccepted(n, ops[..|ops| - 1]);
      RunKeeps(n, ops[..|ops| - 1]);
      var w, op := Run(n, ops[..|ops| - 1]), ops[|ops| - 1];
      if op.me < |w.mgrs| {
        match op
        case Deliver(me, p) => DeliverNotOwn(w, me, p);
        case App(me, c) => ApplyNotOwn(w, me, c);
      }
    }
  }

  /** Manager `me` accepted the ID and confirmed it. */
  ghost predicate ConfirmedBy(log: Log, me: nat, id: TubeId) {
    (exists obj :: Happened(log, Accepted(me, id, obj))) && Happened(log, Sent(me, Control(id, ACK)))
  }

  /**
   A tube that its manager opened is running only if some responder accepted its ID, and
   confirmed it; with fresh IDs that was another manager, and the OPEN that it accepted
   can only have been this tube's.
   */
  lemma {:induction false} RunningMeansAccepted(n: nat, ops: seq<Op>, me: nat, id: TubeId)
    requires var w := Run(n, ops);
             && me < |w.mgrs| && id in w.mgrs[me].tubes && w.mgrs[me].tubes[id].state == RUNNING
             && Happened(w.log, Opened(me, id, w.mgrs[me].tubes[id].obj))
    ensures WasConfirmed(Run(n, ops).log, id)
    ensures var w := Run(n, ops);
            FreshIds(n, ops) ==> forall me', obj' ::
              Happened(w.log, Opened(me', id, obj')) ==> me' == me && obj' == w.mgrs[me].tubes[id].obj
    ensures FreshIds(n, ops) ==> exists me' :: me' != me && ConfirmedBy(Run(n, ops).log, me', id)
  {
    var w := Run(n, ops);
    var t := w.mgrs[me].tubes[id];
    RunKeeps(n, ops);
    assert Fits(w.log, me, id, t);
    OpenedIsInitiator(w.log, me, id, t.obj);
    StartedConfirmed(w.log, me, id, t.obj);
    if FreshIds(n, ops) {
      FreshOpenersUnique(n, ops);
      FreshOwnNotAccepted(n, ops);
      assert NotOwn(w.log, me, id, t);
      var me', obj' :| Happened(w.log, Accepted(me', id, obj')) && Happened(w.log, Sent(me', Control(id, ACK)));
      assert ConfirmedBy(w.log, me', id);
    }
  }

  // ---------- the events of one tube ----------

  /** What a manager raised about an object, in order. */
  function Trace(log: Log, obj: nat): seq<Kind> {
    if log.Nothing? then []
    else Trace(log.before, obj) + if log.last.Raised? && log.last.obj == obj then [log.last.kind] else []
  }

  function One(b: bool): nat {
    if b then 1 else 0
  }

  /**
   `add`, then for initiators at most one `running` and no data before it, then data,
   then `close` if the peer closed, then `remove`.
   */
  ghost predicate Spells(l: Life, trace: seq<Kind>) {
    var lead := One(l.added) + One(l.started);
    && |trace| == lead + l.data + One(l.closed) + One(l.removed)
    && (l.added <==> trace != [])
    && (l.added ==> trace[0] == Added)
    && (l.started ==> l.initiator && trace[1] == Started)
    && (l.initiator && !l.started ==> l.data == 0)
    && (forall j :: lead <= j < lead + l.data ==> trace[j].Data?)
    && (l.closed ==> trace[lead + l.data] == Closed)
    && (l.removed ==> trace[|trace| - 1] == Removed)
  }

  lemma {:induction false} NextSpells(l: Life, trace: seq<Kind>, kind: Kind)
    requires Spells(l, trace) && NextLife(l, kind).Alive?
    ensures Spells(NextLife(l, kind).life, trace + [kind])
  {
  }

  lemma {:induction false} TraceFollows(log: Log, obj: nat)
    requires !Follow(log, obj).Broken?
    ensures match Follow(log, obj)
            case Alive(l) => Spells(l, Trace(log, obj))
            case _ => Trace(log, obj) == []
  {
    if log.Then? {
      TraceFollows(log.before, obj);
      var c := Follow(log.before, obj);
      if log.last.Raised? && log.last.obj == obj {
        NextSpells(c.life, Trace(log.before, obj), log.last.kind);
      } else {
        assert Trace(log.before, obj) + [] == Trace(log.before, obj);
      }
    }
  }

  /** In every run the events of every tube object come in that one order, and `close` never without `remove`. */
  lemma {:induction false} EveryTraceInOrder(n: nat, ops: seq<Op>, obj: nat)
    ensures var log := Run(n, ops).log;
            match Follow(log, obj)
            case Unborn => Trace(log, obj) == []
            case Alive(l) => Spells(l, Trace(log, obj)) && l.added && (l.closed ==> l.removed)
            case Broken => false
  {
    RunKeeps(n, ops);
    assert Settled(Follow(Run(n, ops).log, obj));
    TraceFollows(Run(n, ops).log, obj);
  }

  /** The state in the table is what the events say: data only for tubes that are running. */
  lemma {:induction false} StateMatchesTrace(n: nat, ops: seq<Op>, me: nat, id: TubeId)
    requires var w := Run(n, ops); me < |w.mgrs| && id in w.mgrs[me].tubes
    ensures var w := Run(n, ops);
            var t := w.mgrs[me].tubes[id];
            var trace := Trace(w.log, t.obj);
            && trace != [] && trace[0] == Added && Closed !in trace && Removed !in trace
            && (t.state == OPENING ==> trace == [Added])
            && (t.state == RUNNING && Happened(w.log, Opened(me, id, t.obj)) ==> |trace| > 1 && trace[1] == Started)
  {
    var w := Run(n, ops);
    var t := w.mgrs[me].tubes[id];
    RunKeeps(n, ops);
    assert Fits(w.log, me, id, t);
    EveryTraceInOrder(n, ops, t.obj);
    if Happened(w.log, Opened(me, id, t.obj)) {
      OpenedIsInitiator(w.log, me, id, t.obj);
    }
  }

  // ---------- what a sequence of packets does ----------

  /**
   A responder that gets OPEN for an unknown ID answers, and its tube works: it raises the
   data it gets, and goes when the peer closes.
   */
  lemma {:induction false} AcceptedTubeWorks(s: Site, me: nat, id: TubeId, marks: Marks, body: Bytes)
    requires s.mgr.responder && id !in s.mgr.tubes
    ensures var first := Receive(s, me, Control(id, OPEN));
            var fed := Receive(first, me, Packet(id, DATA, marks, body));
            var gone := Receive(fed, me, Control(id, CLOSE));
            && Outbox(first.log) == Outbox(s.log) + [Control(id, ACK)]
            && Trace(fed.log, s.nextObj) == Trace(s.log, s.nextObj) + [Added, Data(body)]
            && Trace(gone.log, s.nextObj) == Trace(s.log, s.nextObj) + [Added, Data(body), Closed, Removed]
            && id in fed.mgr.tubes && gone.mgr.tubes == s.mgr.tubes
  {
    var first, o := Receive(s, me, Control(id, OPEN)), s.nextObj;
    var fed := Receive(first, me, Packet(id, DATA, marks, body));
    var gone := Receive(fed, me, Control(id, CLOSE));
    AnswersOnly(s, me, Control(id, OPEN));
    RaisesExactly(s, me, Control(id, OPEN), o);
    RaisesExactly(first, me, Packet(id, DATA, marks, body), o);
    RaisesExactly(fed, me, Control(id, CLOSE), o);
    assert gone.mgr.tubes == s.mgr.tubes[id := Tube(o, UNKNOWN)] - {id} == s.mgr.tubes;
  }

  /** A tube that is opened gets no data before it is confirmed, works then, and is confirmed once. */
  lemma {:induction false} OpenedTubeWorks(s: Site, me: nat, id: TubeId, marks: Marks, body: Bytes)
    ensures var first := Apply(s, me, CallOpen(id));
            var early := Receive(first, me, Packet(id, DATA, marks, body));
            var running := Receive(first, me, Control(id, ACK));
            var fed := Receive(running, me, Packet(id, DATA, marks, body));
            && Outbox(first.log) != [] && Outbox(first.log)[|Outbox(first.log)| - 1] == Control(id, OPEN)
            && early == first
            && Trace(fed.log, s.nextObj) == Trace(s.log, s.nextObj) + [Added, Started, Data(body)]
            && Receive(running, me, Control(id, ACK)) == running && id in fed.mgr.tubes
  {
    var first, o := Apply(s, me, CallOpen(id)), s.nextObj;
    var running := Receive(first, me, Control(id, ACK));
    SendsOnly(s, me, CallOpen(id));
    InitiativeRaises(s, me, CallOpen(id), o);
    EffectIff(first, me, Packet(id, DATA, marks, body));
    RaisesExactly(first, me, Control(id, ACK), o);
    RaisesExactly(running, me, Packet(id, DATA, marks, body), o);
    EffectIff(running, me, Control(id, ACK));
  }

  /** A manager answers an OPEN for an unknown ID if and only if it was last told to respond. */
  lemma {:induction false} PolicyDecides(s: Site, me: nat, respond: bool, id: TubeId)
    requires id !in s.mgr.tubes
    ensures var told := Apply(s, me, CallPolicy(respond));
            var r := Receive(told, me, Control(id, OPEN));
            && told.log == s.log && told.mgr.tubes == s.mgr.tubes
            && (id in r.mgr.tubes <==> respond)
            && Outbox(r.log) == Outbox(s.log) + (if respond then [Control(id, ACK)] else [])
            && (!respond ==> r == told)
  {
    AnswersOnly(Apply(s, me, CallPolicy(respond)), me, Control(id, OPEN));
  }

  /** A tube that the application closes says CLOSE and hears nothing any more, but stays in the table. */
  lemma {:induction false} ClosedTubeIsDeaf(s: Site, me: nat, id: TubeId, p: Packet)
    requires id in s.mgr.tubes && p.id == id
    ensures var r := Apply(s, me, CallClose(id));
            && Receive(r, me, p) == r
            && Outbox(r.log) == Outbox(s.log) + [Control(id, CLOSE)]
            && id in r.mgr.tubes && r.mgr.tubes[id].obj == s.mgr.tubes[id].obj
  {
    SendsOnly(s, me, CallClose(id));
    EffectIff(Apply(s, me, CallClose(id)), me, p);
  }

  /** A manager accepts tubes only after it was told to respond. */
  lemma {:induction false} AcceptsOnlyIfTold(n: nat, ops: seq<Op>, me: nat)
    ensures var w, told := Run(n, ops), App(me, CallPolicy(true)) in ops;
            && (me < |w.mgrs| && w.mgrs[me].responder ==> told)
            && (forall id, o :: Happened(w.log, Accepted(me, id, o)) ==> told)
    decreases |ops|
  {
    if ops != [] {
      var before, op := ops[..|ops| - 1], ops[|ops| - 1];
      var w := Run(n, before);
      assert ops == before + [op];
      AcceptsOnlyIfTold(n, before, me);
      if op.me < |w.mgrs| {
        match op
        case Deliver(at, p) => ReceiveAccepts(SiteOf(w, at), at, p);
        case App(at, c) => ApplyAccepts(SiteOf(w, at), at, c);
      }
    }
  }

  /** The application of manager `me` has called close on this ID. */
  ghost predicate CloseCalled(ops: seq<Op>, me: nat, id: TubeId) {
    App(me, CallClose(id)) in ops
  }

  /** Only a call of close leaves a tube in the table closed. */
  lemma {:induction false} OpenUnlessClosed(n: nat, ops: seq<Op>, me: nat, id: TubeId)
    requires var w := Run(n, ops); me < |w.mgrs| && id in w.mgrs[me].tubes && !CloseCalled(ops, me, id)
    ensures Run(n, ops).mgrs[me].tubes[id].state != UNKNOWN
    decreases |ops|
  {
    if ops != [] {
      var before, op := ops[..|ops| - 1], ops[|ops| - 1];
      var w := Run(n, before);
      assert ops == before + [op];
      if me < |w.mgrs| && id in w.mgrs[me].tubes {
        OpenUnlessClosed(n, before, me, id);
      }
    }
  }

  lemma {:induction false} AcceptedIsResponder(log: Log, me: nat, id: TubeId, obj: nat)
    requires Follow(log, obj).Alive? && Happened(log, Accepted(me, id, obj))
    ensures !Follow(log, obj).life.initiator
  {
    if Follow(log.before, obj).Unborn? {
      UnbornIsUnborn(log.before, me, id, obj);
    } else {
      AcceptedIsResponder(log.before, me, id, obj);
    }
  }

  /**
   In every run, a tube in the table on which the application never called close is
   running if it was accepted, and if it was opened then it is running exactly when that
   was raised, and opening else.
   */
  lemma {:induction false} EveryTubeHasItsState(n: nat, ops: seq<Op>, me: nat, id: TubeId)
    requires var w := Run(n, ops); me < |w.mgrs| && id in w.mgrs[me].tubes && !CloseCalled(ops, me, id)
    ensures var w := Run(n, ops);
            var t := w.mgrs[me].tubes[id];
            && (Happened(w.log, Accepted(me, id, t.obj)) ==> t.state == RUNNING)
            && (Happened(w.log, Opened(me, id, t.obj)) ==>
                  t.state == if Started in Trace(w.log, t.obj) then RUNNING else OPENING)
            && (Happened(w.log, Accepted(me, id, t.obj)) || Happened(w.log, Opened(me, id, t.obj)))
  {
    var w := Run(n, ops);
    var t := w.mgrs[me].tubes[id];
    RunKeeps(n, ops);
    OpenUnlessClosed(n, ops, me, id);
    StateMatchesTrace(n, ops, me, id);
    assert Fits(w.log, me, id, t);
    if Happened(w.log, Accepted(me, id, t.obj)) {
      AcceptedIsResponder(w.log, me, id, t.obj);
    }
  }

  // ---------- closed tubes ----------

  /** A packet for a tube in the table has an effect in exactly three cases, none of them for a closed tube. */
  lemma {:induction false} EffectIff(s: Site, me: nat, p: Packet)
    requires p.id in s.mgr.tubes
    ensures var state := s.mgr.tubes[p.id].state;
            Receive(s, me, p) != s <==>
              || (p.cmd == DATA && state == RUNNING)
              || (p.cmd == CLOSE && state != UNKNOWN)
              || (p.cmd == ACK && state == OPENING)
  {
    var t := s.mgr.tubes[p.id];
    var r := Receive(s, me, p);
    match p.cmd
    case DATA => assert t.state == RUNNING ==> s.log < r.log;
    case CLOSE => assert t.state != UNKNOWN ==> p.id !in r.mgr.tubes;
    case OPEN =>
    case ACK => assert t.state == OPENING ==> r.mgr.tubes[p.id].state == RUNNING;
  }

  /** The events that packet `p` raises about object `obj`. */
  function Response(s: Site, p: Packet, obj: nat): seq<Kind> {
    if p.id !in s.mgr.tubes then
      if s.mgr.responder && p.cmd == OPEN && obj == s.nextObj then [Added] else []
    else
      var t := s.mgr.tubes[p.id];
      if obj != t.obj then []
      else
        match (p.cmd, t.state)
        case (DATA, RUNNING) => [Data(p.body)]
        case (CLOSE, OPENING) => [Closed, Removed]
        case (CLOSE, RUNNING) => [Closed, Removed]
        case (ACK, OPENING) => [Started]
        case _ => []
  }

  /** A packet raises exactly these events, and none about other tubes. */
  lemma {:induction false} RaisesExactly(s: Site, me: nat, p: Packet, obj: nat)
    ensures Trace(Receive(s, me, p).log, obj) == Trace(s.log, obj) + Response(s, p, obj)
  {
    var before, r := Trace(s.log, obj), Receive(s, me, p).log;
    assert before + [] == before;
    if p.id !in s.mgr.tubes && s.mgr.responder && p.cmd == OPEN {
      var l1 := Then(s.log, Accepted(me, p.id, s.nextObj));
      var l2 := Then(l1, Raised(me, p.id, s.nextObj, Added));
      assert r == Post(l2, me, Control(p.id, ACK)) && Trace(l1, obj) == before;
      assert Trace(r, obj) == Trace(l2, obj) + [];
    } else if p.id in s.mgr.tubes && p.cmd == CLOSE && s.mgr.tubes[p.id].state != UNKNOWN {
      var o := s.mgr.tubes[p.id].obj;
      var l1 := Then(s.log, Raised(me, p.id, o, Closed));
      assert r == Then(l1, Raised(me, p.id, o, Removed));
      assert before + [Closed] + [Removed] == before + [Closed, Removed];
    }
  }

  /** The events that a call of the application raises about object `obj`. */
  function Initiative(s: Site, c: Call, obj: nat): seq<Kind> {
    match c
    case CallOpen(_) => if obj == s.nextObj then [Added] else []
    case CallRemove(id) => if id in s.mgr.tubes && obj == s.mgr.tubes[id].obj then [Removed] else []
    case _ => []
  }

  lemma {:induction false} InitiativeRaises(s: Site, me: nat, c: Call, obj: nat)
    ensures Trace(Apply(s, me, c).log, obj) == Trace(s.log, obj) + Initiative(s, c, obj)
  {
    var before := Trace(s.log, obj);
    assert before + [] == before;
    match c
    case CallOpen(id) =>
      var l1 := Then(s.log, Opened(me, id, s.nextObj));
      var l2 := if id in s.mgr.tubes then Clean(l1, me, id, s.mgr.tubes[id]) else l1;
      var l3 := Then(l2, Raised(me, id, s.nextObj, Added));
      assert Apply(s, me, c).log == Post(l3, me, Control(id, OPEN));
      assert Trace(l1, obj) == before && Trace(l2, obj) == before && Trace(l3, obj) + [] == Trace(l3, obj);
    case CallRemove(id) =>
      if id in s.mgr.tubes {
        var l1 := Then(s.log, Raised(me, id, s.mgr.tubes[id].obj, Removed));
        assert Trace(l1, obj) + [] == Trace(l1, obj);
      }
    case _ =>
  }

  /** All that the packets delivered and the calls made in a run ask to be raised about an object. */
  function Due(n: nat, ops: seq<Op>, obj: nat): seq<Kind>
    decreases |ops|
  {
    if ops == [] then []
    else
      var w, op := Run(n, ops[..|ops| - 1]), ops[|ops| - 1];
      Due(n, ops[..|ops| - 1], obj) +
      if op.me >= |w.mgrs| then []
      else
        match op
        case Deliver(me, p) => if WasSent(w.log, p) then Response(SiteOf(w, me), p, obj) else []
        case App(me, c) => Initiative(SiteOf(w, me), c, obj)
  }

  /** In every run nothing is raised that is not due, and nothing due is lost, doubled or moved. */
  lemma {:induction false} EveryTraceIsDue(n: nat, ops: seq<Op>, obj: nat)
    ensures Trace(Run(n, ops).log, obj) == Due(n, ops, obj)
    decreases |ops|
  {
    if ops != [] {
      var w, op := Run(n, ops[..|ops| - 1]), ops[|ops| - 1];
      EveryTraceIsDue(n, ops[..|ops| - 1], obj);
      assert Trace(w.log, obj) + [] == Trace(w.log, obj);
      if op.me < |w.mgrs| {
        match op
        case Deliver(me, p) => RaisesExactly(SiteOf(w, me), me, p, obj);
        case App(me, c) => InitiativeRaises(SiteOf(w, me), me, c, obj);
      }
    }
  }

  /** Whatever happens next, a closed tube stays closed as long as it is in the table. */
  lemma {:induction false} ClosedStaysClosed(n: nat, ops: seq<Op>, op: Op, me: nat, id: TubeId)
    requires var w := Run(n, ops);
             me < |w.mgrs| && id in w.mgrs[me].tubes && w.mgrs[me].tubes[id].state == UNKNOWN
    ensures var t, r := Run(n, ops).mgrs[me].tubes[id], Step(Run(n, ops), op);
            me < |r.mgrs| && (id in r.mgrs[me].tubes && r.mgrs[me].tubes[id].obj == t.obj ==> r.mgrs[me].tubes[id] == t)
  {
    var w := Run(n, ops);
    RunKeeps(n, ops);
    assert w.mgrs[me].tubes[id].obj < w.nextObj;
  }

  // ---------- the network falls silent ----------

  function Outbox(log: Log): seq<Packet> {
    if log.Nothing? then []
    else Outbox(log.before) + if log.last.Sent? then [log.last.packet] else []
  }

  /** What a manager sends in answer to `p`: an ACK for an OPEN it accepts, and nothing else. */
  function Answer(s: Site, p: Packet): seq<Packet> {
    if p.id !in s.mgr.tubes && s.mgr.responder && p.cmd == OPEN then [Control(p.id, ACK)] else []
  }

  lemma {:induction false} AnswersOnly(s: Site, me: nat, p: Packet)
    ensures Outbox(Receive(s, me, p).log) == Outbox(s.log) + Answer(s, p)
  {
    var before := Outbox(s.log);
    assert before + [] == before;
    if p.id !in s.mgr.tubes && s.mgr.responder && p.cmd == OPEN {
      var l1 := Then(s.log, Accepted(me, p.id, s.nextObj));
      var l2 := Then(l1, Raised(me, p.id, s.nextObj, Added));
      assert Outbox(l1) == before && Outbox(l2) == before;
    } else if p.id in s.mgr.tubes && p.cmd == CLOSE && s.mgr.tubes[p.id].state != UNKNOWN {
      var l1 := Then(s.log, Raised(me, p.id, s.mgr.tubes[p.id].obj, Closed));
      assert Outbox(l1) == before;
    }
  }

  /** What a call of the application sends. */
  function Orders(s: Site, c: Call): seq<Packet> {
    match c
    case CallOpen(id) =>
      (if id in s.mgr.tubes && s.mgr.tubes[id].state == RUNNING then [Control(id, CLOSE)] else []) + [Control(id, OPEN)]
    case CallData(id, marks, body) => if id in s.mgr.tubes then [Packet(id, DATA, marks, body)] else []
    case CallClose(id) => if id in s.mgr.tubes then [Control(id, CLOSE)] else []
    case CallRemove(id) =>
      if id in s.mgr.tubes && s.mgr.tubes[id].state == RUNNING then [Control(id, CLOSE)] else []
    case CallPolicy(_) => []
  }

  /** A tube says CLOSE when it is closed, and when it is thrown out while running; nothing else goes out unasked. */
  lemma {:induction false} SendsOnly(s: Site, me: nat, c: Call)
    ensures Outbox(Apply(s, me, c).log) == Outbox(s.log) + Orders(s, c)
  {
    var before := Outbox(s.log);
    assert before + [] == before;
    match c
    case CallOpen(id) =>
      var l1 := Then(s.log, Opened(me, id, s.nextObj));
      var l2 := if id in s.mgr.tubes then Clean(l1, me, id, s.mgr.tubes[id]) else l1;
      var l3 := Then(l2, Raised(me, id, s.nextObj, Added));
      assert Outbox(l1) == before && Outbox(l3) == Outbox(l2) + [];
    case CallRemove(id) =>
      if id in s.mgr.tubes {
        assert Outbox(Then(s.log, Raised(me, id, s.mgr.tubes[id].obj, Removed))) == before;
      }
    case _ =>
  }

  /** How many tubes were opened with the ID. */
  function Openings(log: Log, id: TubeId): nat {
    if log.Nothing? then 0 else Openings(log.before, id) + One(log.last.Opened? && log.last.id == id)
  }

  /** How many tubes were accepted for the ID. */
  function Acceptings(log: Log, id: TubeId): nat {
    if log.Nothing? then 0 else Acceptings(log.before, id) + One(log.last.Accepted? && log.last.id == id)
  }

  lemma {:induction false} ReceiveTallies(s: Site, me: nat, p: Packet, id: TubeId)
    ensures var r := Receive(s, me, p).log;
            && Openings(r, id) == Openings(s.log, id)
            && Acceptings(r, id) == Acceptings(s.log, id) + One(p.id == id && Answer(s, p) != [])
  {
    if Answer(s, p) != [] {
      var l1 := Then(s.log, Accepted(me, p.id, s.nextObj));
      var l2 := Then(l1, Raised(me, p.id, s.nextObj, Added));
      assert Receive(s, me, p).log == Post(l2, me, Control(p.id, ACK));
      assert Openings(l2, id) == Openings(l1, id) == Openings(s.log, id);
      assert Acceptings(l2, id) == Acceptings(l1, id);
    } else if p.id in s.mgr.tubes && p.cmd == CLOSE && s.mgr.tubes[p.id].state != UNKNOWN {
      var l1 := Then(s.log, Raised(me, p.id, s.mgr.tubes[p.id].obj, Closed));
      assert Receive(s, me, p).log == Then(l1, Raised(me, p.id, s.mgr.tubes[p.id].obj, Removed));
      assert Openings(l1, id) == Openings(s.log, id);
      assert Acceptings(l1, id) == Acceptings(s.log, id);
    }
  }

  lemma {:induction false} ApplyTallies(s: Site, me: nat, c: Call, id: TubeId)
    ensures var r := Apply(s, me, c).log;
            && Openings(r, id) == Openings(s.log, id) + One(c == CallOpen(id))
            && Acceptings(r, id) == Acceptings(s.log, id)
  {
    match c
    case CallOpen(i) =>
      var l1 := Then(s.log, Opened(me, i, s.nextObj));
      var l2 := if i in s.mgr.tubes then Clean(l1, me, i, s.mgr.tubes[i]) else l1;
      var l3 := Then(l2, Raised(me, i, s.nextObj, Added));
      assert Apply(s, me, c).log == Post(l3, me, Control(i, OPEN));
      assert Openings(l3, id) == Openings(l2, id) == Openings(l1, id);
      assert Acceptings(l3, id) == Acceptings(l2, id) == Acceptings(l1, id);
    case CallRemove(i) =>
      if i in s.mgr.tubes {
        var l1 := Then(s.log, Raised(me, i, s.mgr.tubes[i].obj, Removed));
        assert Openings(l1, id) == Openings(s.log, id);
        assert Acceptings(l1, id) == Acceptings(s.log, id);
      }
    case _ =>
  }

  /** As many OPENs have gone out for the ID as tubes were opened with it, and as many ACKs as were accepted. */
  ghost predicate Counted(log: Log, id: TubeId) {
    && multiset(Outbox(log))[Control(id, OPEN)] == Openings(log, id)
    && multiset(Outbox(log))[Control(id, ACK)] == Acceptings(log, id)
  }

  lemma {:induction false} ReceiveCounted(s: Site, me: nat, p: Packet, id: TubeId)
    requires Counted(s.log, id)
    ensures Counted(Receive(s, me, p).log, id)
  {
    AnswersOnly(s, me, p);
    ReceiveTallies(s, me, p, id);
  }

  lemma {:induction false} ApplyCounted(s: Site, me: nat, c: Call, id: TubeId)
    requires Counted(s.log, id)
    ensures Counted(Apply(s, me, c).log, id)
  {
    SendsOnly(s, me, c);
    ApplyTallies(s, me, c, id);
    OrdersCounted(s, c, id);
    BothCounted(Outbox(s.log), Orders(s, c), Control(id, OPEN));
    BothCounted(Outbox(s.log), Orders(s, c), Control(id, ACK));
  }

  lemma {:induction false} BothCounted(a: seq<Packet>, b: seq<Packet>, p: Packet)
    ensures multiset(a + b)[p] == multiset(a)[p] + multiset(b)[p]
  {
  }

  /** Among the packets of a call there is an OPEN for an ID just if it opens a tube with it. */
  lemma {:induction false} OrdersCounted(s: Site, c: Call, id: TubeId)
    ensures multiset(Orders(s, c))[Control(id, OPEN)] == One(c == CallOpen(id))
    ensures multiset(Orders(s, c))[Control(id, ACK)] == 0
  {
    match c
    case CallOpen(i) =>
      var first := if i in s.mgr.tubes && s.mgr.tubes[i].state == RUNNING then [Control(i, CLOSE)] else [];
      BothCounted(first, [Control(i, OPEN)], Control(id, OPEN));
      BothCounted(first, [Control(i, OPEN)], Control(id, ACK));
    case _ =>
  }

  /**
   In every run as many OPENs go out for an ID as tubes are opened with it, and as many
   ACKs as tubes are accepted for it: one packet for each tube, however often the network
   repeats what it delivers.
   */
  lemma {:induction false} EveryHandshakeCounted(n: nat, ops: seq<Op>, id: TubeId)
    ensures Counted(Run(n, ops).log, id)
    decreases |ops|
  {
    if ops != [] {
      var w, op := Run(n, ops[..|ops| - 1]), ops[|ops| - 1];
      EveryHandshakeCounted(n, ops[..|ops| - 1], id);
      if op.me < |w.mgrs| {
        match op
        case Deliver(me, p) => ReceiveCounted(SiteOf(w, me), me, p, id);
        case App(me, c) => ApplyCounted(SiteOf(w, me), me, c, id);
      }
    }
  }

  function Weight(flight: seq<Packet>): nat {
    if flight == [] then 0
    else Weight(flight[..|flight| - 1]) + if flight[|flight| - 1].cmd == OPEN then 2 else 1
  }

  lemma {:induction false} WeightConcat(a: seq<Packet>, b: seq<Packet>)
    ensures Weight(a + b) == Weight(a) + Weight(b)
  {
    if b == [] {
      assert a + b == a;
    } else {
      assert (a + b)[..|a + b| - 1] == a + b[..|b| - 1];
      WeightConcat(a, b[..|b| - 1]);
    }
  }

  /** A delivery of the i-th packet in flight to manager `me`. */
  datatype Delivery = Delivery(me: nat, at: nat)

  datatype Traffic = Traffic(world: World, flight: seq<Packet>)

  predicate Possible(x: Traffic, d: Delivery) {
    d.me < |x.world.mgrs| && d.at < |x.flight|
  }

  /** The packet is consumed, and what the manager sends joins those in flight. */
  function Consume(x: Traffic, d: Delivery): Traffic
    requires Possible(x, d)
  {
    var p, s := x.flight[d.at], SiteOf(x.world, d.me);
    var r := Receive(s, d.me, p);
    var sent := if |Outbox(s.log)| <= |Outbox(r.log)| then Outbox(r.log)[|Outbox(s.log)|..] else [];
    Traffic(Install(x.world, d.me, r), x.flight[..d.at] + x.flight[d.at + 1..] + sent)
  }

  lemma {:induction false} ConsumeLightens(x: Traffic, d: Delivery)
    requires Possible(x, d)
    ensures Weight(Consume(x, d).flight) < Weight(x.flight)
  {
    var p, s := x.flight[d.at], SiteOf(x.world, d.me);
    AnswersOnly(s, d.me, p);
    assert Outbox(Receive(s, d.me, p).log)[|Outbox(s.log)|..] == Answer(s, p);
    WeightExchanged(x.flight, d.at, Answer(s, p));
    AnswerIsLighter(s, p);
  }

  lemma {:induction false} AnswerIsLighter(s: Site, p: Packet)
    ensures Weight(Answer(s, p)) < Weight([p])
  {
    assert [p][..0] == [] && [Control(p.id, ACK)][..0] == [];
  }

  lemma {:induction false} WeightExchanged(flight: seq<Packet>, at: nat, sent: seq<Packet>)
    requires at < |flight|
    ensures Weight(flight[..at] + flight[at + 1..] + sent) + Weight([flight[at]]) == Weight(flight) + Weight(sent)
  {
    var front, p, back := flight[..at], [flight[at]], flight[at + 1..];
    assert flight == front + p + back;
    WeightConcat(front + back, sent);
    WeightConcat(front, back);
    WeightConcat(front + p, back);
    WeightConcat(front, p);
  }

  /** The deliveries can be made one after the other. */
  predicate Playable(x: Traffic, schedule: seq<Delivery>)
    decreases |schedule|
  {
    schedule == [] || (Possible(x, schedule[0]) && Playable(Consume(x, schedule[0]), schedule[1..]))
  }

  /**
   With silent applications and no duplication, no schedule of deliveries is longer than
   twice the OPENs in flight and once the other packets: the network always drains.
   */
  lemma {:induction false} NetworkDrains(x: Traffic, schedule: seq<Delivery>)
    requires Playable(x, schedule)
    ensures |schedule| <= Weight(x.flight)
    decreases |schedule|
  {
    if schedule != [] {
      ConsumeLightens(x, schedule[0]);
      NetworkDrains(Consume(x, schedule[0]), schedule[1..]);
    }
  }

  // ---------- the table of tubes ----------

  /** `compare_id` and a hash of the eight bytes, for keys that point to IDs. */
  function IdKeys(read: nat -> nat, hash: nat -> nat): TableModel.Keys {
    TableModel.Keys((p: nat) => hash(read(p)),
                    (a: nat, b: nat) => if read(a) < read(b) then -1 else if read(a) == read(b) then 0 else 1)
  }

  /** They are what the hash table asks for, so the table of tubes is a map from IDs to tubes. */
  lemma {:induction false} IdKeysLawful(read: nat -> nat, hash: nat -> nat)
    ensures IdKeys(read, hash).Lawful()
  {
  }
}
