/**
 What every run of the tube protocol keeps.
 */
module TubeLaws {
  import opened SpudWire
  import opened TubeModel

  // ---------- the life of one tube object ----------

  /** What has been raised about a tube object, in the only order there is. */
  datatype Life = Life(initiator: bool, added: bool, started: bool, data: nat, closed: bool, removed: bool)

  datatype Course = Unborn | Alive(life: Life) | Broken

  /** `add`, at most one `running` and for initiators only, `data`, `close`, `remove`. */
  function NextLife(l: Life, kind: Kind): Course {
    match kind
    case Added => if l == Life(l.initiator, false, false, 0, false, false) then Alive(l.(added := true)) else Broken
    case Started =>
      if l == Life(true, true, false, 0, false, false) then Alive(l.(started := true)) else Broken
    case Data(_) =>
      if l.added && (l.initiator ==> l.started) && !l.closed && !l.removed
      then Alive(l.(data := l.data + 1)) else Broken
    case Closed => if l.added && !l.closed && !l.removed then Alive(l.(closed := true)) else Broken
    case Removed => if l.added && !l.removed then Alive(l.(removed := true)) else Broken
  }

  function Birth(c: Course, initiator: bool): Course {
    if c.Unborn? then Alive(Life(initiator, false, false, 0, false, false)) else Broken
  }

  function Follow(log: Log, obj: nat): Course {
    if log.Nothing? then Unborn
    else
      var c := Follow(log.before, obj);
      match log.last
      case Opened(_, _, o) => if o == obj then Birth(c, true) else c
      case Accepted(_, _, o) => if o == obj then Birth(c, false) else c
      case Raised(_, _, o, kind) =>
        if o != obj then c else if c.Alive? then NextLife(c.life, kind) else Broken
      case Sent(_, _) => c
  }

  // ---------- what each fact presupposes ----------

  /** The ID was opened by an initiator. */
  ghost predicate WasOpened(log: Log, id: TubeId) {
    exists me, obj :: Happened(log, Opened(me, id, obj))
  }

  /** A responder accepted the ID and confirmed it. */
  ghost predicate WasConfirmed(log: Log, id: TubeId) {
    exists me, obj :: Happened(log, Accepted(me, id, obj)) && Happened(log, Sent(me, Control(id, ACK)))
  }

  /** Somebody sent this body as data for the ID. */
  ghost predicate DataSent(log: Log, id: TubeId, body: Bytes) {
    exists marks: Marks :: WasSent(log, Packet(id, DATA, marks, body))
  }

  ghost predicate Grounded(before: Log, x: Fact) {
    match x
    case Opened(_, _, _) => true
    case Accepted(_, id, _) => WasOpened(before, id) && WasSent(before, Control(id, OPEN))
    case Sent(me, p) =>
      && WasOpened(before, p.id) && (p.cmd != DATA ==> p == Control(p.id, p.cmd))
      && (p.cmd == ACK ==> exists obj :: Happened(before, Accepted(me, p.id, obj)))
    case Raised(me, id, obj, kind) =>
      && WasOpened(before, id)
      && (kind.Started? ==> Happened(before, Opened(me, id, obj)) && WasConfirmed(before, id))
      && (kind.Data? ==> DataSent(before, id, kind.body))
  }

  /** Each fact rests on earlier ones. */
  ghost predicate Honest(log: Log) {
    log.Nothing? || (Honest(log.before) && Grounded(log.before, log.last))
  }

  lemma {:induction false} SentOpened(log: Log, p: Packet)
    requires Honest(log) && WasSent(log, p)
    ensures WasOpened(log, p.id)
    ensures p.cmd != DATA ==> p == Control(p.id, p.cmd)
    ensures p.cmd == ACK ==> WasConfirmed(log, p.id)
  {
    if log.last.Sent? && log.last.packet == p {
      var me0, obj0 :| Happened(log.before, Opened(me0, p.id, obj0));
      assert Happened(log, Opened(me0, p.id, obj0));
      if p.cmd == ACK {
        var me := log.last.me;
        var obj :| Happened(log.before, Accepted(me, p.id, obj));
        assert Happened(log, Accepted(me, p.id, obj)) && Happened(log, Sent(me, Control(p.id, ACK)));
      }
    } else {
      SentOpened(log.before, p);
      StillOpened(log, p.id);
      StillConfirmed(log, p.id);
    }
  }

  lemma {:induction false} StillOpened(log: Log, id: TubeId)
    requires log.Then? && WasOpened(log.before, id)
    ensures WasOpened(log, id)
  {
    var me, obj :| Happened(log.before, Opened(me, id, obj));
    assert Happened(log, Opened(me, id, obj));
  }

  lemma {:induction false} StillConfirmed(log: Log, id: TubeId)
    requires log.Then?
    ensures WasConfirmed(log.before, id) ==> WasConfirmed(log, id)
  {
    if WasConfirmed(log.before, id) {
      var me, obj :| Happened(log.before, Accepted(me, id, obj)) && Happened(log.before, Sent(me, Control(id, ACK)));
      assert Happened(log, Accepted(me, id, obj)) && Happened(log, Sent(me, Control(id, ACK)));
    }
  }

  // ---------- logs only grow ----------

  ghost predicate Later(log: Log, r: Log) {
    r == log || (r.Then? && Later(log, r.before))
  }

  lemma {:induction false} LaterKeeps(log: Log, r: Log)
    requires Later(log, r)
    ensures forall x :: Happened(log, x) ==> Happened(r, x)
    ensures forall id :: WasOpened(log, id) ==> WasOpened(r, id)
  {
    if r != log {
      LaterKeeps(log, r.before);
      forall id | WasOpened(log, id)
        ensures WasOpened(r, id)
      {
        StillOpened(r, id);
      }
    }
  }

  // ---------- every object is made once ----------

  /** Manager `me` made the object for this ID. */
  ghost predicate Born(log: Log, me: nat, id: TubeId, obj: nat) {
    Happened(log, Opened(me, id, obj)) || Happened(log, Accepted(me, id, obj))
  }

  lemma {:induction false} UnbornIsUnborn(log: Log, me: nat, id: TubeId, obj: nat)
    requires Follow(log, obj).Unborn?
    ensures !Born(log, me, id, obj)
  {
    if log.Then? {
      UnbornIsUnborn(log.before, me, id, obj);
    }
  }

  lemma {:induction false} OneBirth(log: Log, obj: nat, me: nat, id: TubeId, me': nat, id': TubeId)
    requires !Follow(log, obj).Broken? && Born(log, me, id, obj) && Born(log, me', id', obj)
    ensures me == me' && id == id'
  {
    if Follow(log.before, obj).Unborn? {
      UnbornIsUnborn(log.before, me, id, obj);
      UnbornIsUnborn(log.before, me', id', obj);
    } else {
      OneBirth(log.before, obj, me, id, me', id');
    }
  }

  // ---------- the invariant ----------

  /** Between operations an object that was closed is also removed. */
  predicate Settled(c: Course) {
    match c
    case Unborn => true
    case Alive(l) => l.added && (l.closed ==> l.removed)
    case Broken => false
  }

  /** A tube in a table, and what the log says of it. */
  ghost predicate Fits(log: Log, me: nat, id: TubeId, t: Tube) {
    && WasOpened(log, id)
    && Follow(log, t.obj).Alive?
    && var l := Follow(log, t.obj).life;
       && l.added && !l.closed && !l.removed
       && Happened(log, if l.initiator then Opened(me, id, t.obj) else Accepted(me, id, t.obj))
       && (t.state == OPENING ==> l == Life(true, true, false, 0, false, false))
       && (t.state == RUNNING && l.initiator ==> l.started && Happened(log, Raised(me, id, t.obj, Started)))
  }

  ghost predicate TablesFit(w: World) {
    forall me, id :: 0 <= me < |w.mgrs| && id in w.mgrs[me].tubes ==>
      w.mgrs[me].tubes[id].obj < w.nextObj && Fits(w.log, me, id, w.mgrs[me].tubes[id])
  }

  ghost predicate CoursesFit(log: Log, nextObj: nat) {
    forall obj: nat :: Settled(Follow(log, obj)) && (obj >= nextObj ==> Follow(log, obj).Unborn?)
  }

  ghost predicate Inv(w: World) {
    Honest(w.log) && CoursesFit(w.log, w.nextObj) && TablesFit(w)
  }

  /** From `log` to `r` only object `o` has been heard of. */
  ghost predicate About(log: Log, r: Log, o: nat) {
    Later(log, r) && forall obj :: obj != o ==> Follow(r, obj) == Follow(log, obj)
  }

  lemma {:induction false} AboutNext(log: Log, r: Log, o: nat, x: Fact)
    requires About(log, r, o) && (x.Sent? || x.obj == o)
    ensures About(log, Then(r, x), o)
  {
  }

  /** Only the entry of `id` in the table of `me` has changed, and only object `o` has been heard of. */
  ghost predicate OnlyOne(w: World, r: World, me: nat, id: TubeId, o: nat) {
    && me < |w.mgrs| == |r.mgrs| && w.nextObj <= r.nextObj && About(w.log, r.log, o)
    && (forall m :: 0 <= m < |w.mgrs| && m != me ==> r.mgrs[m] == w.mgrs[m])
    && (forall i :: i != id ==> (i in r.mgrs[me].tubes <==> i in w.mgrs[me].tubes))
    && (forall i :: i != id && i in r.mgrs[me].tubes ==> r.mgrs[me].tubes[i] == w.mgrs[me].tubes[i])
  }

  lemma {:induction false} Frame(w: World, r: World, me: nat, id: TubeId, o: nat)
    requires Inv(w) && OnlyOne(w, r, me, id, o)
    requires o >= w.nextObj || Born(w.log, me, id, o)
    requires Honest(r.log) && Settled(Follow(r.log, o)) && (o >= r.nextObj ==> Follow(r.log, o).Unborn?)
    requires id in r.mgrs[me].tubes ==>
               r.mgrs[me].tubes[id].obj < r.nextObj && Fits(r.log, me, id, r.mgrs[me].tubes[id])
    ensures Inv(r)
  {
    LaterKeeps(w.log, r.log);
    forall m, i | 0 <= m < |r.mgrs| && i in r.mgrs[m].tubes
      ensures r.mgrs[m].tubes[i].obj < r.nextObj && Fits(r.log, m, i, r.mgrs[m].tubes[i])
    {
      if m != me || i != id {
        var t := r.mgrs[m].tubes[i];
        assert w.mgrs[m].tubes[i] == t && Fits(w.log, m, i, t);
        if t.obj == o {
          OneBirth(w.log, o, m, i, me, id);
        }
      }
    }
  }

  // ---------- every operation keeps the invariant ----------

  lemma {:induction false} AcceptKeeps(w: World, me: nat, id: TubeId)
    requires Inv(w) && me < |w.mgrs| && id !in w.mgrs[me].tubes && WasSent(w.log, Control(id, OPEN))
    ensures Inv(Install(w, me, Accept(SiteOf(w, me), me, id)))
  {
    var o := w.nextObj;
    var l1 := Then(w.log, Accepted(me, id, o));
    var l2 := Then(l1, Raised(me, id, o, Added));
    var r := Install(w, me, Accept(SiteOf(w, me), me, id));
    assert r.log == Then(l2, Sent(me, Control(id, ACK)));
    SentOpened(w.log, Control(id, OPEN));
    StillOpened(l1, id);
    StillOpened(l2, id);
    StillOpened(r.log, id);
    assert Happened(l1, Accepted(me, id, o)) && Happened(l2, Accepted(me, id, o));
    assert Happened(r.log, Accepted(me, id, o));
    assert Settled(Follow(w.log, o)) && Follow(w.log, o).Unborn?;
    assert Follow(l1, o) == Alive(Life(false, false, false, 0, false, false));
    assert Follow(l2, o) == Alive(Life(false, true, false, 0, false, false));
    AboutNext(w.log, w.log, o, Accepted(me, id, o));
    AboutNext(w.log, l1, o, Raised(me, id, o, Added));
    AboutNext(w.log, l2, o, Sent(me, Control(id, ACK)));
    assert Honest(l1) && Honest(l2);
    Frame(w, r, me, id, o);
  }

  lemma {:induction false} OpenKeeps(w: World, me: nat, id: TubeId)
    requires Inv(w) && me < |w.mgrs|
    ensures Inv(Install(w, me, OpenTube(SiteOf(w, me), me, id)))
  {
    var o := w.nextObj;
    var tubes := w.mgrs[me].tubes;
    var l1 := Then(w.log, Opened(me, id, o));
    var l2 := if id in tubes then Clean(l1, me, id, tubes[id]) else l1;
    var l3 := Then(l2, Raised(me, id, o, Added));
    var r := Install(w, me, OpenTube(SiteOf(w, me), me, id));
    assert r.log == Then(l3, Sent(me, Control(id, OPEN)));
    assert Happened(l1, Opened(me, id, o)) && Happened(l2, Opened(me, id, o)) && Happened(l3, Opened(me, id, o));
    assert WasOpened(l1, id) && WasOpened(l2, id) && WasOpened(l3, id) && Happened(r.log, Opened(me, id, o));
    assert Settled(Follow(w.log, o)) && Follow(w.log, o).Unborn?;
    assert Follow(l1, o) == Alive(Life(true, false, false, 0, false, false)) && Follow(l2, o) == Follow(l1, o);
    assert Follow(l3, o) == Alive(Life(true, true, false, 0, false, false));
    AboutNext(w.log, w.log, o, Opened(me, id, o));
    AboutNext(w.log, l1, o, Sent(me, Control(id, CLOSE)));
    AboutNext(w.log, l2, o, Raised(me, id, o, Added));
    AboutNext(w.log, l3, o, Sent(me, Control(id, OPEN)));
    assert Honest(l1) && Honest(l2) && Honest(l3);
    Frame(w, r, me, id, o);
  }

  /** One fact about a tube in the table, whose entry may change its state. */
  lemma {:induction false} RaiseKeeps(w: World, me: nat, id: TubeId, state: TubeState, kind: Kind)
    requires Inv(w) && me < |w.mgrs| && id in w.mgrs[me].tubes
    requires var t := w.mgrs[me].tubes[id];
             || (kind.Started? && t.state == OPENING && state == RUNNING && WasConfirmed(w.log, id))
             || (kind.Data? && t.state == RUNNING && state == RUNNING && DataSent(w.log, id, kind.body))
    ensures var t := w.mgrs[me].tubes[id];
            Inv(World(w.mgrs[me := With(w.mgrs[me], id, t.(state := state))], w.nextObj,
                      Then(w.log, Raised(me, id, t.obj, kind))))
  {
    var t := w.mgrs[me].tubes[id];
    var r := World(w.mgrs[me := With(w.mgrs[me], id, t.(state := state))], w.nextObj,
                   Then(w.log, Raised(me, id, t.obj, kind)));
    assert Fits(w.log, me, id, t);
    StillOpened(r.log, id);
    AboutNext(w.log, w.log, t.obj, Raised(me, id, t.obj, kind));
    assert Happened(r.log, Raised(me, id, t.obj, kind));
    Frame(w, r, me, id, t.obj);
  }

  /** What is logged when a tube leaves the table, perhaps after it was closed. */
  function FarewellLog(log: Log, me: nat, id: TubeId, t: Tube, closed: bool): Log {
    var l := if closed then Then(log, Raised(me, id, t.obj, Closed)) else log;
    Clean(Then(l, Raised(me, id, t.obj, Removed)), me, id, if closed then t.(state := UNKNOWN) else t)
  }

  lemma {:induction false} FarewellKeeps(log: Log, me: nat, id: TubeId, t: Tube, closed: bool)
    requires Honest(log) && Fits(log, me, id, t)
    ensures var r := FarewellLog(log, me, id, t, closed);
            Honest(r) && About(log, r, t.obj) && Settled(Follow(r, t.obj)) && !Follow(r, t.obj).Unborn?
  {
    var l1 := if closed then Then(log, Raised(me, id, t.obj, Closed)) else log;
    var l2 := Then(l1, Raised(me, id, t.obj, Removed));
    if closed { StillOpened(l1, id); }
    StillOpened(l2, id);
    AboutNext(log, log, t.obj, Raised(me, id, t.obj, Closed));
    AboutNext(log, l1, t.obj, Raised(me, id, t.obj, Removed));
    AboutNext(log, l2, t.obj, Sent(me, Control(id, CLOSE)));
    assert Follow(l2, t.obj).Alive? && Follow(l2, t.obj).life.removed && Follow(l2, t.obj).life.added;
    assert Honest(l1) && Honest(l2);
  }

  lemma {:induction false} RemovesOne(w: World, r: World, me: nat, id: TubeId, o: nat, m: Manager)
    requires me < |w.mgrs| && (m == w.mgrs[me] || exists t: Tube :: m == With(w.mgrs[me], id, t))
    requires r.mgrs == w.mgrs[me := m.(tubes := m.tubes - {id})]
    requires w.nextObj == r.nextObj && About(w.log, r.log, o)
    ensures OnlyOne(w, r, me, id, o) && id !in r.mgrs[me].tubes
  {
  }

  lemma {:induction false} RemoveKeeps(w: World, me: nat, id: TubeId, closed: bool)
    requires Inv(w) && me < |w.mgrs| && id in w.mgrs[me].tubes
    ensures var s1 := if closed then MarkClosed(SiteOf(w, me), me, id) else SiteOf(w, me);
            Inv(Install(w, me, Remove(s1, me, id)))
  {
    var t := w.mgrs[me].tubes[id];
    var s1 := if closed then MarkClosed(SiteOf(w, me), me, id) else SiteOf(w, me);
    var r := Install(w, me, Remove(s1, me, id));
    assert r.log == FarewellLog(w.log, me, id, t, closed);
    assert Fits(w.log, me, id, t);
    FarewellKeeps(w.log, me, id, t, closed);
    RemovesOne(w, r, me, id, t.obj, if closed then With(w.mgrs[me], id, t.(state := UNKNOWN)) else w.mgrs[me]);
    Frame(w, r, me, id, t.obj);
  }

  /** A packet about a tube in the table, which may close for it. */
  lemma {:induction false} SendKeeps(w: World, me: nat, id: TubeId, p: Packet, closing: bool)
    requires Inv(w) && me < |w.mgrs| && id in w.mgrs[me].tubes
    requires p.id == id && (p.cmd == DATA || p == Control(id, CLOSE))
    ensures var t := w.mgrs[me].tubes[id];
            Inv(World(w.mgrs[me := if closing then With(w.mgrs[me], id, t.(state := UNKNOWN)) else w.mgrs[me]],
                      w.nextObj, Post(w.log, me, p)))
  {
    var t := w.mgrs[me].tubes[id];
    var r := World(w.mgrs[me := if closing then With(w.mgrs[me], id, t.(state := UNKNOWN)) else w.mgrs[me]],
                   w.nextObj, Post(w.log, me, p));
    assert Fits(w.log, me, id, t);
    StillOpened(r.log, id);
    AboutNext(w.log, w.log, t.obj, Sent(me, p));
    Frame(w, r, me, id, t.obj);
  }

  lemma {:induction false} ReceiveKeeps(w: World, me: nat, p: Packet)
    requires Inv(w) && me < |w.mgrs| && WasSent(w.log, p)
    ensures Inv(Install(w, me, Receive(SiteOf(w, me), me, p)))
  {
    var m := w.mgrs[me];
    var r := Install(w, me, Receive(SiteOf(w, me), me, p));
    SentOpened(w.log, p);
    if p.id !in m.tubes {
      if m.responder && p.cmd == OPEN {
        AcceptKeeps(w, me, p.id);
      } else {
        assert r == w;
      }
    } else {
      var t := m.tubes[p.id];
      match p.cmd
      case DATA =>
        if t.state == RUNNING {
          assert p == Packet(p.id, DATA, p.marks, p.body);
          RaiseKeeps(w, me, p.id, RUNNING, Data(p.body));
          assert With(m, p.id, t) == m;
        } else {
          assert r == w;
        }
      case CLOSE =>
        if t.state == UNKNOWN {
          assert r == w;
        } else {
          RemoveKeeps(w, me, p.id, true);
        }
      case OPEN => assert r == w;
      case ACK =>
        if t.state == OPENING {
          RaiseKeeps(w, me, p.id, RUNNING, Started);
        } else {
          assert r == w;
        }
    }
  }

  lemma {:induction false} ApplyKeeps(w: World, me: nat, c: Call)
    requires Inv(w) && me < |w.mgrs|
    ensures Inv(Install(w, me, Apply(SiteOf(w, me), me, c)))
  {
    var m := w.mgrs[me];
    var r := Install(w, me, Apply(SiteOf(w, me), me, c));
    match c
    case CallOpen(id) => OpenKeeps(w, me, id);
    case CallData(id, marks, body) =>
      if id in m.tubes { SendKeeps(w, me, id, Packet(id, DATA, marks, body), false); } else { assert r == w; }
    case CallClose(id) =>
      if id in m.tubes { SendKeeps(w, me, id, Control(id, CLOSE), true); } else { assert r == w; }
    case CallRemove(id) =>
      if id in m.tubes { RemoveKeeps(w, me, id, false); } else { assert r == w; }
    case CallPolicy(responder) =>
  }

  lemma {:induction false} RunKeeps(n: nat, ops: seq<Op>)
    ensures Inv(Run(n, ops))
    decreases |ops|
  {
    if ops != [] {
      var w, op := Run(n, ops[..|ops| - 1]), ops[|ops| - 1];
      RunKeeps(n, ops[..|ops| - 1]);
      if op.me < |w.mgrs| {
        match op
        case Deliver(me, p) => if WasSent(w.log, p) { ReceiveKeeps(w, me, p); }
        case App(me, c) => ApplyKeeps(w, me, c);
      }
    }
  }
}
