/**
 A tube manager of src/tube_manager.c on the heap: its table of tube objects, whose
 states change in place, its policy bits, and what it has sent and raised so far.  Every
 method is proved to do to `site` what the function of TubeModel says.
 */
module TubeManager {
  import opened Options
  import SpudWire
  import opened TubeModel

  type Bytes = SpudWire.Bytes
  type TubeId = SpudWire.TubeId

  const WILL_RESPOND: bv8 := 0x02

  class TubeObject {
    ghost const obj: nat
    const id: TubeId
    var state: TubeState

    /** `tube_create`, `tube_set_info` and `tube_set_state`. */
    constructor (ghost obj: nat, id: TubeId, state: TubeState)
      ensures this.obj == obj && this.id == id && this.state == state
    {
      this.obj, this.id, this.state := obj, id, state;
    }

    ghost function View(): Tube
      reads this
    {
      Tube(obj, state)
    }
  }

  /** An event that was triggered. */
  datatype Notice = Notice(tube: TubeObject, kind: Kind)

  ghost function Views(notices: seq<Notice>): seq<(nat, Kind)> {
    if notices == [] then []
    else
      var last := notices[|notices| - 1];
      Views(notices[..|notices| - 1]) + [(last.tube.obj, last.kind)]
  }

  /** The packet that a parsed datagram carries. */
  function PacketOf(payload: Bytes): Packet
    requires SpudWire.IsSpud(payload)
  {
    var flags := payload[12];
    Packet(payload[4..12], SpudWire.CommandOf(flags), Marks(flags & SpudWire.ADEC != 0, flags & SpudWire.PDEC != 0),
           payload[SpudWire.HEADER_SIZE..])
  }

  function DatagramOf(p: Packet): Bytes {
    SpudWire.Datagram(p.id, p.cmd, p.marks.adec, p.marks.pdec, [p.body])
  }

  /** What one manager sends is what the other one handles. */
  lemma {:induction false} PacketSurvives(p: Packet)
    ensures SpudWire.IsSpud(DatagramOf(p)) && PacketOf(DatagramOf(p)) == p
  {
    SpudWire.DatagramParts(p.id, p.cmd, p.marks.adec, p.marks.pdec, [p.body]);
    SpudWire.FlagsRoundTrip(p.cmd, p.marks.adec, p.marks.pdec);
    SpudWire.OneChunk(p.body);
  }

  function SentBy(log: Log, me: nat): seq<Bytes> {
    if log.Nothing? then []
    else
      SentBy(log.before, me) + if log.last.Sent? && log.last.me == me then [DatagramOf(log.last.packet)] else []
  }

  function RaisedBy(log: Log, me: nat): seq<(nat, Kind)> {
    if log.Nothing? then []
    else
      RaisedBy(log.before, me) + if log.last.Raised? && log.last.me == me then [(log.last.obj, log.last.kind)] else []
  }

  class TubeTable {
    const me: nat
    var tubes: map<TubeId, TubeObject>
    var policy: bv8
    var sent: seq<Bytes>
    var raised: seq<Notice>
    ghost var objects: set<TubeObject>
    ghost var site: Site

    ghost predicate TablesAgree()
      reads this, objects
    {
      && (forall id :: id in tubes <==> id in site.mgr.tubes)
      && (forall id :: id in tubes ==>
            tubes[id] in objects && tubes[id].id == id && tubes[id].View() == site.mgr.tubes[id])
    }

    ghost predicate RecordsAgree()
      reads this
    {
      && sent == SentBy(site.log, me)
      && Views(raised) == RaisedBy(site.log, me)
    }

    ghost predicate Valid()
      reads this, objects
    {
      TablesAgree() && RecordsAgree() && site.mgr.responder == (policy & WILL_RESPOND == WILL_RESPOND)
    }

    constructor (me: nat, ghost nextObj: nat)
      ensures Valid() && this.me == me && site == Site(Manager(map[], false), nextObj, Nothing) && objects == {}
    {
      this.me := me;
      tubes, policy, sent, raised := map[], 0, [], [];
      objects := {};
      site := Site(Manager(map[], false), nextObj, Nothing);
    }

    /** `tube_manager_set_policy_responder`; the other policy bits stay. */
    method SetPolicyResponder(willRespond: bool)
      requires Valid()
      modifies this`policy, this`site
      ensures Valid() && site == Apply(old(site), me, CallPolicy(willRespond))
      ensures policy & !WILL_RESPOND == old(policy) & !WILL_RESPOND
    {
      if willRespond {
        policy := policy | WILL_RESPOND;
      } else {
        policy := policy & !WILL_RESPOND;
      }
      site := site.(mgr := site.mgr.(responder := willRespond));
    }

    /** `tube_send`. */
    method SendPacket(t: TubeObject, cmd: SpudWire.Command, marks: Marks, data: seq<Bytes>)
      requires Valid()
      modifies this`sent, this`site
      ensures Valid()
      ensures site == old(site).(log := Post(old(site).log, me, Packet(t.id, cmd, marks, SpudWire.Concat(data))))
    {
      var datagram := SpudWire.Send(t.id, cmd, marks.adec, marks.pdec, data);
      ghost var p := Packet(t.id, cmd, marks, SpudWire.Concat(data));
      SpudWire.OneChunk(p.body);
      assert datagram == DatagramOf(p);
      sent := sent + [datagram];
      site := site.(log := Post(site.log, me, p));
    }

    /** `tube_send` of a command without declaration bits and body. */
    method SendControl(t: TubeObject, cmd: SpudWire.Command)
      requires Valid()
      modifies this`sent, this`site
      ensures Valid() && site == old(site).(log := Post(old(site).log, me, Control(t.id, cmd)))
    {
      SendPacket(t, cmd, Marks(false, false), []);
    }

    /** `ls_event_trigger` of one of the manager's events. */
    method Trigger(t: TubeObject, kind: Kind)
      requires Valid()
      modifies this`raised, this`site
      ensures Valid()
      ensures site == old(site).(log := Then(old(site).log, Raised(me, t.id, t.obj, kind)))
    {
      assert (raised + [Notice(t, kind)])[..|raised|] == raised;
      raised := raised + [Notice(t, kind)];
      site := site.(log := Then(site.log, Raised(me, t.id, t.obj, kind)));
    }

    /** The state of a tube in the table is set, and the ghost table follows. */
    method SetState(t: TubeObject, state: TubeState)
      requires Valid() && t.id in tubes && tubes[t.id] == t
      modifies t`state, this`site
      ensures Valid() && t.state == state
      ensures site == old(site).(mgr := With(old(site).mgr, t.id, Tube(t.obj, state)))
    {
      t.state := state;
      site := site.(mgr := With(site.mgr, t.id, Tube(t.obj, state)));
    }

    /** The tube is in the table, under its own ID. */
    predicate InTable(t: TubeObject)
      reads this
    {
      t.id in tubes && tubes[t.id] == t
    }

    /** `tube_close`, for a tube in the table or one that has left it. */
    method TubeClose(t: TubeObject)
      requires Valid()
      modifies t`state, this`site, this`sent
      ensures Valid() && t.state == UNKNOWN
      ensures site == if InTable(t) then CloseTube(old(site), me, t.id)
                      else old(site).(log := Post(old(site).log, me, Control(t.id, SpudWire.CLOSE)))
    {
      if InTable(t) {
        SetState(t, UNKNOWN);
      } else {
        t.state := UNKNOWN;
      }
      SendControl(t, SpudWire.CLOSE);
    }

    /** `clean_tube`, for a tube that has left the table. */
    method CleanTube(t: TubeObject, ghost was: Tube)
      requires Valid() && was == t.View() && !InTable(t)
      modifies t`state, this`site, this`sent
      ensures Valid() && site == old(site).(log := Clean(old(site).log, me, t.id, was))
    {
      if t.state == RUNNING {
        TubeClose(t);
      }
    }

    /** `tube_manager_remove`. */
    method RemoveTube(t: TubeObject)
      requires Valid() && t.id in tubes && tubes[t.id] == t
      modifies this, t`state
      ensures Valid() && site == Remove(old(site), me, t.id) && objects == old(objects)
    {
      ghost var was := t.View();
      Trigger(t, Removed);
      tubes := tubes - {t.id};
      site := site.(mgr := site.mgr.(tubes := site.mgr.tubes - {t.id}));
      CleanTube(t, was);
    }

    /** The table entry of the ID of `t` becomes `t`. */
    method PlaceTube(t: TubeObject)
      requires Valid() && t !in objects
      modifies this`tubes, this`objects, this`site
      ensures Valid() && tubes == old(tubes)[t.id := t] && objects == old(objects) + {t}
      ensures site == old(site).(mgr := With(old(site).mgr, t.id, t.View()))
    {
      tubes := tubes[t.id := t];
      objects := objects + {t};
      site := site.(mgr := With(site.mgr, t.id, t.View()));
    }

    /** `tube_manager_add`: the table's cleaner takes care of a tube in the same place. */
    method AddTube(t: TubeObject)
      requires Valid() && t !in objects
      modifies this, objects
      ensures Valid() && t.id in tubes && tubes[t.id] == t && objects == old(objects) + {t}
      ensures site == Add(old(site), me, t.id, t.View())
    {
      if t.id in tubes {
        var other := tubes[t.id];
        ghost var was := other.View();
        PlaceTube(t);
        CleanTube(other, was);
      } else {
        PlaceTube(t);
      }
      Trigger(t, Added);
    }

    /** An object is born; nobody has heard of it yet. */
    ghost method Birth(born: Fact)
      requires Valid() && (born.Opened? || born.Accepted?)
      modifies this`site
      ensures Valid() && site == Site(old(site).mgr, old(site).nextObj + 1, Then(old(site).log, born))
    {
      site := Site(site.mgr, site.nextObj + 1, Then(site.log, born));
    }

    /** `tube_manager_open_tube`; `id` is the random ID. */
    method Open(id: TubeId) returns (t: TubeObject)
      requires Valid()
      modifies this, objects
      ensures Valid() && fresh(t) && objects == old(objects) + {t} && site == OpenTube(old(site), me, id)
    {
      t := new TubeObject(site.nextObj, id, OPENING);
      Birth(Opened(me, id, site.nextObj));
      AddTube(t);
      SendControl(t, SpudWire.OPEN);
    }

    /** A call of the application. */
    method Perform(c: Call)
      requires Valid()
      modifies this, objects
      ensures Valid() && fresh(objects - old(objects)) && site == Apply(old(site), me, c)
    {
      match c
      case CallOpen(id) => var _ := Open(id);
      case CallData(id, marks, body) =>
        if id in tubes {
          SpudWire.OneChunk(body);
          SendPacket(tubes[id], SpudWire.DATA, marks, [body]);
        }
      case CallClose(id) =>
        if id in tubes {
          TubeClose(tubes[id]);
        }
      case CallRemove(id) =>
        if id in tubes {
          RemoveTube(tubes[id]);
        }
      case CallPolicy(responder) => SetPolicyResponder(responder);
    }

    /** The branch of the receive loop for an unknown tube. */
    method AcceptTube(id: TubeId)
      requires Valid() && id !in tubes
      modifies this, objects
      ensures Valid() && fresh(objects - old(objects)) && site == Accept(old(site), me, id)
    {
      var t := new TubeObject(site.nextObj, id, UNKNOWN);
      Birth(Accepted(me, id, site.nextObj));
      AddTube(t);
      SetState(t, RUNNING);
      SendControl(t, SpudWire.ACK);
    }

    /** The switch of the receive loop for a tube in the table. */
    method HandleCommand(t: TubeObject, cmd: SpudWire.Command, body: Bytes, ghost marks: Marks)
      requires Valid() && t.id in tubes && tubes[t.id] == t && t.id in site.mgr.tubes
      modifies this, objects
      ensures Valid() && objects == old(objects) && site == Handle(old(site), me, Packet(t.id, cmd, marks, body))
    {
      var state := t.state;
      match cmd
      case DATA =>
        if state == RUNNING {
          Trigger(t, Data(body));
        }
      case CLOSE =>
        if state != UNKNOWN {
          SetState(t, UNKNOWN);
          Trigger(t, Closed);
          RemoveTube(t);
        }
      case OPEN =>
      case ACK =>
        if state == OPENING {
          SetState(t, RUNNING);
          Trigger(t, Started);
        }
    }

    /** One turn of the receive loop; `decode` is the CBOR decoder. */
    method HandleDatagram<C>(buf: Bytes, decode: Bytes -> Option<C>)
      requires Valid()
      modifies this, objects
      ensures Valid() && fresh(objects - old(objects))
      ensures site == if SpudWire.Parse(decode, buf).Invalid? then old(site) else Receive(old(site), me, PacketOf(buf))
    {
      var msg := SpudWire.Parse(decode, buf);
      if msg.Invalid? {
        return;
      }
      var uid, cmd := msg.id, SpudWire.CommandOf(msg.flags);
      if uid in tubes {
        HandleCommand(tubes[uid], cmd, buf[SpudWire.HEADER_SIZE..], PacketOf(buf).marks);
      } else if policy & WILL_RESPOND == WILL_RESPOND && cmd == SpudWire.OPEN {
        AcceptTube(uid);
      }
    }
  }

  // ---------- several managers ----------

  /** What one manager does is not what another one has sent or raised. */
  lemma {:induction false} OthersReceive(s: Site, me: nat, p: Packet, other: nat)
    requires other != me
    ensures var r := Receive(s, me, p).log;
            SentBy(r, other) == SentBy(s.log, other) && RaisedBy(r, other) == RaisedBy(s.log, other)
  {
    assert SentBy(s.log, other) + [] == SentBy(s.log, other) && RaisedBy(s.log, other) + [] == RaisedBy(s.log, other);
    if p.id !in s.mgr.tubes && s.mgr.responder && p.cmd == SpudWire.OPEN {
      var l1 := Then(s.log, Accepted(me, p.id, s.nextObj));
      var l2 := Then(l1, Raised(me, p.id, s.nextObj, Added));
      assert SentBy(l1, other) == SentBy(s.log, other) && RaisedBy(l1, other) == RaisedBy(s.log, other);
      assert SentBy(l2, other) == SentBy(l1, other) && RaisedBy(l2, other) == RaisedBy(l1, other);
    } else if p.id in s.mgr.tubes && p.cmd == SpudWire.CLOSE && s.mgr.tubes[p.id].state != UNKNOWN {
      var l1 := Then(s.log, Raised(me, p.id, s.mgr.tubes[p.id].obj, Closed));
      assert SentBy(l1, other) == SentBy(s.log, other) && RaisedBy(l1, other) == RaisedBy(s.log, other);
    }
  }

  lemma {:induction false} OthersApply(s: Site, me: nat, c: Call, other: nat)
    requires other != me
    ensures var r := Apply(s, me, c).log;
            SentBy(r, other) == SentBy(s.log, other) && RaisedBy(r, other) == RaisedBy(s.log, other)
  {
    assert SentBy(s.log, other) + [] == SentBy(s.log, other) && RaisedBy(s.log, other) + [] == RaisedBy(s.log, other);
    match c
    case CallOpen(id) =>
      var l1 := Then(s.log, Opened(me, id, s.nextObj));
      var l2 := if id in s.mgr.tubes then Clean(l1, me, id, s.mgr.tubes[id]) else l1;
      var l3 := Then(l2, Raised(me, id, s.nextObj, Added));
      assert SentBy(l1, other) == SentBy(s.log, other) && RaisedBy(l1, other) == RaisedBy(s.log, other);
      assert SentBy(l2, other) == SentBy(l1, other) && RaisedBy(l2, other) == RaisedBy(l1, other);
      assert SentBy(l3, other) == SentBy(l2, other) && RaisedBy(l3, other) == RaisedBy(l2, other);
    case CallRemove(id) =>
      if id in s.mgr.tubes {
        var l1 := Then(s.log, Raised(me, id, s.mgr.tubes[id].obj, Removed));
        assert SentBy(l1, other) == SentBy(s.log, other) && RaisedBy(l1, other) == RaisedBy(s.log, other);
      }
    case _ =>
  }

  /** All managers of the world, on the heap; log and object numbers are common to them. */
  class Fleet {
    const tables: seq<TubeTable>
    ghost var world: World

    ghost predicate Holds(i: nat)
      requires i < |tables|
      reads this, tables, tables[i].objects
    {
      && |world.mgrs| == |tables| && tables[i].me == i && tables[i].Valid()
      && tables[i].site == Site(world.mgrs[i], world.nextObj, world.log)
    }

    ghost function Objects(): set<TubeObject>
      reads tables
    {
      set i, t | 0 <= i < |tables| && t in tables[i].objects :: t
    }

    ghost predicate Valid()
      reads this, tables, Objects()
    {
      && |world.mgrs| == |tables|
      && (forall i :: 0 <= i < |tables| ==> Holds(i))
      && (forall i, j :: 0 <= i < j < |tables| ==> tables[i].objects !! tables[j].objects)
    }

    constructor (n: nat)
      ensures Valid() && fresh(tables) && |tables| == n && world == Begin(n)
    {
      var made: seq<TubeTable> := [];
      while |made| < n
        invariant |made| <= n && fresh(made)
        invariant forall i :: 0 <= i < |made| ==>
          && made[i].me == i && made[i].Valid() && made[i].objects == {}
          && made[i].site == Site(Manager(map[], false), 0, Nothing)
      {
        var t := new TubeTable(|made|, 0);
        made := made + [t];
      }
      tables := made;
      world := Begin(n);
    }

    /** What others have done leaves one's own records right. */
    ghost predicate Foreign(log: Log, r: Log, me: nat) {
      SentBy(r, me) == SentBy(log, me) && RaisedBy(r, me) == RaisedBy(log, me)
    }

    /** Manager `i` has made a step; the others learn the new object numbers and the log. */
    ghost method Share(i: nat, s: Site)
      requires i < |tables| == |world.mgrs| && tables[i].Valid() && tables[i].me == i && tables[i].site == s
      requires forall j :: 0 <= j < |tables| && j != i ==> Holds(j) && Foreign(world.log, s.log, j)
      requires forall j, k :: 0 <= j < k < |tables| ==> tables[j].objects !! tables[k].objects
      modifies this`world, tables`site
      ensures Valid() && world == Install(old(world), i, s)
    {
      world := Install(world, i, s);
      forall j | 0 <= j < |tables| && j != i {
        tables[j].site := Site(tables[j].site.mgr, s.nextObj, s.log);
      }
      forall j | 0 <= j < |tables|
        ensures Holds(j)
      {
        assert j != i ==> old(Holds(j)) && Foreign(old(world).log, s.log, j);
      }
    }

    /** The network hands a datagram to manager `i`. */
    method Deliver<C>(i: nat, buf: Bytes, decode: Bytes -> Option<C>)
      requires Valid() && i < |tables|
      modifies this, tables, Objects()
      ensures Valid()
      ensures if SpudWire.Parse(decode, buf).Invalid? then world == old(world)
              else WasSent(old(world).log, PacketOf(buf)) ==>
                     world == Step(old(world), TubeModel.Deliver(i, PacketOf(buf)))
    {
      assert Holds(i);
      tables[i].HandleDatagram(buf, decode);
      forall j | 0 <= j < |tables| && j != i
        ensures Holds(j) && tables[j].objects == old(tables[j].objects)
        ensures Foreign(world.log, tables[i].site.log, j)
      {
        assert old(Holds(j)) && old(tables[i].objects !! tables[j].objects);
        if !SpudWire.Parse(decode, buf).Invalid? {
          OthersReceive(old(tables[i].site), i, PacketOf(buf), j);
        }
      }
      Share(i, tables[i].site);
    }

    /** The application calls manager `i`. */
    method CallOn(i: nat, c: Call)
      requires Valid() && i < |tables|
      modifies this, tables, Objects()
      ensures Valid() && world == Step(old(world), App(i, c))
    {
      assert Holds(i);
      tables[i].Perform(c);
      forall j | 0 <= j < |tables| && j != i
        ensures Holds(j) && tables[j].objects == old(tables[j].objects)
        ensures Foreign(world.log, tables[i].site.log, j)
      {
        assert old(Holds(j)) && old(tables[i].objects !! tables[j].objects);
        OthersApply(old(tables[i].site), i, c, j);
      }
      Share(i, tables[i].site);
    }
  }
}
