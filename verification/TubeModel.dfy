/**
 The tube protocol of src/tube_manager.c and src/tube.c on values: several managers,
 joined by a network that may lose, repeat, reorder and misdeliver packets but delivers
 only what was sent.  What happens is logged; tube objects are numbered as they are made.
 */
module TubeModel {
  import opened SpudWire

  datatype TubeState = UNKNOWN | OPENING | RUNNING

  /** A tube object; its number is never used again. */
  datatype Tube = Tube(obj: nat, state: TubeState)

  /** The declaration bits: to the path, and from the path. */
  datatype Marks = Marks(adec: bool, pdec: bool)

  datatype Packet = Packet(id: TubeId, cmd: Command, marks: Marks, body: Bytes)

  /** The events of a manager that concern a tube. */
  datatype Kind = Added | Started | Data(body: Bytes) | Closed | Removed

  /** What is logged of manager `me`. */
  datatype Fact =
    | Opened(me: nat, id: TubeId, obj: nat)
    | Accepted(me: nat, id: TubeId, obj: nat)
    | Sent(me: nat, packet: Packet)
    | Raised(me: nat, id: TubeId, obj: nat, kind: Kind)

  /** Everything that has happened, latest fact outermost. */
  datatype Log = Nothing | Then(before: Log, last: Fact)

  /** One manager: its table of tubes and its policy. */
  datatype Manager = Manager(tubes: map<TubeId, Tube>, responder: bool)

  /** A manager in the world: object numbers and the log are common to all of them. */
  datatype Site = Site(mgr: Manager, nextObj: nat, log: Log)

  function Control(id: TubeId, cmd: Command): Packet {
    Packet(id, cmd, Marks(false, false), [])
  }

  function Post(log: Log, me: nat, p: Packet): Log {
    Then(log, Sent(me, p))
  }

  // ---------- one manager ----------

  function With(m: Manager, id: TubeId, t: Tube): Manager {
    m.(tubes := m.tubes[id := t])
  }

  /** `clean_tube`: a tube that is thrown out while running says goodbye. */
  function Clean(log: Log, me: nat, id: TubeId, t: Tube): Log {
    if t.state == RUNNING then Post(log, me, Control(id, CLOSE)) else log
  }

  /** `tube_manager_add` for a new object: a tube in its place is cleaned up. */
  function Add(s: Site, me: nat, id: TubeId, t: Tube): Site {
    var cleaned := if id in s.mgr.tubes then Clean(s.log, me, id, s.mgr.tubes[id]) else s.log;
    s.(mgr := With(s.mgr, id, t), log := Then(cleaned, Raised(me, id, t.obj, Added)))
  }

  /** `tube_manager_remove`. */
  function Remove(s: Site, me: nat, id: TubeId): Site
    requires id in s.mgr.tubes
  {
    var t := s.mgr.tubes[id];
    s.(mgr := s.mgr.(tubes := s.mgr.tubes - {id}),
       log := Clean(Then(s.log, Raised(me, id, t.obj, Removed)), me, id, t))
  }

  /** An OPEN for an unknown tube, and the manager responds. */
  function Accept(s: Site, me: nat, id: TubeId): Site {
    var obj := s.nextObj;
    var added := Add(Site(s.mgr, obj + 1, Then(s.log, Accepted(me, id, obj))), me, id, Tube(obj, UNKNOWN));
    added.(mgr := With(added.mgr, id, Tube(obj, RUNNING)), log := Post(added.log, me, Control(id, ACK)))
  }

  /** The tube is closed by its peer, and that is raised. */
  function MarkClosed(s: Site, me: nat, id: TubeId): (r: Site)
    requires id in s.mgr.tubes
    ensures id in r.mgr.tubes
  {
    var t := s.mgr.tubes[id];
    Site(With(s.mgr, id, t.(state := UNKNOWN)), s.nextObj, Then(s.log, Raised(me, id, t.obj, Closed)))
  }

  /** A CLOSE for a tube in the table; the second one is a no-op. */
  function HandleClose(s: Site, me: nat, id: TubeId): Site
    requires id in s.mgr.tubes
  {
    if s.mgr.tubes[id].state == UNKNOWN then s else Remove(MarkClosed(s, me, id), me, id)
  }

  /** A packet for a tube in the table. */
  function Handle(s: Site, me: nat, p: Packet): Site
    requires p.id in s.mgr.tubes
  {
    var t := s.mgr.tubes[p.id];
    match p.cmd
    case DATA =>
      if t.state == RUNNING then s.(log := Then(s.log, Raised(me, p.id, t.obj, Data(p.body)))) else s
    case CLOSE => HandleClose(s, me, p.id)
    case OPEN => s
    case ACK =>
      if t.state == OPENING
      then s.(mgr := With(s.mgr, p.id, t.(state := RUNNING)), log := Then(s.log, Raised(me, p.id, t.obj, Started)))
      else s
  }

  /** The packet-handling part of `tube_manager_loop`. */
  function Receive(s: Site, me: nat, p: Packet): Site {
    if p.id in s.mgr.tubes then Handle(s, me, p)
    else if s.mgr.responder && p.cmd == OPEN then Accept(s, me, p.id)
    else s
  }

  /** `tube_manager_open_tube` with the random ID `id`. */
  function OpenTube(s: Site, me: nat, id: TubeId): Site {
    var obj := s.nextObj;
    var added := Add(Site(s.mgr, obj + 1, Then(s.log, Opened(me, id, obj))), me, id, Tube(obj, OPENING));
    added.(log := Post(added.log, me, Control(id, OPEN)))
  }

  /** `tube_close`. */
  function CloseTube(s: Site, me: nat, id: TubeId): Site
    requires id in s.mgr.tubes
  {
    s.(mgr := With(s.mgr, id, s.mgr.tubes[id].(state := UNKNOWN)), log := Post(s.log, me, Control(id, CLOSE)))
  }

  datatype Call =
    | CallOpen(id: TubeId)
    | CallData(id: TubeId, marks: Marks, body: Bytes)
    | CallClose(id: TubeId)
    | CallRemove(id: TubeId)
    | CallPolicy(responder: bool)

  /** What the application does between packets, with tubes that are in the table. */
  function Apply(s: Site, me: nat, c: Call): Site {
    match c
    case CallOpen(id) => OpenTube(s, me, id)
    case CallData(id, marks, body) =>
      if id in s.mgr.tubes then s.(log := Post(s.log, me, Packet(id, DATA, marks, body))) else s
    case CallClose(id) => if id in s.mgr.tubes then CloseTube(s, me, id) else s
    case CallRemove(id) => if id in s.mgr.tubes then Remove(s, me, id) else s
    case CallPolicy(responder) => s.(mgr := s.mgr.(responder := responder))
  }

  // ---------- all managers and the network ----------

  datatype World = World(mgrs: seq<Manager>, nextObj: nat, log: Log)

  datatype Op = Deliver(me: nat, packet: Packet) | App(me: nat, call: Call)

  predicate Happened(log: Log, x: Fact) {
    log.Then? && (log.last == x || Happened(log.before, x))
  }

  /** Somebody sent this packet. */
  predicate WasSent(log: Log, p: Packet) {
    log.Then? && ((log.last.Sent? && log.last.packet == p) || WasSent(log.before, p))
  }

  function SiteOf(w: World, me: nat): Site
    requires me < |w.mgrs|
  {
    Site(w.mgrs[me], w.nextObj, w.log)
  }

  function Install(w: World, me: nat, s: Site): World
    requires me < |w.mgrs|
  {
    World(w.mgrs[me := s.mgr], s.nextObj, s.log)
  }

  /** The network delivers nothing that was not sent. */
  function Step(w: World, op: Op): World {
    if op.me >= |w.mgrs| then w
    else
      match op
      case Deliver(me, p) => if WasSent(w.log, p) then Install(w, me, Receive(SiteOf(w, me), me, p)) else w
      case App(me, c) => Install(w, me, Apply(SiteOf(w, me), me, c))
  }

  function Begin(n: nat): World {
    World(seq(n, _ => Manager(map[], false)), 0, Nothing)
  }

  function Run(n: nat, ops: seq<Op>): World
    decreases |ops|
  {
    if ops == [] then Begin(n) else Step(Run(n, ops[..|ops| - 1]), ops[|ops| - 1])
  }

  predicate IdUsed(log: Log, id: TubeId) {
    log.Then? && ((log.last.Opened? && log.last.id == id) || IdUsed(log.before, id))
  }

  /** Every random ID is a new one. */
  predicate FreshIds(n: nat, ops: seq<Op>)
    decreases |ops|
  {
    ops == [] || (
      && FreshIds(n, ops[..|ops| - 1])
      && var op := ops[|ops| - 1];
         op.App? && op.call.CallOpen? ==> !IdUsed(Run(n, ops[..|ops| - 1]).log, op.call.id))
  }
}
