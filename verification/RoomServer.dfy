/** The Room server as a state machine: the channel thread that admits and cancels
    requests, the strands that run join, leave, kick and close tasks, and shutdown.

    A strand is the set of its tasks, run in the order of their numbers. A step of a
    strand makes at most one access to state that other threads share (a ticket, the
    manager, the registry) besides strand-local work. A message is one step of the
    channel thread: an ask is admitted, looks its room up, and is posted, or is
    answered and finished, all at once; so is a creation. */
module RoomServer {
  import opened Basics
  import opened QueuedRequests
  import opened Rooms

  /** Identity of a room instance. */
  type Ref = nat

  datatype Request = CreateRoom(uid: Uid) | JoinRoom(uid: Uid, room: RoomId) | LeaveRoom(uid: Uid)

  datatype Message = Ask(id: nat, request: Request) | CancelAsk(id: nat)

  /** What the rooms and the manager looked like right after a request took effect
      on instance `room`. */
  datatype Commit = Commit(room: Ref, rooms: map<Ref, Room>, mgr: Manager<Ref>)

  datatype Answer = Answer(success: bool, room: RoomId)

  /** An admitted request: its ticket, and what has come of it. `execs` and `sends`
      count how often it changed the membership and how often it was answered. */
  datatype Req = Req(key: Key, request: Request, ticket: TicketState,
                     execs: nat, commit: Option<Commit>, sends: nat, answer: Option<Answer>)

  /** How far a join or leave task has got. `flag` is "newly inserted" for a join
      and "room is now empty" for a leave. */
  datatype Phase =
    | Waiting
    | Applied(flag: bool)
    | Completing(success: bool, applied: bool, flag: bool)
    | Emptied

  /** What is numbered: tasks on a strand, and requests that are over. */
  datatype Item =
    | Notice(room: Ref)
    | Kick(room: Ref, uid: Uid)
    | Close(room: Ref)
    | Work(room: Ref, req: Req, phase: Phase)
    | Past(over: Req, threw: bool)

  type Items = map<nat, Item>
  type RoomMap = map<Ref, Room>

  datatype State = State(
    reg: Registry<nat>,
    items: Items,
    rooms: RoomMap,
    strandOf: map<Ref, nat>,
    mgr: Manager<Ref>,
    closing: map<RoomId, Ref>,   // collected by shutdown, not yet told to close
    next: nat,
    fault: bool)                 // contents were used after they were released

  datatype Setup = Setup(cfg: Config, strands: nat)

  datatype Label =
    | Receive(route: Route, message: Message, now: nat, done: nat, drawn: RoomId)
    | StrandStep(task: nat, now: nat)
    | PostKick(room: Ref, uid: Uid)
    | Shutdown
    | PostClose(id: RoomId)

  function Start(): State
  {
    State(Empty(), map[], map[], map[], Manager(map[], map[], false), map[], 0, false)
  }

  // The steps below take the registry they leave behind as an argument; `Next` says
  // which registry operation produces it.

  // ---------------------------------------------------------------- channel thread

  function NewReq(key: Key, request: Request, ticket: TicketState): Req
  {
    Req(key, request, ticket, 0, None, 0, None)
  }

  function Replied(r: Req, a: Answer): Req
  {
    r.(sends := r.sends + 1, answer := Some(a))
  }

  function ReplyRoom(request: Request): RoomId
  {
    if request.JoinRoom? then request.room else 0
  }

  /** A request that is started, refused and answered on the channel thread. */
  function AnswerMissing(s: State, key: Key, request: Request, reg': Registry<nat>): State
  {
    var r := Replied(NewReq(key, request, TicketState.Started), Answer(false, ReplyRoom(request)));
    s.(reg := reg', items := s.items[s.next := Past(r, false)], next := s.next + 1)
  }

  /** A stopping manager throws: the ticket is retired without an answer. */
  function CreateThrows(s: State, key: Key, request: Request, reg': Registry<nat>): State
  {
    s.(reg := reg', items := s.items[s.next := Past(NewReq(key, request, TicketState.Started), true)],
       next := s.next + 1)
  }

  /** A new instance is registered, announced on its strand and answered for. */
  ghost function Create(p: Setup, s: State, key: Key, uid: Uid, drawn: RoomId, reg': Registry<nat>): State
    requires p.strands > 0
  {
    var ref := s.next;
    var rooms' := s.rooms[ref := NewRoom(drawn, uid, key.route)];
    var mgr' := Added(s.mgr, drawn, ref, uid);
    var r := Req(key, CreateRoom(uid), TicketState.Started, 1, Some(Commit(ref, rooms', mgr')), 0, None);
    s.(reg := reg', rooms := rooms', mgr := mgr',
       strandOf := s.strandOf[ref := |s.mgr.rooms| % p.strands],
       items := s.items[ref := Notice(ref)][ref + 1 := Past(Replied(r, Answer(true, drawn)), false)],
       next := s.next + 2)
  }

  function PostWork(s: State, key: Key, request: Request, room: Ref, reg': Registry<nat>): State
  {
    s.(reg := reg', items := s.items[s.next := Work(room, NewReq(key, request, Queued), Waiting)], next := s.next + 1)
  }

  /** The instance a join or leave is queued on, found through the manager. */
  function Target(mgr: Manager<Ref>, request: Request): Option<Ref>
  {
    match request
    case CreateRoom(_) => None
    case JoinRoom(_, room) => FindRoom(mgr, room)
    case LeaveRoom(uid) => FindRoomOf(mgr, uid)
  }

  /** The number under which the next request is admitted. */
  function TicketNumber(s: State, request: Request): nat
  {
    if request.CreateRoom? && !s.mgr.stopping then s.next + 1 else s.next
  }

  /** What becomes of an admitted request on the channel thread. */
  ghost function Handle(p: Setup, s: State, key: Key, request: Request, drawn: RoomId,
                        admitted: Registry<nat>, finished: Registry<nat>): State
    requires p.strands > 0
  {
    if request.CreateRoom? then
      if s.mgr.stopping then CreateThrows(s, key, request, finished)
      else Create(p, s, key, request.uid, drawn, finished)
    else
      match Target(s.mgr, request)
      case None => AnswerMissing(s, key, request, finished)
      case Some(room) => PostWork(s, key, request, room, admitted)
  }

  ghost function ReceiveAsk(p: Setup, s: State, key: Key, request: Request, now: nat, done: nat, drawn: RoomId): State
    requires p.strands > 0
  {
    var n := TicketNumber(s, request);
    var admitted := AfterAdmit(p.cfg, s.reg, key, now, n);
    if !Admissible(p.cfg, s.reg, key, now) then s.(reg := admitted)
    else Handle(p, s, key, request, drawn, admitted, AfterFinish(p.cfg, admitted, key, n, done))
  }

  function CancelTicket(s: State, key: Key, reg': Registry<nat>): State
  {
    if key in s.reg.active && s.reg.active[key] in s.items && s.items[s.reg.active[key]].Work? then
      var n := s.reg.active[key];
      var t := s.items[n];
      s.(reg := reg', items := s.items[n := t.(req := t.req.(ticket := t.req.ticket.Cancel()))])
    else s.(reg := reg')
  }

  // ---------------------------------------------------------------- strands

  predicate SameStrand(strandOf: map<Ref, nat>, a: Item, b: Item)
  {
    && !a.Past? && !b.Past? && a.room in strandOf && b.room in strandOf
    && strandOf[a.room] == strandOf[b.room]
  }

  /** May task `n` run? Nothing posted earlier to its strand is left. */
  ghost predicate IsHead(items: Items, strandOf: map<Ref, nat>, n: nat)
  {
    && n in items && !items[n].Past?
    && forall m :: m in items && SameStrand(strandOf, items[m], items[n]) ==> n <= m
  }

  const REFUSED: Phase := Completing(false, false, false)

  /** Would a started task change the membership? */
  predicate Applies(room: Room, request: Request)
  {
    && room.lifecycle.Open?
    && (request.JoinRoom? || (request.LeaveRoom? && request.uid in room.users))
  }

  function ApplyTo(room: Room, request: Request, route: Route): Room
  {
    if request.LeaveRoom? then Exit(room, request.uid) else Enter(room, request.uid, route)
  }

  function ApplyFlag(room: Room, request: Request): bool
  {
    if request.LeaveRoom? then room.users - {request.uid} == map[] else request.uid !in room.users
  }

  /** First step of a task: win the ticket, then change the membership. */
  function Begin(t: Item, room: Room): (Item, Room)
    requires t.Work?
  {
    var r := t.req;
    if !r.ticket.Queued? then (t.(phase := REFUSED), room)
    else
      var started := r.(ticket := TicketState.Started);
      if !Applies(room, r.request) then (t.(req := started, phase := REFUSED), room)
      else (t.(req := started.(execs := r.execs + 1), phase := Applied(ApplyFlag(room, r.request))),
            ApplyTo(room, r.request, r.key.route))
  }

  predicate Accepts(m: Manager<Ref>, request: Request, id: RoomId, room: Ref)
  {
    if request.LeaveRoom? then MayLeave(m, request.uid, id, room) else Registered(m, id, room)
  }

  function Indexed(m: Manager<Ref>, request: Request, id: RoomId, room: Ref): Manager<Ref>
  {
    if request.LeaveRoom? then Left(m, request.uid, id, room) else Joined(m, request.uid, id, room)
  }

  /** Second step: the manager's index decides success. */
  function Register(s: State, n: nat): State
    requires n in s.items && s.items[n].Work? && s.items[n].phase.Applied? && s.items[n].room in s.rooms
  {
    var t := s.items[n];
    var id := s.rooms[t.room].id;
    var ok := Accepts(s.mgr, t.req.request, id, t.room);
    var mgr' := Indexed(s.mgr, t.req.request, id, t.room);
    var r := if ok then t.req.(commit := Some(Commit(t.room, s.rooms, mgr'))) else t.req;
    s.(mgr := mgr', items := s.items[n := t.(req := r, phase := Completing(ok, true, t.phase.flag))])
  }

  /** What contents are told once a join or leave has been answered. */
  function Heard(room: Room, t: Item): Room
    requires t.Work? && t.phase.Completing?
  {
    if !t.phase.applied then room
    else if t.req.request.LeaveRoom? then Told(room, Exited(t.req.request.uid))
    else if t.phase.flag then Told(room, Entered(t.req.request.uid))
    else room
  }

  /** Third step: retire the ticket (`retired` says it was still the one held), and
      answer if it had started. A leave that emptied the room goes on. */
  function Complete(t: Item, retired: bool): Item
    requires t.Work? && t.phase.Completing?
  {
    var r := t.req;
    var r' := if retired && r.ticket.Started?
              then Replied(r, Answer(t.phase.success, ReplyRoom(r.request))) else r;
    if r.request.LeaveRoom? && t.phase.applied && t.phase.flag
    then t.(req := r', phase := Emptied)
    else Past(r', false)
  }

  /** Task `n` becomes `t`, and its room becomes `room`. */
  function Update(s: State, n: nat, t: Item, ref: Ref, room: Room): State
  {
    s.(items := s.items[n := t], rooms := s.rooms[ref := room])
  }

  function Drop(s: State, n: nat, ref: Ref, room: Room): State
  {
    s.(items := s.items - {n}, rooms := s.rooms[ref := room])
  }

  /** Last step of the leave that emptied a room. Closing runs inline: the caller
      is already on the room's strand. */
  function CloseEmpty(s: State, n: nat): State
    requires n in s.items && s.items[n].Work? && s.items[n].room in s.rooms
  {
    var ref := s.items[n].room;
    var room := s.rooms[ref];
    var room' := if Registered(s.mgr, room.id, ref) then Shut(room) else room;
    Update(s, n, Past(s.items[n].req, false), ref, room').(mgr := Removed(s.mgr, room.id, ref))
  }

  ghost function RunWork(p: Setup, s: State, n: nat, now: nat): State
    requires n in s.items && s.items[n].Work? && s.items[n].room in s.rooms
  {
    var t := s.items[n];
    var room := s.rooms[t.room];
    match t.phase
    case Waiting => var (t', room') := Begin(t, room); Update(s, n, t', t.room, room')
    case Applied(_) => Register(s, n)
    case Completing(_, _, _) =>
      Update(s, n, Complete(t, Holds(s.reg, t.req.key, n)), t.room, Heard(room, t))
      .(reg := AfterFinish(p.cfg, s.reg, t.req.key, n, now))
    case Emptied => CloseEmpty(s, n)
  }

  ghost function RunTask(p: Setup, s: State, n: nat, now: nat): State
  {
    if !IsHead(s.items, s.strandOf, n) || s.items[n].room !in s.rooms then s
    else
      var ref := s.items[n].room;
      var room := s.rooms[ref];
      match s.items[n]
      case Notice(_) =>
        if room.lifecycle.Open? then Drop(s, n, ref, Told(room, Event.Created))
        else Drop(s, n, ref, room).(fault := true)
      case Kick(_, uid) =>
        if KickFaults(room, uid) then Drop(s, n, ref, room).(fault := true)
        else Drop(s, n, ref, KickOut(room, uid))
      case Close(_) => Drop(s, n, ref, Shut(room))
      case Work(_, _, _) => RunWork(p, s, n, now)
  }

  // ---------------------------------------------------------------- environment

  function Post(s: State, t: Item): State
  {
    s.(items := s.items[s.next := t], next := s.next + 1)
  }

  /** Shutdown's locked part, once. The caller stops admission before it. */
  function ShutDown(s: State): State
  {
    if s.mgr.stopping then s else s.(closing := s.mgr.rooms, mgr := Stopped(s.mgr))
  }

  ghost predicate IsFirst(closing: map<RoomId, Ref>, id: RoomId)
  {
    id in closing && forall j :: j in closing ==> id <= j
  }

  /** The collected rooms are told to close in the order of their numbers. */
  ghost function ClosePosted(s: State, id: RoomId): State
  {
    if IsFirst(s.closing, id) then Post(s, Close(s.closing[id])).(closing := s.closing - {id}) else s
  }

  ghost function Next(p: Setup, s: State, l: Label): State
    requires p.strands > 0
  {
    match l
    case Receive(route, Ask(id, request), now, done, drawn) =>
      ReceiveAsk(p, s, Key(route, id), request, now, done, drawn)
    case Receive(route, CancelAsk(id), now, _, _) =>
      CancelTicket(s, Key(route, id), AfterCancel(p.cfg, s.reg, Key(route, id), now))
    case StrandStep(n, now) => RunTask(p, s, n, now)
    case PostKick(room, uid) => if room in s.rooms then Post(s, Kick(room, uid)) else s
    case Shutdown => ShutDown(s)
    case PostClose(id) => ClosePosted(s, id)
  }

  ghost function Run(p: Setup, s: State, labels: seq<Label>): State
    requires p.strands > 0
    decreases |labels|
  {
    if labels == [] then s else Run(p, Next(p, s, labels[0]), labels[1..])
  }
}
