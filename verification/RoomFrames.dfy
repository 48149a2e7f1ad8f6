/** What each step of the Room server changes, and that it changes nothing else: which
    user is known to be in which room, which rooms are registered, who sits in a room
    under which route, and what its contents hear. Everything here is said of the maps
    and the logs themselves. */
module RoomFrames {
  import opened Basics
  import opened QueuedRequests
  import opened Rooms
  import opened RoomServer
  import opened RoomInvariants
  import opened RoomChannel
  import opened RoomTheorems
  import opened RoomHistory

  function Lookup<K, V>(m: map<K, V>, k: K): Option<V>
  {
    if k in m then Some(m[k]) else None
  }

  // ---------------------------------------------------------------- what happens in a step

  /** An admitted create by a user. */
  predicate CreatesRoom(p: Setup, s: State, l: Label)
  {
    && l.Receive? && l.message.Ask? && l.message.request.CreateRoom? && !s.mgr.stopping
    && Admissible(p.cfg, s.reg, KeyOf(l), l.now)
  }

  /** A strand runs its first task. */
  ghost predicate RunsTask(s: State, l: Label)
  {
    l.StrandStep? && IsHead(s.items, s.strandOf, l.task) && s.items[l.task].room in s.rooms
  }

  predicate IsRegistered(s: State, r: Ref)
  {
    r in s.rooms && s.rooms[r].id in s.mgr.rooms && s.mgr.rooms[s.rooms[r].id] == r
  }

  /** The manager's index accepts the change that task `t` has made. */
  predicate Accepted(s: State, t: Item)
    requires t.Work? && t.room in s.rooms
  {
    && t.phase.Applied? && IsRegistered(s, t.room)
    && (t.req.request.LeaveRoom? ==> Lookup(s.mgr.userRooms, t.req.request.uid) == Some(s.rooms[t.room].id))
  }

  /** Task `t` closes the room it emptied. */
  predicate ClosesEmpty(s: State, t: Item)
  {
    t.Work? && t.phase.Emptied? && IsRegistered(s, t.room)
  }

  // ---------------------------------------------------------------- users and their rooms

  /** Where user `u` is known to be after a step: it is their own create, or their own
      join or leave that the index accepts, or the closing of the room they are known to
      be in, or shutdown, that decides; nothing else changes it. */
  ghost function KnownAfter(p: Setup, s: State, l: Label, u: Uid): Option<RoomId>
  {
    var known := Lookup(s.mgr.userRooms, u);
    if CreatesRoom(p, s, l) && l.message.request.uid == u then Some(l.drawn)
    else if RunsTask(s, l) && s.items[l.task].Work? && s.items[l.task].req.request.uid == u && Accepted(s, s.items[l.task]) then
      if s.items[l.task].req.request.LeaveRoom? then None else Some(s.rooms[s.items[l.task].room].id)
    else if RunsTask(s, l) && ClosesEmpty(s, s.items[l.task]) && known == Some(s.rooms[s.items[l.task].room].id) then None
    else if l.Shutdown? && !s.mgr.stopping then None
    else known
  }

  /** Which instance is registered under a number after a step. */
  ghost function RegisteredAfter(p: Setup, s: State, l: Label, id: RoomId): Option<Ref>
  {
    if CreatesRoom(p, s, l) && l.drawn == id then Some(s.next)
    else if RunsTask(s, l) && ClosesEmpty(s, s.items[l.task]) && s.rooms[s.items[l.task].room].id == id then None
    else if l.Shutdown? && !s.mgr.stopping then None
    else Lookup(s.mgr.rooms, id)
  }

  lemma HandleIndex(p: Setup, s: State, key: Key, request: Request, drawn: RoomId,
                    admitted: Registry<nat>, finished: Registry<nat>, u: Uid, id: RoomId)
    requires p.strands > 0
    ensures
      var mgr' := Handle(p, s, key, request, drawn, admitted, finished).mgr;
      var creates := request.CreateRoom? && !s.mgr.stopping;
      && Lookup(mgr'.userRooms, u) == (if creates && request.uid == u then Some(drawn) else Lookup(s.mgr.userRooms, u))
      && Lookup(mgr'.rooms, id) == (if creates && drawn == id then Some(s.next) else Lookup(s.mgr.rooms, id))
  {
  }

  lemma AskIndex(p: Setup, s: State, l: Label, u: Uid, id: RoomId)
    requires p.strands > 0 && l.Receive? && l.message.Ask?
    ensures
      && Lookup(Next(p, s, l).mgr.userRooms, u) == KnownAfter(p, s, l, u)
      && Lookup(Next(p, s, l).mgr.rooms, id) == RegisteredAfter(p, s, l, id)
  {
    var key, request := KeyOf(l), l.message.request;
    if Admissible(p.cfg, s.reg, key, l.now) {
      var n := TicketNumber(s, request);
      var admitted := AfterAdmit(p.cfg, s.reg, key, l.now, n);
      HandleIndex(p, s, key, request, l.drawn, admitted, AfterFinish(p.cfg, admitted, key, n, l.done), u, id);
    }
  }

  lemma WorkIndex(p: Setup, s: State, n: nat, now: nat, u: Uid, id: RoomId)
    requires n in s.items && s.items[n].Work? && s.items[n].room in s.rooms && !s.items[n].req.request.CreateRoom?
    ensures
      var mgr', t := RunWork(p, s, n, now).mgr, s.items[n];
      && Lookup(mgr'.userRooms, u) ==
         (if t.req.request.uid == u && Accepted(s, t) then
            if t.req.request.LeaveRoom? then None else Some(s.rooms[t.room].id)
          else if ClosesEmpty(s, t) && Lookup(s.mgr.userRooms, u) == Some(s.rooms[t.room].id) then None
          else Lookup(s.mgr.userRooms, u))
      && Lookup(mgr'.rooms, id) == (if ClosesEmpty(s, t) && s.rooms[t.room].id == id then None else Lookup(s.mgr.rooms, id))
  {
    match s.items[n].phase {
      case Applied(_) => RegisterIndex(s, n, u);
      case Emptied => EmptyIndex(s, n, u, id);
      case _ =>
    }
  }

  lemma RegisterIndex(s: State, n: nat, u: Uid)
    requires n in s.items && s.items[n].Work? && s.items[n].phase.Applied? && s.items[n].room in s.rooms
    requires !s.items[n].req.request.CreateRoom?
    ensures
      var mgr', t := Register(s, n).mgr, s.items[n];
      && mgr'.rooms == s.mgr.rooms
      && Lookup(mgr'.userRooms, u) ==
         if t.req.request.uid == u && Accepted(s, t) then
           if t.req.request.LeaveRoom? then None else Some(s.rooms[t.room].id)
         else Lookup(s.mgr.userRooms, u)
  {
  }

  lemma EmptyIndex(s: State, n: nat, u: Uid, id: RoomId)
    requires n in s.items && s.items[n].Work? && s.items[n].phase.Emptied? && s.items[n].room in s.rooms
    ensures
      var mgr', t := CloseEmpty(s, n).mgr, s.items[n];
      var closes, own := IsRegistered(s, t.room), s.rooms[t.room].id;
      && Lookup(mgr'.userRooms, u) ==
         (if closes && Lookup(s.mgr.userRooms, u) == Some(own) then None else Lookup(s.mgr.userRooms, u))
      && Lookup(mgr'.rooms, id) == (if closes && own == id then None else Lookup(s.mgr.rooms, id))
  {
  }

  lemma TaskIndex(p: Setup, s: State, l: Label, u: Uid, id: RoomId)
    requires p.strands > 0 && l.StrandStep?
    requires RunsTask(s, l) && s.items[l.task].Work? ==> !s.items[l.task].req.request.CreateRoom?
    ensures
      && Lookup(Next(p, s, l).mgr.userRooms, u) == KnownAfter(p, s, l, u)
      && Lookup(Next(p, s, l).mgr.rooms, id) == RegisteredAfter(p, s, l, id)
  {
    if RunsTask(s, l) && s.items[l.task].Work? {
      WorkIndex(p, s, l.task, l.now, u, id);
    }
  }

  lemma OtherIndex(p: Setup, s: State, l: Label, u: Uid, id: RoomId)
    requires p.strands > 0 && !l.StrandStep? && !(l.Receive? && l.message.Ask?)
    ensures
      && Lookup(Next(p, s, l).mgr.userRooms, u) == KnownAfter(p, s, l, u)
      && Lookup(Next(p, s, l).mgr.rooms, id) == RegisteredAfter(p, s, l, id)
  {
  }

  /** The manager's two indexes, exactly, in every step. */
  lemma IndexFrame(p: Setup, s: State, l: Label, u: Uid, id: RoomId)
    requires p.strands > 0 && AllOk(s.items)
    ensures Lookup(Next(p, s, l).mgr.userRooms, u) == KnownAfter(p, s, l, u)
    ensures Lookup(Next(p, s, l).mgr.rooms, id) == RegisteredAfter(p, s, l, id)
  {
    if l.StrandStep? {
      assert l.task in s.items ==> ItemOk(s.items[l.task]);
      TaskIndex(p, s, l, u, id);
    } else if l.Receive? && l.message.Ask? {
      AskIndex(p, s, l, u, id);
    } else {
      OtherIndex(p, s, l, u, id);
    }
  }

  // ---------------------------------------------------------------- seats and contents

  /** The task that a step runs in room `r`, if any. */
  ghost function TaskIn(s: State, l: Label, r: Ref): Option<Item>
  {
    if RunsTask(s, l) && s.items[l.task].room == r then Some(s.items[l.task]) else None
  }

  /** A join or leave that begins now. */
  predicate BeginsIn(t: Item, room: Room)
  {
    Waits(t) && t.req.ticket.Queued? && Takes(room, t.req.request)
  }

  /** User `u`'s seat in a room after a task: their own join puts them there under its
      route, their own leave or their kick takes them away. */
  function SeatAfter(t: Item, room: Room, u: Uid): Option<Route>
  {
    if t.Kick? && t.uid == u && room.lifecycle.Open? then None
    else if BeginsIn(t, room) && t.req.request.uid == u then
      if t.req.request.LeaveRoom? then None else Some(t.req.key.route)
    else Lookup(room.users, u)
  }

  /** What contents hear of a task. */
  function HeardOf(t: Item, room: Room, registered: bool): seq<Event>
  {
    match t
    case Notice(_) => if room.lifecycle.Open? then [Created] else []
    case Kick(_, uid) => if room.lifecycle.Open? && uid in room.users then [Kicked(uid)] else []
    case Close(_) => if room.lifecycle.Open? then [Destroyed] else []
    case Work(_, req, Completing(_, applied, flag)) =>
      if !applied then [] else if req.request.LeaveRoom? then [Exited(req.request.uid)]
      else if flag then [Entered(req.request.uid)] else []
    case Work(_, _, Emptied) => if registered && room.lifecycle.Open? then [Destroyed] else []
    case _ => []
  }

  predicate ShutsBy(t: Item, registered: bool)
  {
    t.Close? || (t.Work? && t.phase.Emptied? && registered)
  }

  /** Room `room'` is `room` after task `t`, and nothing else has changed in it. */
  ghost predicate Follows(room: Room, room': Room, t: Item, registered: bool)
  {
    && room'.id == room.id && room'.owner == room.owner
    && (forall u :: Lookup(room'.users, u) == SeatAfter(t, room, u))
    && room'.log == room.log + HeardOf(t, room, registered)
    && room'.lifecycle == (if ShutsBy(t, registered) && room.lifecycle.Open? then Closed else room.lifecycle)
  }

  lemma PlainFollows(room: Room, room': Room, t: Item, registered: bool)
    requires room'.id == room.id && room'.owner == room.owner
    requires room'.users == room.users && !t.Kick? && !BeginsIn(t, room)
    requires room'.log == room.log + HeardOf(t, room, registered)
    requires room'.lifecycle == if ShutsBy(t, registered) && room.lifecycle.Open? then Closed else room.lifecycle
    ensures Follows(room, room', t, registered)
  {
  }

  lemma NoticeFollows(room: Room, r: Ref)
    ensures Follows(room, if room.lifecycle.Open? then Told(room, Event.Created) else room, Notice(r), false)
  {
    assert room.log + [] == room.log;
  }

  lemma KickFollows(room: Room, r: Ref, uid: Uid)
    ensures Follows(room, if KickFaults(room, uid) then room else KickOut(room, uid), Kick(r, uid), false)
  {
    assert room.log + [] == room.log;
  }

  lemma CloseFollows(room: Room, r: Ref)
    ensures Follows(room, Shut(room), Close(r), false)
  {
    assert room.log + [] == room.log;
  }

  lemma BeginFollows(room: Room, t: Item, registered: bool)
    requires Waits(t) && !t.req.request.CreateRoom?
    ensures Follows(room, Begin(t, room).1, t, registered)
  {
    assert room.log + [] == room.log;
  }

  lemma HeardFollows(room: Room, t: Item, registered: bool)
    requires t.Work? && t.phase.Completing? && !t.req.request.CreateRoom?
    ensures Follows(room, Heard(room, t), t, registered)
  {
    assert room.log + [] == room.log;
  }

  lemma EmptiedFollows(room: Room, t: Item, registered: bool)
    requires t.Work? && t.phase.Emptied?
    ensures Follows(room, if registered then Shut(room) else room, t, registered)
  {
    assert room.log + [] == room.log;
  }

  lemma WorkRooms(p: Setup, s: State, n: nat, now: nat)
    requires n in s.items && s.items[n].Work? && s.items[n].room in s.rooms && !s.items[n].req.request.CreateRoom?
    ensures
      var rooms', r := RunWork(p, s, n, now).rooms, s.items[n].room;
      && rooms'.Keys == s.rooms.Keys
      && (forall q :: q in s.rooms && q != r ==> rooms'[q] == s.rooms[q])
      && Follows(s.rooms[r], rooms'[r], s.items[n], IsRegistered(s, r))
  {
    var t := s.items[n];
    var room, registered := s.rooms[t.room], IsRegistered(s, t.room);
    match t.phase {
      case Waiting => BeginFollows(room, t, registered);
      case Applied(_) => assert room.log + [] == room.log;
      case Completing(_, _, _) => HeardFollows(room, t, registered);
      case Emptied => EmptiedFollows(room, t, registered);
    }
  }

  lemma TaskRooms(p: Setup, s: State, n: nat, now: nat)
    requires IsHead(s.items, s.strandOf, n) && s.items[n].room in s.rooms && ItemOk(s.items[n])
    ensures
      var rooms', r := RunTask(p, s, n, now).rooms, s.items[n].room;
      && rooms'.Keys == s.rooms.Keys
      && (forall q :: q in s.rooms && q != r ==> rooms'[q] == s.rooms[q])
      && Follows(s.rooms[r], rooms'[r], s.items[n], IsRegistered(s, r))
  {
    var r := s.items[n].room;
    match s.items[n] {
      case Notice(_) => NoticeFollows(s.rooms[r], r);
      case Kick(_, uid) => KickFollows(s.rooms[r], r, uid);
      case Close(_) => CloseFollows(s.rooms[r], r);
      case Work(_, _, _) => WorkRooms(p, s, n, now);
    }
  }

  lemma AskRooms(p: Setup, s: State, l: Label)
    requires p.strands > 0 && l.Receive? && l.message.Ask?
    ensures Next(p, s, l).rooms ==
      if CreatesRoom(p, s, l) then s.rooms[s.next := Room(l.drawn, l.message.request.uid, map[l.message.request.uid := l.route], Open, [])]
      else s.rooms
  {
    var key, request := KeyOf(l), l.message.request;
    if Admissible(p.cfg, s.reg, key, l.now) {
      var admitted := AfterAdmit(p.cfg, s.reg, key, l.now, TicketNumber(s, request));
      HandleRooms(p, s, key, request, l.drawn, admitted, AfterFinish(p.cfg, admitted, key, TicketNumber(s, request), l.done));
    }
  }

  lemma HandleRooms(p: Setup, s: State, key: Key, request: Request, drawn: RoomId,
                    admitted: Registry<nat>, finished: Registry<nat>)
    requires p.strands > 0
    ensures Handle(p, s, key, request, drawn, admitted, finished).rooms ==
      if request.CreateRoom? && !s.mgr.stopping
      then s.rooms[s.next := Room(drawn, request.uid, map[request.uid := key.route], Open, [])] else s.rooms
  {
  }

  /** A room after a step: unchanged, or changed exactly as the one task that ran in it
      says; and a room that was not there is the one just created, with its owner in it
      alone, open and unheard of. */
  lemma RoomFrame(p: Setup, s: State, l: Label, r: Ref)
    requires p.strands > 0 && AllOk(s.items) && (r in s.rooms ==> r < s.next)
    ensures
      var rooms' := Next(p, s, l).rooms;
      if r in s.rooms then
        && r in rooms'
        && match TaskIn(s, l, r)
           case None => rooms'[r] == s.rooms[r]
           case Some(t) => Follows(s.rooms[r], rooms'[r], t, IsRegistered(s, r))
      else
        && (r in rooms' <==> CreatesRoom(p, s, l) && r == s.next)
        && (r in rooms' ==>
              rooms'[r] == Room(l.drawn, l.message.request.uid, map[l.message.request.uid := l.route], Open, []))
  {
    if l.StrandStep? {
      if RunsTask(s, l) {
        assert ItemOk(s.items[l.task]);
        TaskRooms(p, s, l.task, l.now);
      }
    } else if l.Receive? && l.message.Ask? {
      AskRooms(p, s, l);
    } else {
      SameRooms(p, s, l);
    }
  }

  // ---------------------------------------------------------------- kicks and closes

  /** Whatever run has come before: a kick that its strand comes to, in an open room,
      takes its user away; contents hear of it exactly if they were a member; and every
      other member keeps their route. */
  lemma KickTakesEffect(p: Setup, labels: seq<Label>, n: nat, now: nat)
    requires p.strands > 0
    requires
      var s := Run(p, Start(), labels);
      IsHead(s.items, s.strandOf, n) && s.items[n].Kick? && s.items[n].room in s.rooms && s.rooms[s.items[n].room].lifecycle.Open?
    ensures
      var s := Run(p, Start(), labels);
      var r, uid := s.items[n].room, s.items[n].uid;
      var rooms' := Next(p, s, StrandStep(n, now)).rooms;
      && r in rooms' && uid !in rooms'[r].users && rooms'[r].lifecycle.Open?
      && rooms'[r].log == s.rooms[r].log + (if uid in s.rooms[r].users then [Kicked(uid)] else [])
      && (forall u :: u != uid ==> Lookup(rooms'[r].users, u) == Lookup(s.rooms[r].users, u))
  {
    var s := Run(p, Start(), labels);
    var r, uid := s.items[n].room, s.items[n].uid;
    Reached(p, labels);
    RoomFrame(p, s, StrandStep(n, now), r);
    assert Lookup(Next(p, s, StrandStep(n, now)).rooms[r].users, uid) == None;
  }

  /** A close that its strand comes to closes an open room, keeping its users, and
      contents hear that they are destroyed, last; a room that is not open stays as it
      is. */
  lemma CloseTakesEffect(p: Setup, labels: seq<Label>, n: nat, now: nat)
    requires p.strands > 0
    requires
      var s := Run(p, Start(), labels);
      IsHead(s.items, s.strandOf, n) && s.items[n].Close? && s.items[n].room in s.rooms
    ensures
      var s := Run(p, Start(), labels);
      var r := s.items[n].room;
      var rooms' := Next(p, s, StrandStep(n, now)).rooms;
      && r in rooms' && rooms'[r].lifecycle.Closed?
      && rooms'[r].log == s.rooms[r].log + (if s.rooms[r].lifecycle.Open? then [Destroyed] else [])
      && (forall u :: Lookup(rooms'[r].users, u) == Lookup(s.rooms[r].users, u))
  {
    var s := Run(p, Start(), labels);
    Reached(p, labels);
    RoomFrame(p, s, StrandStep(n, now), s.items[n].room);
    NeverClosing(p, s, s.items[n].room);
  }

  lemma NeverClosing(p: Setup, s: State, r: Ref)
    requires Inv(p, s) && r in s.rooms
    ensures !s.rooms[r].lifecycle.Closing?
  {
    assert EndsWell(s.rooms[r], s.mgr.stopping);
  }

  lemma Reached(p: Setup, labels: seq<Label>)
    requires p.strands > 0
    ensures Inv(p, Run(p, Start(), labels)) && AllOk(Run(p, Start(), labels).items)
    ensures forall r :: r in Run(p, Start(), labels).rooms ==> r < Run(p, Start(), labels).next
  {
    StartIsSound(p);
    RunKeeps(p, Start(), labels);
  }

  // ---------------------------------------------------------------- every run

  /** This step decides where user `u` is known to be. */
  ghost predicate DecidesPlace(p: Setup, s: State, l: Label, u: Uid)
  {
    || (CreatesRoom(p, s, l) && l.message.request.uid == u)
    || (l.Shutdown? && !s.mgr.stopping)
    || (RunsTask(s, l) && s.items[l.task].Work?
        && var t := s.items[l.task];
           || (t.req.request.uid == u && Accepted(s, t))
           || (ClosesEmpty(s, t) && Lookup(s.mgr.userRooms, u) == Some(s.rooms[t.room].id)))
  }

  ghost predicate SomeDecides(p: Setup, s: State, labels: seq<Label>, u: Uid)
    requires p.strands > 0
    decreases |labels|
  {
    labels != [] && (DecidesPlace(p, s, labels[0], u) || SomeDecides(p, Next(p, s, labels[0]), labels[1..], u))
  }

  /** Over every run in which no step decides it, the place of a user stays what it
      was; so what others do never makes them lost. */
  lemma {:induction false} PlaceIsKept(p: Setup, s: State, labels: seq<Label>, u: Uid)
    requires p.strands > 0 && Inv(p, s) && !SomeDecides(p, s, labels, u)
    ensures Lookup(Run(p, s, labels).mgr.userRooms, u) == Lookup(s.mgr.userRooms, u)
    decreases |labels|
  {
    if labels != [] {
      assert !DecidesPlace(p, s, labels[0], u);
      IndexFrame(p, s, labels[0], u, 0);
      NextKeeps(p, s, labels[0]);
      PlaceIsKept(p, Next(p, s, labels[0]), labels[1..], u);
    }
  }

  /** This step decides user `u`'s seat in room `r`. */
  ghost predicate DecidesSeat(s: State, l: Label, r: Ref, u: Uid)
  {
    && r in s.rooms && TaskIn(s, l, r).Some?
    && var t := TaskIn(s, l, r).value;
       || (t.Kick? && t.uid == u && s.rooms[r].lifecycle.Open?)
       || (BeginsIn(t, s.rooms[r]) && t.req.request.uid == u)
  }

  ghost predicate SomeSeats(p: Setup, s: State, labels: seq<Label>, r: Ref, u: Uid)
    requires p.strands > 0
    decreases |labels|
  {
    labels != [] && (DecidesSeat(s, labels[0], r, u) || SomeSeats(p, Next(p, s, labels[0]), labels[1..], r, u))
  }

  lemma SeatStep(p: Setup, s: State, l: Label, r: Ref, u: Uid)
    requires p.strands > 0 && Inv(p, s) && r in s.rooms && !DecidesSeat(s, l, r, u)
    ensures r in Next(p, s, l).rooms && Lookup(Next(p, s, l).rooms[r].users, u) == Lookup(s.rooms[r].users, u)
  {
    RoomFrame(p, s, l, r);
  }

  /** Over every run in which none of a user's own joins and leaves begins in a room, nor
      a kick of theirs runs there, they sit in it, or do not, as before, and under the
      same route. */
  lemma {:induction false} SeatIsKept(p: Setup, s: State, labels: seq<Label>, r: Ref, u: Uid)
    requires p.strands > 0 && Inv(p, s) && r in s.rooms && !SomeSeats(p, s, labels, r, u)
    ensures
      && r in Run(p, s, labels).rooms
      && Lookup(Run(p, s, labels).rooms[r].users, u) == Lookup(s.rooms[r].users, u)
    decreases |labels|
  {
    if labels != [] {
      SeatStep(p, s, labels[0], r, u);
      NextKeeps(p, s, labels[0]);
      SeatIsKept(p, Next(p, s, labels[0]), labels[1..], r, u);
    }
  }

  // ---------------------------------------------------------------- what is posted

  /** Kicks and closes are posted behind everything that is there: a kick if its room is;
      shutdown collects the rooms that are registered, once; and of those collected the
      one with the least number is told to close next. */
  lemma PostedExactly(p: Setup, labels: seq<Label>, r: Ref, uid: Uid, id: RoomId)
    requires p.strands > 0
    ensures PostsExactly(p, Run(p, Start(), labels), r, uid, id)
  {
    Reached(p, labels);
    ItemsBelow(p, Run(p, Start(), labels));
    PostsAll(p, Run(p, Start(), labels), r, uid, id);
  }

  ghost predicate PostsExactly(p: Setup, s: State, r: Ref, uid: Uid, id: RoomId)
    requires p.strands > 0
  {
    && (forall n :: n in s.items ==> n < s.next)
    && Next(p, s, PostKick(r, uid)).items == (if r in s.rooms then s.items[s.next := Kick(r, uid)] else s.items)
    && Next(p, s, Shutdown).closing == (if s.mgr.stopping then s.closing else s.mgr.rooms)
    && Next(p, s, Shutdown).items == s.items
    && (if id in s.closing && (forall i :: i in s.closing ==> id <= i) then
          && Next(p, s, PostClose(id)).items == s.items[s.next := Close(s.closing[id])]
          && Next(p, s, PostClose(id)).closing == s.closing - {id}
        else Next(p, s, PostClose(id)) == s)
  }

  lemma PostsAll(p: Setup, s: State, r: Ref, uid: Uid, id: RoomId)
    requires p.strands > 0 && forall n :: n in s.items ==> n < s.next
    ensures PostsExactly(p, s, r, uid, id)
  {
  }

  /** Released contents are used exactly if the announcement of a room or the kick of a
      member is run in a room that is not open. */
  lemma FaultsExactly(p: Setup, s: State, l: Label)
    requires p.strands > 0
    ensures Next(p, s, l).fault <==>
      s.fault || (RunsTask(s, l) && !s.rooms[s.items[l.task].room].lifecycle.Open?
                  && (s.items[l.task].Notice? || (s.items[l.task].Kick? && s.items[l.task].uid in s.rooms[s.items[l.task].room].users)))
  {
    if l.Receive? && l.message.Ask? {
      AskClosing(p, s, KeyOf(l), l.message.request, l.now, l.done, l.drawn);
    } else if RunsTask(s, l) && s.items[l.task].Work? {
      WorkFault(p, s, l.task, l.now);
    }
  }

  lemma WorkFault(p: Setup, s: State, n: nat, now: nat)
    requires n in s.items && s.items[n].Work? && s.items[n].room in s.rooms
    ensures RunWork(p, s, n, now).fault == s.fault
  {
  }

  lemma ItemsBelow(p: Setup, s: State)
    requires Inv(p, s)
    ensures forall n :: n in s.items ==> n < s.next
  {
  }

  // ---------------------------------------------------------------- shutdown

  predicate HasClose(items: Items, r: Ref)
  {
    exists n :: n in items && items[n] == Close(r)
  }

  /** Room `r` is closed, or its closing is on its way. */
  ghost predicate Doomed(s: State, r: Ref)
  {
    && s.mgr.stopping && r in s.rooms
    && (!s.rooms[r].lifecycle.Open? || HasClose(s.items, r) || exists id :: id in s.closing && s.closing[id] == r)
  }

  /** A notice, a kick or a close stays on its strand until the strand comes to it. */
  lemma TaskStays(p: Setup, s: State, l: Label, n: nat)
    requires p.strands > 0 && n in s.items && n < s.next && (s.items[n].Notice? || s.items[n].Kick? || s.items[n].Close?)
    ensures (n in Next(p, s, l).items && Next(p, s, l).items[n] == s.items[n]) || (RunsTask(s, l) && l.task == n)
  {
    match l {
      case Receive(route, Ask(id, request), now, done, drawn) =>
        ReceiveEvolves(p, s, Key(route, id), request, now, done, drawn, n);
      case StrandStep(k, now) =>
        if RunsTask(s, l) {
          HeadAdvances(p, s, k, now);
        }
      case _ =>
    }
  }

  lemma ClosePostedComes(s: State, id: RoomId, r: Ref)
    requires exists i :: i in s.closing && s.closing[i] == r
    requires forall n :: n in s.items ==> n < s.next
    ensures
      var s' := ClosePosted(s, id);
      HasClose(s'.items, r) || exists i :: i in s'.closing && s'.closing[i] == r
  {
    var i :| i in s.closing && s.closing[i] == r;
    if IsFirst(s.closing, id) {
      var s' := ClosePosted(s, id);
      if i == id {
        assert s'.items[s.next] == Close(r);
      } else {
        assert i in s'.closing && s'.closing[i] == r;
      }
    }
  }

  lemma OnlyPostClose(p: Setup, s: State, l: Label)
    requires p.strands > 0 && s.mgr.stopping && !l.PostClose?
    ensures Next(p, s, l).closing == s.closing
  {
    match l {
      case Receive(route, Ask(id, request), now, done, drawn) => AskClosing(p, s, Key(route, id), request, now, done, drawn);
      case StrandStep(n, now) => TaskClosing(p, s, n, now);
      case _ =>
    }
  }

  lemma AskClosing(p: Setup, s: State, key: Key, request: Request, now: nat, done: nat, drawn: RoomId)
    requires p.strands > 0
    ensures ReceiveAsk(p, s, key, request, now, done, drawn).closing == s.closing
    ensures ReceiveAsk(p, s, key, request, now, done, drawn).mgr.stopping == s.mgr.stopping
    ensures ReceiveAsk(p, s, key, request, now, done, drawn).fault == s.fault
  {
    if Admissible(p.cfg, s.reg, key, now) {
      var admitted := AfterAdmit(p.cfg, s.reg, key, now, TicketNumber(s, request));
      HandleClosing(p, s, key, request, drawn, admitted, AfterFinish(p.cfg, admitted, key, TicketNumber(s, request), done));
    }
  }

  lemma HandleClosing(p: Setup, s: State, key: Key, request: Request, drawn: RoomId,
                      admitted: Registry<nat>, finished: Registry<nat>)
    requires p.strands > 0
    ensures
      var s' := Handle(p, s, key, request, drawn, admitted, finished);
      s'.closing == s.closing && s'.mgr.stopping == s.mgr.stopping && s'.fault == s.fault
  {
  }

  lemma TaskClosing(p: Setup, s: State, n: nat, now: nat)
    ensures RunTask(p, s, n, now).closing == s.closing
  {
    if RunsTask(s, StrandStep(n, now)) && s.items[n].Work? {
      WorkClosing(p, s, n, now);
    }
  }

  lemma WorkClosing(p: Setup, s: State, n: nat, now: nat)
    requires n in s.items && s.items[n].Work? && s.items[n].room in s.rooms
    ensures RunWork(p, s, n, now).closing == s.closing
  {
  }

  lemma StaysStopping(p: Setup, s: State, l: Label)
    requires p.strands > 0 && s.mgr.stopping
    ensures Next(p, s, l).mgr.stopping
  {
    match l {
      case Receive(route, Ask(id, request), now, done, drawn) => AskClosing(p, s, Key(route, id), request, now, done, drawn);
      case StrandStep(n, now) => TaskNotStopping(p, s, n, now);
      case _ =>
    }
  }

  lemma StillOpen(p: Setup, s: State, l: Label, r: Ref)
    requires p.strands > 0 && Inv(p, s) && r in s.rooms
    ensures
      && r in Next(p, s, l).rooms
      && (!s.rooms[r].lifecycle.Open? ==> !Next(p, s, l).rooms[r].lifecycle.Open?)
      && (TaskIn(s, l, r) == Some(Close(r)) ==> !Next(p, s, l).rooms[r].lifecycle.Open?)
  {
    RoomFrame(p, s, l, r);
  }

  lemma StepDoomed(p: Setup, s: State, l: Label, r: Ref)
    requires p.strands > 0 && Inv(p, s) && Doomed(s, r)
    ensures Doomed(Next(p, s, l), r)
  {
    StaysStopping(p, s, l);
    StillOpen(p, s, l, r);
    if s.rooms[r].lifecycle.Open? {
      ItemsBelow(p, s);
      if HasClose(s.items, r) {
        CloseComes(p, s, l, r);
      } else {
        CollectedComes(p, s, l, r);
      }
    }
  }

  lemma CloseComes(p: Setup, s: State, l: Label, r: Ref)
    requires p.strands > 0 && HasClose(s.items, r) && r in s.rooms && forall n :: n in s.items ==> n < s.next
    ensures HasClose(Next(p, s, l).items, r) || TaskIn(s, l, r) == Some(Close(r))
  {
    var n :| n in s.items && s.items[n] == Close(r);
    TaskStays(p, s, l, n);
  }

  lemma CollectedComes(p: Setup, s: State, l: Label, r: Ref)
    requires p.strands > 0 && s.mgr.stopping && forall n :: n in s.items ==> n < s.next
    requires exists id :: id in s.closing && s.closing[id] == r
    ensures
      var s' := Next(p, s, l);
      HasClose(s'.items, r) || exists id :: id in s'.closing && s'.closing[id] == r
  {
    if l.PostClose? {
      ClosePostedComes(s, l.id, r);
    } else {
      OnlyPostClose(p, s, l);
    }
  }

  lemma {:induction false} RunDoomed(p: Setup, s: State, labels: seq<Label>, r: Ref)
    requires p.strands > 0 && Inv(p, s) && Doomed(s, r)
    ensures Doomed(Run(p, s, labels), r)
    decreases |labels|
  {
    if labels != [] {
      StepDoomed(p, s, labels[0], r);
      NextKeeps(p, s, labels[0]);
      RunDoomed(p, Next(p, s, labels[0]), labels[1..], r);
    }
  }

  /** Shutdown, whatever runs before and after it: a room that was registered when it
      came is closed, or told to close, or about to be told; so once all have been told
      and no task is left, it is closed, and contents have heard it last. */
  lemma ShutdownCloses(p: Setup, before: seq<Label>, after: seq<Label>, r: Ref)
    requires p.strands > 0 && !Run(p, Start(), before).mgr.stopping && r in Run(p, Start(), before).mgr.rooms.Values
    ensures
      var s := Run(p, Next(p, Run(p, Start(), before), Shutdown), after);
      && Doomed(s, r)
      && (s.closing == map[] && (forall n :: n in s.items ==> s.items[n].Past?) ==>
            s.rooms[r].lifecycle.Closed? && s.rooms[r].log != [] && s.rooms[r].log[|s.rooms[r].log| - 1].Destroyed?)
  {
    var s0 := Run(p, Start(), before);
    var s1 := Next(p, s0, Shutdown);
    Reached(p, before);
    NextKeeps(p, s0, Shutdown);
    IsCollected(p, s0, r);
    RunDoomed(p, s1, after, r);
    RunKeeps(p, s1, after);
    if !Run(p, s1, after).rooms[r].lifecycle.Open? {
      HeardLast(p, Run(p, s1, after), r);
    }
  }

  lemma IsCollected(p: Setup, s: State, r: Ref)
    requires p.strands > 0 && Inv(p, s) && !s.mgr.stopping && r in s.mgr.rooms.Values
    ensures Doomed(Next(p, s, Shutdown), r)
  {
    var id :| id in s.mgr.rooms && s.mgr.rooms[id] == r;
    assert Next(p, s, Shutdown).closing[id] == r;
  }

  lemma HeardLast(p: Setup, s: State, r: Ref)
    requires Inv(p, s) && r in s.rooms && !s.rooms[r].lifecycle.Open?
    ensures s.rooms[r].lifecycle.Closed? && s.rooms[r].log != [] && s.rooms[r].log[|s.rooms[r].log| - 1].Destroyed?
  {
    assert EndsWell(s.rooms[r], s.mgr.stopping);
  }
}
