/** The channel thread and the environment keep the Room server's invariants, and
    with the strands so does every run. */
module RoomChannel {
  import opened Basics
  import opened QueuedRequests
  import opened Rooms
  import opened RoomServer
  import opened RoomInvariants
  import opened RoomSteps

  // ---------------------------------------------------------------- a new item

  function Add(s: State, t: Item, reg': Registry<nat>): State
  {
    s.(reg := reg', items := s.items[s.next := t], next := s.next + 1)
  }

  /** An item that may be added to `s`, with the registry that goes with it. */
  ghost predicate Addable(cfg: Config, s: State, t: Item, reg': Registry<nat>)
  {
    && ItemOk(t) && !Begun(t) && !t.Notice? && (t.Past? || t.room in s.rooms)
    && (t.Work? ==> t.req.key !in s.reg.active && StandingTask(s.rooms[t.room], t))
    && (t.Close? || (t.Past? && t.threw) ==> s.mgr.stopping)
    && Valid(cfg, reg')
    && reg'.active == if t.Work? then s.reg.active[t.req.key := s.next] else s.reg.active
  }

  lemma AddBooks(p: Setup, s: State, t: Item, reg': Registry<nat>)
    requires Books(p, s) && Addable(p.cfg, s, t, reg')
    ensures Books(p, Add(s, t, reg'))
  {
    var n := s.next;
    var items' := s.items[n := t];
    LocatedUpdate(s.items, items', s.rooms.Keys, s.strandOf, s.closing, n, n + 1, n);
    if t.Work? {
      TrackedAdd(s.reg.active, s.items, n, t);
    } else {
      TrackedUpdate(s.reg.active, s.items, items', n);
    }
    SerialUpdate(s.items, items', s.strandOf, n);
    AllOkUpdate(s.items, items', n);
  }

  lemma AddWorld(cfg: Config, s: State, t: Item, reg': Registry<nat>)
    requires World(s) && Addable(cfg, s, t, reg')
    requires Located(s.items, s.rooms.Keys, s.strandOf, s.closing, s.next)
    ensures World(Add(s, t, reg'))
  {
    var n := s.next;
    var items' := s.items[n := t];
    NarratedQuiet(s.items, items', s.rooms, n);
    OnlyStoppingUpdate(s.items, items', s.closing, s.fault, s.fault, s.mgr.stopping, n);
    if s.rooms == map[] {
      assert forall m :: m in s.items ==> s.items[m].Past?;
    } else {
      var ref := if t.Past? then var r :| r in s.rooms; r else t.room;
      assert s.rooms == s.rooms[ref := s.rooms[ref]];
      StandingUpdate(s.items, items', s.rooms, n, ref, s.rooms[ref]);
      AnnouncedUpdate(s.items, items', s.rooms, n, ref, s.rooms[ref]);
    }
  }

  lemma AddKeeps(p: Setup, s: State, t: Item, reg': Registry<nat>)
    requires Inv(p, s) && Addable(p.cfg, s, t, reg')
    ensures Inv(p, Add(s, t, reg'))
  {
    AddBooks(p, s, t, reg');
    AddWorld(p.cfg, s, t, reg');
  }

  // ---------------------------------------------------------------- a new room

  /** The first half of a creation: the registered room and its notice. */
  function AddRoom(s: State, strand: nat, uid: Uid, route: Route, drawn: RoomId): State
  {
    var ref := s.next;
    s.(rooms := s.rooms[ref := NewRoom(drawn, uid, route)], mgr := Added(s.mgr, drawn, ref, uid),
       strandOf := s.strandOf[ref := strand], items := s.items[ref := Notice(ref)], next := s.next + 1)
  }

  lemma AddRoomSerial(items: Items, refs: set<Ref>, strandOf: map<Ref, nat>, closing: map<RoomId, Ref>, n: nat, x: nat)
    requires Serial(items, strandOf) && Located(items, refs, strandOf, closing, n)
    ensures Serial(items[n := Notice(n)], strandOf[n := x])
  {
    var items', strandOf' := items[n := Notice(n)], strandOf[n := x];
    forall k, m | k in items' && m in items' && Begun(items'[k]) && SameStrand(strandOf', items'[m], items'[k]) ensures k <= m {
      assert m != n ==> SameStrand(strandOf, items[m], items[k]);
    }
  }

  lemma AddRoomLocated(items: Items, refs: set<Ref>, strandOf: map<Ref, nat>, closing: map<RoomId, Ref>, n: nat, x: nat)
    requires Located(items, refs, strandOf, closing, n)
    ensures Located(items[n := Notice(n)], refs + {n}, strandOf[n := x], closing, n + 1)
  {
  }

  lemma AddedKey(rooms: RoomMap, n: Ref, room: Room)
    ensures rooms[n := room].Keys == rooms.Keys + {n}
  {
  }

  lemma AddRoomBooks(p: Setup, s: State, strand: nat, uid: Uid, route: Route, drawn: RoomId)
    requires Books(p, s)
    ensures Books(p, AddRoom(s, strand, uid, route, drawn))
  {
    var n := s.next;
    var s' := AddRoom(s, strand, uid, route, drawn);
    AddRoomLocated(s.items, s.rooms.Keys, s.strandOf, s.closing, n, strand);
    AddedKey(s.rooms, n, NewRoom(drawn, uid, route));
    TrackedUpdate(s.reg.active, s.items, s'.items, n);
    AddRoomSerial(s.items, s.rooms.Keys, s.strandOf, s.closing, n, strand);
    AllOkUpdate(s.items, s'.items, n);
  }

  lemma AddRoomNarrated(items: Items, rooms: RoomMap, n: nat, room: Room)
    requires Narrated(items, rooms) && n !in items && n !in rooms
    requires forall m :: m in items && !items[m].Past? ==> items[m].room in rooms
    requires room.log == [] && room.users.Keys == {room.owner}
    ensures Narrated(items[n := Notice(n)], rooms[n := room])
  {
    var items', rooms' := items[n := Notice(n)], rooms[n := room];
    forall r | r in rooms' && !Settling(items', r)
      ensures rooms'[r].users.Keys == Members(rooms'[r].owner, rooms'[r].log)
    {
      if r != n {
        NotSettling(items, items', n, r);
      }
    }
  }

  lemma AddRoomAnnounced(items: Items, rooms: RoomMap, n: nat, room: Room)
    requires Announced(items, rooms) && room.lifecycle.Open? && n !in rooms
    requires forall m :: m in items ==> m < n && (items[m].Past? || items[m].room in rooms)
    ensures Announced(items[n := Notice(n)], rooms[n := room])
  {
    var items', rooms' := items[n := Notice(n)], rooms[n := room];
    forall k | k in items' && items'[k].Notice? && items'[k].room in rooms'
      ensures rooms'[items'[k].room].lifecycle.Open? && FirstOfRoom(items', k)
    {
      assert k != n ==> FirstOfRoom(items, k);
    }
  }

  lemma AddRoomManaged(mgr: Manager<Ref>, rooms: RoomMap, n: Ref, room: Room, uid: Uid)
    requires Managed(mgr, rooms) && n !in rooms && room.lifecycle.Open? && !mgr.stopping
    ensures Managed(Added(mgr, room.id, n, uid), rooms[n := room])
  {
  }

  lemma AddRoomWorld(s: State, strand: nat, uid: Uid, route: Route, drawn: RoomId)
    requires World(s) && !s.mgr.stopping
    requires Located(s.items, s.rooms.Keys, s.strandOf, s.closing, s.next)
    ensures World(AddRoom(s, strand, uid, route, drawn))
  {
    var n := s.next;
    var room := NewRoom(drawn, uid, route);
    AddRoomManaged(s.mgr, s.rooms, n, room, uid);
    AddRoomNarrated(s.items, s.rooms, n, room);
    EndedUpdate(s.rooms, false, n, room);
    OnlyStoppingUpdate(s.items, s.items[n := Notice(n)], s.closing, s.fault, s.fault, false, n);
    AddRoomAnnounced(s.items, s.rooms, n, room);
  }

  lemma AddRoomKeeps(p: Setup, s: State, strand: nat, uid: Uid, route: Route, drawn: RoomId)
    requires Inv(p, s) && !s.mgr.stopping
    ensures Inv(p, AddRoom(s, strand, uid, route, drawn))
  {
    AddRoomBooks(p, s, strand, uid, route, drawn);
    AddRoomWorld(s, strand, uid, route, drawn);
  }

  /** The second half of a creation: the request, over and answered. */
  function CreatePast(s: State, key: Key, uid: Uid, ref: Ref, drawn: RoomId): Item
  {
    var r := Req(key, CreateRoom(uid), TicketState.Started, 1, Some(Commit(ref, s.rooms, s.mgr)), 0, None);
    Past(Replied(r, Answer(true, drawn)), false)
  }

  lemma CreateAddable(cfg: Config, s: State, strand: nat, key: Key, uid: Uid, drawn: RoomId, reg': Registry<nat>)
    requires Valid(cfg, reg') && reg'.active == s.reg.active
    ensures var s1 := AddRoom(s, strand, uid, key.route, drawn);
      Addable(cfg, s1, CreatePast(s1, key, uid, s.next, drawn), reg')
  {
  }

  lemma CreateKeeps(p: Setup, s: State, key: Key, uid: Uid, drawn: RoomId, reg': Registry<nat>)
    requires p.strands > 0 && Inv(p, s) && !s.mgr.stopping
    requires Valid(p.cfg, reg') && reg'.active == s.reg.active
    ensures Inv(p, Create(p, s, key, uid, drawn, reg'))
  {
    var strand := |s.mgr.rooms| % p.strands;
    var s1 := AddRoom(s, strand, uid, key.route, drawn);
    AddRoomKeeps(p, s, strand, uid, key.route, drawn);
    CreateAddable(p.cfg, s, strand, key, uid, drawn, reg');
    AddKeeps(p, s1, CreatePast(s1, key, uid, s.next, drawn), reg');
  }

  // ---------------------------------------------------------------- messages

  lemma OverAddable(cfg: Config, s: State, key: Key, request: Request, reg': Registry<nat>)
    requires Valid(cfg, reg') && reg'.active == s.reg.active
    ensures s.mgr.stopping ==> Addable(cfg, s, Past(NewReq(key, request, TicketState.Started), true), reg')
    ensures Addable(cfg, s, Past(Replied(NewReq(key, request, TicketState.Started), Answer(false, ReplyRoom(request))), false), reg')
  {
  }

  lemma WorkAddable(cfg: Config, s: State, key: Key, request: Request, room: Ref, reg': Registry<nat>)
    requires Managed(s.mgr, s.rooms) && Target(s.mgr, request) == Some(room) && key !in s.reg.active
    requires Valid(cfg, reg') && reg'.active == s.reg.active[key := s.next]
    ensures Addable(cfg, s, Work(room, NewReq(key, request, Queued), Waiting), reg')
  {
  }

  lemma HandleKeeps(p: Setup, s: State, key: Key, request: Request, drawn: RoomId,
                    admitted: Registry<nat>, finished: Registry<nat>)
    requires p.strands > 0 && Inv(p, s) && key !in s.reg.active
    requires Valid(p.cfg, admitted) && admitted.active == s.reg.active[key := TicketNumber(s, request)]
    requires Valid(p.cfg, finished) && finished.active == s.reg.active
    ensures Inv(p, Handle(p, s, key, request, drawn, admitted, finished))
  {
    OverAddable(p.cfg, s, key, request, finished);
    if request.CreateRoom? && !s.mgr.stopping {
      CreateKeeps(p, s, key, request.uid, drawn, finished);
    } else if request.CreateRoom? {
      AddKeeps(p, s, Past(NewReq(key, request, TicketState.Started), true), finished);
    } else if Target(s.mgr, request).None? {
      var r := Replied(NewReq(key, request, TicketState.Started), Answer(false, ReplyRoom(request)));
      AddKeeps(p, s, Past(r, false), finished);
    } else {
      var room := Target(s.mgr, request).value;
      WorkAddable(p.cfg, s, key, request, room, admitted);
      AddKeeps(p, s, Work(room, NewReq(key, request, Queued), Waiting), admitted);
    }
  }

  /** Admission followed at once by retirement leaves the active keys as they were. */
  lemma AdmitThenFinish(cfg: Config, reg: Registry<nat>, key: Key, now: nat, n: nat, done: nat)
    requires Valid(cfg, reg)
    ensures var admitted := AfterAdmit(cfg, reg, key, now, n);
      var finished := AfterFinish(cfg, admitted, key, n, done);
      && Valid(cfg, admitted) && Valid(cfg, finished)
      && (Admissible(cfg, reg, key, now) ==>
            key !in reg.active && admitted.active == reg.active[key := n] && finished.active == reg.active)
      && (!Admissible(cfg, reg, key, now) ==> admitted.active == reg.active)
  {
    var admitted := AfterAdmit(cfg, reg, key, now, n);
    AdmitKeepsValid(cfg, reg, key, now, n);
    FinishKeepsValid(cfg, admitted, key, n, done);
    if Admissible(cfg, reg, key, now) {
      assert reg.active[key := n] - {key} == reg.active;
    }
  }

  lemma RegistryKeeps(p: Setup, s: State, reg': Registry<nat>)
    requires Inv(p, s) && Valid(p.cfg, reg') && reg'.active == s.reg.active
    ensures Inv(p, s.(reg := reg'))
  {
  }

  lemma ReceiveAskKeeps(p: Setup, s: State, key: Key, request: Request, now: nat, done: nat, drawn: RoomId)
    requires p.strands > 0 && Inv(p, s)
    ensures Inv(p, ReceiveAsk(p, s, key, request, now, done, drawn))
  {
    var n := TicketNumber(s, request);
    var admitted := AfterAdmit(p.cfg, s.reg, key, now, n);
    var finished := AfterFinish(p.cfg, admitted, key, n, done);
    AdmitThenFinish(p.cfg, s.reg, key, now, n, done);
    if Admissible(p.cfg, s.reg, key, now) {
      HandleKeeps(p, s, key, request, drawn, admitted, finished);
    } else {
      RegistryKeeps(p, s, admitted);
    }
  }

  /** Cancelling a queued ticket. */
  function Cancelling(s: State, n: nat): State
    requires n in s.items && s.items[n].Work?
  {
    s.(items := s.items[n := s.items[n].(req := s.items[n].req.(ticket := Cancelled))])
  }

  lemma CancellingBooks(p: Setup, s: State, n: nat)
    requires Books(p, s) && n in s.items && s.items[n].Work? && s.items[n].req.ticket.Queued?
    ensures Books(p, Cancelling(s, n)) && s.items[n].phase.Waiting?
  {
    var items' := Cancelling(s, n).items;
    LocatedUpdate(s.items, items', s.rooms.Keys, s.strandOf, s.closing, s.next, s.next, n);
    TrackedUpdate(s.reg.active, s.items, items', n);
    SerialUpdate(s.items, items', s.strandOf, n);
    AllOkUpdate(s.items, items', n);
  }

  lemma CancellingWorld(s: State, n: nat)
    requires World(s) && n in s.items && s.items[n].Work? && s.items[n].phase.Waiting?
    requires Located(s.items, s.rooms.Keys, s.strandOf, s.closing, s.next)
    ensures World(Cancelling(s, n))
  {
    var items' := Cancelling(s, n).items;
    var ref := s.items[n].room;
    assert s.rooms == s.rooms[ref := s.rooms[ref]];
    NarratedQuiet(s.items, items', s.rooms, n);
    OnlyStoppingUpdate(s.items, items', s.closing, s.fault, s.fault, s.mgr.stopping, n);
    StandingUpdate(s.items, items', s.rooms, n, ref, s.rooms[ref]);
    AnnouncedUpdate(s.items, items', s.rooms, n, ref, s.rooms[ref]);
  }

  lemma CancellingKeeps(p: Setup, s: State, n: nat)
    requires Inv(p, s) && n in s.items && s.items[n].Work? && s.items[n].req.ticket.Queued?
    ensures Inv(p, Cancelling(s, n))
  {
    CancellingBooks(p, s, n);
    CancellingWorld(s, n);
  }

  /** Only a queued ticket changes. */
  predicate Cancels(s: State, key: Key)
  {
    && key in s.reg.active && s.reg.active[key] in s.items && s.items[s.reg.active[key]].Work?
    && s.items[s.reg.active[key]].req.ticket.Queued?
  }

  lemma CancelTicketCases(s: State, key: Key, reg': Registry<nat>)
    ensures CancelTicket(s, key, reg')
         == if Cancels(s, key) then Cancelling(s, s.reg.active[key]).(reg := reg') else s.(reg := reg')
  {
    if key in s.reg.active && s.reg.active[key] in s.items && s.items[s.reg.active[key]].Work? && !Cancels(s, key) {
      assert CancelTicket(s, key, reg').items == s.items;
    }
  }

  lemma CancelTicketKeeps(p: Setup, s: State, key: Key, reg': Registry<nat>)
    requires Inv(p, s) && Valid(p.cfg, reg') && reg'.active == s.reg.active
    ensures Inv(p, CancelTicket(s, key, reg'))
  {
    CancelTicketCases(s, key, reg');
    if Cancels(s, key) {
      CancellingKeeps(p, s, s.reg.active[key]);
      RegistryKeeps(p, Cancelling(s, s.reg.active[key]), reg');
    } else {
      RegistryKeeps(p, s, reg');
    }
  }

  lemma ReceiveCancelKeeps(p: Setup, s: State, key: Key, now: nat)
    requires Inv(p, s)
    ensures Inv(p, CancelTicket(s, key, AfterCancel(p.cfg, s.reg, key, now)))
  {
    CancelKeepsValid(p.cfg, s.reg, key, now);
    CancelTicketKeeps(p, s, key, AfterCancel(p.cfg, s.reg, key, now));
  }

  // ---------------------------------------------------------------- environment

  lemma ShutDownKeeps(p: Setup, s: State)
    requires Inv(p, s)
    ensures Inv(p, ShutDown(s))
  {
  }

  lemma ClosePostedKeeps(p: Setup, s: State, id: RoomId)
    requires Inv(p, s)
    ensures Inv(p, ClosePosted(s, id))
  {
    if IsFirst(s.closing, id) {
      AddKeeps(p, s, Close(s.closing[id]), s.reg);
      FewerClosing(p, Post(s, Close(s.closing[id])), id);
    }
  }

  lemma FewerClosing(p: Setup, s: State, id: RoomId)
    requires Inv(p, s)
    ensures Inv(p, s.(closing := s.closing - {id}))
  {
  }

  /** Every step keeps the invariants. */
  lemma NextKeeps(p: Setup, s: State, l: Label)
    requires p.strands > 0 && Inv(p, s)
    ensures Inv(p, Next(p, s, l))
  {
    match l {
      case Receive(route, Ask(id, request), now, done, drawn) =>
        ReceiveAskKeeps(p, s, Key(route, id), request, now, done, drawn);
      case Receive(route, CancelAsk(id), now, _, _) => ReceiveCancelKeeps(p, s, Key(route, id), now);
      case StrandStep(n, now) => RunTaskKeeps(p, s, n, now);
      case PostKick(room, uid) =>
        if room in s.rooms {
          AddKeeps(p, s, Kick(room, uid), s.reg);
        }
      case Shutdown => ShutDownKeeps(p, s);
      case PostClose(id) => ClosePostedKeeps(p, s, id);
    }
  }

  lemma {:induction false} RunKeeps(p: Setup, s: State, labels: seq<Label>)
    requires p.strands > 0 && Inv(p, s)
    ensures Inv(p, Run(p, s, labels))
    decreases |labels|
  {
    if labels != [] {
      NextKeeps(p, s, labels[0]);
      RunKeeps(p, Next(p, s, labels[0]), labels[1..]);
    }
  }

  lemma StartIsSound(p: Setup)
    ensures Inv(p, Start())
  {
  }
}
