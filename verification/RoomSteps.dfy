/** Every step of the Room server keeps its invariants. Two lemmas cover every step
    of a strand: one for the books, one for the rooms, each under conditions on the
    one task that moved; the others cover what the channel thread adds. */
module RoomSteps {
  import opened QueuedRequests
  import opened Rooms
  import opened RoomServer
  import opened RoomInvariants

  // ---------------------------------------------------------------- strand steps

  /** Nothing else of room `ref` has begun or is still to be announced. */
  ghost predicate Alone(items: Items, n: nat, ref: Ref)
  {
    forall m :: m in items && m != n && (Begun(items[m]) || items[m].Notice?) ==> items[m].room != ref
  }

  lemma HeadIsAlone(p: Setup, s: State, n: nat)
    requires Inv(p, s) && IsHead(s.items, s.strandOf, n) && s.items[n].room in s.rooms
    ensures Alone(s.items, n, s.items[n].room)
  {
    HeadAlone(s.items, s.strandOf, n);
    NoNoticeBehind(s.items, s.rooms, s.strandOf, n);
  }

  ghost predicate RetiresKey(cfg: Config, s: State, s': State, n: nat)
  {
    && Valid(cfg, s'.reg)
    && if IsLive(s.items, n) && !IsLive(s'.items, n) then s'.reg.active == s.reg.active - {s.items[n].req.key}
       else s'.reg.active == s.reg.active
  }

  /** A step of item `n`, seen from the item. */
  ghost predicate TaskMoves(s: State, s': State, n: nat)
  {
    && SameElse(s.items, s'.items, n)
    && n in s.items && !s.items[n].Past?
    && s'.strandOf == s.strandOf && s'.closing == s.closing && s'.next == s.next
    && s'.mgr.stopping == s.mgr.stopping && (s'.fault ==> s.fault || s.mgr.stopping)
    && (n in s'.items ==>
          && ItemOk(s'.items[n])
          && ((s'.items[n].Work? && s'.items[n].room == s.items[n].room) || (s'.items[n].Past? && !s'.items[n].threw)))
    && (IsLive(s'.items, n) ==> IsLive(s.items, n) && s'.items[n].req.key == s.items[n].req.key)
  }

  /** The same step, seen from the room, which becomes `room`. */
  ghost predicate RoomMoves(s: State, s': State, n: nat, ref: Ref, room: Room)
  {
    && ref in s.rooms && room.id == s.rooms[ref].id
    && s'.rooms == s.rooms[ref := room]
    && EndsWell(room, s.mgr.stopping)
    && (n in s'.items && s'.items[n].Work? ==> StandingTask(room, s'.items[n]))
    && (n in s'.items ==> room.users.Keys == MembersWith(room, s'.items[n]))
    && (n !in s'.items ==> room.users.Keys == Members(room.owner, room.log))
  }

  lemma StrandBooks(p: Setup, s: State, s': State, n: nat)
    requires Books(p, s) && IsHead(s.items, s.strandOf, n)
    requires TaskMoves(s, s', n) && RetiresKey(p.cfg, s, s', n) && s'.rooms.Keys == s.rooms.Keys
    ensures Books(p, s')
  {
    LocatedUpdate(s.items, s'.items, s.rooms.Keys, s.strandOf, s.closing, s.next, s.next, n);
    if IsLive(s.items, n) && !IsLive(s'.items, n) {
      TrackedDone(s.reg.active, s.items, s'.items, n);
    } else {
      TrackedUpdate(s.reg.active, s.items, s'.items, n);
    }
    SerialUpdate(s.items, s'.items, s.strandOf, n);
    AllOkUpdate(s.items, s'.items, n);
  }

  lemma StrandWorld(s: State, s': State, n: nat, ref: Ref, room: Room)
    requires World(s) && TaskMoves(s, s', n) && RoomMoves(s, s', n, ref, room)
    requires s.items[n].room == ref && Alone(s.items, n, ref) && Managed(s'.mgr, s'.rooms)
    requires forall m :: m in s.items && s.items[m].Notice? ==> s.items[m].room in s.rooms
    ensures World(s')
  {
    StandingUpdate(s.items, s'.items, s.rooms, n, ref, room);
    NarratedUpdate(s.items, s'.items, s.rooms, n, ref, room);
    EndedUpdate(s.rooms, s.mgr.stopping, ref, room);
    OnlyStoppingUpdate(s.items, s'.items, s.closing, s.fault, s'.fault, s.mgr.stopping, n);
    AnnouncedUpdate(s.items, s'.items, s.rooms, n, ref, room);
  }

  /** Any step of the head of a strand. */
  lemma StrandKeeps(p: Setup, s: State, s': State, n: nat, ref: Ref, room: Room)
    requires Inv(p, s) && IsHead(s.items, s.strandOf, n) && s.items[n].room == ref && ref in s.rooms
    requires TaskMoves(s, s', n) && RoomMoves(s, s', n, ref, room)
    requires RetiresKey(p.cfg, s, s', n) && Managed(s'.mgr, s'.rooms)
    ensures Inv(p, s')
  {
    HeadIsAlone(p, s, n);
    assert s'.rooms.Keys == s.rooms.Keys;
    StrandBooks(p, s, s', n);
    StrandWorld(s, s', n, ref, room);
  }

  // ---------------------------------------------------------------- the four phases of a task

  lemma BeginLocal(t: Item, room: Room, stopping: bool)
    requires t.Work? && t.phase.Waiting? && ItemOk(t) && StandingTask(room, t) && EndsWell(room, stopping)
    requires room.users.Keys == Members(room.owner, room.log)
    ensures var (t', room') := Begin(t, room);
      && t'.Work? && t'.room == t.room && t'.req.key == t.req.key && Live(t')
      && ItemOk(t') && StandingTask(room', t') && EndsWell(room', stopping)
      && room'.id == room.id && room'.lifecycle == room.lifecycle
      && room'.users.Keys == MembersWith(room', t')
  {
  }

  lemma CompleteLocal(t: Item, room: Room, stopping: bool)
    requires t.Work? && t.phase.Completing? && ItemOk(t) && StandingTask(room, t) && EndsWell(room, stopping)
    requires room.users.Keys == MembersWith(room, t)
    ensures var t' := Complete(t, true);
      var room' := Heard(room, t);
      && ((t'.Work? && t'.room == t.room && StandingTask(room', t')) || (t'.Past? && !t'.threw))
      && !Live(t') && ItemOk(t') && !Unheard(t') && EndsWell(room', stopping)
      && room'.id == room.id && room'.lifecycle == room.lifecycle
      && room'.users.Keys == Members(room'.owner, room'.log)
  {
    MembersTold(room.owner, room.log, Exited(t.req.request.uid));
    MembersTold(room.owner, room.log, Entered(t.req.request.uid));
    if t.phase.applied {
      EndsOnceTold(room, Exited(t.req.request.uid));
      EndsOnceTold(room, Entered(t.req.request.uid));
    }
  }

  /** What the invariants say about the head of a strand and its room. */
  ghost predicate LocalFacts(s: State, n: nat)
    requires n in s.items && !s.items[n].Past? && s.items[n].room in s.rooms
  {
    var t := s.items[n];
    var room := s.rooms[t.room];
    && ItemOk(t) && (t.Work? ==> StandingTask(room, t)) && EndsWell(room, s.mgr.stopping)
    && room.users.Keys == MembersWith(room, t)
    && Alone(s.items, n, t.room)
    && (t.Notice? ==> room.lifecycle.Open?)
    && (t.Close? ==> s.mgr.stopping)
    && (s.mgr.stopping ==> s.mgr.rooms == map[])
  }

  lemma HeadFacts(p: Setup, s: State, n: nat)
    requires Inv(p, s) && IsHead(s.items, s.strandOf, n) && s.items[n].room in s.rooms
    ensures LocalFacts(s, n)
  {
    HeadIsAlone(p, s, n);
    var ref := s.items[n].room;
    if !Unheard(s.items[n]) {
      assert !Settling(s.items, ref);
    }
  }

  ghost predicate Moves(s: State, s': State, n: nat, room: Room)
  {
    && TaskMoves(s, s', n)
    && RoomMoves(s, s', n, s.items[n].room, room)
  }

  lemma BeginMoves(s: State, n: nat, t: Item, room: Room)
    requires n in s.items && s.items[n].Work? && s.items[n].phase.Waiting? && s.items[n].room in s.rooms
    requires LocalFacts(s, n) && (t, room) == Begin(s.items[n], s.rooms[s.items[n].room])
    ensures var s' := Update(s, n, t, s.items[n].room, room);
      Moves(s, s', n, room) && IsLive(s'.items, n) && room.lifecycle == s.rooms[s.items[n].room].lifecycle
  {
    BeginLocal(s.items[n], s.rooms[s.items[n].room], s.mgr.stopping);
  }

  lemma BeginKeeps(p: Setup, s: State, n: nat, t: Item, room: Room)
    requires Inv(p, s) && IsHead(s.items, s.strandOf, n) && s.items[n].room in s.rooms
    requires s.items[n].Work? && s.items[n].phase.Waiting?
    requires (t, room) == Begin(s.items[n], s.rooms[s.items[n].room])
    ensures Inv(p, Update(s, n, t, s.items[n].room, room))
  {
    var ref := s.items[n].room;
    HeadFacts(p, s, n);
    BeginMoves(s, n, t, room);
    ManagedRoom(s.mgr, s.rooms, ref, room);
    StrandKeeps(p, s, Update(s, n, t, ref, room), n, ref, room);
  }

  lemma RegisterMoves(s: State, n: nat)
    requires n in s.items && s.items[n].Work? && s.items[n].phase.Applied? && s.items[n].room in s.rooms
    requires LocalFacts(s, n)
    ensures var s' := Register(s, n);
      Moves(s, s', n, s.rooms[s.items[n].room]) && IsLive(s'.items, n)
  {
    var t := s.items[n];
    var room := s.rooms[t.room];
    assert s.rooms == s.rooms[t.room := room];
  }

  lemma RegisterKeeps(p: Setup, s: State, n: nat)
    requires Inv(p, s) && IsHead(s.items, s.strandOf, n) && s.items[n].room in s.rooms
    requires s.items[n].Work? && s.items[n].phase.Applied?
    ensures Inv(p, Register(s, n))
  {
    var t := s.items[n];
    HeadFacts(p, s, n);
    RegisterMoves(s, n);
    ManagedIndex(s.mgr, s.rooms, t.req.request, s.rooms[t.room].id, t.room);
    StrandKeeps(p, s, Register(s, n), n, t.room, s.rooms[t.room]);
  }

  function Completion(s: State, n: nat, reg': Registry<nat>): State
    requires n in s.items && s.items[n].Work? && s.items[n].phase.Completing? && s.items[n].room in s.rooms
  {
    var t := s.items[n];
    Update(s, n, Complete(t, true), t.room, Heard(s.rooms[t.room], t)).(reg := reg')
  }

  lemma CompleteMoves(s: State, n: nat, reg': Registry<nat>)
    requires n in s.items && s.items[n].Work? && s.items[n].phase.Completing? && s.items[n].room in s.rooms
    requires LocalFacts(s, n)
    ensures var s' := Completion(s, n, reg');
      var room := s.rooms[s.items[n].room];
      Moves(s, s', n, Heard(room, s.items[n])) && !IsLive(s'.items, n)
      && Heard(room, s.items[n]).lifecycle == room.lifecycle
  {
    CompleteLocal(s.items[n], s.rooms[s.items[n].room], s.mgr.stopping);
  }

  lemma CompleteKeeps(p: Setup, s: State, n: nat, reg': Registry<nat>)
    requires Inv(p, s) && IsHead(s.items, s.strandOf, n) && s.items[n].room in s.rooms
    requires s.items[n].Work? && s.items[n].phase.Completing?
    requires Valid(p.cfg, reg') && reg'.active == s.reg.active - {s.items[n].req.key}
    ensures Inv(p, Completion(s, n, reg'))
  {
    var t := s.items[n];
    var room := Heard(s.rooms[t.room], t);
    HeadFacts(p, s, n);
    CompleteMoves(s, n, reg');
    ManagedRoom(s.mgr, s.rooms, t.room, room);
    StrandKeeps(p, s, Completion(s, n, reg'), n, t.room, room);
  }

  lemma CloseEmptyMoves(s: State, n: nat)
    requires n in s.items && s.items[n].Work? && s.items[n].phase.Emptied? && s.items[n].room in s.rooms
    requires LocalFacts(s, n)
    ensures var s' := CloseEmpty(s, n);
      Moves(s, s', n, s'.rooms[s.items[n].room]) && !IsLive(s'.items, n)
  {
    var room := s.rooms[s.items[n].room];
    EndsOnceShut(room);
    MembersTold(room.owner, room.log, Destroyed);
  }

  lemma CloseEmptyKeeps(p: Setup, s: State, n: nat)
    requires Inv(p, s) && IsHead(s.items, s.strandOf, n) && s.items[n].room in s.rooms
    requires s.items[n].Work? && s.items[n].phase.Emptied?
    ensures Inv(p, CloseEmpty(s, n))
  {
    var ref := s.items[n].room;
    var s' := CloseEmpty(s, n);
    HeadFacts(p, s, n);
    CloseEmptyMoves(s, n);
    ManagedRemove(s.mgr, s.rooms, ref);
    ManagedRoom(s'.mgr, s.rooms, ref, s'.rooms[ref]);
    StrandKeeps(p, s, s', n, ref, s'.rooms[ref]);
  }

  // ---------------------------------------------------------------- notices, kicks, closes

  /** Running a task that is not a request leaves its room as `room`. */
  lemma DropMoves(s: State, n: nat, room: Room, fault: bool)
    requires n in s.items && !s.items[n].Past? && !s.items[n].Work? && s.items[n].room in s.rooms
    requires LocalFacts(s, n) && (fault ==> s.mgr.stopping)
    requires room.id == s.rooms[s.items[n].room].id && EndsWell(room, s.mgr.stopping)
    requires room.users.Keys == Members(room.owner, room.log)
    ensures var s' := Drop(s, n, s.items[n].room, room).(fault := s.fault || fault);
      Moves(s, s', n, room) && !IsLive(s'.items, n) && !IsLive(s.items, n)
  {
  }

  lemma DropKeeps(p: Setup, s: State, n: nat, room: Room, fault: bool)
    requires Inv(p, s) && IsHead(s.items, s.strandOf, n) && s.items[n].room in s.rooms && !s.items[n].Work?
    requires fault ==> s.mgr.stopping
    requires room.id == s.rooms[s.items[n].room].id && EndsWell(room, s.mgr.stopping)
    requires room.users.Keys == Members(room.owner, room.log)
    requires room.lifecycle == s.rooms[s.items[n].room].lifecycle || s.mgr.rooms == map[]
    ensures Inv(p, Drop(s, n, s.items[n].room, room).(fault := s.fault || fault))
  {
    var ref := s.items[n].room;
    HeadFacts(p, s, n);
    DropMoves(s, n, room, fault);
    ManagedRoom(s.mgr, s.rooms, ref, room);
    StrandKeeps(p, s, Drop(s, n, ref, room).(fault := s.fault || fault), n, ref, room);
  }

  lemma NoticeLocal(room: Room, stopping: bool)
    requires EndsWell(room, stopping) && room.lifecycle.Open? && room.users.Keys == Members(room.owner, room.log)
    ensures var room' := Told(room, Event.Created);
      EndsWell(room', stopping) && room'.users.Keys == Members(room'.owner, room'.log)
  {
    EndsOnceTold(room, Event.Created);
    MembersTold(room.owner, room.log, Event.Created);
  }

  lemma KickLocal(room: Room, uid: Uid, stopping: bool)
    requires EndsWell(room, stopping) && room.users.Keys == Members(room.owner, room.log)
    ensures KickFaults(room, uid) ==> stopping
    ensures !KickFaults(room, uid) ==>
      var room' := KickOut(room, uid);
      && EndsWell(room', stopping) && room'.users.Keys == Members(room'.owner, room'.log)
      && room'.lifecycle == room.lifecycle && room'.id == room.id
  {
    if room.lifecycle.Open? {
      EndsOnceTold(room, Kicked(uid));
    }
    MembersTold(room.owner, room.log, Kicked(uid));
  }

  lemma ShutLocal(room: Room)
    requires EndsWell(room, true) && room.users.Keys == Members(room.owner, room.log)
    ensures EndsWell(Shut(room), true) && Shut(room).users.Keys == Members(room.owner, Shut(room).log)
    ensures Shut(room).id == room.id && Shut(room).owner == room.owner
  {
    EndsOnceShut(room);
    MembersTold(room.owner, room.log, Destroyed);
  }

  /** Every step of every strand keeps the invariants. */
  lemma RunTaskKeeps(p: Setup, s: State, n: nat, now: nat)
    requires Inv(p, s)
    ensures Inv(p, RunTask(p, s, n, now))
  {
    if IsHead(s.items, s.strandOf, n) && s.items[n].room in s.rooms {
      if s.items[n].Work? {
        RunWorkKeeps(p, s, n, now);
      } else {
        RunOtherKeeps(p, s, n, now);
      }
    }
  }

  lemma RunOtherKeeps(p: Setup, s: State, n: nat, now: nat)
    requires Inv(p, s) && IsHead(s.items, s.strandOf, n) && s.items[n].room in s.rooms && !s.items[n].Work?
    ensures Inv(p, RunTask(p, s, n, now))
  {
    var room := s.rooms[s.items[n].room];
    HeadFacts(p, s, n);
    match s.items[n] {
      case Notice(_) =>
        NoticeLocal(room, s.mgr.stopping);
        DropKeeps(p, s, n, Told(room, Event.Created), false);
      case Kick(_, uid) =>
        KickLocal(room, uid, s.mgr.stopping);
        if KickFaults(room, uid) {
          DropKeeps(p, s, n, room, true);
        } else {
          DropKeeps(p, s, n, KickOut(room, uid), false);
        }
      case Close(_) =>
        ShutLocal(room);
        DropKeeps(p, s, n, Shut(room), false);
    }
  }

  lemma RunWorkKeeps(p: Setup, s: State, n: nat, now: nat)
    requires Inv(p, s) && IsHead(s.items, s.strandOf, n) && s.items[n].room in s.rooms && s.items[n].Work?
    ensures Inv(p, RunWork(p, s, n, now))
  {
    var t := s.items[n];
    match t.phase {
      case Waiting =>
        var (t', room') := Begin(t, s.rooms[t.room]);
        BeginKeeps(p, s, n, t', room');
      case Applied(_) => RegisterKeeps(p, s, n);
      case Completing(_, _, _) =>
        assert Holds(s.reg, t.req.key, n);
        FinishKeepsValid(p.cfg, s.reg, t.req.key, n, now);
        CompleteKeeps(p, s, n, AfterFinish(p.cfg, s.reg, t.req.key, n, now));
      case Emptied => CloseEmptyKeeps(p, s, n);
    }
  }
}
