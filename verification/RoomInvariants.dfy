/** What every reachable state of the Room server satisfies. Each predicate speaks
    only of the parts of the state it constrains. */
module RoomInvariants {
  import opened Basics
  import opened QueuedRequests
  import opened Rooms
  import opened RoomServer

  /** An admitted request whose completion has not run. */
  predicate Live(t: Item)
  {
    t.Work? && !t.phase.Emptied?
  }

  predicate IsLive(items: Items, n: nat)
  {
    n in items && Live(items[n])
  }

  predicate Begun(t: Item)
  {
    t.Work? && !t.phase.Waiting?
  }

  /** Has a strand task changed the membership without contents knowing yet? */
  predicate Unheard(t: Item)
  {
    t.Work? && (t.phase.Applied? || (t.phase.Completing? && t.phase.applied))
  }

  function UnheardFlag(t: Item): bool
    requires Unheard(t)
  {
    t.phase.flag
  }

  // ---------------------------------------------------------------- requests

  /** What a successful request has achieved, in the world it left behind. */
  predicate Effect(c: Commit, key: Key, request: Request)
  {
    && c.room in c.rooms
    && match request
       case CreateRoom(uid) =>
         && Registered(c.mgr, c.rooms[c.room].id, c.room)
         && c.rooms[c.room].users == map[uid := key.route]
         && uid in c.mgr.userRooms && c.mgr.userRooms[uid] == c.rooms[c.room].id
       case JoinRoom(uid, room) =>
         && c.rooms[c.room].id == room && Registered(c.mgr, room, c.room)
         && c.rooms[c.room].lifecycle.Open?
         && uid in c.rooms[c.room].users && c.rooms[c.room].users[uid] == key.route
         && uid in c.mgr.userRooms && c.mgr.userRooms[uid] == room
       case LeaveRoom(uid) =>
         uid !in c.rooms[c.room].users && uid !in c.mgr.userRooms
  }

  /** An answer names the room created or the room asked for. */
  predicate Names(a: Answer, request: Request, commit: Option<Commit>)
  {
    match request
    case CreateRoom(_) =>
      if a.success then
        commit.Some? && commit.value.room in commit.value.rooms
        && a.room == commit.value.rooms[commit.value.room].id
      else a.room == 0
    case JoinRoom(_, room) => a.room == room
    case LeaveRoom(_) => a.room == 0
  }

  /** A request is executed at most once and only if its ticket started; what it
      committed is in effect; it is answered at most once, and with success
      exactly if it committed. */
  predicate ReqOk(r: Req)
  {
    && r.execs <= 1 && r.sends <= 1
    && (r.execs == 1 ==> r.ticket.Started?)
    && (r.commit.Some? ==> r.execs == 1 && Effect(r.commit.value, r.key, r.request))
    && (r.answer.Some? <==> r.sends == 1)
    && (r.sends == 1 ==> r.ticket.Started?)
    && (r.answer.Some? ==> (r.answer.value.success <==> r.commit.Some?))
    && (r.answer.Some? ==> Names(r.answer.value, r.request, r.commit))
  }

  /** Where a request stands agrees with its ticket, its effects and its answer. */
  predicate PhaseOk(phase: Phase, r: Req)
  {
    match phase
    case Waiting => !r.ticket.Started? && r.execs == 0 && r.commit.None? && r.sends == 0
    case Applied(_) => r.ticket.Started? && r.execs == 1 && r.commit.None? && r.sends == 0
    case Completing(success, applied, flag) =>
      && !r.ticket.Queued? && r.sends == 0
      && (applied <==> r.execs == 1) && (success <==> r.commit.Some?) && (flag ==> applied)
    case Emptied => r.ticket.Started? && r.sends == 1 && r.execs == 1 && r.request.LeaveRoom?
  }

  /** The whole story of an item. A finished request was answered exactly once if its
      ticket had started, and never if it was cancelled first. */
  predicate ItemOk(t: Item)
  {
    match t
    case Work(_, r, phase) => ReqOk(r) && PhaseOk(phase, r) && !r.request.CreateRoom?
    case Past(r, threw) =>
      && ReqOk(r) && !r.ticket.Queued?
      && (r.ticket.Started? && !threw ==> r.sends == 1)
    case _ => true
  }

  ghost predicate AllOk(items: Items)
  {
    forall n :: n in items ==> ItemOk(items[n])
  }

  // ---------------------------------------------------------------- bookkeeping

  ghost predicate Located(items: Items, refs: set<Ref>, strandOf: map<Ref, nat>, closing: map<RoomId, Ref>, next: nat)
  {
    && (forall n :: n in items ==> n < next && (items[n].Past? || items[n].room in refs))
    && (forall r :: r in refs ==> r < next && r in strandOf)
    && (forall i :: i in closing ==> closing[i] in refs)
  }

  /** No leaked tickets: the registry's active keys are exactly those of the live
      requests. */
  ghost predicate Tracked(active: map<Key, nat>, items: Items)
  {
    && (forall k :: k in active ==> active[k] in items && Live(items[active[k]]) && items[active[k]].req.key == k)
    && (forall n :: n in items && Live(items[n]) ==> items[n].req.key in active && active[items[n].req.key] == n)
  }

  /** Only the head of a strand has begun. */
  ghost predicate Serial(items: Items, strandOf: map<Ref, nat>)
  {
    forall n, m :: n in items && m in items && Begun(items[n]) && SameStrand(strandOf, items[m], items[n]) ==> n <= m
  }

  // ---------------------------------------------------------------- rooms

  /** Every registered room is filed under its own number and open, and every user
      mapping leads to a registered room. */
  ghost predicate Managed(mgr: Manager<Ref>, rooms: RoomMap)
  {
    && (forall i :: i in mgr.rooms ==>
          mgr.rooms[i] in rooms && rooms[mgr.rooms[i]].id == i && rooms[mgr.rooms[i]].lifecycle.Open?)
    && (forall u :: u in mgr.userRooms ==> mgr.userRooms[u] in mgr.rooms)
    && (mgr.stopping ==> mgr.rooms == map[])
  }

  /** What a begun task has done to its room still stands. */
  predicate StandingTask(room: Room, t: Item)
    requires t.Work?
  {
    && (t.req.request.JoinRoom? ==> room.id == t.req.request.room)
    && (t.phase.Emptied? ==> room.lifecycle.Open? && room.users == map[])
    && (Unheard(t) ==>
          && room.lifecycle.Open?
          && (t.req.request.JoinRoom? ==>
                t.req.request.uid in room.users && room.users[t.req.request.uid] == t.req.key.route)
          && (t.req.request.LeaveRoom? ==>
                t.req.request.uid !in room.users && (UnheardFlag(t) ==> room.users == map[])))
  }

  ghost predicate Standing(items: Items, rooms: RoomMap)
  {
    forall n :: n in items && items[n].Work? && items[n].room in rooms ==>
      StandingTask(rooms[items[n].room], items[n])
  }

  ghost predicate Settling(items: Items, r: Ref)
  {
    exists n :: n in items && Unheard(items[n]) && items[n].room == r
  }

  /** Users according to contents, once `t` has been heard. */
  function MembersOnceHeard(room: Room, t: Item): set<Uid>
    requires Unheard(t)
  {
    if t.req.request.LeaveRoom? then Members(room.owner, room.log) - {t.req.request.uid}
    else if UnheardFlag(t) then Members(room.owner, room.log) + {t.req.request.uid}
    else Members(room.owner, room.log)
  }

  /** Who must be in the room while `t` is at the head of its strand. */
  function MembersWith(room: Room, t: Item): set<Uid>
  {
    if Unheard(t) then MembersOnceHeard(room, t) else Members(room.owner, room.log)
  }

  /** The contents log says who is in the room, up to the one task whose
      notification is still to come. */
  ghost predicate Narrated(items: Items, rooms: RoomMap)
  {
    && (forall r :: r in rooms && !Settling(items, r) ==>
          rooms[r].users.Keys == Members(rooms[r].owner, rooms[r].log))
    && (forall n :: n in items && Unheard(items[n]) && items[n].room in rooms ==>
          rooms[items[n].room].users.Keys == MembersOnceHeard(rooms[items[n].room], items[n]))
  }

  /** A room is destroyed at most once, and last. */
  predicate EndsOnce(room: Room)
  {
    && !room.lifecycle.Closing?
    && (room.lifecycle.Closed? ==> room.log != [] && room.log[|room.log| - 1].Destroyed?)
    && (forall i :: 0 <= i < |room.log| && room.log[i].Destroyed? ==> room.lifecycle.Closed? && i == |room.log| - 1)
  }

  /** Without shutdown a room is closed only when it is empty. */
  predicate EndsWell(room: Room, stopping: bool)
  {
    EndsOnce(room) && (room.lifecycle.Closed? && !stopping ==> room.users == map[])
  }

  ghost predicate Ended(rooms: RoomMap, stopping: bool)
  {
    forall r :: r in rooms ==> EndsWell(rooms[r], stopping)
  }

  /** Things that only a stopping manager brings about. */
  ghost predicate OnlyStopping(items: Items, closing: map<RoomId, Ref>, fault: bool, stopping: bool)
  {
    stopping || (closing == map[] && !fault && forall n :: n in items ==> !items[n].Close? && !(items[n].Past? && items[n].threw))
  }

  ghost predicate FirstOfRoom(items: Items, n: nat)
    requires n in items && !items[n].Past?
  {
    forall m :: m in items && !items[m].Past? && items[m].room == items[n].room ==> n <= m
  }

  /** The creation notice is the first task of its room. */
  ghost predicate Announced(items: Items, rooms: RoomMap)
  {
    forall n :: n in items && items[n].Notice? && items[n].room in rooms ==>
      rooms[items[n].room].lifecycle.Open? && FirstOfRoom(items, n)
  }

  // ---------------------------------------------------------------- together

  ghost predicate Books(p: Setup, s: State)
  {
    && Located(s.items, s.rooms.Keys, s.strandOf, s.closing, s.next)
    && Valid(p.cfg, s.reg)
    && Tracked(s.reg.active, s.items)
    && Serial(s.items, s.strandOf)
    && AllOk(s.items)
  }

  ghost predicate World(s: State)
  {
    && Managed(s.mgr, s.rooms)
    && Standing(s.items, s.rooms)
    && Narrated(s.items, s.rooms)
    && Ended(s.rooms, s.mgr.stopping)
    && OnlyStopping(s.items, s.closing, s.fault, s.mgr.stopping)
    && Announced(s.items, s.rooms)
  }

  ghost predicate Inv(p: Setup, s: State)
  {
    Books(p, s) && World(s)
  }

  // ---------------------------------------------------------------- one change at a time

  /** The two maps differ at most at `n`. */
  ghost predicate SameElse(items: Items, items': Items, n: nat)
  {
    forall m :: m != n ==> (m in items <==> m in items') && (m in items ==> items[m] == items'[m])
  }

  lemma LocatedUpdate(items: Items, items': Items, refs: set<Ref>, strandOf: map<Ref, nat>, closing: map<RoomId, Ref>,
                      next: nat, next': nat, n: nat)
    requires Located(items, refs, strandOf, closing, next) && SameElse(items, items', n) && next <= next'
    requires n in items' ==> n < next' && (items'[n].Past? || items'[n].room in refs)
    ensures Located(items', refs, strandOf, closing, next')
  {
  }

  lemma TrackedAdd(active: map<Key, nat>, items: Items, n: nat, t: Item)
    requires Tracked(active, items) && n !in items && Live(t) && t.req.key !in active
    ensures Tracked(active[t.req.key := n], items[n := t])
  {
  }

  /** A change that does not concern a live request, or leaves it live. */
  lemma TrackedUpdate(active: map<Key, nat>, items: Items, items': Items, n: nat)
    requires Tracked(active, items) && SameElse(items, items', n)
    requires IsLive(items, n) <==> IsLive(items', n)
    requires IsLive(items, n) ==> items[n].req.key == items'[n].req.key
    ensures Tracked(active, items')
  {
  }

  lemma TrackedDone(active: map<Key, nat>, items: Items, items': Items, n: nat)
    requires Tracked(active, items) && SameElse(items, items', n)
    requires IsLive(items, n) && !IsLive(items', n)
    ensures Tracked(active - {items[n].req.key}, items')
  {
  }

  lemma SerialUpdate(items: Items, items': Items, strandOf: map<Ref, nat>, n: nat)
    requires Serial(items, strandOf) && SameElse(items, items', n)
    requires n in items' && n in items && !items'[n].Past? ==>
      && !items[n].Past? && items'[n].room == items[n].room
      && (Begun(items'[n]) ==> Begun(items[n]) || IsHead(items, strandOf, n))
    requires n in items' && n !in items ==> !Begun(items'[n]) && forall m :: m in items ==> m < n
    ensures Serial(items', strandOf)
  {
    forall k, m | k in items' && m in items' && Begun(items'[k]) && SameStrand(strandOf, items'[m], items'[k]) ensures k <= m {
      assert k in items && m in items ==> SameStrand(strandOf, items[m], items[k]);
    }
  }

  lemma AllOkUpdate(items: Items, items': Items, n: nat)
    requires AllOk(items) && SameElse(items, items', n) && (n in items' ==> ItemOk(items'[n]))
    ensures AllOk(items')
  {
  }

  /** While the head of a strand runs, no other task of its room has begun. */
  lemma HeadAlone(items: Items, strandOf: map<Ref, nat>, n: nat)
    requires Serial(items, strandOf) && IsHead(items, strandOf, n) && items[n].room in strandOf
    ensures forall m :: m in items && m != n && Begun(items[m]) ==> items[m].room != items[n].room
  {
    forall m | m in items && m != n && Begun(items[m]) ensures items[m].room != items[n].room {
      assert items[m].room == items[n].room ==>
        SameStrand(strandOf, items[m], items[n]) && SameStrand(strandOf, items[n], items[m]);
    }
  }

  lemma ManagedRoom(mgr: Manager<Ref>, rooms: RoomMap, ref: Ref, room: Room)
    requires Managed(mgr, rooms) && ref in rooms && room.id == rooms[ref].id
    requires room.lifecycle == rooms[ref].lifecycle || !Registered(mgr, room.id, ref)
    ensures Managed(mgr, rooms[ref := room])
  {
  }

  lemma ManagedIndex(mgr: Manager<Ref>, rooms: RoomMap, request: Request, id: RoomId, ref: Ref)
    requires Managed(mgr, rooms)
    ensures Managed(Indexed(mgr, request, id, ref), rooms)
    ensures Indexed(mgr, request, id, ref).stopping == mgr.stopping
  {
  }

  lemma ManagedRemove(mgr: Manager<Ref>, rooms: RoomMap, ref: Ref)
    requires Managed(mgr, rooms) && ref in rooms
    ensures Managed(Removed(mgr, rooms[ref].id, ref), rooms)
    ensures !Registered(Removed(mgr, rooms[ref].id, ref), rooms[ref].id, ref)
    ensures Removed(mgr, rooms[ref].id, ref).stopping == mgr.stopping
  {
  }

  /** `ref` changes to `room` under a task of its own at the head of the strand. */
  lemma StandingUpdate(items: Items, items': Items, rooms: RoomMap, n: nat, ref: Ref, room: Room)
    requires Standing(items, rooms) && SameElse(items, items', n)
    requires ref in rooms && room.id == rooms[ref].id
    requires room == rooms[ref] || forall m :: m in items && m != n && Begun(items[m]) ==> items[m].room != ref
    requires n in items' && items'[n].Work? ==> items'[n].room == ref && StandingTask(room, items'[n])
    ensures Standing(items', rooms[ref := room])
  {
  }

  lemma NotSettling(items: Items, items': Items, n: nat, r: Ref)
    requires SameElse(items, items', n) && !Settling(items', r)
    requires n in items && Unheard(items[n]) ==> items[n].room != r
    ensures !Settling(items, r)
  {
    forall m | m in items && Unheard(items[m]) ensures items[m].room != r {
      assert m != n ==> m in items' && items'[m] == items[m];
    }
  }

  lemma NarratedUpdate(items: Items, items': Items, rooms: RoomMap, n: nat, ref: Ref, room: Room)
    requires Narrated(items, rooms) && SameElse(items, items', n) && ref in rooms
    requires n in items && Unheard(items[n]) ==> items[n].room == ref
    requires n in items' && Unheard(items'[n]) ==>
      items'[n].room == ref && room.users.Keys == MembersOnceHeard(room, items'[n])
    requires forall m :: m in items && m != n && Begun(items[m]) ==> items[m].room != ref
    requires !(n in items' && Unheard(items'[n])) ==> room.users.Keys == Members(room.owner, room.log)
    ensures Narrated(items', rooms[ref := room])
  {
    var rooms' := rooms[ref := room];
    forall r | r in rooms' && !Settling(items', r)
      ensures rooms'[r].users.Keys == Members(rooms'[r].owner, rooms'[r].log)
    {
      if r != ref {
        NotSettling(items, items', n, r);
      }
    }
    forall m | m in items' && Unheard(items'[m]) && items'[m].room in rooms'
      ensures rooms'[items'[m].room].users.Keys == MembersOnceHeard(rooms'[items'[m].room], items'[m])
    {
      assert m != n ==> m in items && Begun(items[m]);
    }
  }

  /** Adding, dropping or replacing an item that has changed nothing. */
  lemma NarratedQuiet(items: Items, items': Items, rooms: RoomMap, n: nat)
    requires Narrated(items, rooms) && SameElse(items, items', n)
    requires n in items ==> !Unheard(items[n])
    requires n in items' ==> !Unheard(items'[n])
    ensures Narrated(items', rooms)
  {
    forall r | r in rooms && !Settling(items', r) ensures rooms[r].users.Keys == Members(rooms[r].owner, rooms[r].log) {
      NotSettling(items, items', n, r);
    }
  }

  lemma EndedUpdate(rooms: RoomMap, stopping: bool, ref: Ref, room: Room)
    requires Ended(rooms, stopping) && EndsWell(room, stopping)
    ensures Ended(rooms[ref := room], stopping)
  {
  }

  lemma EndsOnceTold(room: Room, e: Event)
    requires EndsOnce(room) && room.lifecycle.Open? && !e.Destroyed?
    ensures EndsOnce(Told(room, e))
  {
  }

  lemma EndsOnceShut(room: Room)
    requires EndsOnce(room)
    ensures EndsOnce(Shut(room)) && Shut(room).lifecycle.Closed?
  {
  }

  lemma OnlyStoppingUpdate(items: Items, items': Items, closing: map<RoomId, Ref>, fault: bool, fault': bool, stopping: bool, n: nat)
    requires OnlyStopping(items, closing, fault, stopping) && SameElse(items, items', n)
    requires stopping || ((fault' ==> fault) && (n in items' ==> !items'[n].Close? && !(items'[n].Past? && items'[n].threw)))
    ensures OnlyStopping(items', closing, fault', stopping)
  {
  }

  lemma AnnouncedUpdate(items: Items, items': Items, rooms: RoomMap, n: nat, ref: Ref, room: Room)
    requires Announced(items, rooms) && SameElse(items, items', n) && ref in rooms
    requires n in items' ==> !items'[n].Notice?
    requires n in items' && n in items && !items'[n].Past? ==> !items[n].Past? && items'[n].room == items[n].room
    requires n !in items ==> forall m :: m in items ==> m < n
    requires forall m :: m in items && items[m].Notice? ==> items[m].room in rooms
    requires room.lifecycle.Open? || room == rooms[ref]
      || forall m :: m in items && m != n && items[m].Notice? ==> items[m].room != ref
    ensures Announced(items', rooms[ref := room])
  {
    var rooms' := rooms[ref := room];
    forall k | k in items' && items'[k].Notice? && items'[k].room in rooms'
      ensures rooms'[items'[k].room].lifecycle.Open? && FirstOfRoom(items', k)
    {
      assert k != n && k in items && FirstOfRoom(items, k);
      forall m | m in items' && !items'[m].Past? && items'[m].room == items'[k].room ensures k <= m {
        assert m in items ==> !items[m].Past? && items[m].room == items[k].room;
      }
    }
  }

  /** A creation notice of the room at the head of its strand is the head itself. */
  lemma NoNoticeBehind(items: Items, rooms: RoomMap, strandOf: map<Ref, nat>, n: nat)
    requires Announced(items, rooms) && IsHead(items, strandOf, n) && items[n].room in rooms && items[n].room in strandOf
    ensures forall m :: m in items && m != n && items[m].Notice? ==> items[m].room != items[n].room
  {
    forall m | m in items && m != n && items[m].Notice? ensures items[m].room != items[n].room {
      assert items[m].room == items[n].room ==> SameStrand(strandOf, items[m], items[n]);
    }
  }
}
