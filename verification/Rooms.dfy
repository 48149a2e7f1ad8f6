/** Rooms and the manager's two indexes, one operation at a time. The contents
    plug-in is the log of the notifications it received. */
module Rooms {
  import opened Basics

  type Uid = string
  type Route = string
  type RoomId = nat

  datatype Lifecycle = Open | Closing | Closed

  datatype Event = Created | Entered(uid: Uid) | Exited(uid: Uid) | Kicked(uid: Uid) | Destroyed

  datatype Room = Room(id: RoomId, owner: Uid, users: map<Uid, Route>, lifecycle: Lifecycle, log: seq<Event>)

  /** Who is in the room according to what the contents plug-in was told. */
  function Members(owner: Uid, log: seq<Event>): set<Uid>
  {
    if log == [] then {owner} else MembersAfter(Members(owner, log[..|log| - 1]), log[|log| - 1])
  }

  function MembersAfter(members: set<Uid>, e: Event): set<Uid>
  {
    match e
    case Entered(uid) => members + {uid}
    case Exited(uid) => members - {uid}
    case Kicked(uid) => members - {uid}
    case _ => members
  }

  function NewRoom(id: RoomId, owner: Uid, route: Route): Room
  {
    Room(id, owner, map[owner := route], Open, [])
  }

  function Told(r: Room, e: Event): Room
  {
    r.(log := r.log + [e])
  }

  /** The membership part of a join task: a member's route is refreshed. */
  function Enter(r: Room, uid: Uid, route: Route): Room
  {
    r.(users := r.users[uid := route])
  }

  function Exit(r: Room, uid: Uid): Room
  {
    r.(users := r.users - {uid})
  }

  /** `close_impl`: only an open room is closed, and contents hear of it once. */
  function Shut(r: Room): Room
  {
    if r.lifecycle.Open? then Told(r, Destroyed).(lifecycle := Closed) else r
  }

  /** Kicking notifies contents without checking the lifecycle: undefined for a
      member of a room whose contents are gone. */
  predicate KickFaults(r: Room, uid: Uid)
  {
    uid in r.users && !r.lifecycle.Open?
  }

  function KickOut(r: Room, uid: Uid): Room
  {
    if uid in r.users then Exit(Told(r, Kicked(uid)), uid) else r
  }

  lemma MembersTold(owner: Uid, log: seq<Event>, e: Event)
    ensures Members(owner, log + [e]) == MembersAfter(Members(owner, log), e)
  {
    assert (log + [e])[..|log + [e]| - 1] == log;
  }

  // ---------------------------------------------------------------- manager

  /** `T` identifies a room instance. */
  datatype Manager<T> = Manager(rooms: map<RoomId, T>, userRooms: map<Uid, RoomId>, stopping: bool)

  function FindRoom<T>(m: Manager<T>, id: RoomId): Option<T>
  {
    if id in m.rooms then Some(m.rooms[id]) else None
  }

  function FindRoomOf<T>(m: Manager<T>, uid: Uid): Option<T>
  {
    if uid in m.userRooms then FindRoom(m, m.userRooms[uid]) else None
  }

  predicate Registered<T(==)>(m: Manager<T>, id: RoomId, instance: T)
  {
    id in m.rooms && m.rooms[id] == instance
  }

  function Added<T>(m: Manager<T>, id: RoomId, instance: T, uid: Uid): Manager<T>
  {
    m.(rooms := m.rooms[id := instance], userRooms := m.userRooms[uid := id])
  }

  function Joined<T(==)>(m: Manager<T>, uid: Uid, id: RoomId, instance: T): Manager<T>
  {
    if Registered(m, id, instance) then m.(userRooms := m.userRooms[uid := id]) else m
  }

  predicate MayLeave<T(==)>(m: Manager<T>, uid: Uid, id: RoomId, instance: T)
  {
    uid in m.userRooms && m.userRooms[uid] == id && Registered(m, id, instance)
  }

  function Left<T(==)>(m: Manager<T>, uid: Uid, id: RoomId, instance: T): Manager<T>
  {
    if MayLeave(m, uid, id, instance) then m.(userRooms := m.userRooms - {uid}) else m
  }

  function Without(userRooms: map<Uid, RoomId>, id: RoomId): map<Uid, RoomId>
  {
    map u | u in userRooms && userRooms[u] != id :: userRooms[u]
  }

  function Removed<T(==)>(m: Manager<T>, id: RoomId, instance: T): Manager<T>
  {
    if Registered(m, id, instance) then m.(rooms := m.rooms - {id}, userRooms := Without(m.userRooms, id)) else m
  }

  function Stopped<T>(m: Manager<T>): Manager<T>
  {
    Manager(map[], map[], true)
  }

  // ---------------------------------------------------------------- objects

  class RoomObject {
    const id: RoomId
    const owner: Uid
    var users: map<Uid, Route>
    var lifecycle: Lifecycle
    var hasContents: bool
    var log: seq<Event>

    ghost function Value(): Room
      reads this
    {
      Room(id, owner, users, lifecycle, log)
    }

    ghost predicate Valid()
      reads this
    {
      hasContents <==> lifecycle.Open?
    }

    constructor (id: RoomId, owner: Uid, route: Route)
      ensures Valid() && Value() == NewRoom(id, owner, route)
    {
      this.id := id;
      this.owner := owner;
      users := map[owner := route];
      lifecycle := Open;
      hasContents := true;
      log := [];
    }

    /** A join task after its ticket has started: the insertion, or the refusal of
        a room that is no longer open. */
    method ApplyJoin(uid: Uid, route: Route) returns (joined: bool, inserted: bool)
      requires Valid()
      modifies this`users
      ensures Valid()
      ensures joined <==> lifecycle.Open?
      ensures inserted <==> joined && uid !in old(users)
      ensures Value() == if joined then Enter(old(Value()), uid, route) else old(Value())
    {
      if lifecycle != Open {
        return false, false;
      }
      inserted := uid !in users;
      if inserted {
        users := users[uid := ""];
      }
      users := users[uid := route];
      joined := true;
    }

    method ApplyLeave(uid: Uid) returns (left: bool, empty: bool)
      requires Valid()
      modifies this`users
      ensures Valid()
      ensures left <==> lifecycle.Open? && uid in old(users)
      ensures empty <==> left && users == map[]
      ensures Value() == if left then Exit(old(Value()), uid) else old(Value())
    {
      if lifecycle != Open || uid !in users {
        return false, false;
      }
      users := users - {uid};
      return true, users == map[];
    }

    method NotifyContents(e: Event)
      requires Valid() && hasContents
      modifies this`log
      ensures Valid() && Value() == Told(old(Value()), e)
    {
      log := log + [e];
    }

    method CloseImpl()
      requires Valid()
      modifies this`lifecycle, this`log, this`hasContents
      ensures Valid() && Value() == Shut(old(Value()))
      ensures !lifecycle.Open?
    {
      if lifecycle != Open {
        return;
      }
      lifecycle := Closing;
      if hasContents {
        log := log + [Destroyed];
        hasContents := false;
      }
      lifecycle := Closed;
    }

    /** A member of a closed room is told, and then released contents are used; the
        fault is reported and nothing else is said of what follows it. */
    method KickOutImpl(uid: Uid) returns (notified: Option<Route>, fault: bool)
      requires Valid()
      modifies this`users, this`log
      ensures Valid() && (fault <==> KickFaults(old(Value()), uid))
      ensures Value() == if fault then old(Value()) else KickOut(old(Value()), uid)
      ensures notified == if uid in old(users) then Some(old(users)[uid]) else None
    {
      fault := false;
      if uid !in users {
        return None, false;
      }
      notified := Some(users[uid]);
      if !hasContents {
        return notified, true;
      }
      NotifyContents(Kicked(uid));
      users := users - {uid};
    }
  }

  class RoomManager {
    var rooms: map<RoomId, RoomObject>
    var userRooms: map<Uid, RoomId>
    var stopping: bool

    ghost function Value(): Manager<RoomObject>
      reads this
    {
      Manager(rooms, userRooms, stopping)
    }

    /** Registered rooms are filed under their own id and are open; every user
        mapping leads to a registered room. */
    ghost predicate Valid()
      reads this, rooms.Values
    {
      && (forall i :: i in rooms ==> rooms[i].id == i && rooms[i].Valid() && rooms[i].lifecycle.Open?)
      && (forall u :: u in userRooms ==> userRooms[u] in rooms)
    }

    constructor ()
      ensures Valid() && Value() == Manager(map[], map[], false)
    {
      rooms := map[];
      userRooms := map[];
      stopping := false;
    }

    /** The room number is drawn at random; `None` is the logic error of a manager
        that is shutting down. */
    method CreateRoom(uid: Uid, route: Route, drawn: RoomId) returns (r: Option<RoomObject>)
      requires Valid()
      modifies this
      ensures Valid()
      ensures r.None? <==> old(stopping)
      ensures r.None? ==> Value() == old(Value())
      ensures r.Some? ==> fresh(r.value) && r.value.Value() == NewRoom(drawn, uid, route)
      ensures r.Some? ==> Value() == Added(old(Value()), drawn, r.value, uid)
    {
      if stopping {
        return None;
      }
      var created := new RoomObject(drawn, uid, route);
      rooms := rooms[drawn := created];
      userRooms := userRooms[uid := drawn];
      r := Some(created);
    }

    method JoinedRoom(uid: Uid, instance: RoomObject) returns (ok: bool)
      requires Valid()
      modifies this
      ensures Valid()
      ensures ok == Registered(old(Value()), instance.id, instance)
      ensures Value() == Joined(old(Value()), uid, instance.id, instance)
    {
      if instance.id !in rooms || rooms[instance.id] != instance {
        return false;
      }
      userRooms := userRooms[uid := instance.id];
      ok := true;
    }

    method LeftRoom(uid: Uid, instance: RoomObject) returns (ok: bool)
      requires Valid()
      modifies this
      ensures Valid()
      ensures ok == MayLeave(old(Value()), uid, instance.id, instance)
      ensures Value() == Left(old(Value()), uid, instance.id, instance)
    {
      if uid !in userRooms || userRooms[uid] != instance.id
         || instance.id !in rooms || rooms[instance.id] != instance {
        return false;
      }
      userRooms := userRooms - {uid};
      ok := true;
    }

    /** Unregisters an instance with every mapping to it, then closes it. */
    method CloseRoom(instance: RoomObject)
      requires Valid() && instance.Valid()
      modifies this, instance
      ensures Valid() && instance.Valid()
      ensures Value() == Removed(old(Value()), instance.id, instance)
      ensures instance.Value() == if old(Registered(Value(), instance.id, instance))
                                  then Shut(old(instance.Value())) else old(instance.Value())
    {
      if instance.id !in rooms || rooms[instance.id] != instance {
        return;
      }
      rooms := rooms - {instance.id};
      ForgetUsers(instance.id);
      instance.CloseImpl();
    }

    /** Erases every mapping to room `id`. */
    method ForgetUsers(id: RoomId)
      modifies this`userRooms
      ensures userRooms == Without(old(userRooms), id)
    {
      var unseen := userRooms.Keys;
      while unseen != {}
        invariant unseen <= userRooms.Keys <= old(userRooms).Keys
        invariant forall u :: u in userRooms ==> userRooms[u] == old(userRooms)[u]
        invariant forall u :: u in old(userRooms) && u !in unseen ==> (u in userRooms <==> old(userRooms)[u] != id)
        decreases |unseen|
      {
        var u :| u in unseen;
        unseen := unseen - {u};
        if userRooms[u] == id {
          userRooms := userRooms - {u};
        }
      }
    }

    /** Shutdown's locked part: everything is unregistered and handed back for
        closing. */
    method Stop() returns (toClose: set<RoomObject>)
      requires Valid()
      modifies this
      ensures Valid() && Value() == Stopped(old(Value()))
      ensures toClose == old(rooms).Values
    {
      stopping := true;
      toClose := rooms.Values;
      rooms := map[];
      userRooms := map[];
    }
  }
}
