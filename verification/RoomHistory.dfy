/** What the labels of a run say about the requests of the Room server: which message
    brought each one, which cancels reached it in time, which manager decision it met,
    and which state its success was true of. */
module RoomHistory {
  import opened Basics
  import opened QueuedRequests
  import opened Rooms
  import opened RoomServer
  import opened RoomInvariants
  import opened RoomChannel
  import opened RoomTheorems

  // ---------------------------------------------------------------- rooms for requests

  /** There is no room for a join or a leave: none with the number asked for, or none
      that the user is known to be in. */
  predicate NoRoomFor(mgr: Manager<Ref>, request: Request)
  {
    match request
    case CreateRoom(_) => false
    case JoinRoom(_, room) => room !in mgr.rooms
    case LeaveRoom(uid) => uid !in mgr.userRooms || mgr.userRooms[uid] !in mgr.rooms
  }

  /** The room there is for it. */
  function RoomFor(mgr: Manager<Ref>, request: Request): Ref
    requires !request.CreateRoom? && !NoRoomFor(mgr, request)
  {
    mgr.rooms[if request.JoinRoom? then request.room else mgr.userRooms[request.uid]]
  }

  /** An open room takes every join, and the leave of a member. */
  predicate Takes(room: Room, request: Request)
  {
    room.lifecycle.Open? && (request.LeaveRoom? ==> request.uid in room.users)
  }

  lemma TargetIs(mgr: Manager<Ref>, request: Request)
    requires !request.CreateRoom?
    ensures Target(mgr, request) == if NoRoomFor(mgr, request) then None else Some(RoomFor(mgr, request))
  {
  }

  // ---------------------------------------------------------------- where requests come from

  /** A request as it first appears: a create is over at once, answered unless the
      manager is stopping; another waits on a strand, or is over and answered. */
  predicate Newborn(t: Item, key: Key, request: Request, stopping: bool)
  {
    && IsRequest(t) && ReqOf(t).key == key && ReqOf(t).request == request
    && (if request.CreateRoom? then
          && t.Past? && ReqOf(t).ticket.Started?
          && ReqOf(t).sends == (if stopping then 0 else 1) && ReqOf(t).execs == (if stopping then 0 else 1)
          && (ReqOf(t).commit.Some? <==> !stopping)
        else
          || t == Work(if t.Work? then t.room else 0, NewReq(key, request, Queued), Waiting)
          || (t.Past? && !t.threw && ReqOf(t).ticket.Started? && ReqOf(t).sends == 1
              && ReqOf(t).execs == 0 && ReqOf(t).commit.None?))
  }

  /** Number `n` holds a request that was not there before. */
  predicate Appears(items: Items, items': Items, n: nat)
  {
    n in items' && IsRequest(items'[n]) && !(n in items && IsRequest(items[n]))
  }

  lemma MissingAppears(s: State, key: Key, request: Request, reg': Registry<nat>, n: nat)
    requires Appears(s.items, AnswerMissing(s, key, request, reg').items, n) && !request.CreateRoom?
    ensures n == s.next
    ensures Newborn(AnswerMissing(s, key, request, reg').items[n], key, request, s.mgr.stopping)
  {
  }

  lemma ThrowAppears(s: State, key: Key, request: Request, reg': Registry<nat>, n: nat)
    requires Appears(s.items, CreateThrows(s, key, request, reg').items, n) && request.CreateRoom? && s.mgr.stopping
    ensures n == s.next
    ensures Newborn(CreateThrows(s, key, request, reg').items[n], key, request, s.mgr.stopping)
  {
  }

  lemma PostAppears(s: State, key: Key, request: Request, room: Ref, reg': Registry<nat>, n: nat)
    requires Appears(s.items, PostWork(s, key, request, room, reg').items, n) && !request.CreateRoom?
    ensures n == s.next
    ensures Newborn(PostWork(s, key, request, room, reg').items[n], key, request, s.mgr.stopping)
  {
  }

  lemma CreateAppears(p: Setup, s: State, key: Key, uid: Uid, drawn: RoomId, reg': Registry<nat>, n: nat)
    requires p.strands > 0 && Appears(s.items, Create(p, s, key, uid, drawn, reg').items, n)
    ensures n == s.next + 1
    ensures Newborn(Create(p, s, key, uid, drawn, reg').items[n], key, CreateRoom(uid), false)
  {
  }

  lemma HandleAppears(p: Setup, s: State, key: Key, request: Request, drawn: RoomId,
                      admitted: Registry<nat>, finished: Registry<nat>, n: nat)
    requires p.strands > 0 && Appears(s.items, Handle(p, s, key, request, drawn, admitted, finished).items, n)
    ensures n == TicketNumber(s, request)
    ensures Newborn(Handle(p, s, key, request, drawn, admitted, finished).items[n], key, request, s.mgr.stopping)
  {
    if request.CreateRoom? {
      if s.mgr.stopping {
        ThrowAppears(s, key, request, finished, n);
      } else {
        CreateAppears(p, s, key, request.uid, drawn, finished, n);
      }
    } else {
      match Target(s.mgr, request) {
        case None => MissingAppears(s, key, request, finished, n);
        case Some(room) => PostAppears(s, key, request, room, admitted, n);
      }
    }
  }

  lemma AskAppears(p: Setup, s: State, key: Key, request: Request, now: nat, done: nat, drawn: RoomId, n: nat)
    requires p.strands > 0 && Appears(s.items, ReceiveAsk(p, s, key, request, now, done, drawn).items, n)
    ensures n == TicketNumber(s, request)
    ensures Newborn(ReceiveAsk(p, s, key, request, now, done, drawn).items[n], key, request, s.mgr.stopping)
  {
    var t := TicketNumber(s, request);
    var admitted := AfterAdmit(p.cfg, s.reg, key, now, t);
    if Admissible(p.cfg, s.reg, key, now) {
      HandleAppears(p, s, key, request, drawn, admitted, AfterFinish(p.cfg, admitted, key, t, done), n);
    }
  }

  lemma CancelAppears(s: State, key: Key, reg': Registry<nat>, n: nat)
    ensures !Appears(s.items, CancelTicket(s, key, reg').items, n)
  {
  }

  lemma TaskAppears(p: Setup, s: State, k: nat, now: nat, n: nat)
    ensures !Appears(s.items, RunTask(p, s, k, now).items, n)
  {
    if IsHead(s.items, s.strandOf, k) && s.items[k].room in s.rooms {
      HeadAdvances(p, s, k, now);
    }
  }

  function TicketOf(s: State, l: Label): nat
  {
    if l.Receive? && l.message.Ask? then TicketNumber(s, l.message.request) else 0
  }

  lemma RoomAppears(p: Setup, s: State, l: Label, n: nat)
    requires p.strands > 0 && Appears(s.items, Next(p, s, l).items, n)
    ensures l.Receive? && l.message.Ask? && n == TicketOf(s, l)
    ensures Newborn(Next(p, s, l).items[n], Key(l.route, l.message.id), l.message.request, s.mgr.stopping)
  {
    match l {
      case Receive(route, Ask(id, request), now, done, drawn) =>
        AskAppears(p, s, Key(route, id), request, now, done, drawn, n);
      case Receive(route, CancelAsk(id), now, _, _) =>
        CancelAppears(s, Key(route, id), AfterCancel(p.cfg, s.reg, Key(route, id), now), n);
        assert false;
      case StrandStep(k, now) =>
        TaskAppears(p, s, k, now, n);
        assert false;
      case _ => assert false;
    }
  }

  // ---------------------------------------------------------------- the cancel/start race

  /** A cancel message for `key`. */
  predicate CancelsKey(l: Label, key: Key)
  {
    l.Receive? && l.message.CancelAsk? && Key(l.route, l.message.id) == key
  }

  ghost predicate AnyCancel(labels: seq<Label>, key: Key)
  {
    exists i :: 0 <= i < |labels| && CancelsKey(labels[i], key)
  }

  /** On its strand, not yet begun. */
  predicate Waits(t: Item)
  {
    t.Work? && t.phase.Waiting?
  }

  function TicketAfter(t: TicketState, cancel: bool): TicketState
  {
    if cancel then t.Cancel() else t
  }

  /** A cancel message reaches the ticket of the request with its key, and no other. */
  lemma CancelReaches(s: State, key: Key, reg': Registry<nat>, n: nat)
    requires n in s.items && Waits(s.items[n]) && Tracked(s.reg.active, s.items)
    ensures var items' := CancelTicket(s, key, reg').items;
      && n in items' && Waits(items'[n])
      && items'[n].req.ticket == TicketAfter(s.items[n].req.ticket, s.items[n].req.key == key)
  {
    assert Live(s.items[n]);
  }

  lemma TaskTicket(p: Setup, s: State, k: nat, now: nat, n: nat)
    requires n in s.items && Waits(s.items[n])
    ensures var items' := RunTask(p, s, k, now).items;
      n in items' && (Waits(items'[n]) ==> items'[n] == s.items[n])
  {
    if IsHead(s.items, s.strandOf, k) && s.items[k].room in s.rooms {
      HeadAdvances(p, s, k, now);
    }
  }

  /** While a request waits, its ticket changes exactly when a cancel for it arrives. */
  lemma WaitingTicket(p: Setup, s: State, l: Label, n: nat)
    requires p.strands > 0 && n in s.items && n < s.next && Waits(s.items[n]) && Tracked(s.reg.active, s.items)
    ensures var items' := Next(p, s, l).items;
      && n in items'
      && (Waits(items'[n]) ==>
            items'[n].req.ticket == TicketAfter(s.items[n].req.ticket, CancelsKey(l, s.items[n].req.key)))
  {
    match l {
      case Receive(route, Ask(id, request), now, done, drawn) =>
        ReceiveEvolves(p, s, Key(route, id), request, now, done, drawn, n);
      case Receive(route, CancelAsk(id), now, _, _) =>
        CancelReaches(s, Key(route, id), AfterCancel(p.cfg, s.reg, Key(route, id), now), n);
      case StrandStep(k, now) => TaskTicket(p, s, k, now, n);
      case _ =>
    }
  }

  lemma {:induction false} WaitingTickets(p: Setup, s: State, mid: seq<Label>, n: nat)
    requires p.strands > 0 && Inv(p, s) && n in s.items && Waits(s.items[n])
    requires n in Run(p, s, mid).items && Waits(Run(p, s, mid).items[n])
    ensures Run(p, s, mid).items[n].req.ticket ==
            TicketAfter(s.items[n].req.ticket, AnyCancel(mid, s.items[n].req.key))
    decreases |mid|
  {
    if mid != [] {
      var s1, key := Next(p, s, mid[0]), s.items[n].req.key;
      WaitingFacts(p, s, mid[0], n);
      RunEvolves(p, s1, mid[1..], n);
      WaitingTickets(p, s1, mid[1..], n);
      AnyCancelSplit(mid, key);
    }
  }

  lemma WaitingFacts(p: Setup, s: State, l: Label, n: nat)
    requires p.strands > 0 && Inv(p, s) && n in s.items && Waits(s.items[n])
    ensures var s1 := Next(p, s, l);
      && Inv(p, s1) && n in s1.items && IsRequest(s1.items[n]) && ReqOf(s1.items[n]).key == s.items[n].req.key
      && (Waits(s1.items[n]) ==>
            s1.items[n].req.ticket == TicketAfter(s.items[n].req.ticket, CancelsKey(l, s.items[n].req.key)))
  {
    NextKeeps(p, s, l);
    WaitingTicket(p, s, l, n);
    assert ItemOk(s.items[n]);
    RequestEvolves(p, s, l, n);
  }

  /** A cancel that finds its request waiting cancels it. */
  lemma CancelTakes(p: Setup, s: State, l: Label, n: nat)
    requires p.strands > 0 && Inv(p, s) && n in s.items && Waits(s.items[n]) && CancelsKey(l, s.items[n].req.key)
    ensures
      var s1 := Next(p, s, l);
      && n in s1.items && IsRequest(s1.items[n])
      && ReqOf(s1.items[n]).ticket.Cancelled? && ReqOf(s1.items[n]).key == s.items[n].req.key
  {
    var key := s.items[n].req.key;
    assert ItemOk(s.items[n]);
    CancelReaches(s, key, AfterCancel(p.cfg, s.reg, key, l.now), n);
    WaitingFacts(p, s, l, n);
  }

  lemma AnyCancelSplit(labels: seq<Label>, key: Key)
    requires labels != []
    ensures AnyCancel(labels, key) <==> CancelsKey(labels[0], key) || AnyCancel(labels[1..], key)
  {
    if i :| 0 <= i < |labels[1..]| && CancelsKey(labels[1..][i], key) {
      assert CancelsKey(labels[i + 1], key);
    }
    if i :| 0 < i < |labels| && CancelsKey(labels[i], key) {
      assert CancelsKey(labels[1..][i - 1], key);
    }
  }

  /** Message `ask`, arriving after `before`, has brought request `n`. */
  ghost predicate Brings(p: Setup, before: seq<Label>, ask: Label, n: nat)
    requires p.strands > 0
  {
    && ask.Receive? && ask.message.Ask?
    && Appears(Run(p, Start(), before).items, Next(p, Run(p, Start(), before), ask).items, n)
  }

  function KeyOf(ask: Label): Key
    requires ask.Receive?
  {
    Key(ask.route, ask.message.id)
  }

  /** What `Brings` and the invariants say of the state in which `n` is new. */
  lemma BroughtFacts(p: Setup, before: seq<Label>, ask: Label, n: nat)
    requires p.strands > 0 && Brings(p, before, ask, n)
    ensures
      var s := Run(p, Start(), before);
      var s1 := Next(p, s, ask);
      && Inv(p, s) && Inv(p, s1) && n in s1.items && Newborn(s1.items[n], KeyOf(ask), ask.message.request, s.mgr.stopping)
  {
    var s := Run(p, Start(), before);
    StartIsSound(p);
    RunKeeps(p, Start(), before);
    NextKeeps(p, s, ask);
    RoomAppears(p, s, ask, n);
  }

  lemma BeginDecides(p: Setup, s: State, n: nat, now: nat)
    requires p.strands > 0 && IsHead(s.items, s.strandOf, n) && Waits(s.items[n])
    requires s.items[n].room in s.rooms && ItemOk(s.items[n])
    ensures
      && n in Next(p, s, StrandStep(n, now)).items
      && var t := Next(p, s, StrandStep(n, now)).items[n];
         t.Work? && (t.req.ticket.Started? <==> s.items[n].req.ticket.Queued?)
  {
  }

  /** The race over labels. A request that still waits after `mid` has a cancelled
      ticket if and only if a cancel with its key arrived since the message that
      brought it, and a queued one otherwise; and when its strand comes to it, it
      starts if and only if none did. */
  lemma RaceIsDecidedAtBegin(p: Setup, before: seq<Label>, ask: Label, mid: seq<Label>, n: nat, now: nat)
    requires p.strands > 0 && Brings(p, before, ask, n)
    requires var s := Run(p, Run(p, Start(), before + [ask]), mid); n in s.items && Waits(s.items[n])
    ensures
      var s := Run(p, Run(p, Start(), before + [ask]), mid);
      && s.items[n].req.key == KeyOf(ask)
      && (s.items[n].req.ticket.Cancelled? <==> AnyCancel(mid, KeyOf(ask)))
      && (s.items[n].req.ticket.Queued? <==> !AnyCancel(mid, KeyOf(ask)))
      && (IsHead(s.items, s.strandOf, n) ==>
            && n in Next(p, s, StrandStep(n, now)).items
            && var t := Next(p, s, StrandStep(n, now)).items[n];
               t.Work? && (t.req.ticket.Started? <==> !AnyCancel(mid, KeyOf(ask))))
  {
    var s1 := Next(p, Run(p, Start(), before), ask);
    var s := Run(p, s1, mid);
    RunSnoc(p, Start(), before, ask);
    BroughtFacts(p, before, ask, n);
    RunKeeps(p, s1, mid);
    RunEvolves(p, s1, mid, n);
    WaitingTickets(p, s1, mid, n);
    if IsHead(s.items, s.strandOf, n) {
      assert s.items[n].room in s.rooms && ItemOk(s.items[n]);
      BeginDecides(p, s, n, now);
    }
  }

  lemma RunSnoc(p: Setup, s: State, labels: seq<Label>, l: Label)
    requires p.strands > 0
    ensures Run(p, s, labels + [l]) == Next(p, Run(p, s, labels), l)
  {
    RunAppend(p, s, labels, [l]);
    assert [l][1..] == [];
  }

  /** Every request was brought by some message of the run. */
  lemma {:induction false} EveryRequestWasBrought(p: Setup, labels: seq<Label>, n: nat) returns (k: nat)
    requires p.strands > 0 && n in Run(p, Start(), labels).items && IsRequest(Run(p, Start(), labels).items[n])
    ensures k < |labels| && Brings(p, labels[..k], labels[k], n)
    decreases |labels|
  {
    if labels == [] {
      assert false;
    } else {
      var m := |labels| - 1;
      var init, s := labels[..m], Run(p, Start(), labels[..m]);
      assert labels == init + [labels[m]];
      RunSnoc(p, Start(), init, labels[m]);
      if n in s.items && IsRequest(s.items[n]) {
        k := EveryRequestWasBrought(p, init, n);
        assert labels[..k] == init[..k];
      } else {
        k := m;
        RoomAppears(p, s, labels[m], n);
      }
    }
  }

  /** Cancelled first: a request that still waited when a cancel with its key had
      arrived is never executed, committed or answered in any continuation, and no
      step of its own touches users, routes, contents logs or the manager's indexes. */
  lemma CancelledFirst(p: Setup, before: seq<Label>, ask: Label, mid: seq<Label>, after: seq<Label>, n: nat, now: nat)
    requires p.strands > 0 && Brings(p, before, ask, n) && AnyCancel(mid, KeyOf(ask))
    requires var s := Run(p, Run(p, Start(), before + [ask]), mid); n in s.items && Waits(s.items[n])
    ensures
      var s := Run(p, Run(p, Run(p, Start(), before + [ask]), mid), after);
      && n in s.items && IsRequest(s.items[n])
      && ReqOf(s.items[n]).ticket.Cancelled? && ReqOf(s.items[n]).execs == 0
      && ReqOf(s.items[n]).commit.None? && ReqOf(s.items[n]).sends == 0
      && Next(p, s, StrandStep(n, now)).rooms == s.rooms
      && Next(p, s, StrandStep(n, now)).mgr == s.mgr
  {
    var s1 := Run(p, Run(p, Start(), before + [ask]), mid);
    var s := Run(p, s1, after);
    StartIsSound(p);
    RunKeeps(p, Start(), before + [ask]);
    RunKeeps(p, Run(p, Start(), before + [ask]), mid);
    RunKeeps(p, s1, after);
    RaceIsDecidedAtBegin(p, before, ask, mid, n, now);
    RunEvolves(p, s1, after, n);
    CancelledItem(p, s, n, now);
  }

  lemma CancelledItem(p: Setup, s: State, n: nat, now: nat)
    requires Inv(p, s) && n in s.items && IsRequest(s.items[n]) && ReqOf(s.items[n]).ticket.Cancelled?
    ensures ReqOf(s.items[n]).execs == 0 && ReqOf(s.items[n]).commit.None? && ReqOf(s.items[n]).sends == 0
    ensures RunTask(p, s, n, now).rooms == s.rooms && RunTask(p, s, n, now).mgr == s.mgr
  {
    assert ItemOk(s.items[n]);
    IdleStep(p, s, n, now);
  }

  /** A step of a request that does not execute it changes no room and no index. */
  lemma IdleStep(p: Setup, s: State, n: nat, now: nat)
    requires n in s.items && IsRequest(s.items[n]) && ItemOk(s.items[n])
    requires n in RunTask(p, s, n, now).items && IsRequest(RunTask(p, s, n, now).items[n]) ==>
               ReqOf(RunTask(p, s, n, now).items[n]).execs == 0
    ensures RunTask(p, s, n, now).rooms == s.rooms && RunTask(p, s, n, now).mgr == s.mgr
  {
    if IsHead(s.items, s.strandOf, n) && s.items[n].room in s.rooms {
      HeadAdvances(p, s, n, now);
      SameRoom(s.rooms, s.items[n].room);
    }
  }

  lemma SameRoom(rooms: RoomMap, r: Ref)
    requires r in rooms
    ensures rooms[r := rooms[r]] == rooms
  {
  }

  /** Answers, exactly. Whatever follows the message that brought it, cancels
      included, a request is answered once when it is over and its ticket has
      started, unless it is a create that met a stopping manager; and never
      otherwise. */
  lemma StartedFirst(p: Setup, before: seq<Label>, ask: Label, after: seq<Label>, n: nat)
    requires p.strands > 0 && Brings(p, before, ask, n)
    ensures
      var stopping := Run(p, Start(), before).mgr.stopping;
      var s := Run(p, Run(p, Start(), before + [ask]), after);
      && n in s.items && IsRequest(s.items[n])
      && var t := s.items[n];
         ReqOf(t).sends ==
           if ReqOf(t).ticket.Started? && Over(t) && !(ask.message.request.CreateRoom? && stopping) then 1 else 0
  {
    var s1 := Next(p, Run(p, Start(), before), ask);
    var s := Run(p, s1, after);
    RunSnoc(p, Start(), before, ask);
    BroughtFacts(p, before, ask, n);
    RunKeeps(p, s1, after);
    RunEvolves(p, s1, after, n);
    AnswersOf(s1.items[n], s.items[n], KeyOf(ask), ask.message.request, Run(p, Start(), before).mgr.stopping);
  }

  lemma AnswersOf(born: Item, t: Item, key: Key, request: Request, stopping: bool)
    requires Newborn(born, key, request, stopping) && Evolves(born, t) && ItemOk(t)
    ensures ReqOf(t).sends == if ReqOf(t).ticket.Started? && Over(t) && !(request.CreateRoom? && stopping) then 1 else 0
  {
  }

  // ---------------------------------------------------------------- what the manager decided, and when

  /** Only its ticket may have changed. */
  predicate UpToTicket(t: Item, t': Item)
  {
    if t.Work? then t'.Work? && t' == t.(req := t.req.(ticket := t'.req.ticket)) else t' == t
  }

  /** Between its own steps a request only hears of cancels. */
  lemma OthersLeaveItAlone(p: Setup, s: State, l: Label, n: nat)
    requires p.strands > 0 && n in s.items && n < s.next && IsRequest(s.items[n]) && ItemOk(s.items[n])
    requires !(l.StrandStep? && l.task == n)
    ensures n in Next(p, s, l).items && UpToTicket(s.items[n], Next(p, s, l).items[n])
  {
    match l {
      case Receive(route, Ask(id, request), now, done, drawn) =>
        ReceiveEvolves(p, s, Key(route, id), request, now, done, drawn, n);
      case Receive(route, CancelAsk(id), now, _, _) =>
        CancelTicketCases(s, Key(route, id), AfterCancel(p.cfg, s.reg, Key(route, id), now));
      case StrandStep(k, now) =>
        if IsHead(s.items, s.strandOf, k) && s.items[k].room in s.rooms {
          HeadAdvances(p, s, k, now);
        }
      case _ =>
    }
  }

  /** The manager's index turns away a membership change that has been made: the room
      is not, or no longer, registered under its number, or the user of a leave is not
      known to be in it. */
  ghost predicate Refuses(s: State, n: nat)
  {
    && IsHead(s.items, s.strandOf, n) && s.items[n].Work? && s.items[n].phase.Applied? && s.items[n].room in s.rooms
    && var id, request := s.rooms[s.items[n].room].id, s.items[n].req.request;
       || id !in s.mgr.rooms || s.mgr.rooms[id] != s.items[n].room
       || (request.LeaveRoom? && (request.uid !in s.mgr.userRooms || s.mgr.userRooms[request.uid] != id))
  }

  /** A request's own step. It commits exactly the state it leaves behind; and it is
      executed without being committed exactly when the manager refuses it. */
  lemma OwnStep(p: Setup, s: State, n: nat, now: nat)
    requires n in s.items && IsRequest(s.items[n]) && ItemOk(s.items[n])
    ensures
      var s' := RunTask(p, s, n, now);
      && n in s'.items && IsRequest(s'.items[n])
      && var r, r' := ReqOf(s.items[n]), ReqOf(s'.items[n]);
         && (r'.commit.Some? && r'.commit != r.commit ==> s'.rooms == r'.commit.value.rooms && s'.mgr == r'.commit.value.mgr)
         && (Decided(s'.items[n]) && !Decided(s.items[n]) ==>
               (r'.execs == 1 && r'.commit.None? <==> Refuses(s, n)))
         && (Refuses(s, n) ==> Decided(s'.items[n]) && r'.execs == 1 && r'.commit.None?)
  {
    if IsHead(s.items, s.strandOf, n) && s.items[n].room in s.rooms {
      HeadAdvances(p, s, n, now);
    }
  }

  /** The state after the first `k` labels is the one that request `n` committed. */
  ghost predicate CommittedAt(p: Setup, labels: seq<Label>, k: nat, c: Commit)
    requires p.strands > 0
  {
    && k <= |labels|
    && Run(p, Start(), labels[..k]).rooms == c.rooms && Run(p, Start(), labels[..k]).mgr == c.mgr
  }

  /** Label `k` is the step in which the manager refuses request `n`. */
  ghost predicate RefusedAt(p: Setup, labels: seq<Label>, k: nat, n: nat)
    requires p.strands > 0
  {
    && k < |labels| && labels[k].StrandStep? && labels[k].task == n
    && Refuses(Run(p, Start(), labels[..k]), n)
  }

  lemma NewCommit(p: Setup, s: State, l: Label, n: nat)
    requires p.strands > 0 && Appears(s.items, Next(p, s, l).items, n)
    requires ReqOf(Next(p, s, l).items[n]).commit.Some?
    ensures
      var c := ReqOf(Next(p, s, l).items[n]).commit.value;
      Next(p, s, l).rooms == c.rooms && Next(p, s, l).mgr == c.mgr
  {
    RoomAppears(p, s, l, n);
    CreateCommits(p, s, l, n);
  }

  lemma CreateCommit(p: Setup, s: State, key: Key, uid: Uid, drawn: RoomId, reg': Registry<nat>, n: nat)
    requires p.strands > 0 && Appears(s.items, Create(p, s, key, uid, drawn, reg').items, n)
    ensures
      var s' := Create(p, s, key, uid, drawn, reg');
      && ReqOf(s'.items[n]).commit.Some?
      && s'.rooms == ReqOf(s'.items[n]).commit.value.rooms && s'.mgr == ReqOf(s'.items[n]).commit.value.mgr
  {
  }

  lemma CreateCommits(p: Setup, s: State, l: Label, n: nat)
    requires p.strands > 0 && l.Receive? && l.message.Ask? && l.message.request.CreateRoom? && !s.mgr.stopping
    requires Appears(s.items, Next(p, s, l).items, n)
    ensures
      && ReqOf(Next(p, s, l).items[n]).commit.Some?
      && var c := ReqOf(Next(p, s, l).items[n]).commit.value;
         Next(p, s, l).rooms == c.rooms && Next(p, s, l).mgr == c.mgr
  {
    var key := Key(l.route, l.message.id);
    var t := TicketNumber(s, l.message.request);
    var admitted := AfterAdmit(p.cfg, s.reg, key, l.now, t);
    if Admissible(p.cfg, s.reg, key, l.now) {
      var reg' := AfterFinish(p.cfg, admitted, key, t, l.done);
      CreateCommit(p, s, key, l.message.request.uid, l.drawn, reg', n);
    }
  }

  /** Executed, but refused by the manager. */
  predicate Uncommitted(t: Item)
  {
    IsRequest(t) && Decided(t) && ReqOf(t).execs == 1 && ReqOf(t).commit.None?
  }

  predicate OwnLabel(l: Label, n: nat)
  {
    l.StrandStep? && l.task == n
  }

  lemma StepDecides(p: Setup, s: State, l: Label, n: nat)
    requires p.strands > 0 && Inv(p, s) && n in s.items && IsRequest(s.items[n])
    ensures
      var s' := Next(p, s, l);
      && n in s'.items && IsRequest(s'.items[n])
      && var r, r' := ReqOf(s.items[n]), ReqOf(s'.items[n]);
         && (r'.commit.Some? && r'.commit != r.commit ==> s'.rooms == r'.commit.value.rooms && s'.mgr == r'.commit.value.mgr)
         && (Uncommitted(s'.items[n]) <==> Uncommitted(s.items[n]) || (OwnLabel(l, n) && Refuses(s, n)))
  {
    assert ItemOk(s.items[n]);
    RequestEvolves(p, s, l, n);
    if OwnLabel(l, n) {
      OwnStep(p, s, n, l.now);
    } else {
      OthersLeaveItAlone(p, s, l, n);
    }
  }

  lemma NewDecides(p: Setup, s: State, l: Label, n: nat)
    requires p.strands > 0 && Appears(s.items, Next(p, s, l).items, n)
    ensures !Uncommitted(Next(p, s, l).items[n]) && !(OwnLabel(l, n) && Refuses(s, n))
  {
    RoomAppears(p, s, l, n);
  }

  /** A commit is a state of the run; and a request was executed without being
      committed exactly if the manager refused it in one of its steps. */
  ghost predicate Explained(p: Setup, labels: seq<Label>, t: Item, n: nat)
    requires p.strands > 0 && IsRequest(t)
  {
    && (ReqOf(t).commit.Some? ==> exists k :: CommittedAt(p, labels, k, ReqOf(t).commit.value))
    && (Uncommitted(t) <==> exists k :: RefusedAt(p, labels, k, n))
  }

  lemma Earlier(p: Setup, labels: seq<Label>, l: Label, n: nat, k: nat)
    requires p.strands > 0 && k <= |labels|
    ensures (labels + [l])[..k] == labels[..k]
    ensures k < |labels| ==> (RefusedAt(p, labels + [l], k, n) <==> RefusedAt(p, labels, k, n))
    ensures k == |labels| ==> (RefusedAt(p, labels + [l], k, n) <==> OwnLabel(l, n) && Refuses(Run(p, Start(), labels), n))
  {
    assert (labels + [l])[..k] == labels[..k];
    if k == |labels| {
      assert labels[..k] == labels;
    }
  }

  lemma ThereLater(p: Setup, before: seq<Label>, after: seq<Label>, n: nat)
    requires p.strands > 0
    requires n in Run(p, Start(), before).items && IsRequest(Run(p, Start(), before).items[n])
    ensures
      var s := Run(p, Run(p, Start(), before), after);
      n in s.items && IsRequest(s.items[n])
  {
    StartIsSound(p);
    RunKeeps(p, Start(), before);
    RunEvolves(p, Run(p, Start(), before), after, n);
  }

  lemma StillThere(p: Setup, labels: seq<Label>, k: nat, n: nat)
    requires p.strands > 0 && k <= |labels|
    requires n in Run(p, Start(), labels[..k]).items && IsRequest(Run(p, Start(), labels[..k]).items[n])
    ensures n in Run(p, Start(), labels).items && IsRequest(Run(p, Start(), labels).items[n])
  {
    ThereLater(p, labels[..k], labels[k..], n);
    RunAppend(p, Start(), labels[..k], labels[k..]);
    assert labels == labels[..k] + labels[k..];
  }

  /** No request is refused before it is there. */
  lemma RefusedNever(p: Setup, labels: seq<Label>, n: nat)
    requires p.strands > 0 && !(n in Run(p, Start(), labels).items && IsRequest(Run(p, Start(), labels).items[n]))
    ensures forall k :: !RefusedAt(p, labels, k, n)
  {
    forall k: nat ensures !RefusedAt(p, labels, k, n) {
      if RefusedAt(p, labels, k, n) {
        StillThere(p, labels, k, n);
      }
    }
  }

  lemma {:induction false} RunTells(p: Setup, labels: seq<Label>, n: nat)
    requires p.strands > 0 && n in Run(p, Start(), labels).items && IsRequest(Run(p, Start(), labels).items[n])
    ensures Explained(p, labels, Run(p, Start(), labels).items[n], n)
    decreases |labels|
  {
    if labels != [] {
      var m := |labels| - 1;
      var init, l := labels[..m], labels[m];
      assert labels == init + [l];
      var s := Run(p, Start(), init);
      RunSnoc(p, Start(), init, l);
      StartIsSound(p);
      RunKeeps(p, Start(), init);
      if n in s.items && IsRequest(s.items[n]) {
        RunTells(p, init, n);
        StepDecides(p, s, l, n);
        TellsOn(p, init, l, s.items[n], Next(p, s, l).items[n], n);
      } else {
        RefusedNever(p, init, n);
        NewDecides(p, s, l, n);
        TellsFirst(p, init, l, n);
      }
    }
  }

  lemma TellsOn(p: Setup, init: seq<Label>, l: Label, t: Item, t': Item, n: nat)
    requires p.strands > 0 && IsRequest(t) && IsRequest(t') && Explained(p, init, t, n)
    requires
      var s' := Run(p, Start(), init + [l]);
      ReqOf(t').commit.Some? && ReqOf(t').commit != ReqOf(t).commit ==>
        s'.rooms == ReqOf(t').commit.value.rooms && s'.mgr == ReqOf(t').commit.value.mgr
    requires Uncommitted(t') <==> Uncommitted(t) || (OwnLabel(l, n) && Refuses(Run(p, Start(), init), n))
    ensures Explained(p, init + [l], t', n)
  {
    var labels := init + [l];
    if ReqOf(t').commit.Some? {
      if ReqOf(t').commit == ReqOf(t).commit {
        var k :| CommittedAt(p, init, k, ReqOf(t).commit.value);
        Earlier(p, init, l, n, k);
        assert CommittedAt(p, labels, k, ReqOf(t').commit.value);
      } else {
        assert labels[..|labels|] == labels;
        assert CommittedAt(p, labels, |labels|, ReqOf(t').commit.value);
      }
    }
    RefusedOn(p, init, l, n);
  }

  lemma RefusedOn(p: Setup, init: seq<Label>, l: Label, n: nat)
    requires p.strands > 0
    ensures (exists k :: RefusedAt(p, init + [l], k, n)) <==>
            (exists k :: RefusedAt(p, init, k, n)) || (OwnLabel(l, n) && Refuses(Run(p, Start(), init), n))
  {
    Earlier(p, init, l, n, |init|);
    if k :| RefusedAt(p, init, k, n) {
      Earlier(p, init, l, n, k);
      assert RefusedAt(p, init + [l], k, n);
    }
    if k :| RefusedAt(p, init + [l], k, n) {
      Earlier(p, init, l, n, k);
    }
    if OwnLabel(l, n) && Refuses(Run(p, Start(), init), n) {
      assert RefusedAt(p, init + [l], |init|, n);
    }
  }

  lemma TellsFirst(p: Setup, init: seq<Label>, l: Label, n: nat)
    requires p.strands > 0 && Appears(Run(p, Start(), init).items, Next(p, Run(p, Start(), init), l).items, n)
    requires forall k :: !RefusedAt(p, init, k, n)
    ensures Explained(p, init + [l], Next(p, Run(p, Start(), init), l).items[n], n)
  {
    var s, labels := Run(p, Start(), init), init + [l];
    RunSnoc(p, Start(), init, l);
    NewDecides(p, s, l, n);
    RefusedOn(p, init, l, n);
    if ReqOf(Next(p, s, l).items[n]).commit.Some? {
      NewCommit(p, s, l, n);
      assert labels[..|labels|] == labels;
      assert CommittedAt(p, labels, |labels|, ReqOf(Next(p, s, l).items[n]).commit.value);
    }
  }

  // ---------------------------------------------------------------- what an answer means

  /** In every run a request answered with success was executed exactly once, under a
      ticket that had started, and some state of the run is the one it committed: in
      that state, for a join, the instance was registered under the requested number
      and open, the user was in it with the requester's route, and the user index led
      to it. */
  lemma SuccessIsApplied(p: Setup, labels: seq<Label>, n: nat)
    requires p.strands > 0
    ensures
      var s := Run(p, Start(), labels);
      n in s.items && IsRequest(s.items[n]) && ReqOf(s.items[n]).answer.Some? && ReqOf(s.items[n]).answer.value.success ==>
        var r := ReqOf(s.items[n]);
        && r.ticket.Started? && r.execs == 1 && r.sends == 1
        && r.commit.Some? && Effect(r.commit.value, r.key, r.request)
        && exists k :: CommittedAt(p, labels, k, r.commit.value)
  {
    var s := Run(p, Start(), labels);
    if n in s.items && IsRequest(s.items[n]) {
      ItemIsOk(p, labels, n);
      RunTells(p, labels, n);
    }
  }

  lemma ItemIsOk(p: Setup, labels: seq<Label>, n: nat)
    requires p.strands > 0 && n in Run(p, Start(), labels).items
    ensures ItemOk(Run(p, Start(), labels).items[n])
  {
    StartIsSound(p);
    RunKeeps(p, Start(), labels);
  }

  /** In every run a request answered with failure has committed nothing; and it has
      changed its room all the same if and only if the manager's index refused, in
      one of its steps, the change it had made. */
  lemma FailureIsExplained(p: Setup, labels: seq<Label>, n: nat)
    requires p.strands > 0
    ensures
      var s := Run(p, Start(), labels);
      n in s.items && IsRequest(s.items[n]) && ReqOf(s.items[n]).answer.Some? && !ReqOf(s.items[n]).answer.value.success ==>
        var r := ReqOf(s.items[n]);
        && r.sends == 1 && r.commit.None? && r.execs <= 1
        && (r.execs == 1 <==> exists k :: RefusedAt(p, labels, k, n))
  {
    var s := Run(p, Start(), labels);
    if n in s.items && IsRequest(s.items[n]) {
      ItemIsOk(p, labels, n);
      RunTells(p, labels, n);
    }
  }

  /** A request that has not been executed has changed nothing: none of its steps in
      the run touched a room or an index. */
  lemma UnexecutedLeavesNoTrace(p: Setup, labels: seq<Label>, n: nat, k: nat)
    requires p.strands > 0 && k < |labels| && OwnLabel(labels[k], n)
    requires var s := Run(p, Start(), labels[..k]); n in s.items && IsRequest(s.items[n])
    requires
      var s := Run(p, Start(), labels);
      n in s.items && IsRequest(s.items[n]) && ReqOf(s.items[n]).execs == 0
    ensures
      && Run(p, Start(), labels[..k + 1]).rooms == Run(p, Start(), labels[..k]).rooms
      && Run(p, Start(), labels[..k + 1]).mgr == Run(p, Start(), labels[..k]).mgr
  {
    AroundStep(p, labels, k);
    OwnLeavesNoTrace(p, labels[..k], labels[k], labels[k + 1..], n);
  }

  lemma AroundStep(p: Setup, labels: seq<Label>, k: nat)
    requires p.strands > 0 && k < |labels|
    ensures Run(p, Start(), labels[..k + 1]) == Next(p, Run(p, Start(), labels[..k]), labels[k])
    ensures Run(p, Start(), labels) == Run(p, Run(p, Start(), labels[..k + 1]), labels[k + 1..])
  {
    assert labels[..k + 1] == labels[..k] + [labels[k]];
    RunSnoc(p, Start(), labels[..k], labels[k]);
    assert labels == labels[..k + 1] + labels[k + 1..];
    RunAppend(p, Start(), labels[..k + 1], labels[k + 1..]);
  }

  lemma OwnLeavesNoTrace(p: Setup, init: seq<Label>, l: Label, rest: seq<Label>, n: nat)
    requires p.strands > 0 && OwnLabel(l, n)
    requires var s := Run(p, Start(), init); n in s.items && IsRequest(s.items[n])
    requires
      var s := Run(p, Next(p, Run(p, Start(), init), l), rest);
      n in s.items && IsRequest(s.items[n]) && ReqOf(s.items[n]).execs == 0
    ensures
      var s := Run(p, Start(), init);
      Next(p, s, l).rooms == s.rooms && Next(p, s, l).mgr == s.mgr
  {
    var s := Run(p, Start(), init);
    OwnFacts(p, init, l, n);
    RunEvolves(p, Next(p, s, l), rest, n);
    IdleStep(p, s, n, l.now);
  }

  lemma OwnFacts(p: Setup, init: seq<Label>, l: Label, n: nat)
    requires p.strands > 0
    requires n in Run(p, Start(), init).items && IsRequest(Run(p, Start(), init).items[n])
    ensures
      var s := Run(p, Start(), init);
      && ItemOk(s.items[n]) && Inv(p, Next(p, s, l))
      && n in Next(p, s, l).items && IsRequest(Next(p, s, l).items[n])
  {
    var s := Run(p, Start(), init);
    StartIsSound(p);
    RunKeeps(p, Start(), init);
    NextKeeps(p, s, l);
    assert ItemOk(s.items[n]);
    RequestEvolves(p, s, l, n);
  }

  // ---------------------------------------------------------------- the last one out

  /** A leave that has emptied its room and is not over. */
  predicate Emptying(t: Item)
  {
    && t.Work? && t.req.request.LeaveRoom?
    && (t.phase.Emptied? || (t.phase.Applied? && t.phase.flag) || (t.phase.Completing? && t.phase.applied && t.phase.flag))
  }

  /** Destroyed, once, and nothing after it. */
  predicate Destroys(room: Room)
  {
    && room.lifecycle.Closed? && room.log != []
    && forall i :: 0 <= i < |room.log| ==> (room.log[i].Destroyed? <==> i == |room.log| - 1)
  }

  lemma EmptyingOwnStep(p: Setup, s: State, n: nat, now: nat)
    requires Inv(p, s) && Listed(s.mgr, s.rooms) && !s.mgr.stopping && n in s.items && Emptying(s.items[n])
    ensures
      var s' := RunTask(p, s, n, now);
      && n in s'.items
      && (Emptying(s'.items[n]) || (s'.items[n].Past? && s.items[n].room in s'.rooms && s'.rooms[s.items[n].room].lifecycle.Closed?))
  {
    if IsHead(s.items, s.strandOf, n) {
      assert s.items[n].room in s.rooms && ItemOk(s.items[n]);
      assert StandingTask(s.rooms[s.items[n].room], s.items[n]);
    }
  }

  lemma EmptyingStep(p: Setup, s: State, l: Label, n: nat)
    requires p.strands > 0 && Inv(p, s) && Listed(s.mgr, s.rooms) && !s.mgr.stopping && n in s.items && Emptying(s.items[n])
    ensures
      var s' := Next(p, s, l);
      && n in s'.items
      && (|| (Emptying(s'.items[n]) && s'.items[n].room == s.items[n].room)
          || (s'.items[n].Past? && s.items[n].room in s'.rooms && s'.rooms[s.items[n].room].lifecycle.Closed?))
  {
    assert ItemOk(s.items[n]);
    RequestEvolves(p, s, l, n);
    if OwnLabel(l, n) {
      EmptyingOwnStep(p, s, n, l.now);
    } else {
      OthersLeaveItAlone(p, s, l, n);
    }
  }

  predicate NoShutdown(labels: seq<Label>)
  {
    forall i :: 0 <= i < |labels| ==> !labels[i].Shutdown?
  }

  lemma HandleNotStopping(p: Setup, s: State, key: Key, request: Request, drawn: RoomId,
                          admitted: Registry<nat>, finished: Registry<nat>)
    requires p.strands > 0
    ensures Handle(p, s, key, request, drawn, admitted, finished).mgr.stopping == s.mgr.stopping
  {
  }

  lemma WorkNotStopping(p: Setup, s: State, k: nat, now: nat)
    requires k in s.items && s.items[k].Work? && s.items[k].room in s.rooms
    ensures RunWork(p, s, k, now).mgr.stopping == s.mgr.stopping
  {
  }

  lemma TaskNotStopping(p: Setup, s: State, k: nat, now: nat)
    ensures RunTask(p, s, k, now).mgr.stopping == s.mgr.stopping
  {
    if k in s.items && s.items[k].Work? && s.items[k].room in s.rooms {
      WorkNotStopping(p, s, k, now);
    }
  }

  lemma NextNotStopping(p: Setup, s: State, l: Label)
    requires p.strands > 0 && !s.mgr.stopping && !l.Shutdown?
    ensures !Next(p, s, l).mgr.stopping
  {
    match l {
      case Receive(route, Ask(id, request), now, done, drawn) =>
        var key, n := Key(route, id), TicketNumber(s, request);
        var admitted := AfterAdmit(p.cfg, s.reg, key, now, n);
        HandleNotStopping(p, s, key, request, drawn, admitted, AfterFinish(p.cfg, admitted, key, n, done));
      case StrandStep(k, now) => TaskNotStopping(p, s, k, now);
      case _ =>
    }
  }

  lemma {:induction false} NotStopping(p: Setup, s: State, labels: seq<Label>)
    requires p.strands > 0 && !s.mgr.stopping && NoShutdown(labels)
    ensures !Run(p, s, labels).mgr.stopping
    decreases |labels|
  {
    if labels != [] {
      NextNotStopping(p, s, labels[0]);
      NotStopping(p, Next(p, s, labels[0]), labels[1..]);
    }
  }

  lemma {:induction false} EmptyingRun(p: Setup, s: State, after: seq<Label>, n: nat)
    requires p.strands > 0 && Inv(p, s) && Listed(s.mgr, s.rooms) && !s.mgr.stopping && NoShutdown(after) && FreshDraws(p, s, after)
    requires n in s.items && Emptying(s.items[n])
    ensures
      var s' := Run(p, s, after);
      && n in s'.items
      && (Emptying(s'.items[n]) || (s'.items[n].Past? && s.items[n].room in s'.rooms && s'.rooms[s.items[n].room].lifecycle.Closed?))
    decreases |after|
  {
    if after != [] {
      var s1 := Next(p, s, after[0]);
      EmptyingStep(p, s, after[0], n);
      NextKeeps(p, s, after[0]);
      NextListed(p, s, after[0]);
      NextNotStopping(p, s, after[0]);
      if Emptying(s1.items[n]) {
        EmptyingRun(p, s1, after[1..], n);
      } else {
        ClosedForGood(p, s1, after[1..], s.items[n].room);
        assert ItemOk(s1.items[n]);
        RunEvolves(p, s1, after[1..], n);
      }
    }
  }

  /** In every run without shutdown whose room numbers are drawn fresh, a leave that
      has emptied its room destroys it: once the leave is over, the room is closed and
      its contents log ends with the one destroy event it holds. */
  lemma EmptiedRoomsAreDestroyed(p: Setup, before: seq<Label>, after: seq<Label>, n: nat)
    requires p.strands > 0 && NoShutdown(before) && NoShutdown(after)
    requires FreshDraws(p, Start(), before) && FreshDraws(p, Run(p, Start(), before), after)
    requires n in Run(p, Start(), before).items && Emptying(Run(p, Start(), before).items[n])
    ensures
      var room := Run(p, Start(), before).items[n].room;
      var s := Run(p, Run(p, Start(), before), after);
      && n in s.items && (s.items[n].Past? <==> !Emptying(s.items[n]))
      && (s.items[n].Past? ==> room in s.rooms && Destroys(s.rooms[room]))
  {
    var s := Run(p, Start(), before);
    StartIsSound(p);
    RunKeeps(p, Start(), before);
    OpenRoomsAreListed(p, Start(), before);
    NotStopping(p, Start(), before);
    EmptyingRun(p, s, after, n);
    RunKeeps(p, s, after);
    ClosedDestroys(p, Run(p, s, after), s.items[n].room);
  }

  lemma ClosedDestroys(p: Setup, s: State, r: Ref)
    requires Inv(p, s)
    ensures r in s.rooms && s.rooms[r].lifecycle.Closed? ==> Destroys(s.rooms[r])
  {
    EndedDestroys(s.rooms, s.mgr.stopping, r);
  }

  lemma EndedDestroys(rooms: RoomMap, stopping: bool, r: Ref)
    requires Ended(rooms, stopping)
    ensures r in rooms && rooms[r].lifecycle.Closed? ==> Destroys(rooms[r])
  {
    assert r in rooms ==> EndsWell(rooms[r], stopping);
  }

  /** Open, but no longer registered, and not because the manager is stopping. */
  ghost predicate Forsaken(mgr: Manager<Ref>, rooms: RoomMap, r: Ref)
  {
    r in rooms && rooms[r].lifecycle.Open? && !Registered(mgr, rooms[r].id, r) && !mgr.stopping
  }

  lemma ForsakenRoom(mgr: Manager<Ref>, rooms: RoomMap, r: Ref, ref: Ref, room: Room)
    requires Forsaken(mgr, rooms, r) && ref in rooms && room.id == rooms[ref].id && (ref == r ==> room.lifecycle.Open?)
    ensures Forsaken(mgr, rooms[ref := room], r)
  {
  }

  lemma ForsakenWork(p: Setup, s: State, n: nat, now: nat, r: Ref)
    requires Forsaken(s.mgr, s.rooms, r) && n in s.items && s.items[n].Work? && s.items[n].room in s.rooms
    ensures Forsaken(RunWork(p, s, n, now).mgr, RunWork(p, s, n, now).rooms, r)
  {
    var t := s.items[n];
    var room := s.rooms[t.room];
    match t.phase {
      case Waiting => ForsakenRoom(s.mgr, s.rooms, r, t.room, Begin(t, room).1);
      case Applied(_) =>
      case Completing(_, _, _) => ForsakenRoom(s.mgr, s.rooms, r, t.room, Heard(room, t));
      case Emptied =>
        ForsakenRoom(s.mgr, s.rooms, r, t.room, if Registered(s.mgr, room.id, t.room) then Shut(room) else room);
    }
  }

  lemma ForsakenTask(p: Setup, s: State, n: nat, now: nat, r: Ref)
    requires Forsaken(s.mgr, s.rooms, r) && (n in s.items ==> !s.items[n].Close?)
    ensures Forsaken(RunTask(p, s, n, now).mgr, RunTask(p, s, n, now).rooms, r)
  {
    if IsHead(s.items, s.strandOf, n) && s.items[n].room in s.rooms {
      if s.items[n].Work? {
        ForsakenWork(p, s, n, now, r);
      } else {
        ForsakenRoom(s.mgr, s.rooms, r, s.items[n].room, RunTask(p, s, n, now).rooms[s.items[n].room]);
      }
    }
  }

  lemma ForsakenHandle(p: Setup, s: State, key: Key, request: Request, drawn: RoomId,
                       admitted: Registry<nat>, finished: Registry<nat>, r: Ref)
    requires p.strands > 0 && Forsaken(s.mgr, s.rooms, r) && r < s.next
    ensures var s' := Handle(p, s, key, request, drawn, admitted, finished); Forsaken(s'.mgr, s'.rooms, r)
  {
  }

  lemma NoneCloses(p: Setup, s: State, r: Ref)
    requires Inv(p, s) && r in s.rooms && !s.mgr.stopping
    ensures r < s.next && forall n :: n in s.items ==> !s.items[n].Close?
  {
  }

  lemma ForsakenStep(p: Setup, s: State, l: Label, r: Ref)
    requires p.strands > 0 && Forsaken(s.mgr, s.rooms, r) && r < s.next && !l.Shutdown?
    requires forall n :: n in s.items ==> !s.items[n].Close?
    ensures Forsaken(Next(p, s, l).mgr, Next(p, s, l).rooms, r)
  {
    match l {
      case Receive(route, Ask(id, request), now, done, drawn) =>
        var key, n := Key(route, id), TicketNumber(s, request);
        var admitted := AfterAdmit(p.cfg, s.reg, key, now, n);
        ForsakenHandle(p, s, key, request, drawn, admitted, AfterFinish(p.cfg, admitted, key, n, done), r);
      case StrandStep(k, now) => ForsakenTask(p, s, k, now, r);
      case _ =>
    }
  }

  lemma {:induction false} ForsakenRun(p: Setup, s: State, labels: seq<Label>, r: Ref)
    requires p.strands > 0 && Inv(p, s) && Forsaken(s.mgr, s.rooms, r) && NoShutdown(labels)
    ensures Forsaken(Run(p, s, labels).mgr, Run(p, s, labels).rooms, r)
    decreases |labels|
  {
    if labels != [] {
      NoneCloses(p, s, r);
      ForsakenStep(p, s, labels[0], r);
      NextKeeps(p, s, labels[0]);
      ForsakenRun(p, Next(p, s, labels[0]), labels[1..], r);
    }
  }

  /** Exactly when a leave that has emptied its room destroys it, in every run without
      shutdown and whatever numbers are drawn: if and only if the room is still
      registered under its number when the leave comes to close it. Otherwise it is
      never destroyed at all. */
  lemma LastLeaveDestroys(p: Setup, before: seq<Label>, after: seq<Label>, n: nat, now: nat)
    requires p.strands > 0 && NoShutdown(before) && NoShutdown(after)
    requires
      var s := Run(p, Start(), before);
      IsHead(s.items, s.strandOf, n) && s.items[n].Work? && s.items[n].phase.Emptied? && s.items[n].room in s.rooms
    ensures
      var s := Run(p, Start(), before);
      var ref := s.items[n].room;
      var s' := Run(p, Next(p, s, StrandStep(n, now)), after);
      && ref in s'.rooms
      && (Destroys(s'.rooms[ref]) <==> Registered(s.mgr, s.rooms[ref].id, ref))
      && (s'.rooms[ref].lifecycle.Open? <==> !Registered(s.mgr, s.rooms[ref].id, ref))
  {
    var s := Run(p, Start(), before);
    var s1 := Next(p, s, StrandStep(n, now));
    var ref := s.items[n].room;
    StartIsSound(p);
    RunKeeps(p, Start(), before);
    NotStopping(p, Start(), before);
    NextKeeps(p, s, StrandStep(n, now));
    LastLeaveCloses(p, s, n, now);
    ClosingStep(p, s, n, now);
    if Registered(s.mgr, s.rooms[ref].id, ref) {
      ClosedForGood(p, s1, after, ref);
      ClosedDestroys(p, s1, ref);
    } else {
      ForsakenRun(p, s1, after, ref);
    }
  }

  lemma ClosingStep(p: Setup, s: State, n: nat, now: nat)
    requires Inv(p, s) && !s.mgr.stopping
    requires IsHead(s.items, s.strandOf, n) && s.items[n].Work? && s.items[n].phase.Emptied? && s.items[n].room in s.rooms
    ensures
      var ref := s.items[n].room;
      !Registered(s.mgr, s.rooms[ref].id, ref) ==> Forsaken(RunTask(p, s, n, now).mgr, RunTask(p, s, n, now).rooms, ref)
  {
    assert StandingTask(s.rooms[s.items[n].room], s.items[n]);
  }
}
