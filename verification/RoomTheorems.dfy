/** What holds of every run of the Room server. */
module RoomTheorems {
  import opened Basics
  import opened QueuedRequests
  import opened Rooms
  import opened RoomServer
  import opened RoomInvariants
  import opened RoomSteps
  import opened RoomChannel

  predicate IsRequest(t: Item)
  {
    t.Work? || t.Past?
  }

  function ReqOf(t: Item): Req
    requires IsRequest(t)
  {
    if t.Work? then t.req else t.over
  }

  /** The completion of the request has run. */
  predicate Over(t: Item)
  {
    t.Past? || (t.Work? && t.phase.Emptied?)
  }

  // ---------------------------------------------------------------- no leaked tickets

  ghost function LiveSet(items: Items): set<nat>
  {
    set n | n in items && Live(items[n])
  }

  lemma {:induction false} InjectiveImage(active: map<Key, nat>, image: set<nat>)
    requires forall k :: k in active ==> active[k] in image
    requires forall n :: n in image ==> exists k :: k in active && active[k] == n
    requires forall k, j :: k in active && j in active && k != j ==> active[k] != active[j]
    ensures |active| == |image|
    decreases |active|
  {
    if active == map[] {
      assert image == {};
    } else {
      var k :| k in active;
      var rest, image' := active - {k}, image - {active[k]};
      forall n | n in image' ensures exists j :: j in rest && rest[j] == n {
        var j :| j in active && active[j] == n;
        assert j in rest && rest[j] == n;
      }
      InjectiveImage(rest, image');
      assert active.Keys == rest.Keys + {k};
    }
  }

  lemma ActiveCountsLive(active: map<Key, nat>, items: Items)
    requires Tracked(active, items)
    ensures |active| == |LiveSet(items)|
  {
    forall n | n in LiveSet(items) ensures exists k :: k in active && active[k] == n {
      assert items[n].req.key in active;
    }
    InjectiveImage(active, LiveSet(items));
  }

  /** In every reachable state the active keys are exactly the keys of the requests
      whose completion has not run, one each; so there are never more of them than
      the capacity, and a new key that is not remembered is refused only when the
      capacity is used up by requests really outstanding. */
  lemma NoLeakedTickets(p: Setup, labels: seq<Label>, key: Key, now: nat)
    requires p.strands > 0
    ensures
      var s := Run(p, Start(), labels);
      && (forall k :: k in s.reg.active <==> exists n :: n in LiveSet(s.items) && s.items[n].req.key == k)
      && |s.reg.active| == |LiveSet(s.items)| <= p.cfg.capacity
      && (key !in s.reg.active && key !in Pruned(s.reg.terminal, now) ==>
            (Admissible(p.cfg, s.reg, key, now) <==> |LiveSet(s.items)| < p.cfg.capacity))
  {
    var s := Run(p, Start(), labels);
    StartIsSound(p);
    RunKeeps(p, Start(), labels);
    ActiveCountsLive(s.reg.active, s.items);
    forall k ensures k in s.reg.active <==> exists n :: n in LiveSet(s.items) && s.items[n].req.key == k {
      if k in s.reg.active {
        assert s.reg.active[k] in LiveSet(s.items);
      }
    }
  }

  // ---------------------------------------------------------------- one step of one item

  function Rank(t: Item): nat
  {
    if !t.Work? then 1
    else match t.phase
      case Waiting => 4
      case Applied(_) => 3
      case Completing(_, _, _) => 2
      case Emptied => 1
  }

  /** The manager has been consulted, or need not be. */
  predicate Decided(t: Item)
  {
    t.Past? || (t.Work? && (t.phase.Completing? || t.phase.Emptied?))
  }

  /** How a request may change in a step: it stays itself, a decided ticket stays
      decided, what it did and committed stays once the manager was consulted, and a
      request that is over stays as it is. */
  predicate Evolves(t: Item, t': Item)
    requires IsRequest(t)
  {
    && IsRequest(t')
    && ReqOf(t').key == ReqOf(t).key && ReqOf(t').request == ReqOf(t).request
    && (!ReqOf(t).ticket.Queued? ==> ReqOf(t').ticket == ReqOf(t).ticket)
    && (t.Past? ==> t' == t)
    && (t.Work? && t'.Past? ==> !t'.threw)
    && (t'.Work? ==> t.Work? && t'.room == t.room && (t'.phase.Waiting? ==> t.phase.Waiting?))
    && ReqOf(t).execs <= ReqOf(t').execs
    && (Decided(t) ==> Decided(t') && ReqOf(t').execs == ReqOf(t).execs && ReqOf(t').commit == ReqOf(t).commit)
    && (Over(t) ==> Over(t') && ReqOf(t') == ReqOf(t))
  }

  /** What a strand step does to the items: only the head changes, a request evolves,
      and whatever is left of the head is nearer its end. */
  ghost predicate Advances(items: Items, items': Items, n: nat)
    requires n in items
  {
    && SameElse(items, items', n)
    && (IsRequest(items[n]) ==> n in items' && Evolves(items[n], items'[n]))
    && (n in items' && !items'[n].Past? ==> Rank(items'[n]) < Rank(items[n]))
  }

  lemma BeginAdvances(s: State, n: nat)
    requires n in s.items && s.items[n].Work? && s.items[n].phase.Waiting? && s.items[n].room in s.rooms
    ensures var (t, room) := Begin(s.items[n], s.rooms[s.items[n].room]);
      Advances(s.items, Update(s, n, t, s.items[n].room, room).items, n)
  {
  }

  lemma RegisterAdvances(s: State, n: nat)
    requires n in s.items && s.items[n].Work? && s.items[n].phase.Applied? && s.items[n].room in s.rooms
    ensures Advances(s.items, Register(s, n).items, n)
  {
  }

  lemma CompleteAdvances(s: State, n: nat, retired: bool, room: Room)
    requires n in s.items && s.items[n].Work? && s.items[n].phase.Completing?
    ensures Advances(s.items, Update(s, n, Complete(s.items[n], retired), s.items[n].room, room).items, n)
  {
  }

  lemma CloseEmptyAdvances(s: State, n: nat)
    requires n in s.items && s.items[n].Work? && s.items[n].phase.Emptied? && s.items[n].room in s.rooms
    ensures Advances(s.items, CloseEmpty(s, n).items, n)
  {
  }

  lemma RunWorkAdvances(p: Setup, s: State, n: nat, now: nat)
    requires n in s.items && s.items[n].Work? && s.items[n].room in s.rooms
    ensures Advances(s.items, RunWork(p, s, n, now).items, n)
  {
    var t := s.items[n];
    match t.phase {
      case Waiting => BeginAdvances(s, n);
      case Applied(_) => RegisterAdvances(s, n);
      case Completing(_, _, _) => CompleteAdvances(s, n, Holds(s.reg, t.req.key, n), Heard(s.rooms[t.room], t));
      case Emptied => CloseEmptyAdvances(s, n);
    }
  }

  lemma HeadAdvances(p: Setup, s: State, n: nat, now: nat)
    requires IsHead(s.items, s.strandOf, n) && s.items[n].room in s.rooms
    ensures Advances(s.items, RunTask(p, s, n, now).items, n)
  {
    if s.items[n].Work? {
      RunWorkAdvances(p, s, n, now);
    }
  }

  lemma RunTaskEvolves(p: Setup, s: State, n: nat, now: nat, k: nat)
    requires n in s.items && IsRequest(s.items[n])
    ensures var s' := RunTask(p, s, k, now); n in s'.items && Evolves(s.items[n], s'.items[n])
  {
    if IsHead(s.items, s.strandOf, k) && s.items[k].room in s.rooms {
      HeadAdvances(p, s, k, now);
    }
  }

  /** Nothing that a new request adds touches an item already there. */
  lemma CreateKeepsItem(p: Setup, s: State, key: Key, uid: Uid, drawn: RoomId, reg': Registry<nat>, n: nat)
    requires p.strands > 0 && n in s.items && n < s.next
    ensures var items' := Create(p, s, key, uid, drawn, reg').items; n in items' && items'[n] == s.items[n]
  {
  }

  lemma OthersKeepItem(s: State, key: Key, request: Request, room: Ref, reg': Registry<nat>, n: nat)
    requires n in s.items && n < s.next
    ensures n in CreateThrows(s, key, request, reg').items && CreateThrows(s, key, request, reg').items[n] == s.items[n]
    ensures n in AnswerMissing(s, key, request, reg').items && AnswerMissing(s, key, request, reg').items[n] == s.items[n]
    ensures n in PostWork(s, key, request, room, reg').items && PostWork(s, key, request, room, reg').items[n] == s.items[n]
  {
  }

  lemma HandleEvolves(p: Setup, s: State, key: Key, request: Request, drawn: RoomId,
                      admitted: Registry<nat>, finished: Registry<nat>, n: nat)
    requires p.strands > 0 && n in s.items && n < s.next
    ensures n in Handle(p, s, key, request, drawn, admitted, finished).items
    ensures Handle(p, s, key, request, drawn, admitted, finished).items[n] == s.items[n]
  {
    if request.CreateRoom? && !s.mgr.stopping {
      CreateKeepsItem(p, s, key, request.uid, drawn, finished, n);
    } else if request.CreateRoom? || Target(s.mgr, request).None? {
      OthersKeepItem(s, key, request, 0, finished, n);
    } else {
      OthersKeepItem(s, key, request, Target(s.mgr, request).value, admitted, n);
    }
  }

  lemma ReceiveEvolves(p: Setup, s: State, key: Key, request: Request, now: nat, done: nat, drawn: RoomId, n: nat)
    requires p.strands > 0 && n in s.items && n < s.next
    ensures n in ReceiveAsk(p, s, key, request, now, done, drawn).items
    ensures ReceiveAsk(p, s, key, request, now, done, drawn).items[n] == s.items[n]
  {
    var admitted := AfterAdmit(p.cfg, s.reg, key, now, TicketNumber(s, request));
    HandleEvolves(p, s, key, request, drawn, admitted,
                  AfterFinish(p.cfg, admitted, key, TicketNumber(s, request), done), n);
  }

  lemma CancelEvolves(s: State, key: Key, reg': Registry<nat>, n: nat)
    requires n in s.items && IsRequest(s.items[n]) && ItemOk(s.items[n])
    ensures n in CancelTicket(s, key, reg').items && Evolves(s.items[n], CancelTicket(s, key, reg').items[n])
  {
    CancelTicketCases(s, key, reg');
  }

  lemma RequestEvolves(p: Setup, s: State, l: Label, n: nat)
    requires p.strands > 0 && n in s.items && n < s.next && IsRequest(s.items[n]) && ItemOk(s.items[n])
    ensures n in Next(p, s, l).items && Evolves(s.items[n], Next(p, s, l).items[n])
  {
    match l {
      case Receive(route, Ask(id, request), now, done, drawn) =>
        ReceiveEvolves(p, s, Key(route, id), request, now, done, drawn, n);
      case Receive(route, CancelAsk(id), now, _, _) =>
        CancelEvolves(s, Key(route, id), AfterCancel(p.cfg, s.reg, Key(route, id), now), n);
      case StrandStep(k, now) => RunTaskEvolves(p, s, n, now, k);
      case _ =>
    }
  }

  // ---------------------------------------------------------------- draining

  ghost function Unfinished(items: Items): set<nat>
  {
    set n | n in items && !items[n].Past?
  }

  /** The steps that the items below `n` still have to make. */
  function Todo(items: Items, n: nat): nat
  {
    if n == 0 then 0
    else Todo(items, n - 1) + if n - 1 in items && !items[n - 1].Past? then Rank(items[n - 1]) else 0
  }

  lemma {:induction false} TodoNone(items: Items, n: nat)
    requires Todo(items, n) == 0 && forall k :: k in items ==> k < n
    ensures Unfinished(items) == {}
  {
    forall k | k in items ensures items[k].Past? {
      if !items[k].Past? {
        TodoAtLeast(items, n, k);
      }
    }
  }

  lemma {:induction false} TodoAtLeast(items: Items, n: nat, k: nat)
    requires k < n && k in items && !items[k].Past?
    ensures Todo(items, n) >= Rank(items[k]) >= 1
    decreases n
  {
    if k < n - 1 {
      TodoAtLeast(items, n - 1, k);
    }
  }

  lemma {:induction false} TodoSame(items: Items, items': Items, k: nat, n: nat)
    requires SameElse(items, items', k) && n <= k
    ensures Todo(items', n) == Todo(items, n)
    decreases n
  {
    if n > 0 {
      TodoSame(items, items', k, n - 1);
    }
  }

  /** The item that a strand has run has less to do, and no other has more. */
  lemma {:induction false} TodoLess(items: Items, items': Items, k: nat, n: nat)
    requires k < n && k in items && !items[k].Past? && Advances(items, items', k)
    ensures Todo(items', n) < Todo(items, n)
    decreases n
  {
    if k < n - 1 {
      TodoLess(items, items', k, n - 1);
    } else {
      TodoSame(items, items', k, k);
    }
  }

  /** Every label is a strand step that is enabled when its turn comes. */
  ghost predicate AllEnabled(p: Setup, s: State, labels: seq<Label>)
    requires p.strands > 0
    decreases |labels|
  {
    labels == [] ||
    (&& labels[0].StrandStep? && IsHead(s.items, s.strandOf, labels[0].task)
     && AllEnabled(p, Next(p, s, labels[0]), labels[1..]))
  }

  lemma StepTodo(p: Setup, s: State, l: Label)
    requires p.strands > 0 && Inv(p, s) && l.StrandStep? && IsHead(s.items, s.strandOf, l.task)
    ensures var s' := Next(p, s, l); Inv(p, s') && s'.next == s.next && Todo(s'.items, s.next) < Todo(s.items, s.next)
  {
    NextKeeps(p, s, l);
    HeadAdvances(p, s, l.task, l.now);
    TodoLess(s.items, Next(p, s, l).items, l.task, s.next);
    SameNext(p, s, l.task, l.now);
  }

  lemma SameNext(p: Setup, s: State, n: nat, now: nat)
    ensures RunTask(p, s, n, now).next == s.next
  {
  }

  lemma {:induction false} StepsTodo(p: Setup, s: State, labels: seq<Label>)
    requires p.strands > 0 && Inv(p, s) && AllEnabled(p, s, labels)
    ensures var s' := Run(p, s, labels);
      Inv(p, s') && s'.next == s.next && |labels| + Todo(s'.items, s.next) <= Todo(s.items, s.next)
    decreases |labels|
  {
    if labels != [] {
      StepTodo(p, s, labels[0]);
      StepsTodo(p, Next(p, s, labels[0]), labels[1..]);
    }
  }

  /** Whatever is left has a first item, and that one can run. */
  lemma SomeHead(p: Setup, s: State)
    requires Inv(p, s) && Unfinished(s.items) != {}
    ensures exists n :: IsHead(s.items, s.strandOf, n)
  {
    LeastExists(Unfinished(s.items));
    var n :| IsLeast(n, Unfinished(s.items));
    assert n in Unfinished(s.items);
    forall m | m in s.items && SameStrand(s.strandOf, s.items[m], s.items[n]) ensures n <= m {
      assert m in Unfinished(s.items);
    }
    assert IsHead(s.items, s.strandOf, n);
  }

  /** From every reachable state, every way of running the strands drains them: no
      sequence of enabled strand steps is longer than the steps that are left to
      make, one that is as long leaves nothing, one can be made longer as long as
      something is left, and when nothing is left the registry holds no ticket. */
  lemma Drains(p: Setup, before: seq<Label>, steps: seq<Label>)
    requires p.strands > 0 && AllEnabled(p, Run(p, Start(), before), steps)
    ensures
      var s := Run(p, Start(), before);
      var s' := Run(p, s, steps);
      && |steps| <= Todo(s.items, s.next)
      && (|steps| == Todo(s.items, s.next) ==> Unfinished(s'.items) == {})
      && (Unfinished(s'.items) == {} <==> forall n :: !IsHead(s'.items, s'.strandOf, n))
      && (Unfinished(s'.items) == {} ==> s'.reg.active == map[])
  {
    var s := Run(p, Start(), before);
    StartIsSound(p);
    RunKeeps(p, Start(), before);
    StepsTodo(p, s, steps);
    Drained(p, Run(p, s, steps));
  }

  lemma Drained(p: Setup, s: State)
    requires Inv(p, s)
    ensures Todo(s.items, s.next) == 0 ==> Unfinished(s.items) == {}
    ensures Unfinished(s.items) == {} <==> forall n :: !IsHead(s.items, s.strandOf, n)
    ensures Unfinished(s.items) == {} ==> s.reg.active == map[]
  {
    if Todo(s.items, s.next) == 0 {
      TodoNone(s.items, s.next);
    }
    if Unfinished(s.items) == {} {
      NothingActive(s.reg.active, s.items);
      forall n ensures !IsHead(s.items, s.strandOf, n) {
        assert n in s.items && !s.items[n].Past? ==> n in Unfinished(s.items);
      }
    } else {
      SomeHead(p, s);
    }
  }

  lemma NothingActive(active: map<Key, nat>, items: Items)
    requires Tracked(active, items) && Unfinished(items) == {}
    ensures active == map[]
  {
    assert forall k :: k in active ==> active[k] in Unfinished(items);
  }

  lemma {:induction false} RunAppend(p: Setup, s: State, a: seq<Label>, b: seq<Label>)
    requires p.strands > 0
    ensures Run(p, s, a + b) == Run(p, Run(p, s, a), b)
    decreases |a|
  {
    if a == [] {
      assert a + b == b;
    } else {
      assert (a + b)[1..] == a[1..] + b;
      RunAppend(p, Next(p, s, a[0]), a[1..], b);
    }
  }

  lemma EvolvesTransitive(a: Item, b: Item, c: Item)
    requires IsRequest(a) && Evolves(a, b) && Evolves(b, c)
    ensures Evolves(a, c)
  {
  }

  lemma {:induction false} RunEvolves(p: Setup, s: State, labels: seq<Label>, n: nat)
    requires p.strands > 0 && Inv(p, s) && n in s.items && IsRequest(s.items[n])
    ensures n in Run(p, s, labels).items
    ensures Evolves(s.items[n], Run(p, s, labels).items[n])
    decreases |labels|
  {
    if labels != [] {
      var s1 := Next(p, s, labels[0]);
      RequestEvolves(p, s, labels[0], n);
      NextKeeps(p, s, labels[0]);
      RunEvolves(p, s1, labels[1..], n);
      EvolvesTransitive(s.items[n], s1.items[n], Run(p, s1, labels[1..]).items[n]);
    }
  }

  // ---------------------------------------------------------------- rooms over a run

  /** In every reachable state: what contents were told gives exactly the users of
      every room that is not in the middle of a task; a room is destroyed at most
      once and hears nothing afterwards; registered rooms are open, and user
      mappings lead to registered rooms; and released contents are never used unless
      the manager is stopping. */
  lemma ContentsTellTheTruth(p: Setup, labels: seq<Label>, r: Ref)
    requires p.strands > 0
    ensures
      var s := Run(p, Start(), labels);
      && (r in s.rooms && !Settling(s.items, r) ==> s.rooms[r].users.Keys == Members(s.rooms[r].owner, s.rooms[r].log))
      && (r in s.rooms ==> EndsWell(s.rooms[r], s.mgr.stopping))
      && Managed(s.mgr, s.rooms)
      && (s.fault ==> s.mgr.stopping)
  {
    StartIsSound(p);
    RunKeeps(p, Start(), labels);
  }

  lemma ClosedBegin(t: Item, room: Room)
    requires t.Work? && t.phase.Waiting? && !room.lifecycle.Open?
    ensures Begin(t, room).1 == room
  {
  }

  /** A step of a closed room's task leaves the room as it is. */
  lemma ClosedStep(p: Setup, s: State, n: nat, now: nat)
    requires Inv(p, s) && IsHead(s.items, s.strandOf, n) && s.items[n].room in s.rooms
    requires !s.rooms[s.items[n].room].lifecycle.Open?
    ensures RunTask(p, s, n, now).rooms == s.rooms
  {
    var t := s.items[n];
    assert s.rooms[t.room := s.rooms[t.room]] == s.rooms;
    HeadFacts(p, s, n);
    if t.Work? && t.phase.Waiting? {
      ClosedBegin(t, s.rooms[t.room]);
    }
  }

  /** A step touches the room of its task only. */
  ghost predicate OnlyRoom(rooms: RoomMap, rooms': RoomMap, ref: Ref)
  {
    forall r :: r != ref ==> (r in rooms <==> r in rooms') && (r in rooms ==> rooms'[r] == rooms[r])
  }

  lemma RunWorkRoom(p: Setup, s: State, n: nat, now: nat)
    requires n in s.items && s.items[n].Work? && s.items[n].room in s.rooms
    ensures OnlyRoom(s.rooms, RunWork(p, s, n, now).rooms, s.items[n].room)
  {
  }

  lemma RunTaskRoom(p: Setup, s: State, n: nat, now: nat)
    requires n in s.items && !s.items[n].Past? && s.items[n].room in s.rooms
    ensures OnlyRoom(s.rooms, RunTask(p, s, n, now).rooms, s.items[n].room)
  {
    if s.items[n].Work? {
      RunWorkRoom(p, s, n, now);
    }
  }

  lemma ReceiveElsewhere(p: Setup, s: State, key: Key, request: Request, now: nat, done: nat, drawn: RoomId, r: Ref)
    requires p.strands > 0 && r in s.rooms && r < s.next
    ensures r in ReceiveAsk(p, s, key, request, now, done, drawn).rooms
    ensures ReceiveAsk(p, s, key, request, now, done, drawn).rooms[r] == s.rooms[r]
  {
  }

  lemma ClosedStays(p: Setup, s: State, l: Label, r: Ref)
    requires p.strands > 0 && Inv(p, s) && r in s.rooms && !s.rooms[r].lifecycle.Open?
    ensures r in Next(p, s, l).rooms && Next(p, s, l).rooms[r] == s.rooms[r]
  {
    match l {
      case Receive(route, Ask(id, request), now, done, drawn) =>
        ReceiveElsewhere(p, s, Key(route, id), request, now, done, drawn, r);
      case StrandStep(n, now) => ClosedTask(p, s, n, now, r);
      case _ => SameRooms(p, s, l);
    }
  }

  /** Only asks and the strands touch rooms. */
  lemma SameRooms(p: Setup, s: State, l: Label)
    requires p.strands > 0 && !l.StrandStep? && !(l.Receive? && l.message.Ask?)
    ensures Next(p, s, l).rooms == s.rooms
  {
  }

  lemma ClosedTask(p: Setup, s: State, n: nat, now: nat, r: Ref)
    requires Inv(p, s) && r in s.rooms && !s.rooms[r].lifecycle.Open?
    ensures r in RunTask(p, s, n, now).rooms && RunTask(p, s, n, now).rooms[r] == s.rooms[r]
  {
    if IsHead(s.items, s.strandOf, n) && s.items[n].room in s.rooms {
      if s.items[n].room == r {
        ClosedStep(p, s, n, now);
      } else {
        RunTaskRoom(p, s, n, now);
      }
    }
  }

  /** Once a room is closed nothing changes it any more: over every run its users and
      its contents log stay what they were. */
  lemma {:induction false} ClosedForGood(p: Setup, s: State, labels: seq<Label>, r: Ref)
    requires p.strands > 0 && Inv(p, s) && r in s.rooms && !s.rooms[r].lifecycle.Open?
    ensures r in Run(p, s, labels).rooms && Run(p, s, labels).rooms[r] == s.rooms[r]
    decreases |labels|
  {
    if labels != [] {
      ClosedStays(p, s, labels[0], r);
      NextKeeps(p, s, labels[0]);
      ClosedForGood(p, Next(p, s, labels[0]), labels[1..], r);
    }
  }

  // ---------------------------------------------------------------- the last one out

  /** The last step of the leave that emptied a room. It destroys the room, once, if
      and only if the room is still the one registered under its number. */
  lemma LastLeaveCloses(p: Setup, s: State, n: nat, now: nat)
    requires Inv(p, s) && IsHead(s.items, s.strandOf, n) && s.items[n].Work? && s.items[n].phase.Emptied?
    ensures
      && s.items[n].room in s.rooms
      && var ref := s.items[n].room;
         var room := s.rooms[ref];
         var s' := RunTask(p, s, n, now);
         && ref in s'.rooms
         && (Registered(s.mgr, room.id, ref) <==> s'.rooms[ref].lifecycle.Closed?)
         && (Registered(s.mgr, room.id, ref) <==> s'.rooms[ref].log == room.log + [Destroyed])
         && !Registered(s'.mgr, room.id, ref)
         && (Registered(s.mgr, room.id, ref) ==>
               forall u :: u in s'.mgr.userRooms ==> s'.mgr.userRooms[u] != room.id)
  {
    assert s.items[n].room in s.rooms;
    HeadFacts(p, s, n);
  }

  /** Room numbers are drawn at random; here, none that is in use. */
  ghost predicate FreshDraw(s: State, l: Label)
  {
    l.Receive? && l.message.Ask? && l.message.request.CreateRoom? ==> l.drawn !in s.mgr.rooms
  }

  ghost predicate FreshDraws(p: Setup, s: State, labels: seq<Label>)
    requires p.strands > 0
    decreases |labels|
  {
    labels == [] || (FreshDraw(s, labels[0]) && FreshDraws(p, Next(p, s, labels[0]), labels[1..]))
  }

  /** Open rooms are registered, unless the manager is stopping. */
  ghost predicate Listed(mgr: Manager<Ref>, rooms: RoomMap)
  {
    mgr.stopping || forall r :: r in rooms && rooms[r].lifecycle.Open? ==> Registered(mgr, rooms[r].id, r)
  }

  lemma ListedRoom(mgr: Manager<Ref>, rooms: RoomMap, ref: Ref, room: Room)
    requires Listed(mgr, rooms) && ref in rooms
    requires room.id == rooms[ref].id && (room.lifecycle.Open? ==> rooms[ref].lifecycle.Open?)
    ensures Listed(mgr, rooms[ref := room])
  {
  }

  lemma ListedRemove(mgr: Manager<Ref>, rooms: RoomMap, ref: Ref, room: Room)
    requires Listed(mgr, rooms) && ref in rooms && !room.lifecycle.Open?
    ensures Listed(Removed(mgr, rooms[ref].id, ref), rooms[ref := room])
  {
  }

  lemma RunWorkListed(p: Setup, s: State, n: nat, now: nat)
    requires Inv(p, s) && Listed(s.mgr, s.rooms)
    requires IsHead(s.items, s.strandOf, n) && s.items[n].Work? && s.items[n].room in s.rooms
    ensures var s' := RunWork(p, s, n, now); Listed(s'.mgr, s'.rooms)
  {
    var t := s.items[n];
    var room := s.rooms[t.room];
    HeadFacts(p, s, n);
    match t.phase {
      case Waiting => ListedRoom(s.mgr, s.rooms, t.room, Begin(t, room).1);
      case Applied(_) =>
      case Completing(_, _, _) => ListedRoom(s.mgr, s.rooms, t.room, Heard(room, t));
      case Emptied => ListedRemove(s.mgr, s.rooms, t.room, Shut(room));
    }
  }

  lemma RunTaskListed(p: Setup, s: State, n: nat, now: nat)
    requires Inv(p, s) && Listed(s.mgr, s.rooms)
    ensures var s' := RunTask(p, s, n, now); Listed(s'.mgr, s'.rooms)
  {
    if IsHead(s.items, s.strandOf, n) && s.items[n].room in s.rooms {
      var ref := s.items[n].room;
      if s.items[n].Work? {
        RunWorkListed(p, s, n, now);
      } else {
        HeadFacts(p, s, n);
        ListedRoom(s.mgr, s.rooms, ref, RunTask(p, s, n, now).rooms[ref]);
      }
    }
  }

  lemma ListedCreate(mgr: Manager<Ref>, rooms: RoomMap, n: Ref, room: Room, uid: Uid)
    requires Listed(mgr, rooms) && room.id !in mgr.rooms
    ensures Listed(Added(mgr, room.id, n, uid), rooms[n := room])
  {
  }

  lemma HandleListed(p: Setup, s: State, key: Key, request: Request, drawn: RoomId,
                     admitted: Registry<nat>, finished: Registry<nat>)
    requires p.strands > 0 && Listed(s.mgr, s.rooms) && (request.CreateRoom? ==> drawn !in s.mgr.rooms)
    ensures var s' := Handle(p, s, key, request, drawn, admitted, finished); Listed(s'.mgr, s'.rooms)
  {
    if request.CreateRoom? && !s.mgr.stopping {
      ListedCreate(s.mgr, s.rooms, s.next, NewRoom(drawn, request.uid, key.route), request.uid);
    }
  }

  lemma ReceiveListed(p: Setup, s: State, key: Key, request: Request, now: nat, done: nat, drawn: RoomId)
    requires p.strands > 0 && Listed(s.mgr, s.rooms) && (request.CreateRoom? ==> drawn !in s.mgr.rooms)
    ensures var s' := ReceiveAsk(p, s, key, request, now, done, drawn); Listed(s'.mgr, s'.rooms)
  {
    var admitted := AfterAdmit(p.cfg, s.reg, key, now, TicketNumber(s, request));
    HandleListed(p, s, key, request, drawn, admitted,
                 AfterFinish(p.cfg, admitted, key, TicketNumber(s, request), done));
  }

  lemma NextListed(p: Setup, s: State, l: Label)
    requires p.strands > 0 && Inv(p, s) && Listed(s.mgr, s.rooms) && FreshDraw(s, l)
    ensures Listed(Next(p, s, l).mgr, Next(p, s, l).rooms)
  {
    match l {
      case Receive(route, Ask(id, request), now, done, drawn) =>
        ReceiveListed(p, s, Key(route, id), request, now, done, drawn);
      case StrandStep(n, now) => RunTaskListed(p, s, n, now);
      case _ =>
    }
  }

  /** When room numbers are drawn fresh, every open room stays registered until
      shutdown. */
  lemma {:induction false} OpenRoomsAreListed(p: Setup, s: State, labels: seq<Label>)
    requires p.strands > 0 && Inv(p, s) && Listed(s.mgr, s.rooms) && FreshDraws(p, s, labels)
    ensures Listed(Run(p, s, labels).mgr, Run(p, s, labels).rooms)
    decreases |labels|
  {
    if labels != [] {
      NextListed(p, s, labels[0]);
      NextKeeps(p, s, labels[0]);
      OpenRoomsAreListed(p, Next(p, s, labels[0]), labels[1..]);
    }
  }
}
