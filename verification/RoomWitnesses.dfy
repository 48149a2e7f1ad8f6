/** Runs of the Room server that show what can happen: a cancel that wins, a create
    that is never answered, and a leave that empties its room, fails, and leaves the
    room open because its number was drawn again. */
module RoomWitnesses {
  import opened Basics
  import opened QueuedRequests
  import opened Rooms
  import opened RoomServer
  import opened RoomTheorems
  import opened RoomHistory

  const SETUP: Setup := Setup(Config(9, 0), 1)

  function CreateA(): Label { Receive("r", Ask(1, CreateRoom("a")), 0, 0, 7) }
  function JoinB(): Label { Receive("r", Ask(2, JoinRoom("b", 7)), 0, 0, 0) }
  function CancelB(): Label { Receive("r", CancelAsk(2), 0, 0, 0) }
  function LeaveA(): Label { Receive("r", Ask(2, LeaveRoom("a")), 0, 0, 0) }
  function CreateB(): Label { Receive("r", Ask(3, CreateRoom("b")), 0, 0, 7) }

  // ---------------------------------------------------------------- admission

  /** Nothing is outstanding or remembered but what `used` says. */
  ghost predicate Knows(reg: Registry<nat>, active: map<Key, nat>, used: set<Key>)
  {
    reg.active == active && |active| < 9 && |reg.terminal| <= 9 && reg.terminal.Keys <= used
  }

  lemma Registers(reg: Registry<nat>, key: Key, n: nat, active: map<Key, nat>, used: set<Key>)
    requires Knows(reg, active, used) && key !in active && key !in used
    ensures Admissible(SETUP.cfg, reg, key, 0)
    ensures
      var admitted := AfterAdmit(SETUP.cfg, reg, key, 0, n);
      && admitted.active == active[key := n] && admitted.terminal.Keys <= used && |admitted.terminal| <= 9
  {
    PrunedSize(reg.terminal, 0);
  }

  lemma Retires(reg: Registry<nat>, key: Key, n: nat, active: map<Key, nat>, used: set<Key>)
    requires reg.active == active[key := n] && key !in active && |active| < 9 && reg.terminal.Keys <= used && |reg.terminal| <= 9
    ensures Knows(AfterFinish(SETUP.cfg, reg, key, n, 0), active, used + {key})
  {
    PrunedSize(reg.terminal, 0);
    RememberedSize(SETUP.cfg, Pruned(reg.terminal, 0), key, 0);
    assert active[key := n] - {key} == active;
  }

  /** A key that is neither outstanding nor remembered is admitted. */
  lemma Admits(s: State, key: Key, request: Request, drawn: RoomId, active: map<Key, nat>, used: set<Key>)
    returns (admitted: Registry<nat>, finished: Registry<nat>)
    requires Knows(s.reg, active, used) && key !in active && key !in used
    ensures ReceiveAsk(SETUP, s, key, request, 0, 0, drawn) == Handle(SETUP, s, key, request, drawn, admitted, finished)
    ensures admitted.active == active[key := TicketNumber(s, request)] && admitted.terminal.Keys <= used && |admitted.terminal| <= 9
    ensures Knows(finished, active, used + {key})
  {
    var n := TicketNumber(s, request);
    admitted := AfterAdmit(SETUP.cfg, s.reg, key, 0, n);
    finished := AfterFinish(SETUP.cfg, admitted, key, n, 0);
    Registers(s.reg, key, n, active, used);
    Retires(admitted, key, n, active, used);
  }

  // ---------------------------------------------------------------- a create that is never answered

  /** The reason for the exception in `StartedFirst`: the manager is stopping, and the
      create that comes next is over and never answered. */
  lemma UnansweredCreate()
    ensures
      && Brings(SETUP, [Shutdown], CreateA(), 0)
      && var s := Run(SETUP, Start(), [Shutdown, CreateA()]);
         && 0 in s.items && IsRequest(s.items[0]) && Over(s.items[0])
         && ReqOf(s.items[0]).ticket.Started? && ReqOf(s.items[0]).sends == 0
  {
    var s1 := Next(SETUP, Start(), Shutdown);
    assert [Shutdown][1..] == [];
    var admitted, finished := Admits(s1, Key("r", 1), CreateRoom("a"), 7, map[], {});
    assert [Shutdown, CreateA()] == [Shutdown] + [CreateA()];
    RunSnoc(SETUP, Start(), [Shutdown], CreateA());
  }

  // ---------------------------------------------------------------- a cancel that wins

  /** Room 7 has been created by "a" as instance 0. */
  ghost predicate Created(s: State)
  {
    && s.items.Keys == {0, 1} && s.items[0] == Notice(0) && s.items[1].Past?
    && s.rooms == map[0 := NewRoom(7, "a", "r")] && s.strandOf == map[0 := 0]
    && s.mgr == Manager(map[7 := 0], map["a" := 7], false) && s.next == 2
    && Knows(s.reg, map[], {Key("r", 1)})
  }

  lemma Creates()
    ensures Created(Run(SETUP, Start(), [CreateA()]))
  {
    var admitted, finished := Admits(Start(), Key("r", 1), CreateRoom("a"), 7, map[], {});
    assert [CreateA()][1..] == [];
  }

  /** A request of `key` waits in room 0 as item 2. */
  ghost predicate Queues(s: State, key: Key, request: Request)
  {
    && s.items.Keys == {0, 1, 2} && s.items[0] == Notice(0) && s.items[1].Past?
    && s.items[2] == Work(0, NewReq(key, request, Queued), Waiting)
    && s.rooms == map[0 := NewRoom(7, "a", "r")] && s.strandOf == map[0 := 0]
    && s.mgr == Manager(map[7 := 0], map["a" := 7], false) && s.next == 3
    && s.reg.active == map[key := 2] && s.reg.terminal.Keys <= {Key("r", 1)} && |s.reg.terminal| <= 9
  }

  lemma Posts(s: State, request: Request, admitted: Registry<nat>)
    requires Created(s) && admitted.active == map[Key("r", 2) := 2]
    requires admitted.terminal.Keys <= {Key("r", 1)} && |admitted.terminal| <= 9
    ensures Queues(PostWork(s, Key("r", 2), request, 0, admitted), Key("r", 2), request)
    ensures Appears(s.items, PostWork(s, Key("r", 2), request, 0, admitted).items, 2)
  {
  }

  lemma Asks(s: State, request: Request)
    requires Created(s) && Target(s.mgr, request) == Some(0) && !request.CreateRoom?
    ensures Queues(ReceiveAsk(SETUP, s, Key("r", 2), request, 0, 0, 0), Key("r", 2), request)
    ensures Appears(s.items, ReceiveAsk(SETUP, s, Key("r", 2), request, 0, 0, 0).items, 2)
  {
    var admitted, finished := Admits(s, Key("r", 2), request, 0, map[], {Key("r", 1)});
    Posts(s, request, admitted);
  }

  lemma CancelLands(s: State)
    requires Queues(s, Key("r", 2), JoinRoom("b", 7))
    ensures var items' := Run(SETUP, s, [CancelB()]).items;
      2 in items' && Waits(items'[2]) && items'[2].req.ticket.Cancelled?
  {
    assert [CancelB()][1..] == [];
    assert Run(SETUP, s, [CancelB()]) == Next(SETUP, s, CancelB());
  }

  /** A run that `CancelledFirst` is about: the join still waits when its cancel has
      arrived, and its ticket is cancelled. */
  lemma CancelWins()
    ensures
      && Brings(SETUP, [CreateA()], JoinB(), 2) && AnyCancel([CancelB()], KeyOf(JoinB()))
      && var s := Run(SETUP, Run(SETUP, Start(), [CreateA()] + [JoinB()]), [CancelB()]);
         2 in s.items && Waits(s.items[2]) && s.items[2].req.ticket.Cancelled?
  {
    Creates();
    var s1 := Run(SETUP, Start(), [CreateA()]);
    Asks(s1, JoinRoom("b", 7));
    RunSnoc(SETUP, Start(), [CreateA()], JoinB());
    CancelLands(Next(SETUP, s1, JoinB()));
    assert CancelsKey([CancelB()][0], KeyOf(JoinB()));
  }

  // ---------------------------------------------------------------- a room that is never destroyed

  /** Before the leave begins: its owner's leave waits, and number 7 has been drawn
      again for instance 3. */
  ghost predicate DrawnAgain(s: State)
  {
    && s.items.Keys == {0, 1, 2, 3, 4} && s.items[0] == Notice(0) && s.items[1].Past?
    && s.items[2] == Work(0, NewReq(Key("r", 2), LeaveRoom("a"), Queued), Waiting)
    && s.items[3] == Notice(3) && s.items[4].Past?
    && s.rooms.Keys == {0, 3} && s.rooms[0] == NewRoom(7, "a", "r") && s.strandOf == map[0 := 0, 3 := 0]
    && Reassigned(s)
  }

  /** What the manager and the registry say while the leave runs. */
  ghost predicate Reassigned(s: State)
  {
    && s.mgr == Manager(map[7 := 3], map["a" := 7, "b" := 7], false)
    && Key("r", 2) in s.reg.active && s.reg.active[Key("r", 2)] == 2
  }

  lemma DrawsAgain(s: State)
    requires Queues(s, Key("r", 2), LeaveRoom("a"))
    ensures DrawnAgain(Next(SETUP, s, CreateB()))
  {
    var admitted, finished := Admits(s, Key("r", 3), CreateRoom("b"), 7, map[Key("r", 2) := 2], {Key("r", 1)});
    CreatesAgain(s, finished);
  }

  lemma CreatesAgain(s: State, finished: Registry<nat>)
    requires Queues(s, Key("r", 2), LeaveRoom("a")) && finished.active == map[Key("r", 2) := 2]
    ensures DrawnAgain(Create(SETUP, s, Key("r", 3), "b", 7, finished))
  {
    AgainItems(s, finished);
    AgainRest(s, finished);
  }

  lemma AgainItems(s: State, finished: Registry<nat>)
    requires Queues(s, Key("r", 2), LeaveRoom("a"))
    ensures
      var items' := Create(SETUP, s, Key("r", 3), "b", 7, finished).items;
      && items'.Keys == {0, 1, 2, 3, 4} && items'[0] == s.items[0] && items'[1] == s.items[1] && items'[2] == s.items[2]
      && items'[3] == Notice(3) && items'[4].Past?
  {
  }

  lemma AgainRest(s: State, finished: Registry<nat>)
    requires Queues(s, Key("r", 2), LeaveRoom("a")) && finished.active == map[Key("r", 2) := 2]
    ensures
      var s' := Create(SETUP, s, Key("r", 3), "b", 7, finished);
      && s'.rooms.Keys == {0, 3} && s'.rooms[0] == NewRoom(7, "a", "r")
      && s'.strandOf == map[0 := 0, 3 := 0] && Reassigned(s')
  {
    assert |s.mgr.rooms| % 1 == 0;
    assert map[7 := 0][7 := 3] == map[7 := 3];
  }

  /** The leave is at the head of the strand, in `phase`, and its room is `room`. */
  ghost predicate Runs(s: State, req: Req, phase: Phase, room: Room)
  {
    && s.items.Keys == {1, 2, 3, 4} && s.items[1].Past? && s.items[2] == Work(0, req, phase)
    && s.items[3] == Notice(3) && s.items[4].Past?
    && s.rooms.Keys == {0, 3} && s.rooms[0] == room && s.strandOf == map[0 := 0, 3 := 0]
    && Reassigned(s)
  }

  function Leaver(): Req { NewReq(Key("r", 2), LeaveRoom("a"), Queued) }
  function Started(): Req { Leaver().(ticket := TicketState.Started, execs := 1) }
  function Room0(users: map<Uid, Route>, log: seq<Event>): Room { Room(7, "a", users, Open, log) }

  lemma NoticeRuns(s: State)
    requires DrawnAgain(s)
    ensures Runs(Next(SETUP, s, StrandStep(0, 0)), Leaver(), Waiting, Room0(map["a" := "r"], [Event.Created]))
  {
    assert IsHead(s.items, s.strandOf, 0);
  }

  lemma LeaveBegins(s: State)
    requires Runs(s, Leaver(), Waiting, Room0(map["a" := "r"], [Event.Created]))
    ensures Runs(Next(SETUP, s, StrandStep(2, 0)), Started(), Applied(true), Room0(map[], [Event.Created]))
  {
    assert IsHead(s.items, s.strandOf, 2);
    assert map["a" := "r"] - {"a"} == map[];
  }

  lemma LeaveRefused(s: State)
    requires Runs(s, Started(), Applied(true), Room0(map[], [Event.Created]))
    ensures Refuses(s, 2)
    ensures Runs(Next(SETUP, s, StrandStep(2, 0)), Started(), Completing(false, true, true), Room0(map[], [Event.Created]))
  {
    assert IsHead(s.items, s.strandOf, 2);
  }

  /** The leave is answered, has been heard, and has its room still to close. */
  ghost predicate Answered(s: State)
  {
    && s.items.Keys == {1, 2, 3, 4} && s.items[1].Past? && s.items[3] == Notice(3) && s.items[4].Past?
    && s.items[2] == Work(0, Replied(Started(), Answer(false, 0)), Emptied)
    && s.rooms.Keys == {0, 3} && s.rooms[0] == Room0(map[], [Event.Created, Exited("a")]) && s.strandOf == map[0 := 0, 3 := 0]
    && s.mgr.rooms == map[7 := 3]
  }

  lemma LeaveCompletes(s: State)
    requires Runs(s, Started(), Completing(false, true, true), Room0(map[], [Event.Created]))
    ensures Complete(s.items[2], Holds(s.reg, Key("r", 2), 2)) == Work(0, Replied(Started(), Answer(false, 0)), Emptied)
    ensures Heard(s.rooms[0], s.items[2]) == Room0(map[], [Event.Created, Exited("a")])
  {
  }

  lemma LeaveAnswered(s: State)
    requires Runs(s, Started(), Completing(false, true, true), Room0(map[], [Event.Created]))
    ensures Answered(Next(SETUP, s, StrandStep(2, 0)))
  {
    LeaveCompletes(s);
    var reg' := CompletionIs(s);
    AnsweredNow(s, reg');
  }

  lemma CompletionIs(s: State) returns (reg': Registry<nat>)
    requires Runs(s, Started(), Completing(false, true, true), Room0(map[], [Event.Created]))
    ensures Next(SETUP, s, StrandStep(2, 0)) ==
            Update(s, 2, Complete(s.items[2], Holds(s.reg, Key("r", 2), 2)), 0, Heard(s.rooms[0], s.items[2])).(reg := reg')
  {
    assert IsHead(s.items, s.strandOf, 2);
    reg' := AfterFinish(SETUP.cfg, s.reg, Key("r", 2), 2, 0);
  }

  lemma AnsweredNow(s: State, reg': Registry<nat>)
    requires Runs(s, Started(), Completing(false, true, true), Room0(map[], [Event.Created]))
    ensures Answered(Update(s, 2, Work(0, Replied(Started(), Answer(false, 0)), Emptied), 0,
                            Room0(map[], [Event.Created, Exited("a")])).(reg := reg'))
  {
  }

  lemma LeaveEnds(s: State)
    requires Answered(s)
    ensures OverAndOpen(Next(SETUP, s, StrandStep(2, 0)))
  {
    assert IsHead(s.items, s.strandOf, 2);
  }

  ghost function After(labels: seq<Label>): State { Run(SETUP, Start(), labels) }

  lemma More(labels: seq<Label>, l: Label)
    ensures After(labels + [l]) == Next(SETUP, After(labels), l)
  {
    RunSnoc(SETUP, Start(), labels, l);
  }

  lemma Opening() returns (labels: seq<Label>)
    ensures Created(After(labels)) && NoShutdown(labels)
  {
    Creates();
    labels := [CreateA()];
  }

  lemma AsksToLeave(labels: seq<Label>)
    requires Created(After(labels))
    ensures Queues(After(labels + [LeaveA()]), Key("r", 2), LeaveRoom("a"))
  {
    Asks(After(labels), LeaveRoom("a"));
    More(labels, LeaveA());
  }

  lemma IsDrawnAgain(labels: seq<Label>)
    requires Queues(After(labels), Key("r", 2), LeaveRoom("a"))
    ensures DrawnAgain(After(labels + [CreateB()]))
  {
    DrawsAgain(After(labels));
    More(labels, CreateB());
  }

  /** "a" has created room 7 and asks to leave it; then number 7 is drawn again for "b". */
  lemma StoryBegins(first: seq<Label>) returns (labels: seq<Label>)
    requires Created(After(first)) && NoShutdown(first)
    ensures DrawnAgain(After(labels)) && NoShutdown(labels)
  {
    AsksToLeave(first);
    IsDrawnAgain(first + [LeaveA()]);
    labels := first + [LeaveA()] + [CreateB()];
  }

  /** The strand runs the notice and begins the leave. */
  lemma StoryLeaves(labels: seq<Label>) returns (before: seq<Label>)
    requires DrawnAgain(After(labels)) && NoShutdown(labels)
    ensures Runs(After(before), Started(), Applied(true), Room0(map[], [Event.Created])) && NoShutdown(before)
  {
    NoticeRuns(After(labels));
    More(labels, StrandStep(0, 0));
    before := labels + [StrandStep(0, 0)];
    LeaveBegins(After(before));
    More(before, StrandStep(2, 0));
    before := before + [StrandStep(2, 0)];
  }

  lemma IsRefused(labels: seq<Label>)
    requires Runs(After(labels), Started(), Applied(true), Room0(map[], [Event.Created]))
    ensures Runs(After(labels + [StrandStep(2, 0)]), Started(), Completing(false, true, true), Room0(map[], [Event.Created]))
  {
    LeaveRefused(After(labels));
    More(labels, StrandStep(2, 0));
  }

  lemma IsAnswered(labels: seq<Label>)
    requires Runs(After(labels), Started(), Completing(false, true, true), Room0(map[], [Event.Created]))
    ensures Answered(After(labels + [StrandStep(2, 0)]))
  {
    LeaveAnswered(After(labels));
    More(labels, StrandStep(2, 0));
  }

  ghost predicate OverAndOpen(s: State)
  {
    && 2 in s.items && s.items[2] == Past(Replied(Started(), Answer(false, 0)), false)
    && 0 in s.rooms && s.rooms[0] == Room0(map[], [Event.Created, Exited("a")])
  }

  lemma IsOver(labels: seq<Label>)
    requires Answered(After(labels))
    ensures OverAndOpen(After(labels + [StrandStep(2, 0)]))
  {
    LeaveEnds(After(labels));
    More(labels, StrandStep(2, 0));
  }

  /** The leave is refused, answered and over. */
  lemma StoryEnds(before: seq<Label>) returns (all: seq<Label>)
    requires Runs(After(before), Started(), Applied(true), Room0(map[], [Event.Created])) && NoShutdown(before)
    ensures all == before + [StrandStep(2, 0)] + [StrandStep(2, 0)] + [StrandStep(2, 0)]
    ensures NoShutdown(all) && OverAndOpen(After(all))
  {
    IsRefused(before);
    IsAnswered(before + [StrandStep(2, 0)]);
    IsOver(before + [StrandStep(2, 0)] + [StrandStep(2, 0)]);
    all := before + [StrandStep(2, 0)] + [StrandStep(2, 0)] + [StrandStep(2, 0)];
  }

  /** Why `EmptiedRoomsAreDestroyed` asks for fresh numbers, and what `FailureIsExplained`
      speaks of. A leave has emptied room 0 when the manager refuses it; it is answered
      with failure, having been executed; and when it is over the room is empty, still
      open, and was never destroyed. */
  lemma NumberDrawnAgain() returns (before: seq<Label>, all: seq<Label>)
    ensures before <= all && NoShutdown(all) && RefusedAt(SETUP, all, |before|, 2)
    ensures 2 in After(before).items && Emptying(After(before).items[2]) && After(before).items[2].room == 0
    ensures
      var s := After(all);
      && 2 in s.items && s.items[2].Past? && ReqOf(s.items[2]).answer == Some(Answer(false, 0)) && ReqOf(s.items[2]).execs == 1
      && 0 in s.rooms && s.rooms[0].users == map[] && s.rooms[0].lifecycle.Open? && Destroyed !in s.rooms[0].log
  {
    var labels := Opening();
    labels := StoryBegins(labels);
    before := StoryLeaves(labels);
    all := StoryEnds(before);
    LeaveRefused(After(before));
    assert all[..|before|] == before && all[|before|] == StrandStep(2, 0);
  }
}
