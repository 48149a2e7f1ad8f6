/** What a timeout means: the client is told failure, and the Room server may have
    executed the request all the same. Exactly when it did, and a run in which it does. */
module EndToEndTimeouts {
  import opened Basics
  import opened QueuedRequests
  import opened Rooms
  import opened EndToEnd
  import U = UserServer
  import UI = UserInvariants
  import R = RoomServer
  import RT = RoomTheorems
  import RX = RoomExecutions
  import W = UserWitnesses

  /** Job `j` has told its client of a timeout. */
  predicate ToldTimeout(s: State, j: nat)
  {
    j in s.u.jobs && s.u.jobs[j].reply.Some? && s.u.jobs[j].reply.value.tag.None?
  }

  /** The Room server's request number `n` is the one with this id. */
  predicate HeldFor(s: State, route: Route, id: nat, n: nat)
  {
    n in s.r.items && RT.IsRequest(s.r.items[n]) && RT.ReqOf(s.r.items[n]).key == Key(route, id)
  }

  /** It has been executed. */
  ghost predicate ExecutedFor(s: State, route: Route, id: nat)
  {
    exists n :: HeldFor(s, route, id, n) && RX.IsExecuted(s.r, n)
  }

  /** A job that has told its client of a timeout has sent its request once and one
      cancel. */
  lemma TimeoutFacts(job: U.Job)
    requires UI.JobOk(job) && job.reply.Some? && job.reply.value.tag.None?
    ensures !job.reply.value.success && job.call.Some? && job.call.value.sends == 1 && job.call.value.cancels == 1
  {
  }

  /** In every run of both servers: a client that is told of a timeout is told failure,
      and its request and one cancel have been sent. The request was executed all the
      same if and only if the Room server holds it and one of the Room server's own
      labels created its room, or was the step in which its strand came to it, the room
      took it, and no cancel for it had come since its ask. */
  lemma WhatATimeoutMeans(p: R.Setup, route: Route, labels: seq<Label>, j: nat)
    requires p.strands > 0 && ToldTimeout(Run(p, route, Start(), labels), j)
    ensures
      var s, own := Run(p, route, Start(), labels), OwnRoom(p, route, Start(), labels);
      var job := s.u.jobs[j];
      && !job.reply.value.success && job.call.Some? && job.call.value.sends == 1 && job.call.value.cancels == 1
      && (ExecutedFor(s, route, job.call.value.id) <==>
            exists n, k :: HeldFor(s, route, job.call.value.id, n) && RX.TakesEffectAt(p, own, k, n))
  {
    var s, own := Run(p, route, Start(), labels), OwnRoom(p, route, Start(), labels);
    TimeoutJob(p, route, labels, j);
    var id := s.u.jobs[j].call.value.id;
    RoomProjection(p, route, Start(), labels);
    if n :| HeldFor(s, route, id, n) && RX.IsExecuted(s.r, n) {
      RX.ExecutedExactly(p, own, n);
      var k :| RX.TakesEffectAt(p, own, k, n);
    }
    if n, k :| HeldFor(s, route, id, n) && RX.TakesEffectAt(p, own, k, n) {
      RX.ExecutedExactly(p, own, n);
    }
  }

  lemma TimeoutJob(p: R.Setup, route: Route, labels: seq<Label>, j: nat)
    requires p.strands > 0 && ToldTimeout(Run(p, route, Start(), labels), j)
    ensures
      var job := Run(p, route, Start(), labels).u.jobs[j];
      !job.reply.value.success && job.call.Some? && job.call.value.sends == 1 && job.call.value.cancels == 1
  {
    StartIsSound(p, route);
    RunKeeps(p, route, Start(), labels);
    TimeoutFacts(Run(p, route, Start(), labels).u.jobs[j]);
  }

  // ---------------------------------------------------------------- a run in which it does

  const SETUP: R.Setup := R.Setup(Config(9, 30), 1)

  /** Someone else's room 7, with its announcement; the client's request to join it is
      sent and executed; and then it times out. */
  function CreateRoom(): Label { Label.Room(R.Receive("x", R.Ask(1, R.CreateRoom("o")), 0, 0, 7)) }
  function Announce(): Label { Label.Room(R.StrandStep(0, 0)) }
  function Sends(): seq<U.Label> { W.Before() + [U.Step(0, 0, 0), U.Step(0, 0, 0)] }
  function Arrive(): Label { ArriveAsk(1, 0, 0, 0) }
  function Join(): Label { Label.Room(R.StrandStep(2, 0)) }
  function TimesOut(): seq<U.Label> { [U.Expire(1, W.DUE), U.Fire(1), U.Step(0, 1, 0)] }

  /** Room 7 is there, as instance 0, and nothing of route "r" is known. */
  ghost predicate Made(r: R.State, items: R.Items)
  {
    && r.items == items && r.next == 2 && r.strandOf == map[0 := 0]
    && 0 in r.rooms && r.rooms[0].lifecycle.Open? && r.mgr.rooms == map[7 := 0]
    && r.reg.active == map[] && Key("r", 1) !in r.reg.terminal
  }

  lemma Creates() returns (over: R.Item)
    ensures over.Past? && Made(Next(SETUP, "r", Start(), CreateRoom()).r, map[0 := R.Notice(0), 1 := over])
    ensures Next(SETUP, "r", Start(), CreateRoom()).u == U.Start() && Next(SETUP, "r", Start(), CreateRoom()).asked == {}
  {
    var s := Next(SETUP, "r", Start(), CreateRoom());
    assert Pruned(map[], 0) == map[];
    over := s.r.items[1];
    assert s.r.items == map[0 := R.Notice(0), 1 := over];
    assert map[Key("x", 1) := 1] - {Key("x", 1)} == map[];
  }

  lemma Announces(s: State, over: R.Item)
    requires over.Past? && Made(s.r, map[0 := R.Notice(0), 1 := over])
    ensures
      var s' := Next(SETUP, "r", s, Announce());
      Made(s'.r, map[1 := over]) && s'.u == s.u && s'.asked == s.asked
  {
    assert R.IsHead(s.r.items, s.r.strandOf, 0);
    assert s.r.items - {0} == map[1 := over];
  }

  function Joining(ticket: TicketState, execs: nat): R.Req
  {
    R.Req(Key("r", 1), R.JoinRoom("", 7), ticket, execs, None, 0, None)
  }

  lemma Arrives(s: State, over: R.Item)
    requires over.Past? && Made(s.r, map[1 := over]) && s.u == W.OnItsWay() && s.asked == {}
    ensures
      var s' := Next(SETUP, "r", s, Arrive());
      && s'.u == s.u && 0 in s'.r.rooms && s'.r.rooms[0].lifecycle.Open? && s'.r.strandOf == map[0 := 0]
      && s'.r.items == map[1 := over, 2 := R.Work(0, Joining(Queued, 0), R.Waiting)]
  {
    assert Admissible(SETUP.cfg, s.r.reg, Key("r", 1), 0);
    assert R.Target(s.r.mgr, R.JoinRoom("", 7)) == Some(0);
  }

  lemma Joins(s: State, over: R.Item)
    requires over.Past? && 0 in s.r.rooms && s.r.rooms[0].lifecycle.Open? && s.r.strandOf == map[0 := 0]
    requires s.r.items == map[1 := over, 2 := R.Work(0, Joining(Queued, 0), R.Waiting)]
    ensures
      var s' := Next(SETUP, "r", s, Join());
      s'.u == s.u && HeldFor(s', "r", 1, 2) && RX.IsExecuted(s'.r, 2)
  {
    assert R.IsHead(s.r.items, s.r.strandOf, 2);
  }

  lemma UserSends()
    ensures U.Run(U.Start(), Sends()) == W.OnItsWay()
  {
    W.Begins();
    W.Steps();
    W.RunAppend(U.Start(), W.Before(), [U.Step(0, 0, 0), U.Step(0, 0, 0)]);
    assert [U.Step(0, 0, 0), U.Step(0, 0, 0)][1..] == [U.Step(0, 0, 0)] && [U.Step(0, 0, 0)][1..] == [];
    assert U.Run(W.Issued(), [U.Step(0, 0, 0)]) == W.OnItsWay();
  }

  lemma UserTimesOut()
    ensures
      var u := U.Run(W.OnItsWay(), TimesOut());
      0 in u.jobs && u.jobs[0].reply == Some(U.Reply(false, 7, None)) && u.jobs[0].call.Some? && u.jobs[0].call.value.id == 1
  {
    W.Steps();
    W.RunThree(W.OnItsWay(), U.Expire(1, W.DUE), U.Fire(1), U.Step(0, 1, 0));
    W.Handled();
  }

  ghost function After(labels: seq<Label>): State { Run(SETUP, "r", Start(), labels) }

  lemma {:induction false} RunAppend(s: State, a: seq<Label>, b: seq<Label>)
    ensures Run(SETUP, "r", s, a + b) == Run(SETUP, "r", Run(SETUP, "r", s, a), b)
    decreases |a|
  {
    if a == [] {
      assert a + b == b;
    } else {
      assert (a + b)[1..] == a[1..] + b;
      RunAppend(Next(SETUP, "r", s, a[0]), a[1..], b);
    }
  }

  lemma RunTwo(s: State, a: Label, b: Label)
    ensures Run(SETUP, "r", s, [a, b]) == Next(SETUP, "r", Next(SETUP, "r", s, a), b)
  {
    assert [a, b][1..] == [b] && [b][1..] == [];
    assert Run(SETUP, "r", Next(SETUP, "r", s, a), [b]) == Next(SETUP, "r", Next(SETUP, "r", s, a), b);
  }

  lemma RoomIsReady() returns (over: R.Item)
    ensures
      var s := After([CreateRoom(), Announce()]);
      over.Past? && Made(s.r, map[1 := over]) && s.u == U.Start() && s.asked == {}
  {
    RunTwo(Start(), CreateRoom(), Announce());
    over := Creates();
    Announces(Next(SETUP, "r", Start(), CreateRoom()), over);
  }

  lemma UserMoves(before: seq<Label>, ul: seq<U.Label>)
    requires forall i :: 0 <= i < |ul| ==> !ul[i].Respond?
    ensures After(before + Lift(ul)) == After(before).(u := U.Run(After(before).u, ul))
  {
    RunAppend(Start(), before, Lift(ul));
    LiftRuns(SETUP, "r", After(before), ul);
  }

  lemma AskIsSent() returns (over: R.Item)
    ensures
      var s := After([CreateRoom(), Announce()] + Lift(Sends()));
      over.Past? && Made(s.r, map[1 := over]) && s.u == W.OnItsWay() && s.asked == {}
  {
    over := RoomIsReady();
    AllSends();
    UserMoves([CreateRoom(), Announce()], Sends());
    UserSends();
  }

  lemma AllSends()
    ensures forall i :: 0 <= i < |Sends()| ==> !Sends()[i].Respond?
  {
  }

  lemma JoinIsExecuted(before: seq<Label>, over: R.Item)
    requires over.Past? && Made(After(before).r, map[1 := over]) && After(before).u == W.OnItsWay() && After(before).asked == {}
    ensures
      var s := After(before + [Arrive(), Join()]);
      s.u == W.OnItsWay() && HeldFor(s, "r", 1, 2) && RX.IsExecuted(s.r, 2)
  {
    RunAppend(Start(), before, [Arrive(), Join()]);
    RunTwo(After(before), Arrive(), Join());
    Arrives(After(before), over);
    Joins(Next(SETUP, "r", After(before), Arrive()), over);
  }

  lemma AndTimesOut(before: seq<Label>)
    requires After(before).u == W.OnItsWay() && HeldFor(After(before), "r", 1, 2) && RX.IsExecuted(After(before).r, 2)
    ensures
      var s := After(before + Lift(TimesOut()));
      ToldTimeout(s, 0) && s.u.jobs[0].call.Some? && ExecutedFor(s, "r", s.u.jobs[0].call.value.id)
  {
    UserMoves(before, TimesOut());
    UserTimesOut();
    assert HeldFor(After(before + Lift(TimesOut())), "r", 1, 2);
  }

  /** A run in which a client is told of a timeout, and its join was executed. */
  lemma TimeoutAfterJoin()
    ensures
      var s := After([CreateRoom(), Announce()] + Lift(Sends()) + [Arrive(), Join()] + Lift(TimesOut()));
      ToldTimeout(s, 0) && s.u.jobs[0].call.Some? && ExecutedFor(s, "r", s.u.jobs[0].call.value.id)
  {
    var over := AskIsSent();
    JoinIsExecuted([CreateRoom(), Announce()] + Lift(Sends()), over);
    AndTimesOut([CreateRoom(), Announce()] + Lift(Sends()) + [Arrive(), Join()]);
  }
}
