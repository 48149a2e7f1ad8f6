/** Runs of both servers in which a cancel overtakes its ask, because the request times
    out between being issued and being sent: one in which the Room server remembers the
    cancel until the ask comes, and one in which it does not. */
module EndToEndWitnesses {
  import opened QueuedRequests
  import opened EndToEnd
  import opened EndToEndCancels
  import RoomServer
  import U = UserServer
  import W = UserWitnesses

  const SETUP: RoomServer.Setup := RoomServer.Setup(Config(9, 30), 1)

  /** A registry with one place. */
  const SMALL: RoomServer.Setup := RoomServer.Setup(Config(1, 30), 1)

  /** Request 1 has timed out, its cancel is sent, and the request itself is not. */
  ghost function Cancelled(p: RoomServer.Setup): State
    requires p.strands > 0
  {
    Run(p, "r", Start(), Lift(W.Before() + W.Early()))
  }

  lemma CancelledIs(p: RoomServer.Setup)
    requires p.strands > 0
    ensures Cancelled(p) == Start().(u := W.TimedOut(0, U.Sending(0)))
    ensures Overtakes(Cancelled(p), 1)
  {
    W.Begins();
    W.EarlyRun();
    W.RunAppend(U.Start(), W.Before(), W.Early());
    LiftRuns(p, "r", Start(), W.Before() + W.Early());
  }

  function SendLate(): Label { User(U.Step(0, 0, 0)) }

  lemma RunOne(p: RoomServer.Setup, s: State, l: Label)
    requires p.strands > 0
    ensures Run(p, "r", s, [l]) == Next(p, "r", s, l)
  {
    assert [l][1..] == [];
  }

  lemma AskFollows(p: RoomServer.Setup, s: State)
    requires p.strands > 0 && s.u == W.TimedOut(0, U.Sending(0)) && s.asked == {}
    ensures AskSent(Next(p, "r", s, SendLate()), 1) && Next(p, "r", s, SendLate()).r == s.r
  {
    W.LateSend();
  }

  lemma CancelArrives(p: RoomServer.Setup, s: State)
    requires p.strands > 0 && p.cfg.capacity > 0 && s == Start().(u := W.TimedOut(0, U.Sending(0)))
    ensures
      var s1 := Next(p, "r", s, ArriveCancel(1, 0));
      && s1.u == s.u && s1.asked == {}
      && s1.r.reg.active == map[] && s1.r.reg.terminal == map[Key("r", 1) := p.cfg.retention]
  {
    assert Pruned(map[], 0) == map[];
  }

  /** A run that `CancelOvertakesAsk` is about: the cancel arrives first, then the ask,
      and the ask brings no request. */
  lemma CancelCanOvertake()
    ensures
      var s1 := Next(SETUP, "r", Cancelled(SETUP), ArriveCancel(1, 0));
      var s2 := Run(SETUP, "r", s1, [SendLate()]);
      && Overtakes(Cancelled(SETUP), 1) && AskSent(s2, 1)
      && Unheard(Next(SETUP, "r", s2, ArriveAsk(1, 1, 2, 0)), "r", 1)
  {
    var s1 := Next(SETUP, "r", Cancelled(SETUP), ArriveCancel(1, 0));
    CancelledIs(SETUP);
    CancelArrives(SETUP, Cancelled(SETUP));
    RunOne(SETUP, s1, SendLate());
    AskFollows(SETUP, s1);
    Decides(SETUP, ArriveCancel(1, 0), [SendLate()], 1, 2);
  }

  /** Whether the ask brings a request depends on the registry alone. */
  lemma Decides(p: RoomServer.Setup, l: Label, mid: seq<Label>, at: nat, done: nat)
    requires p.strands > 0 && AskSent(Run(p, "r", Next(p, "r", Cancelled(p), l), mid), 1)
    ensures
      var s2 := Run(p, "r", Next(p, "r", Cancelled(p), l), mid);
      Unheard(Next(p, "r", s2, ArriveAsk(1, at, done, 0)), "r", 1) <==> !Admissible(p.cfg, s2.r.reg, Key("r", 1), at)
  {
    StartIsSound(p, "r");
    RunKeeps(p, "r", Start(), Lift(W.Before() + W.Early()));
    NextKeeps(p, "r", Cancelled(p), l);
    RunKeeps(p, "r", Next(p, "r", Cancelled(p), l), mid);
    AskArrives(p, "r", Run(p, "r", Next(p, "r", Cancelled(p), l), mid), 1, at, done, 0);
  }

  /** Another User server's cancel. */
  function OtherCancel(): Label { Label.Room(RoomServer.Receive("x", RoomServer.CancelAsk(5), 1, 1, 0)) }

  lemma OtherCrowds(s: State)
    requires s.r.reg.active == map[] && s.r.reg.terminal == map[Key("r", 1) := 30]
    ensures
      var s' := Next(SMALL, "r", s, OtherCancel());
      s'.u == s.u && s'.asked == s.asked && Admissible(SMALL.cfg, s'.r.reg, Key("r", 1), 2)
  {
    var t := s.r.reg.terminal;
    assert Pruned(t, 1) == t;
    assert t.Keys == {Key("r", 1)};
    assert Oldest(t) == Key("r", 1);
  }

  /** A run in which the cancel that came first is forgotten: a single place, and a
      cancel from elsewhere in between. The ask then brings a request. */
  lemma CancelCanBeForgotten()
    ensures
      var s1 := Next(SMALL, "r", Cancelled(SMALL), ArriveCancel(1, 0));
      var s2 := Run(SMALL, "r", s1, [OtherCancel(), SendLate()]);
      && Overtakes(Cancelled(SMALL), 1) && AskSent(s2, 1)
      && !Unheard(Next(SMALL, "r", s2, ArriveAsk(1, 2, 3, 0)), "r", 1)
  {
    var s1 := Next(SMALL, "r", Cancelled(SMALL), ArriveCancel(1, 0));
    var sx := Next(SMALL, "r", s1, OtherCancel());
    CancelledIs(SMALL);
    CancelArrives(SMALL, Cancelled(SMALL));
    OtherCrowds(s1);
    assert [OtherCancel(), SendLate()][1..] == [SendLate()];
    RunOne(SMALL, sx, SendLate());
    AskFollows(SMALL, sx);
    Decides(SMALL, ArriveCancel(1, 0), [OtherCancel(), SendLate()], 2, 3);
  }
}
