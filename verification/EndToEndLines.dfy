/** No client waits for ever: every job of every session, not only the first in line, in
    runs of both servers and the network. */
module EndToEndLines {
  import opened Rooms
  import opened EndToEnd
  import U = UserServer
  import US = UserSteps
  import UP = UserProgress
  import UL = UserLines
  import UT = UserTurns
  import R = RoomServer

  /** The labels of both servers in which the first in line gets its due. */
  datatype Turn = Turn(first: seq<Label>, rest: seq<Label>)

  ghost function AfterTurn(p: R.Setup, route: Route, s: State, t: Turn): State
    requires p.strands > 0
  {
    Run(p, route, Run(p, route, s, t.first), t.rest)
  }

  /** What the User server does in a turn. */
  ghost function OwnTurn(p: R.Setup, route: Route, s: State, t: Turn): UT.Turn
    requires p.strands > 0
  {
    UT.Turn(OwnUser(p, route, s, t.first), OwnUser(p, route, Run(p, route, s, t.first), t.rest))
  }

  ghost function AfterTurns(p: R.Setup, route: Route, s: State, turns: seq<Turn>): State
    requires p.strands > 0
    decreases |turns|
  {
    if turns == [] then s else AfterTurns(p, route, AfterTurn(p, route, s, turns[0]), turns[1..])
  }

  ghost function OwnTurns(p: R.Setup, route: Route, s: State, turns: seq<Turn>): seq<UT.Turn>
    requires p.strands > 0
    decreases |turns|
  {
    if turns == [] then []
    else [OwnTurn(p, route, s, turns[0])] + OwnTurns(p, route, AfterTurn(p, route, s, turns[0]), turns[1..])
  }

  lemma TurnProjects(p: R.Setup, route: Route, s: State, t: Turn)
    requires p.strands > 0
    ensures AfterTurn(p, route, s, t).u == UT.AfterTurn(s.u, OwnTurn(p, route, s, t))
  {
    UserProjection(p, route, s, t.first);
    UserProjection(p, route, Run(p, route, s, t.first), t.rest);
  }

  lemma {:induction false} TurnsProject(p: R.Setup, route: Route, s: State, turns: seq<Turn>)
    requires p.strands > 0
    ensures |OwnTurns(p, route, s, turns)| == |turns|
    ensures AfterTurns(p, route, s, turns).u == UT.AfterTurns(s.u, OwnTurns(p, route, s, turns))
    decreases |turns|
  {
    if turns != [] {
      var s1 := AfterTurn(p, route, s, turns[0]);
      TurnProjects(p, route, s, turns[0]);
      TurnsProject(p, route, s1, turns[1..]);
      assert OwnTurns(p, route, s, turns)[1..] == OwnTurns(p, route, s1, turns[1..]);
    }
  }

  lemma {:induction false} TurnsKeep(p: R.Setup, route: Route, s: State, turns: seq<Turn>)
    requires p.strands > 0 && Inv(p, route, s)
    ensures Inv(p, route, AfterTurns(p, route, s, turns))
    decreases |turns|
  {
    if turns != [] {
      RunKeeps(p, route, s, turns[0].first);
      RunKeeps(p, route, Run(p, route, s, turns[0].first), turns[0].rest);
      TurnsKeep(p, route, AfterTurn(p, route, s, turns[0]), turns[1..]);
    }
  }

  lemma Reached(p: R.Setup, route: Route, before: seq<Label>)
    requires p.strands > 0
    ensures Inv(p, route, Run(p, route, Start(), before)) && UL.AllSomewhere(Run(p, route, Start(), before).u)
  {
    StartIsSound(p, route);
    RunKeeps(p, route, Start(), before);
    UserProjection(p, route, Start(), before);
    US.StartIsSound();
    UL.RunSomewhere(U.Start(), OwnUser(p, route, Start(), before));
  }

  /** Whatever is lost, delayed or interleaved while the channel is not stopped: in every
      run of both servers made of turns, each of which gives the job that is then first
      in a session's line its due, every job in the line is over after as many turns as
      there were jobs up to it. */
  lemma LinesFinishInEveryRun(p: R.Setup, route: Route, before: seq<Label>, turns: seq<Turn>, sid: nat, i: nat)
    requires p.strands > 0
    requires
      var s := Run(p, route, Start(), before);
      && s.u.up && sid in s.u.sessions && i < |UL.LineOf(s.u, sid)| && i < |turns|
      && UT.ServeAll(s.u, sid, OwnTurns(p, route, s, turns))
    ensures
      var s := Run(p, route, Start(), before);
      UL.IsOver(AfterTurns(p, route, s, turns).u, UL.LineOf(s.u, sid)[i])
  {
    var s := Run(p, route, Start(), before);
    Reached(p, route, before);
    TurnsProject(p, route, s, turns);
    TurnsKeep(p, route, s, turns);
    NoFault(p, route, AfterTurns(p, route, s, turns));
    LineIsServed(p, route, s, sid, OwnTurns(p, route, s, turns), i);
  }

  lemma LineIsServed(p: R.Setup, route: Route, s: State, sid: nat, turns: seq<UT.Turn>, i: nat)
    requires Inv(p, route, s) && s.u.up && sid in s.u.sessions && i < |UL.LineOf(s.u, sid)| && i < |turns|
    requires UT.ServeAll(s.u, sid, turns)
    ensures UT.AfterTurns(s.u, turns).fault || UL.IsOver(UT.AfterTurns(s.u, turns), UL.LineOf(s.u, sid)[i])
  {
    UT.LineFinishes(s.u, sid, turns, i);
  }

  /** And from every reachable state every job, wherever it is, can be finished by
      expiries, callbacks and steps of its own session's strand, and nothing else. */
  lemma EveryJobAlwaysFinishes(p: R.Setup, route: Route, before: seq<Label>, j: nat) returns (labels: seq<Label>)
    requires p.strands > 0 && Run(p, route, Start(), before).u.up && j in Run(p, route, Start(), before).u.jobs
    ensures OnItsOwn(labels, Run(p, route, Start(), before).u.jobs[j].session)
    ensures UL.IsOver(Run(p, route, Run(p, route, Start(), before), labels).u, j)
  {
    var s := Run(p, route, Start(), before);
    Reached(p, route, before);
    var ul := CanFinish(p, route, s, j);
    LiftLabels(ul, s.u.jobs[j].session);
    LiftRuns(p, route, s, ul);
    labels := Lift(ul);
    RunKeeps(p, route, s, labels);
    NoFault(p, route, Run(p, route, s, labels));
  }

  lemma CanFinish(p: R.Setup, route: Route, s: State, j: nat) returns (ul: seq<U.Label>)
    requires Inv(p, route, s) && UL.AllSomewhere(s.u) && s.u.up && j in s.u.jobs
    ensures UP.AllByItself(ul, s.u.jobs[j].session)
    ensures U.Run(s.u, ul).fault || UL.IsOver(U.Run(s.u, ul), j)
  {
    ul := UT.EveryJobCanFinish(s.u, j);
  }
}
