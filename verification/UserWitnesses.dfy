/** Runs of the User server. One shows what `UserProgress.HeadFinishes` asks of a run: a
    session's only job is started, sent, times out, is called back and handled. In the
    other the request times out between being issued and being sent, so that its cancel
    is sent first. */
module UserWitnesses {
  import JobScheduler
  import PendingRequests
  import RoomServer
  import opened UserServer
  import opened UserSteps
  import opened UserProgress
  import UserTable

  const DUE: nat := PendingRequests.TIMEOUT
  const KIND: Kind := RoomJob(AskJoin(7))

  function Before(): seq<Label> { [Connect(0), Submit(0, KIND), Step(0, 0, 0)] }
  function First(): seq<Label> { [Step(0, 0, 0), Step(0, 0, 0), Expire(1, DUE), Fire(1)] }
  function Rest(): seq<Label> { [Step(0, 1, 0)] }

  /** The session has job 0, which is `job`, first in its line, in `phase`. */
  function With(job: Job, phase: Phase, conts: Conts, byId: map<nat, nat>, nextId: nat, next: nat): State
  {
    State(map[0 := Session("", 0, JobScheduler.Enqueue(JobScheduler.Fresh<nat>(), 0), phase, [])],
          map[0 := job], conts, byId, nextId, next, true, false)
  }

  function Called(place: Where, sends: nat, cancels: nat): Job
  {
    Issue(NewJob(0, KIND), Call(1, RoomServer.JoinRoom("", 7), DUE, place, sends, cancels))
  }

  function Started(): State { With(NewJob(0, KIND), Starting(0), map[], map[], 1, 1) }
  function Issued(): State { With(Called(InTable, 0, 0), Sending(0), map[], map[1 := 0], 2, 1) }
  function OnItsWay(): State { With(Called(InTable, 1, 0), Idle, map[], map[1 := 0], 2, 1) }
  function Expired(): State { With(Called(Taken(OnTimeout(DUE)), 1, 0), Idle, map[], map[1 := 0], 2, 1) }
  function CalledBack(): State
  {
    With(Called(Posted(OnTimeout(DUE), 1), 1, 1), Idle, map[1 := Handle(0, 0)], map[1 := 0], 2, 2)
  }

  lemma Begins()
    ensures Run(Start(), Before()) == Started()
  {
    var s1 := Next(Start(), Connect(0));
    var s2 := Next(s1, Submit(0, KIND));
    assert Next(s2, Step(0, 0, 0)) == Started();
    RunThree(Start(), Connect(0), Submit(0, KIND), Step(0, 0, 0));
  }

  lemma RunThree(s: State, a: Label, b: Label, c: Label)
    ensures Run(s, [a, b, c]) == Next(Next(Next(s, a), b), c)
  {
    assert [a, b, c][1..] == [b, c] && [b, c][1..] == [c] && [c][1..] == [];
    assert Run(Next(Next(s, a), b), [c]) == Next(Next(Next(s, a), b), c);
  }

  lemma Steps()
    ensures Next(Started(), Step(0, 0, 0)) == Issued()
    ensures Next(Issued(), Step(0, 0, 0)) == OnItsWay()
    ensures Next(OnItsWay(), Expire(1, DUE)) == Expired()
    ensures Next(Expired(), Fire(1)) == CalledBack()
  {
    var s := Next(Started(), Step(0, 0, 0));
    assert s.byId == map[1 := 0];
    assert s.jobs == Issued().jobs;
    assert s.sessions == Issued().sessions;
  }

  lemma AllUseful()
    ensures Useful(Started(), 0, 0, Step(0, 0, 0)) && Useful(Issued(), 0, 0, Step(0, 0, 0))
    ensures Useful(OnItsWay(), 0, 0, Expire(1, DUE)) && Useful(Expired(), 0, 0, Fire(1))
    ensures Useful(CalledBack(), 0, 0, Step(0, 1, 0))
  {
  }

  lemma Counts(s: State, l: Label, rest: seq<Label>)
    ensures Run(s, [l] + rest) == Run(Next(s, l), rest)
    ensures UsefulIn(s, [l] + rest, 0, 0) == (if Useful(s, 0, 0, l) then 1 else 0) + UsefulIn(Next(s, l), rest, 0, 0)
  {
    assert ([l] + rest)[1..] == rest;
  }

  lemma FirstLabels()
    ensures Run(Started(), First()) == CalledBack() && UsefulIn(Started(), First(), 0, 0) == 4
  {
    Steps();
    AllUseful();
    assert First() == [Step(0, 0, 0)] + ([Step(0, 0, 0)] + ([Expire(1, DUE)] + ([Fire(1)] + [])));
    Counts(Expired(), Fire(1), []);
    Counts(OnItsWay(), Expire(1, DUE), [Fire(1)] + []);
    Counts(Issued(), Step(0, 0, 0), [Expire(1, DUE)] + ([Fire(1)] + []));
    Counts(Started(), Step(0, 0, 0), [Step(0, 0, 0)] + ([Expire(1, DUE)] + ([Fire(1)] + [])));
  }

  lemma LastLabel()
    ensures UsefulIn(CalledBack(), Rest(), 0, 0) == 1 && NeededOf(CalledBack(), 0, 0) == 1
  {
    AllUseful();
    assert Rest() == [Step(0, 1, 0)] + [];
    Counts(CalledBack(), Step(0, 1, 0), []);
    assert Until(map[1 := Handle(0, 0)], 0, 1, 1) == 1;
  }

  /** Four useful labels until the continuation is posted, when the job is not over
      and needs one step, and with that step it is over and has replied. */
  ghost predicate Ordinary(s: State)
  {
    var s1 := Run(s, First());
    && UsefulIn(s, First(), 0, 0) == 4 && UsefulIn(s1, Rest(), 0, 0) == 1 == NeededOf(s1, 0, 0)
    && 0 in s1.jobs && !s1.jobs[0].stage.Over?
    && var s2 := Run(s1, Rest()); 0 in s2.jobs && s2.jobs[0].stage.Over? && s2.jobs[0].replies == 1
  }

  lemma StartedIsOrdinary()
    ensures Ordinary(Started())
  {
    FirstLabels();
    LastLabel();
    Handled();
  }

  /** The ordinary run of a session's only job meets what `HeadFinishes` asks for. */
  lemma LoneJobFinishes()
    ensures
      var s := Run(Start(), Before());
      AtHead(s, 0, 0) && LeftOf(s, 0, 0) == 5 && NoStop(First()) && NoStop(Rest()) && Ordinary(s)
  {
    Begins();
    IsAtHead();
    StartedIsOrdinary();
  }

  lemma IsAtHead()
    ensures AtHead(Started(), 0, 0) && LeftOf(Started(), 0, 0) == 5
  {
    Begins();
    StartIsSound();
    RunKeeps(Start(), Before());
  }

  lemma Handled()
    ensures var s2 := Run(CalledBack(), Rest()); 0 in s2.jobs && s2.jobs[0].stage.Over? && s2.jobs[0].replies == 1
  {
    assert Rest() == [Step(0, 1, 0)] + [];
    Counts(CalledBack(), Step(0, 1, 0), []);
  }

  // ---------------------------------------------------------------- the cancel is sent first

  /** The expiry and the callback come before the message is handed to the channel. */
  function Early(): seq<Label> { [Step(0, 0, 0), Expire(1, DUE), Fire(1)] }

  function TimedOut(sends: nat, phase: Phase): State
  {
    With(Called(Posted(OnTimeout(DUE), 1), sends, 1), phase, map[1 := Handle(0, 0)], map[1 := 0], 2, 2)
  }

  function Late(): State { With(Called(Taken(OnTimeout(DUE)), 0, 0), Sending(0), map[], map[1 := 0], 2, 1) }

  lemma EarlyRun()
    ensures Run(Started(), Early()) == TimedOut(0, Sending(0))
  {
    LateSteps();
    RunThree(Started(), Step(0, 0, 0), Expire(1, DUE), Fire(1));
  }

  lemma LateSteps()
    ensures Next(Started(), Step(0, 0, 0)) == Issued()
    ensures Next(Issued(), Expire(1, DUE)) == Late()
    ensures Next(Late(), Fire(1)) == TimedOut(0, Sending(0))
  {
    Steps();
  }

  lemma FiresBeforeSending()
    ensures UserTable.FiresEarlyIn(Started(), Early(), 1)
  {
    LateSteps();
    assert Early()[1..] == [Expire(1, DUE), Fire(1)] && [Expire(1, DUE), Fire(1)][1..] == [Fire(1)];
    assert UserTable.FiresEarlyIn(Late(), [Fire(1)], 1);
    assert UserTable.FiresEarlyIn(Issued(), [Expire(1, DUE), Fire(1)], 1);
  }

  lemma LateSend()
    ensures Next(TimedOut(0, Sending(0)), Step(0, 0, 0)) == TimedOut(1, Idle)
  {
  }

  lemma {:induction false} EarlyLater(s: State, a: seq<Label>, b: seq<Label>, id: nat)
    requires UserTable.FiresEarlyIn(Run(s, a), b, id)
    ensures UserTable.FiresEarlyIn(s, a + b, id)
    decreases |a|
  {
    if a == [] {
      assert a + b == b;
    } else {
      assert (a + b)[1..] == a[1..] + b;
      EarlyLater(Next(s, a[0]), a[1..], b, id);
    }
  }

  lemma {:induction false} RunAppend(s: State, a: seq<Label>, b: seq<Label>)
    ensures Run(s, a + b) == Run(Run(s, a), b)
    decreases |a|
  {
    if a == [] {
      assert a + b == b;
    } else {
      assert (a + b)[1..] == a[1..] + b;
      RunAppend(Next(s, a[0]), a[1..], b);
    }
  }

  /** A run in which the cancel is the first message about its request. */
  lemma CancelCanLead()
    ensures UserTable.FiresEarlyIn(Start(), Before() + Early(), 1)
  {
    Begins();
    FiresBeforeSending();
    EarlyLater(Start(), Before(), Early(), 1);
  }
}
