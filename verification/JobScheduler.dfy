/** The per-session job scheduler: one job at a time, in the order pushed. */
module JobScheduler {

  /** The scheduler's own fields; `J` is a job. */
  datatype Sched<J> = Sched(q: seq<J>, running: bool, stopped: bool)

  function Fresh<J>(): Sched<J> { Sched([], false, false) }

  /** Push's locked part; the head must then be run if the scheduler was not running. */
  function Enqueue<J>(s: Sched<J>, j: J): Sched<J>
  {
    Sched(s.q + [j], true, s.stopped)
  }

  /** Completion's locked part; the new head, if any, must then be run. */
  function Pop<J>(s: Sched<J>): Sched<J>
    requires s.q != []
  {
    Sched(s.q[1..], |s.q| > 1, s.stopped)
  }

  /** Shutdown's locked part. */
  function Emptied<J>(s: Sched<J>): Sched<J>
  {
    Sched([], false, true)
  }

  // ---------------------------------------------------------------- with history

  /** A job either completes inside `run` or leaves its completion for later. */
  datatype Job = Job(name: string, sync: bool)

  /** Runs are numbered by their position in `started`; `completed` holds the runs
      whose completion flag is set. */
  datatype State = State(
    sched: Sched<Job>,
    pushed: seq<Job>,
    started: seq<Job>,
    finished: seq<Job>,
    cancelled: seq<Job>,
    completed: set<nat>)

  function Start(): State { State(Fresh(), [], [], [], [], {}) }

  function RunHead(s: State): State
    requires s.sched.q != []
    decreases |s.sched.q|, 1
  {
    var s1 := s.(started := s.started + [s.sched.q[0]]);
    if s.sched.q[0].sync then Advance(s1.(completed := s1.completed + {|s.started|})) else s1
  }

  /** `complete_current`: drop the head and run the next one, which may complete at
      once and so on; the queue shortens at every turn. */
  function Advance(s: State): State
    decreases |s.sched.q|, 0
  {
    if s.sched.q == [] then s
    else
      var s1 := s.(sched := Pop(s.sched), finished := s.finished + [s.sched.q[0]]);
      if s1.sched.q == [] then s1 else RunHead(s1)
  }

  function Pushed(s: State, j: Job): State
  {
    var s1 := s.(pushed := s.pushed + [j]);
    if s.sched.stopped then s1.(cancelled := s.cancelled + [j])
    else
      var s2 := s1.(sched := Enqueue(s.sched, j));
      if s.sched.running then s2 else RunHead(s2)
  }

  /** The completion callback of run `r`, called at any time, any number of times. */
  function Completed(s: State, r: nat): State
  {
    if r >= |s.started| || r in s.completed then s
    else Advance(s.(completed := s.completed + {r}))
  }

  function ShutDown(s: State): State
  {
    if s.sched.stopped then s
    else s.(sched := Emptied(s.sched), cancelled := s.cancelled + s.sched.q)
  }

  datatype Label = Push(job: Job) | Complete(run: nat) | Shutdown

  function Next(s: State, l: Label): State
  {
    match l
    case Push(j) => Pushed(s, j)
    case Complete(r) => Completed(s, r)
    case Shutdown => ShutDown(s)
  }

  function Run(s: State, labels: seq<Label>): State
    decreases |labels|
  {
    if labels == [] then s else Run(Next(s, labels[0]), labels[1..])
  }

  // ---------------------------------------------------------------- invariant

  /** The completed runs are exactly those below `n`. */
  ghost predicate AllBelow(completed: set<nat>, n: nat)
  {
    forall r: nat :: r in completed <==> r < n
  }

  /** Finished, queued and cancelled jobs, in that order, are the pushed ones; the
      started ones are a prefix of them, at most one ahead of the finished ones; and
      while the scheduler lives exactly the finished runs have completed. */
  ghost predicate Inv(s: State)
  {
    && s.finished + s.sched.q + s.cancelled == s.pushed
    && s.started <= s.pushed
    && |s.finished| <= |s.started| <= |s.finished| + 1
    && (s.sched.stopped ==> s.sched.q == [] && !s.sched.running)
    && (!s.sched.stopped ==>
          && s.cancelled == []
          && AllBelow(s.completed, |s.finished|)
          && s.sched.running == (s.sched.q != [])
          && |s.started| == |s.finished| + (if s.sched.running then 1 else 0))
  }

  /** Ready to run the head: everything holds except that it has not started. */
  ghost predicate Ready(s: State)
  {
    && s.finished + s.sched.q == s.pushed && s.sched.q != []
    && s.started == s.finished
    && !s.sched.stopped && s.sched.running && s.cancelled == []
    && AllBelow(s.completed, |s.finished|)
  }

  lemma {:induction false} RunHeadKeeps(s: State)
    requires Ready(s)
    ensures Inv(RunHead(s)) && !RunHead(s).sched.stopped
    ensures RunHead(s).pushed == s.pushed && s.finished <= RunHead(s).finished
    decreases |s.sched.q|
  {
    var head := s.sched.q[0];
    var s1 := s.(started := s.started + [head]);
    assert s.pushed[|s.finished|] == head;
    assert s1.started == s.pushed[..|s1.started|];
    if head.sync {
      var s2 := s1.(completed := s1.completed + {|s.started|});
      assert AllBelow(s2.completed, |s.finished| + 1);
      var s3 := s2.(sched := Pop(s.sched), finished := s.finished + [head]);
      assert s3.finished + s3.sched.q == s.pushed;
      if s3.sched.q != [] {
        RunHeadKeeps(s3);
      }
    }
  }

  /** The queue without the jobs at its front that complete at once. */
  function Unsynced(q: seq<Job>): seq<Job>
    decreases |q|
  {
    if q != [] && q[0].sync then Unsynced(q[1..]) else q
  }

  lemma {:induction false} RunHeadDrains(s: State)
    requires s.sched.q != []
    ensures RunHead(s).sched.q == Unsynced(s.sched.q) && RunHead(s).sched.stopped == s.sched.stopped
    ensures |RunHead(s).finished| == |s.finished| + |s.sched.q| - |Unsynced(s.sched.q)|
    decreases |s.sched.q|
  {
    var head := s.sched.q[0];
    if head.sync && |s.sched.q| > 1 {
      RunHeadDrains(s.(started := s.started + [head], completed := s.completed + {|s.started|},
                       sched := Pop(s.sched), finished := s.finished + [head]));
    }
  }

  lemma {:induction false} UnsyncedHead(q: seq<Job>)
    ensures Unsynced(q) == [] || !Unsynced(q)[0].sync
    decreases |q|
  {
    if q != [] && q[0].sync {
      UnsyncedHead(q[1..]);
    }
  }

  /** No job that has completed is still at the head. */
  predicate HeadWaits(s: State)
  {
    s.sched.q != [] ==> !s.sched.q[0].sync
  }

  lemma NextWaits(s: State, l: Label)
    requires Inv(s) && HeadWaits(s)
    ensures HeadWaits(Next(s, l))
  {
    if l.Push? && !s.sched.stopped && !s.sched.running {
      RunHeadDrains(s.(pushed := s.pushed + [l.job], sched := Enqueue(s.sched, l.job)));
      UnsyncedHead(s.sched.q + [l.job]);
    } else if l.Complete? && l.run < |s.started| && l.run !in s.completed && |s.sched.q| > 1 {
      RunHeadDrains(s.(completed := s.completed + {l.run}, sched := Pop(s.sched), finished := s.finished + [s.sched.q[0]]));
      UnsyncedHead(s.sched.q[1..]);
    }
  }

  lemma {:induction false} RunWaits(s: State, labels: seq<Label>)
    requires Inv(s) && HeadWaits(s)
    ensures HeadWaits(Run(s, labels))
    decreases |labels|
  {
    if labels != [] {
      NextWaits(s, labels[0]);
      NextKeeps(s, labels[0]);
      RunWaits(Next(s, labels[0]), labels[1..]);
    }
  }

  /** In every run a job that completes inside `run` never waits at the head: the queue
      has gone on to the first one that leaves its completion for later. */
  lemma SynchronousJobsPass(labels: seq<Label>)
    ensures HeadWaits(Run(Start(), labels))
  {
    RunWaits(Start(), labels);
  }

  lemma PushKeeps(s: State, j: Job)
    requires Inv(s)
    ensures Inv(Pushed(s, j))
  {
    if s.sched.stopped {
      assert s.finished + [] + (s.cancelled + [j]) == s.pushed + [j];
    } else {
      var s2 := s.(pushed := s.pushed + [j], sched := Enqueue(s.sched, j));
      assert s2.finished + s2.sched.q == s2.pushed;
      assert s2.finished + s2.sched.q + s2.cancelled == s2.pushed;
      if !s.sched.running {
        assert s.started == s.finished;
        RunHeadKeeps(s2);
      }
    }
  }

  /** A completion advances the queue only if its run is the one job that has started
      and not finished, and that job is the head. */
  lemma CompleteIsOfHead(s: State, r: nat)
    requires Inv(s) && !s.sched.stopped && r < |s.started| && r !in s.completed
    ensures r == |s.finished| && s.sched.q != [] && s.started[r] == s.sched.q[0]
  {
    assert s.pushed[|s.finished|] == s.sched.q[0];
  }

  lemma CompleteKeeps(s: State, r: nat)
    requires Inv(s)
    ensures Inv(Completed(s, r))
  {
    if r < |s.started| && r !in s.completed && !s.sched.stopped {
      CompleteIsOfHead(s, r);
      var s1 := s.(completed := s.completed + {r});
      assert AllBelow(s1.completed, |s.finished| + 1);
      var s2 := s1.(sched := Pop(s.sched), finished := s.finished + [s.sched.q[0]]);
      assert s2.finished + s2.sched.q == s.pushed;
      assert s2.finished == s.started;
      if s2.sched.q != [] {
        RunHeadKeeps(s2);
      } else {
        assert s2.finished + s2.sched.q + s2.cancelled == s.pushed;
      }
    }
  }

  lemma ShutDownKeeps(s: State)
    requires Inv(s)
    ensures Inv(ShutDown(s))
  {
    if !s.sched.stopped {
      assert s.finished + [] + (s.cancelled + s.sched.q) == s.pushed;
    }
  }

  lemma NextKeeps(s: State, l: Label)
    requires Inv(s)
    ensures Inv(Next(s, l))
  {
    match l {
      case Push(j) => PushKeeps(s, j);
      case Complete(r) => CompleteKeeps(s, r);
      case Shutdown => ShutDownKeeps(s);
    }
  }

  lemma {:induction false} RunKeeps(s: State, labels: seq<Label>)
    requires Inv(s)
    ensures Inv(Run(s, labels))
    decreases |labels|
  {
    if labels != [] {
      NextKeeps(s, labels[0]);
      RunKeeps(Next(s, labels[0]), labels[1..]);
    }
  }

  // ---------------------------------------------------------------- theorems

  /** Over every run of pushes, completions (synchronous, late or repeated) and
      shutdowns: jobs start in push order with at most one uncompleted, and every
      pushed job is finished, queued or cancelled, exactly one of them, in order. */
  lemma SerialInOrder(labels: seq<Label>)
    ensures
      var s := Run(Start(), labels);
      && s.started <= s.pushed
      && s.finished <= s.started && |s.started| <= |s.finished| + 1
      && s.pushed == s.finished + s.sched.q + s.cancelled
      && (!s.sched.stopped ==> s.cancelled == [])
      && (!s.sched.stopped && s.sched.q != [] ==> s.started == s.finished + [s.sched.q[0]])
  {
    RunKeeps(Start(), labels);
    var s := Run(Start(), labels);
    assert s.started == s.pushed[..|s.started|];
    assert s.finished == s.pushed[..|s.finished|];
    if !s.sched.stopped && s.sched.q != [] {
      assert s.pushed[|s.finished|] == s.sched.q[0];
    }
  }

  /** The jobs that the labels of a run push. */
  function PushesOf(labels: seq<Label>): seq<Job>
  {
    if labels == [] then []
    else (if labels[0].Push? then [labels[0].job] else []) + PushesOf(labels[1..])
  }

  lemma {:induction false} RunHeadPushes(s: State)
    requires s.sched.q != []
    ensures RunHead(s).pushed == s.pushed && RunHead(s).sched.stopped == s.sched.stopped
    decreases |s.sched.q|
  {
    var head := s.sched.q[0];
    if head.sync && |s.sched.q| > 1 {
      RunHeadPushes(s.(started := s.started + [head], completed := s.completed + {|s.started|},
                       sched := Pop(s.sched), finished := s.finished + [head]));
    }
  }

  lemma NextPushes(s: State, l: Label)
    ensures Next(s, l).pushed == s.pushed + (if l.Push? then [l.job] else [])
    ensures Next(s, l).sched.stopped <==> s.sched.stopped || l.Shutdown?
  {
    if l.Push? && !s.sched.stopped && !s.sched.running {
      RunHeadPushes(s.(pushed := s.pushed + [l.job], sched := Enqueue(s.sched, l.job)));
    } else if l.Complete? && l.run < |s.started| && l.run !in s.completed && |s.sched.q| > 1 {
      RunHeadPushes(s.(completed := s.completed + {l.run}, sched := Pop(s.sched), finished := s.finished + [s.sched.q[0]]));
    }
  }

  /** Exactly the jobs that were pushed, in that order, are the scheduler's, and it is
      stopped exactly if it was shut down. */
  lemma {:induction false} NothingIsDropped(s: State, labels: seq<Label>)
    ensures Run(s, labels).pushed == s.pushed + PushesOf(labels)
    ensures Run(s, labels).sched.stopped <==> s.sched.stopped || exists i :: 0 <= i < |labels| && labels[i].Shutdown?
    decreases |labels|
  {
    if labels != [] {
      NextPushes(s, labels[0]);
      NothingIsDropped(Next(s, labels[0]), labels[1..]);
      var first := if labels[0].Push? then [labels[0].job] else [];
      assert s.pushed + first + PushesOf(labels[1..]) == s.pushed + (first + PushesOf(labels[1..]));
      if i :| 0 <= i < |labels| && labels[i].Shutdown? {
        assert i > 0 ==> labels[1..][i - 1].Shutdown?;
      }
      if i :| 0 <= i < |labels[1..]| && labels[1..][i].Shutdown? {
        assert labels[i + 1].Shutdown?;
      }
    }
  }

  /** Whatever callback fires, the queue advances if and only if it is that of a run
      which has not fired before, and the scheduler is not stopped; and then the run is
      the head's own. */
  lemma OnlyTheHeadAdvances(labels: seq<Label>, r: nat)
    ensures
      var s := Run(Start(), labels);
      var s' := Completed(s, r);
      && (s'.finished != s.finished <==> !s.sched.stopped && r < |s.started| && r !in s.completed)
      && (s'.finished != s.finished ==>
            && r == |s.finished| && r in s'.completed
            && s.sched.q != [] && s.started[r] == s.sched.q[0]
            && |s'.finished| > r && s'.finished[r] == s.sched.q[0])
  {
    RunKeeps(Start(), labels);
    var s := Run(Start(), labels);
    if r < |s.started| && r !in s.completed && !s.sched.stopped {
      CompleteIsOfHead(s, r);
      CompleteKeeps(s, r);
      CompleteGrows(s, r);
    }
  }

  lemma CompleteGrows(s: State, r: nat)
    requires Inv(s) && !s.sched.stopped && r == |s.finished| < |s.started| && r !in s.completed && s.sched.q != []
    ensures s.finished + [s.sched.q[0]] <= Completed(s, r).finished
    ensures r in Completed(s, r).completed
  {
    var s1 := s.(completed := s.completed + {r});
    var s2 := s1.(sched := Pop(s.sched), finished := s.finished + [s.sched.q[0]]);
    CompleteKeeps(s, r);
    assert AllBelow(s1.completed, |s.finished| + 1);
    assert s2.finished + s2.sched.q == s.pushed;
    assert s2.finished == s.started;
    if s2.sched.q != [] {
      RunHeadKeeps(s2);
    }
  }

  /** Nothing starts, finishes or is queued after shutdown; later pushes are
      cancelled, each once, and a job that finished is never among the cancelled. */
  lemma {:induction false} NothingAfterShutdown(s: State, labels: seq<Label>)
    requires Inv(s) && s.sched.stopped
    ensures var s' := Run(s, labels);
      && s'.sched == s.sched && s'.started == s.started && s'.finished == s.finished
      && s'.pushed == s.finished + s'.cancelled
    decreases |labels|
  {
    if labels != [] {
      NextKeeps(s, labels[0]);
      NothingAfterShutdown(Next(s, labels[0]), labels[1..]);
    }
  }

  // ---------------------------------------------------------------- object

  class Scheduler {
    var q: seq<Job>
    var running: bool
    var stopped: bool
    var completed: set<nat>
    ghost var pushed: seq<Job>
    ghost var started: seq<Job>
    ghost var finished: seq<Job>
    ghost var cancelled: seq<Job>
    var runs: nat

    ghost function Value(): State
      reads this
    {
      State(Sched(q, running, stopped), pushed, started, finished, cancelled, completed)
    }

    ghost predicate Valid()
      reads this
    {
      Inv(Value()) && runs == |started|
    }

    constructor ()
      ensures Valid() && Value() == Start()
    {
      q, running, stopped, completed, runs := [], false, false, {}, 0;
      pushed, started, finished, cancelled := [], [], [], [];
    }

    method PushAndRun(j: Job)
      requires Valid()
      modifies this
      ensures Valid() && Value() == Pushed(old(Value()), j)
    {
      PushKeeps(Value(), j);
      var toRun := false;
      var rejected := stopped;
      pushed := pushed + [j];
      if !stopped {
        q := q + [j];
        if !running {
          running := true;
          toRun := true;
        }
      }
      if rejected {
        cancelled := cancelled + [j];
      } else if toRun {
        RunJob(q[0]);
      }
    }

    /** The completion callback handed to run `r`. */
    method OnComplete(r: nat)
      requires Valid() && r < runs
      modifies this
      ensures Valid() && Value() == Completed(old(Value()), r)
    {
      CompleteKeeps(Value(), r);
      if r in completed {
        return;
      }
      completed := completed + {r};
      CompleteCurrent();
    }

    /** The swapped queue is cancelled front to back, outside the lock. */
    method Shutdown()
      requires Valid()
      modifies this
      ensures Valid() && Value() == ShutDown(old(Value()))
    {
      if stopped {
        return;
      }
      ShutDownKeeps(Value());
      stopped := true;
      running := false;
      var dropped := q;
      q := [];
      while dropped != []
        invariant stopped && !running && q == [] && runs == |started|
        invariant unchanged(this`pushed, this`started, this`finished, this`completed)
        invariant cancelled + dropped == old(cancelled) + old(q)
        decreases |dropped|
      {
        var current := dropped[0];
        dropped := dropped[1..];
        cancelled := cancelled + [current];
      }
    }

    method RunJob(current: Job)
      requires q != [] && current == q[0] && runs == |started|
      modifies this
      ensures Value() == RunHead(old(Value())) && runs == |started|
      decreases |q|, 1
    {
      var r := runs;
      runs := runs + 1;
      started := started + [current];
      if current.sync {
        completed := completed + {r};
        CompleteCurrent();
      }
    }

    method CompleteCurrent()
      requires runs == |started|
      modifies this
      ensures Value() == Advance(old(Value())) && runs == |started|
      decreases |q|, 0
    {
      if q == [] {
        return;
      }
      finished := finished + [q[0]];
      q := q[1..];
      if q == [] {
        running := false;
        return;
      }
      running := true;
      RunJob(q[0]);
    }
  }
}
