/** What the User server promises its clients, over every run. */
module UserTheorems {
  import opened Basics
  import opened UserServer
  import opened UserInvariants
  import opened UserSteps

  /** Timed out, or withdrawn while it was pending. */
  predicate CalledOff(w: Where)
  {
    match w
    case Posted(cb, _) => cb.OnTimeout?
    case Handled(cb) => cb.OnTimeout?
    case Dropped(withdrawn) => withdrawn
    case _ => false
  }

  /** A room job replies at most once and calls its completion at most once; exactly
      once each if it finished other than by shutdown, with what the one callback of
      its request said; its request is what its client asked, and a timeout names the
      room asked for. Once it is over its request was sent exactly once; and a cancel
      is sent, exactly one, if and only if the request timed out or was withdrawn, so
      never if a response was delivered. */
  lemma OneReplyEach(labels: seq<Label>, j: nat)
    requires j in Run(Start(), labels).jobs
    ensures
      var job := Run(Start(), labels).jobs[j];
      && job.replies <= 1 && job.dones <= 1
      && (job.stage.Over? && job.kind.RoomJob? ==>
            && job.replies == (if job.stage.shutdown then 0 else 1)
            && (job.call.Some? ==> Asks(job.kind.ask, job.call.value.request))
            && (!job.stage.shutdown && job.reply.Some? && job.reply.value.tag.None? ==>
                  job.reply.value == Reply(false, if job.kind.ask.AskJoin? then job.kind.ask.wanted else 0, None))
            && (!job.stage.shutdown ==>
                  && job.dones == 1 && job.call.Some? && job.call.value.place.Handled?
                  && job.reply == Some(ReplyOf(job.kind.ask, job.call.value.place.how))))
      && (job.call.Some? ==>
            var c := job.call.value;
            && c.sends <= 1 && (job.stage.Over? ==> c.sends == 1)
            && c.cancels == (if CalledOff(c.place) then 1 else 0)
            && (c.place.Handled? ==> Timely(c.place.how, c.deadline))
            && (c.place.Handled? && c.place.how.OnTimeout? ==> c.cancels == 1)
            && (c.place.Handled? && c.place.how.OnResponse? ==> c.cancels == 0))
  {
    StartIsSound();
    RunKeeps(Start(), labels);
    assert JobOk(Run(Start(), labels).jobs[j]);
  }

  /** A session finishes its jobs in the order they came in: its record is increasing
      and holds exactly its jobs that finished other than by shutdown, of which the
      room jobs are exactly those that replied. So replies leave in request order. */
  lemma RepliesInOrder(labels: seq<Label>, sid: nat)
    requires sid in Run(Start(), labels).sessions
    ensures
      var s := Run(Start(), labels);
      var finished := s.sessions[sid].finished;
      && (forall a, b :: 0 <= a < b < |finished| ==> finished[a] < finished[b])
      && (forall j :: j in finished <==> j in s.jobs && s.jobs[j].session == sid && s.jobs[j].stage == Over(false))
      && (forall j :: j in s.jobs && s.jobs[j].session == sid && s.jobs[j].kind.RoomJob? ==>
            (j in finished <==> s.jobs[j].replies == 1))
  {
    StartIsSound();
    RunKeeps(Start(), labels);
    var s := Run(Start(), labels);
    var session := s.sessions[sid];
    assert SessionOk(sid, session, s.jobs);
    InOrder(session.finished, Line(session));
    forall j | j in s.jobs && s.jobs[j].session == sid && s.jobs[j].kind.RoomJob?
      ensures j in session.finished <==> s.jobs[j].replies == 1
    {
      assert JobOk(s.jobs[j]);
    }
  }

  lemma InOrder(a: seq<nat>, b: seq<nat>)
    requires Increasing(a + b)
    ensures Increasing(a)
  {
    forall i, j | 0 <= i < j < |a| ensures a[i] < a[j] {
      assert (a + b)[i] == a[i] && (a + b)[j] == a[j];
    }
  }

  // ---------------------------------------------------------------- no lost wakeup

  /** While the channel is up, a job at the head of an idle strand is waiting for
      something that will come: its request is in the table, its callback is about
      to run, or its continuation is queued on the strand. */
  lemma NoLostWakeup(labels: seq<Label>, sid: nat)
    requires sid in Run(Start(), labels).sessions
    ensures
      var s := Run(Start(), labels);
      var session := s.sessions[sid];
      s.up && !s.fault && session.phase.Idle? && session.sched.q != [] ==>
        var j := session.sched.q[0];
        && j in s.jobs && s.jobs[j].call.Some?
        && match s.jobs[j].call.value.place
           case InTable => true
           case Taken(_) => true
           case Posted(_, n) => n in s.conts && s.conts[n] == Handle(sid, j)
           case _ => false
  {
    StartIsSound();
    RunKeeps(Start(), labels);
    var s := Run(Start(), labels);
    var session := s.sessions[sid];
    if s.up && !s.fault && session.phase.Idle? && session.sched.q != [] {
      HeadHolds(s, sid, session.sched.q[0]);
    }
  }
}
