/** A room job as an object on its session's strand, proved against the job steps of
    the User server's state machine. */
module RoomJobs {
  import opened Basics
  import opened Rooms
  import opened UserServer
  import opened UserInvariants

  class RoomJobObject {
    const session: nat
    const ask: Ask
    var finished: bool
    var done: bool                // holds the scheduler's completion callback
    var call: Option<Call>        // its request, as the channel knows it
    var replies: seq<Reply>
    var dones: nat
    ghost var ran: bool
    ghost var shutdown: bool

    ghost function Value(): Job
      reads this
    {
      Job(session, RoomJob(ask), if finished then Over(shutdown) else if ran then Running else Waiting,
          call, dones, |replies|, if replies == [] then None else Some(replies[|replies| - 1]))
    }

    ghost predicate Valid()
      reads this
    {
      && JobOk(Value())
      && (ran <==> call.Some?) && (done <==> ran && !finished) && (shutdown ==> finished)
    }

    constructor (session: nat, ask: Ask)
      ensures Valid() && Value() == NewJob(session, RoomJob(ask))
    {
      this.session, this.ask := session, ask;
      finished, done, call, replies, dones, ran, shutdown := false, false, None, [], 0, false, false;
    }

    /** Keeps the completion, issues request `id` for `uid` and sends it. */
    method Run(id: nat, uid: Uid, now: nat)
      requires Valid() && Value().stage.Waiting?
      modifies this
      ensures Valid()
      ensures Value() == Issue(old(Value()), NewCall(id, RequestOf(ask, uid), now).(sends := 1))
    {
      done, ran := true, true;
      var c := NewCall(id, RequestOf(ask, uid), now);
      call := Some(c.(sends := c.sends + 1));
    }

    method FinishJob()
      requires !finished && (done <==> call.Some?)
      modifies this`finished, this`done, this`dones
      ensures finished && !done && dones == old(dones) + if call.Some? then 1 else 0
    {
      finished := true;
      var callback := done;
      done := false;
      if callback {
        dones := dones + 1;
      }
    }

    /** Cancellation by shutdown: the request is withdrawn if it still can be. */
    method Cancel()
      requires Valid()
      requires Value().stage.Running? ==> call.value.sends == 1
      modifies this
      ensures Valid() && Value() == CancelJob(old(Value()))
    {
      if finished {
        return;
      }
      if call.Some? && call.value.place.InTable? {
        call := Some(call.value.(place := Dropped(true), cancels := call.value.cancels + 1));
      }
      FinishJob();
      shutdown := true;
    }

    /** The posted timeout or response arrives; only the first to find the job
        unfinished replies. A response of the wrong kind is dereferenced: the fault is
        reported and nothing else is said of what follows it. */
    method Handle() returns (fault: bool)
      requires Valid() && call.Some? && call.value.place.Posted? && (!finished ==> call.value.sends == 1)
      modifies this
      ensures Valid()
      ensures var was := old(Value());
        var cb := was.call.value.place.what;
        && (fault <==> !was.stage.Over? && cb.OnResponse? && !Fits(ask, cb.resp.of))
        && Value() == if was.stage.Over? || fault then Place(was, Handled(cb)) else Answered(was, ask, cb)
    {
      fault := false;
      var cb := call.value.place.what;
      call := Some(call.value.(place := Handled(cb)));
      if finished {
        return;
      }
      if cb.OnResponse? && !Fits(ask, cb.resp.of) {
        return true;
      }
      replies := replies + [ReplyOf(ask, cb)];
      FinishJob();
    }
  }
}
