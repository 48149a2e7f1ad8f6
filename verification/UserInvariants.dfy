/** What every step of the User server keeps. */
module UserInvariants {
  import opened Basics
  import opened UserServer
  import RoomServer

  // ---------------------------------------------------------------- one job

  /** A timeout comes at or after the deadline, a response strictly before. */
  predicate Timely(cb: Callback, deadline: nat)
  {
    match cb
    case OnTimeout(at) => at >= deadline
    case OnResponse(at, _) => at < deadline
  }

  /** Cancels sent by a request that stands at `w`. */
  function CancelsAt(w: Where): nat
  {
    match w
    case Posted(cb, _) => if cb.OnTimeout? then 1 else 0
    case Handled(cb) => if cb.OnTimeout? then 1 else 0
    case Dropped(withdrawn) => if withdrawn then 1 else 0
    case _ => 0
  }

  predicate PlaceOk(w: Where, deadline: nat)
  {
    match w
    case Taken(cb) => Timely(cb, deadline)
    case Posted(cb, _) => Timely(cb, deadline)
    case Handled(cb) => Timely(cb, deadline)
    case _ => true
  }

  predicate CallOk(c: Call)
  {
    c.sends <= 1 && c.cancels == CancelsAt(c.place) && PlaceOk(c.place, c.deadline)
  }

  /** The request is what was asked, for some user. */
  predicate Asks(ask: Ask, request: RoomServer.Request)
  {
    match ask
    case AskCreate => request.CreateRoom?
    case AskJoin(room) => request.JoinRoom? && request.room == room
    case AskLeave => request.LeaveRoom?
  }

  /** The whole story of a job. A room job that finishes other than by shutdown has
      replied exactly once, with what its one callback said; a shutdown has replied
      nothing; and every job that ran and finished called its completion once. */
  predicate JobOk(j: Job)
  {
    && (j.call.Some? ==> j.kind.RoomJob? && CallOk(j.call.value) && Asks(j.kind.ask, j.call.value.request))
    && match j.stage
       case Waiting => j.call.None? && j.dones == 0 && j.replies == 0 && j.reply.None?
       case Running =>
         && j.call.Some? && j.dones == 0 && j.replies == 0 && j.reply.None?
         && j.call.value.place != Dropped(true)
       case Over(shutdown) =>
         && j.dones == (if j.call.Some? || !shutdown then 1 else 0)
         && j.replies == (if j.reply.Some? then 1 else 0)
         && (j.reply.Some? <==> j.kind.RoomJob? && !shutdown)
         && (j.reply.Some? ==>
               && j.call.Some? && j.call.value.place.Handled?
               && j.reply.value == ReplyOf(j.kind.ask, j.call.value.place.how))
         && (j.call.Some? ==> j.call.value.sends == 1 && !j.call.value.place.InTable?)
  }

  ghost predicate JobsOk(jobs: Jobs)
  {
    forall j :: j in jobs ==> JobOk(jobs[j])
  }

  // ---------------------------------------------------------------- one session

  /** Jobs of session `sid`, all but the first not yet run. */
  ghost predicate Lined(sid: nat, q: seq<nat>, jobs: Jobs)
  {
    forall i :: 0 <= i < |q| ==> q[i] in jobs && jobs[q[i]].session == sid && (i > 0 ==> jobs[q[i]].stage.Waiting?)
  }

  /** The first job in line agrees with what the strand is in the middle of. */
  ghost predicate HeadOk(s: Session, jobs: Jobs)
  {
    match s.phase
    case Idle =>
      s.sched.q == [] || (s.sched.q[0] in jobs && jobs[s.sched.q[0]].stage.Running?
                          && jobs[s.sched.q[0]].call.Some? && jobs[s.sched.q[0]].call.value.sends == 1)
    case Starting(j) => s.sched.q != [] && s.sched.q[0] == j && j in jobs && jobs[j].stage.Waiting?
    case Sending(j) =>
      && s.sched.q != [] && s.sched.q[0] == j && j in jobs && jobs[j].stage.Running?
      && jobs[j].call.Some? && jobs[j].call.value.sends == 0
    case Cancelling(l) =>
      && s.sched.stopped && l != [] && l[0] in jobs && !jobs[l[0]].stage.Over?
      && (jobs[l[0]].stage.Running? && jobs[l[0]].call.Some? ==> jobs[l[0]].call.value.sends == 1)
  }

  /** The jobs still in line. */
  function Line(s: Session): seq<nat>
  {
    if s.phase.Cancelling? then s.phase.jobs else s.sched.q
  }

  predicate Done(j: Job) { j.stage == Over(false) }

  /** Jobs of session `sid` that are done. */
  ghost predicate AllDone(sid: nat, finished: seq<nat>, jobs: Jobs)
  {
    forall i :: 0 <= i < |finished| ==>
      finished[i] in jobs && jobs[finished[i]].session == sid && Done(jobs[finished[i]])
  }

  ghost predicate SessionOk(sid: nat, s: Session, jobs: Jobs)
  {
    && (s.sched.stopped ==> s.sched.q == [])
    && (!s.sched.stopped ==> s.sched.running == (s.sched.q != []))
    && Increasing(s.finished + Line(s))
    && AllDone(sid, s.finished, jobs)
    && Lined(sid, Line(s), jobs)
    && HeadOk(s, jobs)
  }

  ghost predicate SessionsOk(sessions: Sessions, jobs: Jobs)
  {
    forall sid :: sid in sessions ==> SessionOk(sid, sessions[sid], jobs)
  }

  /** A running job is the first in its session's line. */
  predicate First(s: Session, j: nat) { Line(s) != [] && Line(s)[0] == j }

  ghost predicate RunningFirst(jobs: Jobs, sessions: Sessions)
  {
    forall j :: j in jobs && jobs[j].session in sessions && jobs[j].stage.Running? ==>
      First(sessions[jobs[j].session], j)
  }

  /** A job that is done is on its session's record. */
  ghost predicate Recorded(jobs: Jobs, sessions: Sessions)
  {
    forall j :: j in jobs && jobs[j].session in sessions && Done(jobs[j]) ==>
      j in sessions[jobs[j].session].finished
  }

  /** Only a stopped session cancels its jobs. */
  ghost predicate Halted(jobs: Jobs, sessions: Sessions)
  {
    forall j :: j in jobs && jobs[j].session in sessions && jobs[j].stage == Over(true) ==>
      sessions[jobs[j].session].sched.stopped
  }

  // ---------------------------------------------------------------- bookkeeping

  ghost predicate Located(jobs: Jobs, sids: set<nat>, next: nat)
  {
    forall j :: j in jobs ==> j < next && jobs[j].session in sids
  }

  /** Request ids and the jobs that issued them are one to one. */
  ghost predicate Index(byId: map<nat, nat>, jobs: Jobs, nextId: nat)
  {
    && (forall id :: id in byId ==>
          && 1 <= id < nextId && byId[id] in jobs
          && jobs[byId[id]].call.Some? && jobs[byId[id]].call.value.id == id)
    && (forall j :: j in jobs && jobs[j].call.Some? ==>
          jobs[j].call.value.id in byId && byId[jobs[j].call.value.id] == j)
  }

  ghost predicate After(s: Session, n: nat)
  {
    && (forall i :: 0 <= i < |s.finished| ==> s.finished[i] < n)
    && (forall i :: 0 <= i < |Line(s)| ==> Line(s)[i] < n)
  }

  ghost predicate ContOk(n: nat, c: Cont, jobs: Jobs)
  {
    match c
    case Push(sid) => n in jobs && jobs[n].session == sid && jobs[n].stage.Waiting?
    case Stop(_) => true
    case Handle(sid, j) =>
      && j in jobs && jobs[j].session == sid && jobs[j].call.Some?
      && jobs[j].call.value.place.Posted? && jobs[j].call.value.place.cont == n
  }

  ghost predicate ContsOk(conts: Conts, jobs: Jobs, sids: set<nat>, next: nat)
  {
    forall n :: n in conts ==> n < next && conts[n].session in sids && ContOk(n, conts[n], jobs)
  }

  /** What is still to be pushed comes after all that has been. */
  ghost predicate PushesLater(conts: Conts, sessions: Sessions)
  {
    forall n :: n in conts && conts[n].Push? && conts[n].session in sessions ==> After(sessions[conts[n].session], n)
  }

  /** A posted continuation is on its session's strand. */
  ghost predicate PostedOk(jobs: Jobs, conts: Conts)
  {
    forall j :: j in jobs && jobs[j].call.Some? && jobs[j].call.value.place.Posted? ==>
      && jobs[j].call.value.place.cont in conts
      && conts[jobs[j].call.value.place.cont] == Handle(jobs[j].session, j)
  }

  /** While the channel is up nothing leaves the table silently except to be
      withdrawn, and without a fault every handled callback finished its job. */
  predicate AwakeOk(j: Job, up: bool, fault: bool)
  {
    && (up && j.call.Some? ==> j.call.value.place != Dropped(false))
    && (!fault && j.call.Some? && j.call.value.place.Handled? ==> j.stage.Over?)
  }

  ghost predicate Awake(jobs: Jobs, up: bool, fault: bool)
  {
    forall j :: j in jobs ==> AwakeOk(jobs[j], up, fault)
  }

  ghost predicate Books(jobs: Jobs, sids: set<nat>, next: nat, byId: map<nat, nat>, nextId: nat, up: bool, fault: bool)
  {
    && JobsOk(jobs)
    && Located(jobs, sids, next)
    && Index(byId, jobs, nextId) && nextId >= 1
    && Awake(jobs, up, fault)
  }

  ghost predicate Strands(sessions: Sessions, jobs: Jobs, conts: Conts, next: nat)
  {
    && SessionsOk(sessions, jobs)
    && RunningFirst(jobs, sessions)
    && Recorded(jobs, sessions)
    && Halted(jobs, sessions)
    && ContsOk(conts, jobs, sessions.Keys, next)
    && PushesLater(conts, sessions)
    && PostedOk(jobs, conts)
  }

  ghost predicate Inv(s: State)
  {
    && Books(s.jobs, s.sessions.Keys, s.next, s.byId, s.nextId, s.up, s.fault)
    && Strands(s.sessions, s.jobs, s.conts, s.next)
  }
}
