/** The User server as a state machine: per session a strand with its queue of
    continuations and its job scheduler; the Room request table, its timer thread and
    the thread that receives responses; and channel shutdown.

    A room job allocates its request id and table entry in one step and hands the
    message to the channel in another, so that a response or a timeout may come in
    between; taking an entry out of the table and running its callback are two steps;
    and shutdown cancels the queued jobs one step at a time. */
module UserServer {
  import opened Basics
  import opened Rooms
  import JobScheduler
  import RoomServer
  import PendingRequests

  /** What a client asks of a room job. */
  datatype Ask = AskCreate | AskJoin(wanted: RoomId) | AskLeave

  /** What a job that completes inside `run` does to its session: a login names the
      user, and the notice of a kick takes the session out of its room. */
  datatype Effect = LogIn(uid: Uid) | LeftRoom | NoEffect

  datatype Kind = RoomJob(ask: Ask) | LocalJob(effect: Effect)

  /** A Room response: the kind of request it answers, the answer, and which of the
      Room's requests it came from. */
  datatype Resp = Resp(of: RoomServer.Request, answer: RoomServer.Answer, tag: nat)

  datatype Callback = OnTimeout(at: nat) | OnResponse(at: nat, resp: Resp)

  /** Where a request stands: in the table; taken, callback not yet run; its
      continuation posted to the session; continuation run; or removed silently. */
  datatype Where =
    | InTable
    | Taken(why: Callback)
    | Posted(what: Callback, cont: nat)
    | Handled(how: Callback)
    | Dropped(withdrawn: bool)

  /** A request and the number of messages sent for it. */
  datatype Call = Call(id: nat, request: RoomServer.Request, deadline: nat, place: Where, sends: nat, cancels: nat)

  datatype Stage = Waiting | Running | Over(shutdown: bool)

  datatype Reply = Reply(success: bool, room: RoomId, tag: Option<nat>)

  /** `dones` counts completion callbacks, `replies` the replies to the client. */
  datatype Job = Job(session: nat, kind: Kind, stage: Stage, call: Option<Call>,
                     dones: nat, replies: nat, reply: Option<Reply>)

  /** A continuation on a session's strand. A pushed job bears its own number. */
  datatype Cont = Push(session: nat) | Stop(session: nat) | Handle(session: nat, job: nat)

  /** What the strand is in the middle of. */
  datatype Phase = Idle | Starting(job: nat) | Sending(job: nat) | Cancelling(jobs: seq<nat>)

  /** `finished` records, in order, the jobs that finished other than by shutdown. */
  datatype Session = Session(uid: Uid, room: RoomId, sched: JobScheduler.Sched<nat>, phase: Phase, finished: seq<nat>)

  type Jobs = map<nat, Job>
  type Conts = map<nat, Cont>
  type Sessions = map<nat, Session>

  datatype State = State(
    sessions: Sessions,
    jobs: Jobs,
    conts: Conts,
    byId: map<nat, nat>,   // which job issued a request id
    nextId: nat,
    next: nat,
    up: bool,              // the channel's timer runs
    fault: bool)           // a response of the wrong kind was dereferenced

  datatype Label =
    | Connect(session: nat)
    | Submit(session: nat, kind: Kind)
    | Disconnect(session: nat)
    | Step(session: nat, cont: nat, now: nat)
    | Expire(id: nat, now: nat)
    | Respond(id: nat, resp: Resp, now: nat)
    | Fire(id: nat)
    | StopChannel
    | Clear(id: nat)

  function Start(): State { State(map[], map[], map[], map[], 1, 0, true, false) }

  // ---------------------------------------------------------------- jobs

  function RequestOf(ask: Ask, uid: Uid): RoomServer.Request
  {
    match ask
    case AskCreate => RoomServer.CreateRoom(uid)
    case AskJoin(room) => RoomServer.JoinRoom(uid, room)
    case AskLeave => RoomServer.LeaveRoom(uid)
  }

  /** A response can be read by a job only if it is of the kind the job expects. */
  predicate Fits(ask: Ask, of: RoomServer.Request)
  {
    match ask
    case AskCreate => of.CreateRoom?
    case AskJoin(_) => of.JoinRoom?
    case AskLeave => of.LeaveRoom?
  }

  function NewJob(session: nat, kind: Kind): Job { Job(session, kind, Waiting, None, 0, 0, None) }

  function NewCall(id: nat, request: RoomServer.Request, now: nat): Call
  {
    Call(id, request, now + PendingRequests.TIMEOUT, InTable, 0, 0)
  }

  function Issue(j: Job, c: Call): Job { j.(stage := Running, call := Some(c)) }

  function Place(j: Job, w: Where): Job
    requires j.call.Some?
  {
    j.(call := Some(j.call.value.(place := w)))
  }

  /** A job that ran holds a completion callback, which finishing calls. */
  function Finish(j: Job, shutdown: bool): Job
  {
    j.(stage := Over(shutdown), dones := j.dones + if j.call.Some? then 1 else 0)
  }

  /** The request is withdrawn from the table if it is still there. */
  function Withdraw(j: Job): Job
  {
    if j.call.Some? && j.call.value.place.InTable?
    then j.(call := Some(j.call.value.(place := Dropped(true), cancels := j.call.value.cancels + 1)))
    else j
  }

  function CancelJob(j: Job): Job
  {
    if j.stage.Over? then j else Finish(Withdraw(j), true)
  }

  function ReplyOf(ask: Ask, cb: Callback): Reply
  {
    match cb
    case OnTimeout(_) => Reply(false, if ask.AskJoin? then ask.wanted else 0, None)
    case OnResponse(_, resp) =>
      Reply(resp.answer.success, if ask.AskLeave? then 0 else resp.answer.room, Some(resp.tag))
  }

  function Answered(j: Job, ask: Ask, cb: Callback): Job
    requires j.call.Some?
  {
    Finish(Place(j, Handled(cb)).(replies := j.replies + 1, reply := Some(ReplyOf(ask, cb))), false)
  }

  // ---------------------------------------------------------------- sessions

  /** The room the session believes it is in after a reply. */
  function RoomAfter(room: RoomId, ask: Ask, cb: Callback): RoomId
  {
    match cb
    case OnTimeout(_) => room
    case OnResponse(_, resp) =>
      match ask
      case AskCreate => resp.answer.room
      case AskJoin(_) => if resp.answer.success then resp.answer.room else room
      case AskLeave => 0
  }

  /** The completion callback: the head is popped and the next one started. */
  function AfterDone(s: Session): Session
  {
    if s.sched.q == [] then s
    else
      var sched := JobScheduler.Pop(s.sched);
      s.(sched := sched, phase := if sched.q == [] then Idle else Starting(sched.q[0]))
  }

  function AfterPush(s: Session, j: nat): Session
  {
    var sched := JobScheduler.Enqueue(s.sched, j);
    s.(sched := sched, phase := if s.sched.running then s.phase else Starting(sched.q[0]))
  }

  function AfterStop(s: Session): Session
  {
    s.(sched := JobScheduler.Emptied(s.sched), phase := if s.sched.q == [] then Idle else Cancelling(s.sched.q))
  }

  function AfterLocal(s: Session, effect: Effect): Session
  {
    match effect
    case LogIn(uid) => s.(uid := uid)
    case LeftRoom => s.(room := 0)
    case NoEffect => s
  }

  function AfterReply(s: Session, j: nat, ask: Ask, cb: Callback): Session
  {
    AfterDone(s.(room := RoomAfter(s.room, ask, cb), finished := s.finished + [j]))
  }

  // ---------------------------------------------------------------- steps

  function Put(s: State, sid: nat, session: Session, j: nat, job: Job): State
  {
    s.(sessions := s.sessions[sid := session], jobs := s.jobs[j := job])
  }

  /** The head job's `run`, up to the entry in the table. */
  function StartJob(s: State, sid: nat, j: nat, now: nat): State
    requires sid in s.sessions && j in s.jobs
  {
    var session, job := s.sessions[sid], s.jobs[j];
    match job.kind
    case LocalJob(effect) =>
      Put(s, sid, AfterDone(AfterLocal(session, effect).(finished := session.finished + [j])), j, job.(stage := Over(false), dones := job.dones + 1))
    case RoomJob(ask) =>
      var job' := Issue(job, NewCall(s.nextId, RequestOf(ask, session.uid), now));
      Put(s, sid, session.(phase := Sending(j)), j, job').(byId := s.byId[s.nextId := j], nextId := s.nextId + 1)
  }

  /** The rest of the head job's `run`. */
  function SendOut(s: State, sid: nat, j: nat): State
    requires sid in s.sessions && j in s.jobs && s.jobs[j].call.Some?
  {
    var c := s.jobs[j].call.value;
    Put(s, sid, s.sessions[sid].(phase := Idle), j, s.jobs[j].(call := Some(c.(sends := c.sends + 1))))
  }

  function CancelNext(s: State, sid: nat, jobs: seq<nat>): State
    requires sid in s.sessions && jobs != [] && jobs[0] in s.jobs
  {
    var rest := jobs[1..];
    Put(s, sid, s.sessions[sid].(phase := if rest == [] then Idle else Cancelling(rest)), jobs[0], CancelJob(s.jobs[jobs[0]]))
  }

  /** The posted timeout or response reaches its job. */
  function HandleJob(s: State, sid: nat, j: nat): State
    requires sid in s.sessions && j in s.jobs && s.jobs[j].call.Some? && s.jobs[j].call.value.place.Posted?
  {
    var session, job := s.sessions[sid], s.jobs[j];
    var cb := job.call.value.place.what;
    if job.stage.Over? || !job.kind.RoomJob? then Put(s, sid, session, j, Place(job, Handled(cb)))
    else if cb.OnResponse? && !Fits(job.kind.ask, cb.resp.of) then
      Put(s, sid, session, j, Place(job, Handled(cb))).(fault := true)
    else Put(s, sid, AfterReply(session, j, job.kind.ask, cb), j, Answered(job, job.kind.ask, cb))
  }

  predicate IsHead(conts: Conts, n: nat)
  {
    && n in conts
    && forall m :: m in conts && conts[m].session == conts[n].session ==> n <= m
  }

  function RunCont(s: State, sid: nat, n: nat): State
    requires sid in s.sessions && n in s.conts
  {
    var s1 := s.(conts := s.conts - {n});
    match s.conts[n]
    case Push(_) =>
      if n !in s.jobs then s1
      else if s.sessions[sid].sched.stopped then Put(s1, sid, s.sessions[sid], n, CancelJob(s.jobs[n]))
      else Put(s1, sid, AfterPush(s.sessions[sid], n), n, s.jobs[n])
    case Stop(_) =>
      if s.sessions[sid].sched.stopped then s1
      else s1.(sessions := s.sessions[sid := AfterStop(s.sessions[sid])])
    case Handle(_, j) =>
      if j in s.jobs && s.jobs[j].call.Some? && s.jobs[j].call.value.place.Posted? then HandleJob(s1, sid, j) else s1
  }

  function StrandStep(s: State, sid: nat, n: nat, now: nat): State
    requires sid in s.sessions
  {
    match s.sessions[sid].phase
    case Starting(j) => if j in s.jobs then StartJob(s, sid, j, now) else s
    case Sending(j) => if j in s.jobs && s.jobs[j].call.Some? then SendOut(s, sid, j) else s
    case Cancelling(jobs) => if jobs != [] && jobs[0] in s.jobs then CancelNext(s, sid, jobs) else s
    case Idle => if IsHead(s.conts, n) && s.conts[n].session == sid then RunCont(s, sid, n) else s
  }

  predicate Issued(s: State, id: nat)
  {
    id in s.byId && s.byId[id] in s.jobs && s.jobs[s.byId[id]].call.Some?
  }

  function CallOf(s: State, id: nat): Call
    requires Issued(s, id)
  {
    s.jobs[s.byId[id]].call.value
  }

  function Move(s: State, id: nat, w: Where): State
    requires Issued(s, id)
  {
    s.(jobs := s.jobs[s.byId[id] := Place(s.jobs[s.byId[id]], w)])
  }

  /** The taken request's callback: a timeout sends a cancel, and continuation `n` is
      posted to the job's session. */
  function Fired(was: Job, n: nat): Job
    requires was.call.Some? && was.call.value.place.Taken?
  {
    var c, cb := was.call.value, was.call.value.place.why;
    was.(call := Some(c.(place := Posted(cb, n), cancels := c.cancels + if cb.OnTimeout? then 1 else 0)))
  }

  function FireCall(s: State, j: nat): State
    requires j in s.jobs && s.jobs[j].call.Some? && s.jobs[j].call.value.place.Taken?
  {
    var job := Fired(s.jobs[j], s.next);
    s.(jobs := s.jobs[j := job], conts := s.conts[s.next := Handle(job.session, j)], next := s.next + 1)
  }

  function Next(s: State, l: Label): State
  {
    match l
    case Connect(sid) =>
      if sid in s.sessions then s else s.(sessions := s.sessions[sid := Session("", 0, JobScheduler.Fresh(), Idle, [])])
    case Submit(sid, kind) =>
      if sid !in s.sessions then s
      else s.(jobs := s.jobs[s.next := NewJob(sid, kind)], conts := s.conts[s.next := Push(sid)], next := s.next + 1)
    case Disconnect(sid) =>
      if sid !in s.sessions then s else s.(conts := s.conts[s.next := Stop(sid)], next := s.next + 1)
    case Step(sid, n, now) => if sid in s.sessions then StrandStep(s, sid, n, now) else s
    case Expire(id, now) =>
      if s.up && Issued(s, id) && CallOf(s, id).place.InTable? && CallOf(s, id).deadline <= now
      then Move(s, id, Taken(OnTimeout(now))) else s
    case Respond(id, resp, now) =>
      if Issued(s, id) && CallOf(s, id).place.InTable?
      then Move(s, id, Taken(if now >= CallOf(s, id).deadline then OnTimeout(now) else OnResponse(now, resp))) else s
    case Fire(id) =>
      if Issued(s, id) && CallOf(s, id).place.Taken? then FireCall(s, s.byId[id]) else s
    case StopChannel => s.(up := false)
    case Clear(id) =>
      if !s.up && Issued(s, id) && CallOf(s, id).place.InTable? then Move(s, id, Dropped(false)) else s
  }

  function Run(s: State, labels: seq<Label>): State
    decreases |labels|
  {
    if labels == [] then s else Run(Next(s, labels[0]), labels[1..])
  }
}
