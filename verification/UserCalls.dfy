/** How the requests of the User server evolve from step to step. */
module UserCalls {
  import opened Basics
  import opened UserServer
  import opened UserInvariants
  import opened UserSteps

  /** The response that has been taken for a request, if any. */
  function RespAt(w: Where): Option<Resp>
  {
    match w
    case Taken(cb) => RespIn(cb)
    case Posted(cb, _) => RespIn(cb)
    case Handled(cb) => RespIn(cb)
    case _ => None
  }

  function RespIn(cb: Callback): Option<Resp>
  {
    if cb.OnResponse? then Some(cb.resp) else None
  }

  function Got(j: Job): Option<Resp>
  {
    if j.call.Some? then RespAt(j.call.value.place) else None
  }

  /** A job stays itself; its request, once issued, keeps its id and content; a reply
      stays; and no response appears. */
  predicate Continues(was: Job, job: Job)
  {
    && job.session == was.session && job.kind == was.kind
    && (was.call.Some? ==> job.call.Some? && job.call.value.id == was.call.value.id
                           && job.call.value.request == was.call.value.request)
    && (was.reply.Some? ==> job.reply == was.reply)
    && (Got(job).Some? ==> Got(job) == Got(was))
  }

  lemma CancelContinues(job: Job)
    requires JobOk(job)
    ensures Continues(job, CancelJob(job))
  {
  }

  /** The responses that have been taken fit the jobs they are for. */
  ghost predicate AllFit(jobs: Jobs)
  {
    forall j :: j in jobs && jobs[j].kind.RoomJob? && Got(jobs[j]).Some? ==> Fits(jobs[j].kind.ask, Got(jobs[j]).value.of)
  }

  /** Every job continues, and every id keeps its job. */
  ghost predicate AllContinue(s: State, s': State)
  {
    && (forall j :: j in s.jobs ==> j in s'.jobs && Continues(s.jobs[j], s'.jobs[j]))
    && (forall j :: j in s'.jobs && j !in s.jobs ==> s'.jobs[j].call.None?)
    && (forall id :: id in s.byId ==> id in s'.byId && s'.byId[id] == s.byId[id])
    && (AllFit(s.jobs) && s'.fault ==> s.fault)
  }

  lemma OneContinues(s: State, s': State, j: nat, job: Job)
    requires j in s.jobs && s'.jobs == s.jobs[j := job] && Continues(s.jobs[j], job)
    requires forall id :: id in s.byId ==> id in s'.byId && s'.byId[id] == s.byId[id]
    requires AllFit(s.jobs) && s'.fault ==> s.fault
    ensures AllContinue(s, s')
  {
  }

  lemma NewContinues(s: State, s': State, job: Job)
    requires Located(s.jobs, s.sessions.Keys, s.next) && s'.jobs == s.jobs[s.next := job] && job.call.None?
    requires s'.byId == s.byId && s'.fault == s.fault
    ensures AllContinue(s, s')
  {
  }

  lemma StartContinues(s: State, sid: nat, j: nat, now: nat)
    requires HeadFacts(s, sid, j) && s.sessions[sid].phase == Starting(j) && Index(s.byId, s.jobs, s.nextId)
    ensures AllContinue(s, StartJob(s, sid, j, now))
  {
    var s' := StartJob(s, sid, j, now);
    OneContinues(s, s', j, s'.jobs[j]);
  }

  lemma SendContinues(s: State, sid: nat, j: nat)
    requires HeadFacts(s, sid, j) && s.sessions[sid].phase == Sending(j)
    ensures s.jobs[j].call.Some? && AllContinue(s, SendOut(s, sid, j))
  {
    var s' := SendOut(s, sid, j);
    OneContinues(s, s', j, s'.jobs[j]);
  }

  lemma CancelNextContinues(s: State, sid: nat, l: seq<nat>)
    requires l != [] && HeadFacts(s, sid, l[0]) && s.sessions[sid].phase == Cancelling(l)
    ensures AllContinue(s, CancelNext(s, sid, l))
  {
    var s' := CancelNext(s, sid, l);
    CancelContinues(s.jobs[l[0]]);
    OneContinues(s, s', l[0], s'.jobs[l[0]]);
  }

  lemma PushContinues(s: State, sid: nat, n: nat)
    requires ContFacts(s, sid, n) && s.conts[n].Push? && JobOk(s.jobs[n])
    ensures AllContinue(s, RunCont(s, sid, n))
  {
    var s' := RunCont(s, sid, n);
    CancelContinues(s.jobs[n]);
    OneContinues(s, s', n, s'.jobs[n]);
  }

  lemma HandledContinues(job: Job)
    requires JobOk(job) && IsPosted(job)
    ensures Continues(job, Place(job, Handled(job.call.value.place.what)))
    ensures !job.stage.Over? ==> Continues(job, Answered(job, job.kind.ask, job.call.value.place.what))
  {
  }

  lemma HandleContinues(s: State, sid: nat, n: nat, j: nat)
    requires HandleFacts(s, sid, n, j)
    ensures AllContinue(s, RunCont(s, sid, n))
  {
    var s' := RunCont(s, sid, n);
    HandledContinues(s.jobs[j]);
    OneContinues(s, s', j, s'.jobs[j]);
  }

  lemma RunContContinues(s: State, sid: nat, n: nat)
    requires Inv(s) && ContFacts(s, sid, n)
    ensures AllContinue(s, RunCont(s, sid, n))
  {
    match s.conts[n] {
      case Push(_) => PushContinues(s, sid, n);
      case Stop(_) => StopContinues(s, sid, n);
      case Handle(_, j) =>
        HandleHolds(s, sid, n, j);
        HandleContinues(s, sid, n, j);
    }
  }

  lemma StopContinues(s: State, sid: nat, n: nat)
    requires ContFacts(s, sid, n) && s.conts[n].Stop?
    ensures AllContinue(s, RunCont(s, sid, n))
  {
  }

  lemma StepContinues(s: State, sid: nat, n: nat, now: nat)
    requires Inv(s) && sid in s.sessions
    ensures AllContinue(s, StrandStep(s, sid, n, now))
  {
    PhaseFirst(s, sid);
    match s.sessions[sid].phase {
      case Starting(j) =>
        HeadHolds(s, sid, j);
        StartContinues(s, sid, j, now);
      case Sending(j) =>
        HeadHolds(s, sid, j);
        SendContinues(s, sid, j);
      case Cancelling(l) =>
        HeadHolds(s, sid, l[0]);
        CancelNextContinues(s, sid, l);
      case Idle =>
        if IsHead(s.conts, n) && s.conts[n].session == sid {
          ContHolds(s, sid, n);
          RunContContinues(s, sid, n);
        } else {
          SameContinues(s);
        }
    }
  }

  lemma SameContinues(s: State)
    ensures AllContinue(s, s)
  {
  }

  lemma MoveContinues(s: State, id: nat, w: Where)
    requires Issued(s, id) && RespAt(w) == None
    ensures AllContinue(s, Move(s, id, w))
  {
    OneContinues(s, Move(s, id, w), s.byId[id], Place(s.jobs[s.byId[id]], w));
  }

  lemma FireCallContinues(s: State, j: nat)
    requires j in s.jobs && s.jobs[j].call.Some? && s.jobs[j].call.value.place.Taken?
    ensures AllContinue(s, FireCall(s, j))
  {
    OneContinues(s, FireCall(s, j), j, Fired(s.jobs[j], s.next));
  }

  lemma TableContinues(s: State, l: Label)
    requires l.Expire? || l.Fire? || l.Clear?
    ensures AllContinue(s, Next(s, l))
  {
    if Next(s, l) == s {
      SameContinues(s);
    } else {
      match l {
        case Fire(id) => FireCallContinues(s, s.byId[id]);
        case Expire(id, now) => MoveContinues(s, id, Taken(OnTimeout(now)));
        case Clear(id) => MoveContinues(s, id, Dropped(false));
      }
    }
  }

  lemma ClientContinues(s: State, l: Label)
    requires Located(s.jobs, s.sessions.Keys, s.next) && (l.Connect? || l.Submit? || l.Disconnect? || l.StopChannel?)
    ensures AllContinue(s, Next(s, l))
  {
    if l.Submit? && l.session in s.sessions {
      NewContinues(s, Next(s, l), NewJob(l.session, l.kind));
    }
  }

  /** Every step but the arrival of a response. */
  lemma NextContinues(s: State, l: Label)
    requires Inv(s) && !l.Respond?
    ensures AllContinue(s, Next(s, l))
  {
    if l.Step? {
      if l.session in s.sessions {
        StepContinues(s, l.session, l.cont, l.now);
      } else {
        SameContinues(s);
      }
    } else if l.Expire? || l.Fire? || l.Clear? {
      TableContinues(s, l);
    } else {
      ClientContinues(s, l);
    }
  }
}
