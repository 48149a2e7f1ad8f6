/** Every step of the User server keeps its invariants. */
module UserSteps {
  import opened Basics
  import JobScheduler
  import opened UserServer
  import opened UserInvariants

  // ---------------------------------------------------------------- maps

  lemma SamePut<T>(m: map<nat, T>, k: nat)
    requires k in m
    ensures m[k := m[k]] == m
  {
  }

  lemma SameKeys<T>(m: map<nat, T>, k: nat, v: T)
    requires k in m
    ensures m[k := v].Keys == m.Keys
  {
  }

  lemma NothingLess<T>(m: map<nat, T>)
    ensures m - {} == m
  {
  }

  // ---------------------------------------------------------------- one job changes

  /** The id a job issued, if any. */
  function IdOf(j: Job): Option<nat>
  {
    if j.call.Some? then Some(j.call.value.id) else None
  }

  lemma IndexSame(byId: map<nat, nat>, jobs: Jobs, nextId: nat, j: nat, job: Job)
    requires Index(byId, jobs, nextId) && j in jobs && IdOf(job) == IdOf(jobs[j])
    ensures Index(byId, jobs[j := job], nextId)
  {
  }

  lemma IndexIssue(byId: map<nat, nat>, jobs: Jobs, nextId: nat, j: nat, job: Job)
    requires Index(byId, jobs, nextId) && j in jobs && jobs[j].call.None? && IdOf(job) == Some(nextId) && nextId >= 1
    ensures Index(byId[nextId := j], jobs[j := job], nextId + 1)
  {
  }

  /** What must not change of a job that may be done. */
  predicate KeepsDone(jobs: Jobs, j: nat, job: Job)
  {
    j in jobs ==> job.session == jobs[j].session && (Done(jobs[j]) ==> Done(job))
  }

  /** A session does not see a change to a job that is not in its line. */
  lemma SessionFrame(sid: nat, s: Session, jobs: Jobs, j: nat, job: Job)
    requires SessionOk(sid, s, jobs) && j !in Line(s) && KeepsDone(jobs, j, job)
    ensures SessionOk(sid, s, jobs[j := job])
  {
    forall i | 0 <= i < |Line(s)| ensures Line(s)[i] != j {
      assert Line(s)[i] in Line(s);
    }
  }

  lemma SessionsUpdate(sessions: Sessions, jobs: Jobs, sid: nat, s: Session, j: nat, job: Job)
    requires SessionsOk(sessions, jobs) && j in jobs && jobs[j].session == sid == job.session
    requires SessionOk(sid, s, jobs[j := job]) && KeepsDone(jobs, j, job)
    ensures SessionsOk(sessions[sid := s], jobs[j := job])
  {
    forall k | k in sessions && k != sid ensures SessionOk(k, sessions[k], jobs[j := job]) {
      assert Lined(k, Line(sessions[k]), jobs);
      SessionFrame(k, sessions[k], jobs, j, job);
    }
  }

  lemma RunningUpdate(sessions: Sessions, jobs: Jobs, sid: nat, s: Session, j: nat, job: Job)
    requires RunningFirst(jobs, sessions) && j in jobs && sid in sessions && jobs[j].session == sid == job.session
    requires job.stage.Running? ==> First(s, j)
    requires First(sessions[sid], j) || Line(sessions[sid]) == [] || (Line(s) != [] && Line(s)[0] == Line(sessions[sid])[0])
    ensures RunningFirst(jobs[j := job], sessions[sid := s])
  {
  }

  lemma RecordedUpdate(sessions: Sessions, jobs: Jobs, sid: nat, s: Session, j: nat, job: Job)
    requires Recorded(jobs, sessions) && j in jobs && sid in sessions && jobs[j].session == sid == job.session
    requires sessions[sid].finished <= s.finished && (Done(job) ==> Done(jobs[j]) || j in s.finished)
    ensures Recorded(jobs[j := job], sessions[sid := s])
  {
  }

  lemma HaltedUpdate(sessions: Sessions, jobs: Jobs, sid: nat, s: Session, j: nat, job: Job)
    requires Halted(jobs, sessions) && j in jobs && sid in sessions && jobs[j].session == sid == job.session
    requires sessions[sid].sched.stopped ==> s.sched.stopped
    requires job.stage == Over(true) ==> jobs[j].stage == Over(true) || s.sched.stopped
    ensures Halted(jobs[j := job], sessions[sid := s])
  {
  }

  /** `job` may replace `was` while the continuations in `removed` go. */
  ghost predicate Replaces(conts: Conts, removed: set<nat>, j: nat, was: Job, job: Job)
  {
    && (forall m :: m in removed ==> m in conts && (conts[m].Handle? ==> conts[m].job == j))
    && (j in conts && conts[j].Push? && j !in removed ==> job.stage.Waiting?)
    && (IsPosted(was) && was.call.value.place.cont !in removed ==> job.call.Some? && job.call.value.place == was.call.value.place)
    && (IsPosted(job) ==> IsPosted(was) && job.call.value.place == was.call.value.place && job.call.value.place.cont !in removed)
  }

  predicate IsPosted(j: Job) { j.call.Some? && j.call.value.place.Posted? }

  lemma ContsUpdate(conts: Conts, jobs: Jobs, sids: set<nat>, next: nat, removed: set<nat>, j: nat, job: Job)
    requires ContsOk(conts, jobs, sids, next) && j in jobs && job.session == jobs[j].session
    requires Replaces(conts, removed, j, jobs[j], job)
    ensures ContsOk(conts - removed, jobs[j := job], sids, next)
  {
  }

  lemma PostedUpdate(conts: Conts, jobs: Jobs, removed: set<nat>, j: nat, job: Job)
    requires PostedOk(jobs, conts) && j in jobs && job.session == jobs[j].session
    requires Replaces(conts, removed, j, jobs[j], job)
    ensures PostedOk(jobs[j := job], conts - removed)
  {
  }

  /** What is still to be pushed to `sid` comes after all that `s` has seen. */
  ghost predicate Follows(conts: Conts, removed: set<nat>, sid: nat, s: Session)
  {
    forall m :: m in conts && m !in removed && conts[m].Push? && conts[m].session == sid ==> After(s, m)
  }

  lemma PushesUpdate(conts: Conts, sessions: Sessions, removed: set<nat>, sid: nat, s: Session)
    requires PushesLater(conts, sessions) && Follows(conts, removed, sid, s)
    ensures PushesLater(conts - removed, sessions[sid := s])
  {
  }

  // ---------------------------------------------------------------- a strand step

  function Moved(s: State, sid: nat, session: Session, j: nat, job: Job, removed: set<nat>, fault: bool): State
  {
    Put(s, sid, session, j, job).(conts := s.conts - removed, fault := fault)
  }

  lemma AwakeUpdate(jobs: Jobs, up: bool, fault: bool, fault': bool, j: nat, job: Job)
    requires Awake(jobs, up, fault) && AwakeOk(job, up, fault') && (fault ==> fault')
    ensures Awake(jobs[j := job], up, fault')
  {
  }

  /** What a strand step does to its job. */
  predicate JobMoves(was: Job, job: Job, up: bool, fault: bool, fault': bool)
  {
    job.session == was.session && JobOk(job) && AwakeOk(job, up, fault') && (fault ==> fault')
  }

  lemma JobsUpdate(jobs: Jobs, sids: set<nat>, next: nat, j: nat, job: Job)
    requires JobsOk(jobs) && Located(jobs, sids, next) && j in jobs && JobOk(job) && job.session == jobs[j].session
    ensures JobsOk(jobs[j := job]) && Located(jobs[j := job], sids, next)
  {
  }

  lemma MovedBooks(s: State, j: nat, job: Job, fault: bool)
    requires Books(s.jobs, s.sessions.Keys, s.next, s.byId, s.nextId, s.up, s.fault)
    requires j in s.jobs && JobMoves(s.jobs[j], job, s.up, s.fault, fault) && IdOf(job) == IdOf(s.jobs[j])
    ensures Books(s.jobs[j := job], s.sessions.Keys, s.next, s.byId, s.nextId, s.up, fault)
  {
    JobsUpdate(s.jobs, s.sessions.Keys, s.next, j, job);
    IndexSame(s.byId, s.jobs, s.nextId, j, job);
    AwakeUpdate(s.jobs, s.up, s.fault, fault, j, job);
  }

  /** What a strand step does to its session. */
  ghost predicate SessionMoves(was: Session, session: Session, sid: nat, jobs: Jobs, j: nat, job: Job)
  {
    && j in jobs && jobs[j].session == sid == job.session
    && SessionOk(sid, session, jobs[j := job])
    && was.finished <= session.finished
    && (was.sched.stopped ==> session.sched.stopped)
    && (job.stage == Over(true) ==> jobs[j].stage == Over(true) || session.sched.stopped)
    && (Done(jobs[j]) ==> Done(job))
    && (Done(job) ==> Done(jobs[j]) || j in session.finished)
    && (job.stage.Running? ==> First(session, j))
    && (First(was, j) || Line(was) == [] || (Line(session) != [] && Line(session)[0] == Line(was)[0]))
  }

  lemma MovedStrands(sessions: Sessions, jobs: Jobs, conts: Conts, next: nat,
                     sid: nat, session: Session, j: nat, job: Job, removed: set<nat>)
    requires Strands(sessions, jobs, conts, next) && sid in sessions
    requires SessionMoves(sessions[sid], session, sid, jobs, j, job)
    requires Replaces(conts, removed, j, jobs[j], job)
    requires Follows(conts, removed, sid, session)
    ensures Strands(sessions[sid := session], jobs[j := job], conts - removed, next)
  {
    SameKeys(sessions, sid, session);
    SessionsUpdate(sessions, jobs, sid, session, j, job);
    RunningUpdate(sessions, jobs, sid, session, j, job);
    RecordedUpdate(sessions, jobs, sid, session, j, job);
    HaltedUpdate(sessions, jobs, sid, session, j, job);
    ContsUpdate(conts, jobs, sessions.Keys, next, removed, j, job);
    PostedUpdate(conts, jobs, removed, j, job);
    PushesUpdate(conts, sessions, removed, sid, session);
  }

  /** All that a strand step must show. */
  ghost predicate Moves(s: State, sid: nat, session: Session, j: nat, job: Job, removed: set<nat>, fault: bool)
  {
    && sid in s.sessions && j in s.jobs
    && JobMoves(s.jobs[j], job, s.up, s.fault, fault)
    && SessionMoves(s.sessions[sid], session, sid, s.jobs, j, job)
    && Replaces(s.conts, removed, j, s.jobs[j], job)
    && Follows(s.conts, removed, sid, session)
  }

  lemma MovedKeeps(s: State, sid: nat, session: Session, j: nat, job: Job, removed: set<nat>, fault: bool)
    requires Inv(s) && Moves(s, sid, session, j, job, removed, fault) && IdOf(job) == IdOf(s.jobs[j])
    ensures Inv(Moved(s, sid, session, j, job, removed, fault))
  {
    MovedBooks(s, j, job, fault);
    MovedStrands(s.sessions, s.jobs, s.conts, s.next, sid, session, j, job, removed);
    SameKeys(s.sessions, sid, session);
  }

  /** A step that changes no job. */
  lemma SessionStrands(sessions: Sessions, jobs: Jobs, conts: Conts, next: nat, sid: nat, session: Session, removed: set<nat>)
    requires Strands(sessions, jobs, conts, next) && sid in sessions && SessionOk(sid, session, jobs)
    requires Line(sessions[sid]) == [] || First(session, Line(sessions[sid])[0])
    requires session.finished == sessions[sid].finished && (sessions[sid].sched.stopped ==> session.sched.stopped)
    requires forall m :: m in removed ==> m in conts && !conts[m].Handle?
    requires Follows(conts, removed, sid, session)
    ensures Strands(sessions[sid := session], jobs, conts - removed, next)
  {
    SameKeys(sessions, sid, session);
    PushesUpdate(conts, sessions, removed, sid, session);
  }

  // ---------------------------------------------------------------- lines

  lemma DropFirst(finished: seq<nat>, q: seq<nat>)
    requires Increasing(finished + q) && q != []
    ensures Increasing(finished + q[1..]) && q[0] !in q[1..]
    ensures Increasing(finished + [q[0]] + q[1..])
  {
    var s, t := finished + q, finished + q[1..];
    assert finished + [q[0]] + q[1..] == s;
    forall i, j | 0 <= i < j < |t| ensures t[i] < t[j] {
      assert t[i] == s[if i < |finished| then i else i + 1] && t[j] == s[if j < |finished| then j else j + 1];
    }
    forall i | 0 <= i < |q| - 1 ensures q[1..][i] > q[0] {
      assert s[|finished|] < s[|finished| + 1 + i];
    }
  }

  /** A head that is done leaves a line of jobs that have not run. */
  lemma LinedDrop(sid: nat, q: seq<nat>, jobs: Jobs, job: Job)
    requires Lined(sid, q, jobs) && q != [] && q[0] !in q[1..]
    ensures Lined(sid, q[1..], jobs[q[0] := job])
    ensures |q| > 1 ==> q[1] in jobs && q[1] != q[0] && jobs[q[1]].stage.Waiting?
  {
    forall i | 0 <= i < |q| - 1
      ensures q[1..][i] in jobs && q[1..][i] != q[0] && jobs[q[1..][i]].session == sid && jobs[q[1..][i]].stage.Waiting?
    {
      assert q[1..][i] in q[1..] && q[1..][i] == q[i + 1];
    }
    assert |q| > 1 ==> q[1..][0] == q[1];
  }

  lemma LinedHead(sid: nat, q: seq<nat>, jobs: Jobs, job: Job)
    requires Lined(sid, q, jobs) && q != [] && q[0] !in q[1..] && job.session == sid
    ensures Lined(sid, q, jobs[q[0] := job])
  {
    forall i | 0 < i < |q| ensures q[i] != q[0] {
      assert q[1..][i - 1] == q[i] && q[i] in q[1..];
    }
  }

  /** The head finishes, replying or not, and the next job is started. */
  lemma AfterDoneOk(sid: nat, s: Session, jobs: Jobs, job: Job, s': Session, finished: seq<nat>)
    requires SessionOk(sid, s, jobs) && s.sched.q != [] && !s.phase.Cancelling?
    requires finished == s.finished || (finished == s.finished + [s.sched.q[0]] && Done(job))
    requires job.session == sid && KeepsDone(jobs, s.sched.q[0], job)
    requires s'.sched == s.sched && s'.finished == finished
    ensures SessionOk(sid, AfterDone(s'), jobs[s.sched.q[0] := job])
  {
    DropFirst(s.finished, s.sched.q);
    LinedDrop(sid, s.sched.q, jobs, job);
    assert Line(AfterDone(s')) == s.sched.q[1..];
  }

  lemma AfterDoneAfter(s: Session, s': Session, m: nat)
    requires After(s, m) && s.sched.q != [] && !s.phase.Cancelling? && s'.sched == s.sched
    requires s'.finished == s.finished || s'.finished == s.finished + [s.sched.q[0]]
    ensures After(AfterDone(s'), m)
  {
    assert Line(AfterDone(s')) == s.sched.q[1..];
    assert s.sched.q == Line(s);
  }

  lemma AfterDoneFollows(conts: Conts, sessions: Sessions, removed: set<nat>, sid: nat, s': Session)
    requires PushesLater(conts, sessions) && sid in sessions
    requires sessions[sid].sched.q != [] && !sessions[sid].phase.Cancelling? && s'.sched == sessions[sid].sched
    requires s'.finished == sessions[sid].finished || s'.finished == sessions[sid].finished + [sessions[sid].sched.q[0]]
    ensures Follows(conts, removed, sid, AfterDone(s'))
  {
    forall m | m in conts && m !in removed && conts[m].Push? && conts[m].session == sid ensures After(AfterDone(s'), m) {
      AfterDoneAfter(sessions[sid], s', m);
    }
  }

  /** Nothing in a session's line waits to be pushed. */
  lemma InLineNotPushed(conts: Conts, sessions: Sessions, jobs: Jobs, sid: nat, j: nat)
    requires PushesLater(conts, sessions) && sid in sessions && First(sessions[sid], j)
    requires j in jobs && jobs[j].session == sid
    requires j in conts ==> ContOk(j, conts[j], jobs)
    ensures j in conts ==> !conts[j].Push?
  {
  }

  // ---------------------------------------------------------------- the head of the line

  ghost predicate HeadFacts(s: State, sid: nat, j: nat)
  {
    && sid in s.sessions && SessionOk(sid, s.sessions[sid], s.jobs)
    && First(s.sessions[sid], j) && j in s.jobs && s.jobs[j].session == sid
    && JobOk(s.jobs[j]) && AwakeOk(s.jobs[j], s.up, s.fault)
    && j !in Line(s.sessions[sid])[1..]
    && (j in s.conts ==> !s.conts[j].Push?)
    && PushesLater(s.conts, s.sessions)
  }

  lemma HeadHolds(s: State, sid: nat, j: nat)
    requires Inv(s) && sid in s.sessions && First(s.sessions[sid], j)
    ensures HeadFacts(s, sid, j)
  {
    DropFirst(s.sessions[sid].finished, Line(s.sessions[sid]));
    InLineNotPushed(s.conts, s.sessions, s.jobs, sid, j);
  }

  lemma SameFollows(conts: Conts, sessions: Sessions, removed: set<nat>, sid: nat, session: Session)
    requires PushesLater(conts, sessions) && sid in sessions
    requires session.finished == sessions[sid].finished && Line(session) == Line(sessions[sid])
    ensures Follows(conts, removed, sid, session)
  {
  }

  lemma NoneRemoved(s: State, sid: nat, session: Session, j: nat, job: Job)
    ensures Moved(s, sid, session, j, job, {}, s.fault) == Put(s, sid, session, j, job)
  {
    NothingLess(s.conts);
  }

  // ---------------------------------------------------------------- running the head

  lemma StartLocalMoves(s: State, sid: nat, j: nat, now: nat) returns (session: Session, job: Job)
    requires HeadFacts(s, sid, j) && s.sessions[sid].phase == Starting(j) && s.jobs[j].kind.LocalJob?
    ensures Moves(s, sid, session, j, job, {}, s.fault) && IdOf(job) == IdOf(s.jobs[j])
    ensures StartJob(s, sid, j, now) == Moved(s, sid, session, j, job, {}, s.fault)
  {
    var was := s.sessions[sid];
    var named := AfterLocal(was, s.jobs[j].kind.effect).(finished := was.finished + [j]);
    session, job := AfterDone(named), s.jobs[j].(stage := Over(false), dones := s.jobs[j].dones + 1);
    AfterDoneOk(sid, was, s.jobs, job, named, named.finished);
    AfterDoneFollows(s.conts, s.sessions, {}, sid, named);
    NoneRemoved(s, sid, session, j, job);
  }

  lemma StartLocalKeeps(s: State, sid: nat, j: nat, now: nat)
    requires Inv(s) && HeadFacts(s, sid, j) && s.sessions[sid].phase == Starting(j) && s.jobs[j].kind.LocalJob?
    ensures Inv(StartJob(s, sid, j, now))
  {
    var session, job := StartLocalMoves(s, sid, j, now);
    MovedKeeps(s, sid, session, j, job, {}, s.fault);
  }

  lemma SameLineOk(sid: nat, was: Session, session: Session, jobs: Jobs, j: nat, job: Job)
    requires SessionOk(sid, was, jobs) && First(was, j) && j !in Line(was)[1..] && job.session == sid
    requires KeepsDone(jobs, j, job)
    requires session.sched == was.sched && session.finished == was.finished && Line(session) == Line(was)
    requires HeadOk(session, jobs[j := job])
    ensures SessionOk(sid, session, jobs[j := job])
  {
    LinedHead(sid, Line(was), jobs, job);
  }

  lemma StartRoomMoves(s: State, sid: nat, j: nat, job: Job)
    requires HeadFacts(s, sid, j) && s.sessions[sid].phase == Starting(j) && s.jobs[j].kind.RoomJob?
    requires exists uid, now :: job == Issue(s.jobs[j], NewCall(s.nextId, RequestOf(s.jobs[j].kind.ask, uid), now))
    ensures Moves(s, sid, s.sessions[sid].(phase := Sending(j)), j, job, {}, s.fault)
  {
    var was := s.sessions[sid];
    SameLineOk(sid, was, was.(phase := Sending(j)), s.jobs, j, job);
    SameFollows(s.conts, s.sessions, {}, sid, was.(phase := Sending(j)));
  }

  lemma IssuedBooks(s: State, j: nat, job: Job)
    requires Books(s.jobs, s.sessions.Keys, s.next, s.byId, s.nextId, s.up, s.fault)
    requires j in s.jobs && JobMoves(s.jobs[j], job, s.up, s.fault, s.fault)
    requires IdOf(s.jobs[j]) == None && IdOf(job) == Some(s.nextId)
    ensures Books(s.jobs[j := job], s.sessions.Keys, s.next, s.byId[s.nextId := j], s.nextId + 1, s.up, s.fault)
  {
    JobsUpdate(s.jobs, s.sessions.Keys, s.next, j, job);
    IndexIssue(s.byId, s.jobs, s.nextId, j, job);
    AwakeUpdate(s.jobs, s.up, s.fault, s.fault, j, job);
  }

  lemma IssuedKeeps(s: State, sid: nat, session: Session, j: nat, job: Job)
    requires Inv(s) && Moves(s, sid, session, j, job, {}, s.fault)
    requires IdOf(s.jobs[j]) == None && IdOf(job) == Some(s.nextId)
    ensures Inv(Put(s, sid, session, j, job).(byId := s.byId[s.nextId := j], nextId := s.nextId + 1))
  {
    IssuedBooks(s, j, job);
    MovedStrands(s.sessions, s.jobs, s.conts, s.next, sid, session, j, job, {});
    SameKeys(s.sessions, sid, session);
    NothingLess(s.conts);
  }

  lemma StartRoomKeeps(s: State, sid: nat, j: nat, now: nat)
    requires Inv(s) && HeadFacts(s, sid, j) && s.sessions[sid].phase == Starting(j) && s.jobs[j].kind.RoomJob?
    ensures Inv(StartJob(s, sid, j, now))
  {
    var was := s.sessions[sid];
    var job := Issue(s.jobs[j], NewCall(s.nextId, RequestOf(s.jobs[j].kind.ask, was.uid), now));
    StartRoomMoves(s, sid, j, job);
    IssuedKeeps(s, sid, was.(phase := Sending(j)), j, job);
  }

  lemma SendOutMoves(s: State, sid: nat, j: nat) returns (session: Session, job: Job)
    requires HeadFacts(s, sid, j) && s.sessions[sid].phase == Sending(j)
    ensures Moves(s, sid, session, j, job, {}, s.fault) && IdOf(job) == IdOf(s.jobs[j])
    ensures s.jobs[j].call.Some? && SendOut(s, sid, j) == Moved(s, sid, session, j, job, {}, s.fault)
  {
    var was := s.sessions[sid];
    var c := s.jobs[j].call.value;
    session, job := was.(phase := Idle), s.jobs[j].(call := Some(c.(sends := c.sends + 1)));
    SameLineOk(sid, was, session, s.jobs, j, job);
    SameFollows(s.conts, s.sessions, {}, sid, session);
    NoneRemoved(s, sid, session, j, job);
  }

  lemma SendOutKeeps(s: State, sid: nat, j: nat)
    requires Inv(s) && HeadFacts(s, sid, j) && s.sessions[sid].phase == Sending(j)
    ensures s.jobs[j].call.Some? && Inv(SendOut(s, sid, j))
  {
    var session, job := SendOutMoves(s, sid, j);
    MovedKeeps(s, sid, session, j, job, {}, s.fault);
  }

  // ---------------------------------------------------------------- shutdown

  lemma CancelNextMoves(s: State, sid: nat, l: seq<nat>) returns (session: Session, job: Job)
    requires l != [] && HeadFacts(s, sid, l[0]) && s.sessions[sid].phase == Cancelling(l)
    ensures Moves(s, sid, session, l[0], job, {}, s.fault) && IdOf(job) == IdOf(s.jobs[l[0]])
    ensures CancelNext(s, sid, l) == Moved(s, sid, session, l[0], job, {}, s.fault)
  {
    var was := s.sessions[sid];
    session := was.(phase := if l[1..] == [] then Idle else Cancelling(l[1..]));
    job := CancelJob(s.jobs[l[0]]);
    DropFirst(was.finished, l);
    LinedDrop(sid, l, s.jobs, job);
    assert Line(session) == l[1..];
    forall m | m in s.conts && s.conts[m].Push? && s.conts[m].session == sid ensures After(session, m) {
      assert After(was, m);
    }
    NoneRemoved(s, sid, session, l[0], job);
  }

  lemma CancelNextKeeps(s: State, sid: nat, l: seq<nat>)
    requires Inv(s) && l != [] && HeadFacts(s, sid, l[0]) && s.sessions[sid].phase == Cancelling(l)
    ensures Inv(CancelNext(s, sid, l))
  {
    var session, job := CancelNextMoves(s, sid, l);
    MovedKeeps(s, sid, session, l[0], job, {}, s.fault);
  }

  // ---------------------------------------------------------------- continuations

  /** A continuation at the head of an idle strand. */
  ghost predicate ContFacts(s: State, sid: nat, n: nat)
  {
    && sid in s.sessions && SessionOk(sid, s.sessions[sid], s.jobs) && s.sessions[sid].phase.Idle?
    && IsHead(s.conts, n) && s.conts[n].session == sid && ContOk(n, s.conts[n], s.jobs)
    && PushesLater(s.conts, s.sessions)
  }

  lemma ContHolds(s: State, sid: nat, n: nat)
    requires Inv(s) && sid in s.sessions && s.sessions[sid].phase.Idle?
    requires IsHead(s.conts, n) && s.conts[n].session == sid
    ensures ContFacts(s, sid, n)
  {
  }

  lemma Append(a: seq<nat>, b: seq<nat>, n: nat)
    requires Increasing(a + b)
    requires forall i :: 0 <= i < |a| ==> a[i] < n
    requires forall i :: 0 <= i < |b| ==> b[i] < n
    ensures Increasing(a + (b + [n]))
  {
    var s, t := a + b, a + (b + [n]);
    forall i, j | 0 <= i < j < |t| ensures t[i] < t[j] {
      assert j < |s| ==> t[i] == s[i] && t[j] == s[j];
    }
  }

  lemma PushMoves(s: State, sid: nat, n: nat, session: Session)
    requires ContFacts(s, sid, n) && s.conts[n].Push? && !s.sessions[sid].sched.stopped
    requires session == AfterPush(s.sessions[sid], n)
    ensures SessionOk(sid, session, s.jobs) && Follows(s.conts, {n}, sid, session)
    ensures Line(s.sessions[sid]) == [] || First(session, Line(s.sessions[sid])[0])
  {
    var was := s.sessions[sid];
    Append(was.finished, was.sched.q, n);
    assert Line(session) == was.sched.q + [n];
    forall m | m in s.conts && m != n && s.conts[m].Push? && s.conts[m].session == sid ensures After(session, m) {
      assert After(was, m) && n < m;
    }
  }

  lemma SessionKeeps(s: State, sid: nat, session: Session, n: nat)
    requires Inv(s) && sid in s.sessions && SessionOk(sid, session, s.jobs) && n in s.conts && !s.conts[n].Handle?
    requires Line(s.sessions[sid]) == [] || First(session, Line(s.sessions[sid])[0])
    requires session.finished == s.sessions[sid].finished && (s.sessions[sid].sched.stopped ==> session.sched.stopped)
    requires Follows(s.conts, {n}, sid, session)
    ensures Inv(s.(conts := s.conts - {n}, sessions := s.sessions[sid := session]))
  {
    SessionStrands(s.sessions, s.jobs, s.conts, s.next, sid, session, {n});
    SameKeys(s.sessions, sid, session);
  }

  lemma PushKeeps(s: State, sid: nat, n: nat)
    requires Inv(s) && ContFacts(s, sid, n) && s.conts[n].Push? && !s.sessions[sid].sched.stopped
    ensures Inv(RunCont(s, sid, n))
  {
    var session := AfterPush(s.sessions[sid], n);
    PushMoves(s, sid, n, session);
    SessionKeeps(s, sid, session, n);
    SamePut(s.jobs, n);
  }

  /** A job pushed after shutdown is cancelled at once. */
  lemma LatePushMoves(s: State, sid: nat, n: nat)
    requires ContFacts(s, sid, n) && s.conts[n].Push? && s.sessions[sid].sched.stopped
    requires JobOk(s.jobs[n]) && AwakeOk(s.jobs[n], s.up, s.fault)
    ensures Moves(s, sid, s.sessions[sid], n, CancelJob(s.jobs[n]), {n}, s.fault)
    ensures IdOf(CancelJob(s.jobs[n])) == IdOf(s.jobs[n])
  {
    SessionFrame(sid, s.sessions[sid], s.jobs, n, CancelJob(s.jobs[n]));
    SameFollows(s.conts, s.sessions, {n}, sid, s.sessions[sid]);
  }

  lemma LatePushKeeps(s: State, sid: nat, n: nat)
    requires Inv(s) && ContFacts(s, sid, n) && s.conts[n].Push? && s.sessions[sid].sched.stopped
    ensures Inv(RunCont(s, sid, n))
  {
    LatePushMoves(s, sid, n);
    MovedKeeps(s, sid, s.sessions[sid], n, CancelJob(s.jobs[n]), {n}, s.fault);
  }

  lemma StopMoves(s: State, sid: nat, n: nat, session: Session)
    requires ContFacts(s, sid, n) && s.conts[n].Stop?
    requires session == if s.sessions[sid].sched.stopped then s.sessions[sid] else AfterStop(s.sessions[sid])
    ensures SessionOk(sid, session, s.jobs) && Follows(s.conts, {n}, sid, session)
    ensures Line(s.sessions[sid]) == [] || First(session, Line(s.sessions[sid])[0])
  {
    assert Line(session) == Line(s.sessions[sid]);
    SameFollows(s.conts, s.sessions, {n}, sid, session);
  }

  lemma StopKeeps(s: State, sid: nat, n: nat)
    requires Inv(s) && ContFacts(s, sid, n) && s.conts[n].Stop?
    ensures Inv(RunCont(s, sid, n))
  {
    var session := if s.sessions[sid].sched.stopped then s.sessions[sid] else AfterStop(s.sessions[sid]);
    StopMoves(s, sid, n, session);
    SessionKeeps(s, sid, session, n);
    SamePut(s.sessions, sid);
  }

  /** The job a posted continuation is for. */
  ghost predicate HandleFacts(s: State, sid: nat, n: nat, j: nat)
  {
    && ContFacts(s, sid, n) && s.conts[n] == Handle(sid, j)
    && j in s.jobs && JobOk(s.jobs[j]) && AwakeOk(s.jobs[j], s.up, s.fault)
    && (s.jobs[j].stage.Running? ==> HeadFacts(s, sid, j))
    && (j in s.conts ==> ContOk(j, s.conts[j], s.jobs))
  }

  lemma HandleHolds(s: State, sid: nat, n: nat, j: nat)
    requires Inv(s) && ContFacts(s, sid, n) && s.conts[n] == Handle(sid, j)
    ensures HandleFacts(s, sid, n, j)
  {
    if s.jobs[j].stage.Running? {
      assert First(s.sessions[sid], j);
      HeadHolds(s, sid, j);
    }
  }

  lemma OverNotInLine(sid: nat, s: Session, jobs: Jobs, j: nat)
    requires SessionOk(sid, s, jobs) && s.phase.Idle? && j in jobs && jobs[j].stage.Over?
    ensures j !in Line(s)
  {
  }

  lemma HandleOverMoves(s: State, sid: nat, n: nat, j: nat) returns (job: Job)
    requires HandleFacts(s, sid, n, j) && s.jobs[j].stage.Over?
    ensures Moves(s, sid, s.sessions[sid], j, job, {n}, s.fault) && IdOf(job) == IdOf(s.jobs[j])
    ensures RunCont(s, sid, n) == Moved(s, sid, s.sessions[sid], j, job, {n}, s.fault)
  {
    job := Place(s.jobs[j], Handled(s.jobs[j].call.value.place.what));
    OverNotInLine(sid, s.sessions[sid], s.jobs, j);
    SessionFrame(sid, s.sessions[sid], s.jobs, j, job);
    SameFollows(s.conts, s.sessions, {n}, sid, s.sessions[sid]);
  }

  /** The branch that dereferences a response of the wrong kind. */
  predicate Misfit(j: Job)
  {
    && IsPosted(j) && j.kind.RoomJob?
    && j.call.value.place.what.OnResponse? && !Fits(j.kind.ask, j.call.value.place.what.resp.of)
  }

  lemma HandleMisfitMoves(s: State, sid: nat, n: nat, j: nat) returns (job: Job)
    requires HandleFacts(s, sid, n, j) && s.jobs[j].stage.Running? && Misfit(s.jobs[j])
    ensures Moves(s, sid, s.sessions[sid], j, job, {n}, true) && IdOf(job) == IdOf(s.jobs[j])
    ensures RunCont(s, sid, n) == Moved(s, sid, s.sessions[sid], j, job, {n}, true)
  {
    job := Place(s.jobs[j], Handled(s.jobs[j].call.value.place.what));
    SameLineOk(sid, s.sessions[sid], s.sessions[sid], s.jobs, j, job);
    SameFollows(s.conts, s.sessions, {n}, sid, s.sessions[sid]);
  }

  lemma HandleReplyMoves(s: State, sid: nat, n: nat, j: nat) returns (session: Session, job: Job)
    requires HandleFacts(s, sid, n, j) && s.jobs[j].stage.Running? && !Misfit(s.jobs[j])
    ensures Moves(s, sid, session, j, job, {n}, s.fault) && IdOf(job) == IdOf(s.jobs[j])
    ensures RunCont(s, sid, n) == Moved(s, sid, session, j, job, {n}, s.fault)
  {
    var was, ask, cb := s.sessions[sid], s.jobs[j].kind.ask, s.jobs[j].call.value.place.what;
    var told := was.(room := RoomAfter(was.room, ask, cb), finished := was.finished + [j]);
    session, job := AfterDone(told), Answered(s.jobs[j], ask, cb);
    AfterDoneOk(sid, was, s.jobs, job, told, told.finished);
    AfterDoneFollows(s.conts, s.sessions, {n}, sid, told);
  }

  lemma HandleKeeps(s: State, sid: nat, n: nat, j: nat)
    requires Inv(s) && HandleFacts(s, sid, n, j)
    ensures Inv(RunCont(s, sid, n))
  {
    if s.jobs[j].stage.Over? {
      var job := HandleOverMoves(s, sid, n, j);
      MovedKeeps(s, sid, s.sessions[sid], j, job, {n}, s.fault);
    } else if Misfit(s.jobs[j]) {
      var job := HandleMisfitMoves(s, sid, n, j);
      MovedKeeps(s, sid, s.sessions[sid], j, job, {n}, true);
    } else {
      var session, job := HandleReplyMoves(s, sid, n, j);
      MovedKeeps(s, sid, session, j, job, {n}, s.fault);
    }
  }

  lemma StartJobKeeps(s: State, sid: nat, j: nat, now: nat)
    requires Inv(s) && HeadFacts(s, sid, j) && s.sessions[sid].phase == Starting(j)
    ensures Inv(StartJob(s, sid, j, now))
  {
    if s.jobs[j].kind.LocalJob? {
      StartLocalKeeps(s, sid, j, now);
    } else {
      StartRoomKeeps(s, sid, j, now);
    }
  }

  lemma RunContKeeps(s: State, sid: nat, n: nat)
    requires Inv(s) && ContFacts(s, sid, n)
    ensures Inv(RunCont(s, sid, n))
  {
    match s.conts[n] {
      case Push(_) =>
        if s.sessions[sid].sched.stopped {
          LatePushKeeps(s, sid, n);
        } else {
          PushKeeps(s, sid, n);
        }
      case Stop(_) => StopKeeps(s, sid, n);
      case Handle(_, j) =>
        HandleHolds(s, sid, n, j);
        HandleKeeps(s, sid, n, j);
    }
  }

  lemma PhaseFirst(s: State, sid: nat)
    requires sid in s.sessions && SessionOk(sid, s.sessions[sid], s.jobs)
    ensures match s.sessions[sid].phase
            case Idle => true
            case Starting(j) => First(s.sessions[sid], j)
            case Sending(j) => First(s.sessions[sid], j)
            case Cancelling(l) => l != [] && First(s.sessions[sid], l[0])
  {
  }

  lemma StrandStepKeeps(s: State, sid: nat, n: nat, now: nat)
    requires Inv(s) && sid in s.sessions
    ensures Inv(StrandStep(s, sid, n, now))
  {
    PhaseFirst(s, sid);
    match s.sessions[sid].phase {
      case Starting(j) =>
        HeadHolds(s, sid, j);
        StartJobKeeps(s, sid, j, now);
      case Sending(j) =>
        HeadHolds(s, sid, j);
        SendOutKeeps(s, sid, j);
      case Cancelling(l) =>
        HeadHolds(s, sid, l[0]);
        CancelNextKeeps(s, sid, l);
      case Idle =>
        if IsHead(s.conts, n) && s.conts[n].session == sid {
          ContHolds(s, sid, n);
          RunContKeeps(s, sid, n);
        }
    }
  }

  // ---------------------------------------------------------------- the request table

  /** A job whose request moves from the table or is posted. */
  ghost predicate CallFacts(s: State, j: nat)
  {
    && j in s.jobs && s.jobs[j].session in s.sessions && JobOk(s.jobs[j]) && AwakeOk(s.jobs[j], s.up, s.fault)
    && s.jobs[j].call.Some? && (s.jobs[j].call.value.place.InTable? || s.jobs[j].call.value.place.Taken?)
    && SessionOk(s.jobs[j].session, s.sessions[s.jobs[j].session], s.jobs)
    && (s.jobs[j].stage.Running? ==> HeadFacts(s, s.jobs[j].session, j))
    && (j in s.conts ==> ContOk(j, s.conts[j], s.jobs))
    && PushesLater(s.conts, s.sessions)
  }

  lemma CallHolds(s: State, id: nat)
    requires Inv(s) && Issued(s, id) && (CallOf(s, id).place.InTable? || CallOf(s, id).place.Taken?)
    ensures CallFacts(s, s.byId[id])
  {
    var j := s.byId[id];
    if s.jobs[j].stage.Running? {
      HeadHolds(s, s.jobs[j].session, j);
    }
  }

  /** The request stands elsewhere; the rest of the job is the same. */
  predicate OnlyPlace(was: Job, job: Job)
  {
    && was.call.Some? && job.call.Some?
    && job == was.(call := Some(was.call.value.(place := job.call.value.place, cancels := job.call.value.cancels)))
  }

  lemma PlaceSession(s: State, j: nat, job: Job)
    requires CallFacts(s, j) && OnlyPlace(s.jobs[j], job)
    ensures SessionOk(job.session, s.sessions[job.session], s.jobs[j := job])
  {
    var session := s.sessions[job.session];
    if s.jobs[j].stage.Running? {
      SameLineOk(job.session, session, session, s.jobs, j, job);
    } else {
      SessionFrame(job.session, session, s.jobs, j, job);
    }
  }

  lemma PlaceMoves(s: State, j: nat, job: Job)
    requires CallFacts(s, j) && OnlyPlace(s.jobs[j], job) && JobOk(job) && AwakeOk(job, s.up, s.fault) && !IsPosted(job)
    ensures Moves(s, job.session, s.sessions[job.session], j, job, {}, s.fault)
  {
    PlaceSession(s, j, job);
    SameFollows(s.conts, s.sessions, {}, job.session, s.sessions[job.session]);
  }

  lemma PlaceKeeps(s: State, j: nat, job: Job)
    requires Inv(s) && CallFacts(s, j) && OnlyPlace(s.jobs[j], job)
    requires JobOk(job) && AwakeOk(job, s.up, s.fault) && !IsPosted(job)
    ensures Inv(s.(jobs := s.jobs[j := job]))
  {
    var sid := job.session;
    PlaceMoves(s, j, job);
    MovedKeeps(s, sid, s.sessions[sid], j, job, {}, s.fault);
    NoneRemoved(s, sid, s.sessions[sid], j, job);
    SamePut(s.sessions, sid);
  }

  /** Where a request may go from the table without a message or a continuation. */
  predicate MayMove(w: Where, deadline: nat, up: bool)
  {
    (w.Taken? && PlaceOk(w, deadline)) || (w == Dropped(false) && !up)
  }

  lemma MovedJob(was: Job, w: Where, up: bool, fault: bool)
    requires JobOk(was) && AwakeOk(was, up, fault) && was.call.Some? && was.call.value.place.InTable?
    requires MayMove(w, was.call.value.deadline, up)
    ensures OnlyPlace(was, Place(was, w)) && JobOk(Place(was, w)) && AwakeOk(Place(was, w), up, fault) && !IsPosted(Place(was, w))
  {
  }

  lemma MoveKeeps(s: State, id: nat, w: Where)
    requires Inv(s) && Issued(s, id) && CallOf(s, id).place.InTable? && MayMove(w, CallOf(s, id).deadline, s.up)
    ensures Inv(Move(s, id, w))
  {
    CallHolds(s, id);
    MovedJob(s.jobs[s.byId[id]], w, s.up, s.fault);
    PlaceKeeps(s, s.byId[id], Place(s.jobs[s.byId[id]], w));
  }

  // ---------------------------------------------------------------- something new is posted

  /** `job` is like `was`, and now waits for continuation `n`. */
  predicate NowPosted(was: Job, job: Job, n: nat)
  {
    && job.session == was.session && job.stage == was.stage && job.reply == was.reply
    && !IsPosted(was) && IsPosted(job) && job.call.value.place.cont == n
  }

  lemma PostedConts(jobs: Jobs, conts: Conts, sids: set<nat>, next: nat, j: nat, job: Job)
    requires ContsOk(conts, jobs, sids, next) && PostedOk(jobs, conts) && j in jobs && job.session in sids
    requires NowPosted(jobs[j], job, next)
    ensures ContsOk(conts[next := Handle(job.session, j)], jobs[j := job], sids, next + 1)
    ensures PostedOk(jobs[j := job], conts[next := Handle(job.session, j)])
  {
  }

  lemma PostedStrands(sessions: Sessions, jobs: Jobs, conts: Conts, next: nat, j: nat, job: Job)
    requires Strands(sessions, jobs, conts, next) && j in jobs && NowPosted(jobs[j], job, next)
    requires job.session in sessions && SessionOk(job.session, sessions[job.session], jobs[j := job])
    ensures Strands(sessions, jobs[j := job], conts[next := Handle(job.session, j)], next + 1)
  {
    SamePut(sessions, job.session);
    SessionsUpdate(sessions, jobs, job.session, sessions[job.session], j, job);
    PostedConts(jobs, conts, sessions.Keys, next, j, job);
  }

  lemma FireMoves(s: State, j: nat, job: Job)
    requires CallFacts(s, j) && s.jobs[j].call.value.place.Taken? && job == Fired(s.jobs[j], s.next)
    ensures JobMoves(s.jobs[j], job, s.up, s.fault, s.fault) && IdOf(job) == IdOf(s.jobs[j])
    ensures SessionOk(job.session, s.sessions[job.session], s.jobs[j := job])
    ensures NowPosted(s.jobs[j], job, s.next)
  {
    PlaceSession(s, j, job);
  }

  lemma LaterBooks(jobs: Jobs, sids: set<nat>, next: nat, byId: map<nat, nat>, nextId: nat, up: bool, fault: bool)
    requires Books(jobs, sids, next, byId, nextId, up, fault)
    ensures Books(jobs, sids, next + 1, byId, nextId, up, fault)
  {
  }

  lemma PostedKeeps(s: State, j: nat, job: Job)
    requires Inv(s) && CallFacts(s, j) && s.jobs[j].call.value.place.Taken? && job == Fired(s.jobs[j], s.next)
    ensures Inv(FireCall(s, j))
  {
    FireMoves(s, j, job);
    MovedBooks(s, j, job, s.fault);
    LaterBooks(s.jobs[j := job], s.sessions.Keys, s.next, s.byId, s.nextId, s.up, s.fault);
    PostedStrands(s.sessions, s.jobs, s.conts, s.next, j, job);
  }

  lemma FireKeeps(s: State, id: nat)
    requires Inv(s) && Issued(s, id) && CallOf(s, id).place.Taken?
    ensures Inv(FireCall(s, s.byId[id]))
  {
    CallHolds(s, id);
    PostedKeeps(s, s.byId[id], Fired(s.jobs[s.byId[id]], s.next));
  }

  lemma SessionNew(sid: nat, s: Session, jobs: Jobs, n: nat, job: Job)
    requires SessionOk(sid, s, jobs) && n !in jobs
    ensures SessionOk(sid, s, jobs[n := job]) && n !in Line(s)
  {
    assert forall i :: 0 <= i < |Line(s)| ==> Line(s)[i] in jobs;
  }

  lemma AllBefore(sid: nat, s: Session, jobs: Jobs, sids: set<nat>, next: nat)
    requires SessionOk(sid, s, jobs) && Located(jobs, sids, next)
    ensures After(s, next)
  {
  }

  lemma SubmitStrands(sessions: Sessions, jobs: Jobs, conts: Conts, next: nat, sid: nat, kind: Kind)
    requires Strands(sessions, jobs, conts, next) && sid in sessions && next !in jobs && After(sessions[sid], next)
    ensures Strands(sessions, jobs[next := NewJob(sid, kind)], conts[next := Push(sid)], next + 1)
  {
    forall k | k in sessions ensures SessionOk(k, sessions[k], jobs[next := NewJob(sid, kind)]) {
      SessionNew(k, sessions[k], jobs, next, NewJob(sid, kind));
    }
  }

  lemma NewJobBooks(s: State, sid: nat, kind: Kind)
    requires Books(s.jobs, s.sessions.Keys, s.next, s.byId, s.nextId, s.up, s.fault) && sid in s.sessions
    ensures s.next !in s.jobs
    ensures Books(s.jobs[s.next := NewJob(sid, kind)], s.sessions.Keys, s.next + 1, s.byId, s.nextId, s.up, s.fault)
  {
  }

  lemma SubmitKeeps(s: State, sid: nat, kind: Kind)
    requires Inv(s) && sid in s.sessions
    ensures Inv(Next(s, Submit(sid, kind)))
  {
    AllBefore(sid, s.sessions[sid], s.jobs, s.sessions.Keys, s.next);
    NewJobBooks(s, sid, kind);
    SubmitStrands(s.sessions, s.jobs, s.conts, s.next, sid, kind);
  }

  lemma StopStrands(sessions: Sessions, jobs: Jobs, conts: Conts, next: nat, sid: nat)
    requires Strands(sessions, jobs, conts, next) && sid in sessions
    ensures Strands(sessions, jobs, conts[next := Stop(sid)], next + 1)
  {
  }

  lemma DisconnectKeeps(s: State, sid: nat)
    requires Inv(s) && sid in s.sessions
    ensures Inv(Next(s, Disconnect(sid)))
  {
    LaterBooks(s.jobs, s.sessions.Keys, s.next, s.byId, s.nextId, s.up, s.fault);
    StopStrands(s.sessions, s.jobs, s.conts, s.next, sid);
  }

  lemma ConnectStrands(sessions: Sessions, jobs: Jobs, conts: Conts, next: nat, sid: nat, session: Session)
    requires Strands(sessions, jobs, conts, next) && Located(jobs, sessions.Keys, next) && sid !in sessions
    requires session == Session("", 0, JobScheduler.Fresh(), Idle, [])
    ensures Strands(sessions[sid := session], jobs, conts, next)
  {
    assert SessionOk(sid, session, jobs);
  }

  lemma ConnectKeeps(s: State, sid: nat)
    requires Inv(s) && sid !in s.sessions
    ensures Inv(Next(s, Connect(sid)))
  {
    ConnectStrands(s.sessions, s.jobs, s.conts, s.next, sid, Session("", 0, JobScheduler.Fresh(), Idle, []));
  }

  lemma DownKeeps(s: State)
    requires Inv(s)
    ensures Inv(s.(up := false))
  {
    assert Awake(s.jobs, false, s.fault) by {
      forall j | j in s.jobs ensures AwakeOk(s.jobs[j], false, s.fault) {
        assert AwakeOk(s.jobs[j], s.up, s.fault);
      }
    }
  }

  /** A step of the table is a move of one request, or nothing. */
  lemma TableMoves(s: State, l: Label) returns (w: Option<Where>)
    requires l.Expire? || l.Respond? || l.Clear?
    ensures w.None? ==> Next(s, l) == s
    ensures w.Some? ==>
      && Issued(s, l.id) && CallOf(s, l.id).place.InTable? && MayMove(w.value, CallOf(s, l.id).deadline, s.up)
      && Next(s, l) == Move(s, l.id, w.value)
  {
    w := None;
    if Issued(s, l.id) && CallOf(s, l.id).place.InTable? {
      match l {
        case Expire(id, now) =>
          if s.up && CallOf(s, id).deadline <= now {
            w := Some(Taken(OnTimeout(now)));
          }
        case Respond(id, resp, now) =>
          w := Some(Taken(if now >= CallOf(s, id).deadline then OnTimeout(now) else OnResponse(now, resp)));
        case Clear(id) =>
          if !s.up {
            w := Some(Dropped(false));
          }
      }
    }
  }

  lemma TableKeeps(s: State, l: Label)
    requires Inv(s) && (l.Expire? || l.Respond? || l.Clear?)
    ensures Inv(Next(s, l))
  {
    var w := TableMoves(s, l);
    if w.Some? {
      MoveKeeps(s, l.id, w.value);
    }
  }

  lemma StepKeeps(s: State, sid: nat, n: nat, now: nat)
    requires Inv(s)
    ensures Inv(Next(s, Step(sid, n, now)))
  {
    if sid in s.sessions {
      StrandStepKeeps(s, sid, n, now);
    }
  }

  lemma ClientKeeps(s: State, l: Label)
    requires Inv(s) && (l.Connect? || l.Submit? || l.Disconnect?)
    ensures Inv(Next(s, l))
  {
    if l.session in s.sessions {
      if l.Submit? {
        SubmitKeeps(s, l.session, l.kind);
      } else if l.Disconnect? {
        DisconnectKeeps(s, l.session);
      }
    } else if l.Connect? {
      ConnectKeeps(s, l.session);
    }
  }

  lemma CallbackKeeps(s: State, id: nat)
    requires Inv(s)
    ensures Inv(Next(s, Fire(id)))
  {
    if Issued(s, id) && CallOf(s, id).place.Taken? {
      FireKeeps(s, id);
    }
  }

  lemma NextKeeps(s: State, l: Label)
    requires Inv(s)
    ensures Inv(Next(s, l))
  {
    if l.Step? {
      StepKeeps(s, l.session, l.cont, l.now);
    } else if l.Fire? {
      CallbackKeeps(s, l.id);
    } else if l.StopChannel? {
      DownKeeps(s);
    } else if l.Connect? || l.Submit? || l.Disconnect? {
      ClientKeeps(s, l);
    } else {
      TableKeeps(s, l);
    }
  }

  lemma StartIsSound()
    ensures Inv(Start())
  {
  }

  lemma {:induction false} RunKeeps(s: State, labels: seq<Label>)
    requires Inv(s)
    ensures Inv(Run(s, labels))
    decreases |labels|
  {
    if labels != [] {
      NextKeeps(s, labels[0]);
      RunKeeps(Next(s, labels[0]), labels[1..]);
    }
  }
}
