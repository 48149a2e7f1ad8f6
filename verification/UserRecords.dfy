/** What a session remembers between jobs. Every room request bears the user of the
    last login that its session finished before it; and the session's room is decided
    by the last event that says which room its client is in: a reply, or the notice of
    a kick. */
module UserRecords {
  import opened Rooms
  import opened UserServer
  import opened UserInvariants
  import opened UserSteps

  // ---------------------------------------------------------------- the last mark

  /** The value of the last mark before `n`. */
  function Last<T>(marks: map<nat, T>, n: nat, none: T): T
  {
    if n == 0 then none else if n - 1 in marks then marks[n - 1] else Last(marks, n - 1, none)
  }

  /** From `j` on there are no marks. */
  lemma {:induction false} LastGap<T>(marks: map<nat, T>, j: nat, n: nat, none: T)
    requires j <= n && forall k :: k in marks ==> k < j || n <= k
    ensures Last(marks, n, none) == Last(marks, j, none)
    decreases n
  {
    if j < n {
      LastGap(marks, j, n - 1, none);
    }
  }

  /** A mark at `j` does not change what came before it. */
  lemma {:induction false} LastBelow<T>(marks: map<nat, T>, j: nat, v: T, n: nat, none: T)
    requires n <= j
    ensures Last(marks[j := v], n, none) == Last(marks, n, none)
    decreases n
  {
    if n > 0 {
      LastBelow(marks, j, v, n - 1, none);
    }
  }

  /** A mark after all others is the last one. */
  lemma LastNew<T>(marks: map<nat, T>, j: nat, v: T, n: nat, none: T)
    requires j < n && forall k :: k in marks ==> k < j
    ensures Last(marks[j := v], n, none) == v
  {
    LastGap(marks[j := v], j + 1, n, none);
  }

  // ---------------------------------------------------------------- logins and rooms

  /** A login that is done. */
  predicate Names(j: Job, sid: nat)
  {
    j.session == sid && Done(j) && j.kind.LocalJob? && j.kind.effect.LogIn?
  }

  function Logins(jobs: Jobs, sid: nat): map<nat, Uid>
  {
    map k | k in jobs && Names(jobs[k], sid) :: jobs[k].kind.effect.uid
  }

  /** What says which room the client is in: a reply, not a timeout's, to a create or a
      leave, a success to a join, and the notice of a kick. */
  predicate Decides(j: Job, sid: nat)
  {
    && j.session == sid
    && match j.kind
       case RoomJob(ask) => j.reply.Some? && j.reply.value.tag.Some? && (ask.AskJoin? ==> j.reply.value.success)
       case LocalJob(effect) => Done(j) && effect.LeftRoom?
  }

  function RoomOf(j: Job): RoomId
    requires j.kind.RoomJob? ==> j.reply.Some?
  {
    if j.kind.LocalJob? || j.kind.ask.AskLeave? then 0 else j.reply.value.room
  }

  function Visits(jobs: Jobs, sid: nat): map<nat, RoomId>
  {
    map k | k in jobs && Decides(jobs[k], sid) :: RoomOf(jobs[k])
  }

  predicate BearsLogin(jobs: Jobs, j: nat)
    requires j in jobs
  {
    jobs[j].call.Some? ==> jobs[j].call.value.request.uid == Last(Logins(jobs, jobs[j].session), j, "")
  }

  ghost predicate SessionKnows(sid: nat, s: Session, jobs: Jobs, next: nat)
  {
    s.uid == Last(Logins(jobs, sid), next, "") && s.room == Last(Visits(jobs, sid), next, 0)
  }

  ghost predicate Remembers(s: State)
  {
    && (forall sid :: sid in s.sessions ==> SessionKnows(sid, s.sessions[sid], s.jobs, s.next))
    && (forall j :: j in s.jobs ==> BearsLogin(s.jobs, j))
  }

  // ---------------------------------------------------------------- quiet steps

  /** A job that keeps its request or has none, and neither names a user nor decides a
      room if it did not before. */
  predicate QuietJob(was: Job, job: Job)
  {
    && job.session == was.session && job.kind == was.kind && job.reply == was.reply
    && (job.kind.LocalJob? && !job.kind.effect.NoEffect? ==> (Done(job) <==> Done(was)))
    && (job.call.Some? ==> was.call.Some? && job.call.value.request == was.call.value.request)
  }

  predicate NewQuiet(job: Job) { job.call.None? && job.reply.None? && !Done(job) }

  /** What a step that names nobody and decides nothing may do. */
  ghost predicate Quiet(s: State, s': State)
  {
    && s.next <= s'.next
    && (forall sid :: sid in s'.sessions ==>
          && s'.sessions[sid].uid == (if sid in s.sessions then s.sessions[sid].uid else "")
          && s'.sessions[sid].room == (if sid in s.sessions then s.sessions[sid].room else 0))
    && (forall j :: j in s'.jobs ==> (if j in s.jobs then QuietJob(s.jobs[j], s'.jobs[j]) else NewQuiet(s'.jobs[j])))
    && (forall j :: j in s.jobs ==> j in s'.jobs)
  }

  lemma QuietMarks(s: State, s': State, sid: nat)
    requires Quiet(s, s')
    ensures Logins(s'.jobs, sid) == Logins(s.jobs, sid) && Visits(s'.jobs, sid) == Visits(s.jobs, sid)
  {
  }

  lemma MarksBelow(jobs: Jobs, sids: set<nat>, sid: nat, next: nat, n: nat)
    requires Located(jobs, sids, next) && next <= n
    ensures Last(Logins(jobs, sid), n, "") == Last(Logins(jobs, sid), next, "")
    ensures Last(Visits(jobs, sid), n, 0) == Last(Visits(jobs, sid), next, 0)
  {
    LastGap(Logins(jobs, sid), next, n, "");
    LastGap(Visits(jobs, sid), next, n, 0);
  }

  lemma Unmarked(jobs: Jobs, sids: set<nat>, sid: nat, next: nat, n: nat)
    requires Located(jobs, sids, next) && sid !in sids
    ensures Last(Logins(jobs, sid), n, "") == "" && Last(Visits(jobs, sid), n, 0) == 0
  {
    LastGap(Logins(jobs, sid), 0, n, "");
    LastGap(Visits(jobs, sid), 0, n, 0);
  }

  lemma QuietRemembers(s: State, s': State)
    requires Remembers(s) && Quiet(s, s') && Located(s.jobs, s.sessions.Keys, s.next)
    ensures Remembers(s')
  {
    forall sid | sid in s'.sessions ensures SessionKnows(sid, s'.sessions[sid], s'.jobs, s'.next) {
      QuietMarks(s, s', sid);
      if sid in s.sessions {
        MarksBelow(s.jobs, s.sessions.Keys, sid, s.next, s'.next);
      } else {
        Unmarked(s.jobs, s.sessions.Keys, sid, s.next, s'.next);
      }
    }
    forall j | j in s'.jobs ensures BearsLogin(s'.jobs, j) {
      if j in s.jobs {
        assert BearsLogin(s.jobs, j);
        QuietMarks(s, s', s.jobs[j].session);
      }
    }
  }

  ghost predicate SameSessions(sessions: Sessions, sessions': Sessions)
  {
    && (forall sid :: sid in sessions' ==>
          sid in sessions && sessions'[sid].uid == sessions[sid].uid && sessions'[sid].room == sessions[sid].room)
    && (forall sid :: sid in sessions ==> sid in sessions')
  }

  lemma QuietOne(s: State, s': State, j: nat, job: Job)
    requires j in s.jobs && s'.jobs == s.jobs[j := job] && QuietJob(s.jobs[j], job)
    requires s.next <= s'.next && SameSessions(s.sessions, s'.sessions)
    ensures Quiet(s, s')
  {
  }

  lemma CancelQuiet(job: Job)
    requires JobOk(job)
    ensures QuietJob(job, CancelJob(job))
  {
  }

  lemma SendQuiet(s: State, sid: nat, j: nat)
    requires HeadFacts(s, sid, j) && s.sessions[sid].phase == Sending(j)
    ensures s.jobs[j].call.Some? && Quiet(s, SendOut(s, sid, j))
  {
    var s' := SendOut(s, sid, j);
    QuietOne(s, s', j, s'.jobs[j]);
  }

  lemma CancelNextQuiet(s: State, sid: nat, l: seq<nat>)
    requires l != [] && HeadFacts(s, sid, l[0]) && s.sessions[sid].phase == Cancelling(l)
    ensures Quiet(s, CancelNext(s, sid, l))
  {
    var s' := CancelNext(s, sid, l);
    CancelQuiet(s.jobs[l[0]]);
    QuietOne(s, s', l[0], s'.jobs[l[0]]);
  }

  lemma PushQuiet(s: State, sid: nat, n: nat)
    requires ContFacts(s, sid, n) && s.conts[n].Push? && JobOk(s.jobs[n])
    ensures Quiet(s, RunCont(s, sid, n))
  {
    var s' := RunCont(s, sid, n);
    CancelQuiet(s.jobs[n]);
    QuietOne(s, s', n, s'.jobs[n]);
  }

  lemma StopQuiet(s: State, sid: nat, n: nat)
    requires ContFacts(s, sid, n) && s.conts[n].Stop?
    ensures Quiet(s, RunCont(s, sid, n))
  {
  }

  /** A continuation that finds its job over, or faults. */
  lemma LateQuiet(s: State, sid: nat, n: nat, j: nat)
    requires HandleFacts(s, sid, n, j) && (s.jobs[j].stage.Over? || Misfit(s.jobs[j]))
    ensures Quiet(s, RunCont(s, sid, n))
  {
    var s' := RunCont(s, sid, n);
    QuietOne(s, s', j, s'.jobs[j]);
  }

  lemma MoveQuiet(s: State, id: nat, w: Where)
    requires Issued(s, id)
    ensures Quiet(s, Move(s, id, w))
  {
    QuietOne(s, Move(s, id, w), s.byId[id], Place(s.jobs[s.byId[id]], w));
  }

  lemma FireQuiet(s: State, j: nat)
    requires j in s.jobs && s.jobs[j].call.Some? && s.jobs[j].call.value.place.Taken?
    ensures Quiet(s, FireCall(s, j))
  {
    QuietOne(s, FireCall(s, j), j, Fired(s.jobs[j], s.next));
  }

  lemma SameQuiet(s: State, s': State)
    requires s'.jobs == s.jobs && s.next <= s'.next && s'.sessions == s.sessions
    ensures Quiet(s, s')
  {
  }

  lemma TableQuiet(s: State, l: Label)
    requires l.Expire? || l.Respond? || l.Clear?
    ensures Quiet(s, Next(s, l))
  {
    var w := TableMoves(s, l);
    if w.Some? {
      MoveQuiet(s, l.id, w.value);
    } else {
      SameQuiet(s, s);
    }
  }

  lemma SubmitQuiet(s: State, s': State, sid: nat, kind: Kind)
    requires s.next !in s.jobs && s'.jobs == s.jobs[s.next := NewJob(sid, kind)]
    requires s.next <= s'.next && s'.sessions == s.sessions
    ensures Quiet(s, s')
  {
  }

  lemma ConnectQuiet(s: State, s': State, sid: nat, session: Session)
    requires sid !in s.sessions && s' == s.(sessions := s.sessions[sid := session]) && session.uid == "" && session.room == 0
    ensures Quiet(s, s')
  {
  }

  lemma OtherQuiet(s: State, l: Label)
    requires Located(s.jobs, s.sessions.Keys, s.next) && !l.Step? && !l.Expire? && !l.Respond? && !l.Clear?
    ensures Quiet(s, Next(s, l))
  {
    match l {
      case Connect(sid) =>
        if sid in s.sessions {
          SameQuiet(s, s);
        } else {
          ConnectQuiet(s, Next(s, l), sid, Next(s, l).sessions[sid]);
        }
      case Fire(id) =>
        if Issued(s, id) && CallOf(s, id).place.Taken? {
          FireQuiet(s, s.byId[id]);
        } else {
          SameQuiet(s, s);
        }
      case Submit(sid, kind) =>
        if sid in s.sessions {
          SubmitQuiet(s, Next(s, l), sid, kind);
        } else {
          SameQuiet(s, s);
        }
      case _ => SameQuiet(s, Next(s, l));
    }
  }

  // ---------------------------------------------------------------- the head of the line

  /** Whatever is done in a session came before the head of its line. */
  lemma DoneBeforeHead(s: State, sid: nat, j: nat, k: nat)
    requires Recorded(s.jobs, s.sessions) && HeadFacts(s, sid, j)
    requires k in s.jobs && s.jobs[k].session == sid && Done(s.jobs[k])
    ensures k < j
  {
    var session := s.sessions[sid];
    var i :| 0 <= i < |session.finished| && session.finished[i] == k;
    var all := session.finished + Line(session);
    assert all[i] == k && all[|session.finished|] == j;
  }

  /** All marks of session `sid` come before `j`. */
  ghost predicate MarkedBefore(jobs: Jobs, sid: nat, j: nat)
  {
    && (forall k :: k in Logins(jobs, sid) ==> k < j)
    && (forall k :: k in Visits(jobs, sid) ==> k < j)
  }

  lemma HeadMarks(s: State, sid: nat, j: nat)
    requires Recorded(s.jobs, s.sessions) && HeadFacts(s, sid, j) && JobsOk(s.jobs)
    ensures MarkedBefore(s.jobs, sid, j)
  {
    forall k | k in s.jobs && (Names(s.jobs[k], sid) || Decides(s.jobs[k], sid)) ensures k < j {
      assert JobOk(s.jobs[k]);
      DoneBeforeHead(s, sid, j, k);
    }
  }

  /** The marks of a session whose job `j` changes. */
  lemma OneMark(jobs: Jobs, j: nat, job: Job, sid: nat)
    requires j in jobs && job.session == jobs[j].session && !Names(jobs[j], sid) && !Decides(jobs[j], sid)
    ensures Logins(jobs[j := job], sid) == if Names(job, sid) then Logins(jobs, sid)[j := job.kind.effect.uid] else Logins(jobs, sid)
    ensures Visits(jobs[j := job], sid) ==
              if Decides(job, sid) then Visits(jobs, sid)[j := RoomOf(job)] else Visits(jobs, sid)
  {
  }

  /** A room job issues its request in the name of the session's user. */
  lemma IssueRemembers(s: State, sid: nat, j: nat, now: nat)
    requires Remembers(s) && HeadFacts(s, sid, j) && j < s.next && MarkedBefore(s.jobs, sid, j)
    requires s.sessions[sid].phase == Starting(j) && s.jobs[j].kind.RoomJob?
    ensures Remembers(StartJob(s, sid, j, now))
  {
    var s' := StartJob(s, sid, j, now);
    forall x ensures Logins(s'.jobs, x) == Logins(s.jobs, x) && Visits(s'.jobs, x) == Visits(s.jobs, x) {
      OneMark(s.jobs, j, s'.jobs[j], x);
    }
    assert SessionKnows(sid, s.sessions[sid], s.jobs, s.next);
    LastGap(Logins(s.jobs, sid), j, s.next, "");
    forall k | k in s'.jobs ensures BearsLogin(s'.jobs, k) {
      assert BearsLogin(s.jobs, k);
    }
    forall x | x in s'.sessions ensures SessionKnows(x, s'.sessions[x], s'.jobs, s'.next) {
      assert SessionKnows(x, s.sessions[x], s.jobs, s.next);
    }
  }

  /** A session that is about to start a job has sent no request after it. */
  lemma CallsBeforeHead(s: State, sid: nat, j: nat, k: nat)
    requires Recorded(s.jobs, s.sessions) && Halted(s.jobs, s.sessions) && RunningFirst(s.jobs, s.sessions)
    requires HeadFacts(s, sid, j) && s.sessions[sid].phase == Starting(j)
    requires k in s.jobs && s.jobs[k].session == sid && s.jobs[k].call.Some? && JobOk(s.jobs[k])
    ensures k < j
  {
    DoneBeforeHead(s, sid, j, k);
  }

  /** Job `j`, after all that is marked, gets its mark, and its session with it. */
  ghost predicate Marks(s: State, s': State, sid: nat, j: nat, job: Job)
  {
    && j in s.jobs && j < s.next == s'.next && s.jobs[j].session == sid == job.session
    && s'.jobs == s.jobs[j := job] && !Names(s.jobs[j], sid) && !Decides(s.jobs[j], sid)
    && MarkedBefore(s.jobs, sid, j)
    && sid in s.sessions && s'.sessions.Keys == s.sessions.Keys
    && s'.sessions[sid].uid == (if Names(job, sid) then job.kind.effect.uid else s.sessions[sid].uid)
    && s'.sessions[sid].room == (if Decides(job, sid) then RoomOf(job) else s.sessions[sid].room)
    && (forall x :: x in s.sessions && x != sid ==> s'.sessions[x] == s.sessions[x])
  }

  lemma MarkKnows(s: State, s': State, sid: nat, j: nat, job: Job, x: nat)
    requires Marks(s, s', sid, j, job) && x in s.sessions && SessionKnows(x, s.sessions[x], s.jobs, s.next)
    ensures SessionKnows(x, s'.sessions[x], s'.jobs, s'.next)
  {
    OneMark(s.jobs, j, job, x);
    if x == sid {
      if Names(job, sid) {
        LastNew(Logins(s.jobs, sid), j, job.kind.effect.uid, s.next, "");
      }
      if Decides(job, sid) {
        LastNew(Visits(s.jobs, sid), j, RoomOf(job), s.next, 0);
      }
    }
  }

  lemma MarkBears(s: State, s': State, sid: nat, j: nat, job: Job, k: nat)
    requires Marks(s, s', sid, j, job) && k in s.jobs && BearsLogin(s.jobs, k)
    requires k == j ==> (job.call.Some? ==> s.jobs[j].call.Some? && job.call.value.request == s.jobs[j].call.value.request)
    requires Names(job, sid) && s'.jobs[k].session == sid && s'.jobs[k].call.Some? ==> k <= j
    ensures BearsLogin(s'.jobs, k)
  {
    OneMark(s.jobs, j, job, s.jobs[k].session);
    if Names(job, sid) && s.jobs[k].session == sid && s'.jobs[k].call.Some? {
      LastBelow(Logins(s.jobs, sid), j, job.kind.effect.uid, k, "");
    }
  }

  /** A job other than a room job finishes; a login names the session's user, and the
      notice of a kick decides its room. */
  lemma StartLocalMarks(s: State, sid: nat, j: nat, now: nat)
    requires HeadFacts(s, sid, j) && j < s.next && MarkedBefore(s.jobs, sid, j)
    requires s.sessions[sid].phase == Starting(j) && s.jobs[j].kind.LocalJob?
    ensures var s' := StartJob(s, sid, j, now); j in s'.jobs && Marks(s, s', sid, j, s'.jobs[j])
  {
  }

  lemma StartLocalRemembers(s: State, sid: nat, j: nat, now: nat)
    requires Remembers(s) && HeadFacts(s, sid, j) && j < s.next && JobsOk(s.jobs) && MarkedBefore(s.jobs, sid, j)
    requires Recorded(s.jobs, s.sessions) && Halted(s.jobs, s.sessions) && RunningFirst(s.jobs, s.sessions)
    requires s.sessions[sid].phase == Starting(j) && s.jobs[j].kind.LocalJob?
    ensures Remembers(StartJob(s, sid, j, now))
  {
    var s' := StartJob(s, sid, j, now);
    var job := s'.jobs[j];
    StartLocalMarks(s, sid, j, now);
    forall x | x in s'.sessions ensures SessionKnows(x, s'.sessions[x], s'.jobs, s'.next) {
      MarkKnows(s, s', sid, j, job, x);
    }
    forall k | k in s'.jobs ensures BearsLogin(s'.jobs, k) {
      if k != j && s.jobs[k].session == sid && s.jobs[k].call.Some? {
        CallsBeforeHead(s, sid, j, k);
      }
      MarkBears(s, s', sid, j, job, k);
    }
  }

  /** A room job replies; the reply may decide the session's room. */
  lemma ReplyMarks(s: State, sid: nat, n: nat, j: nat)
    requires HandleFacts(s, sid, n, j) && s.jobs[j].stage.Running? && !Misfit(s.jobs[j])
    requires j < s.next && MarkedBefore(s.jobs, sid, j)
    ensures var s' := RunCont(s, sid, n); j in s'.jobs && Marks(s, s', sid, j, s'.jobs[j])
  {
  }

  lemma ReplyRemembers(s: State, sid: nat, n: nat, j: nat)
    requires Remembers(s) && HandleFacts(s, sid, n, j) && s.jobs[j].stage.Running? && !Misfit(s.jobs[j])
    requires j < s.next && MarkedBefore(s.jobs, sid, j)
    ensures Remembers(RunCont(s, sid, n))
  {
    var s' := RunCont(s, sid, n);
    var job := s'.jobs[j];
    ReplyMarks(s, sid, n, j);
    forall x | x in s'.sessions ensures SessionKnows(x, s'.sessions[x], s'.jobs, s'.next) {
      MarkKnows(s, s', sid, j, job, x);
    }
    forall k | k in s'.jobs ensures BearsLogin(s'.jobs, k) {
      MarkBears(s, s', sid, j, job, k);
    }
  }

  // ---------------------------------------------------------------- every step

  lemma StartRemembers(s: State, sid: nat, j: nat, now: nat)
    requires Inv(s) && Remembers(s) && HeadFacts(s, sid, j) && s.sessions[sid].phase == Starting(j)
    ensures Remembers(StartJob(s, sid, j, now))
  {
    HeadMarks(s, sid, j);
    if s.jobs[j].kind.RoomJob? {
      IssueRemembers(s, sid, j, now);
    } else {
      StartLocalRemembers(s, sid, j, now);
    }
  }

  lemma HandleRemembers(s: State, sid: nat, n: nat, j: nat)
    requires Inv(s) && Remembers(s) && HandleFacts(s, sid, n, j)
    ensures Remembers(RunCont(s, sid, n))
  {
    if s.jobs[j].stage.Over? || Misfit(s.jobs[j]) {
      LateQuiet(s, sid, n, j);
      QuietRemembers(s, RunCont(s, sid, n));
    } else {
      HeadMarks(s, sid, j);
      ReplyRemembers(s, sid, n, j);
    }
  }

  lemma RunContRemembers(s: State, sid: nat, n: nat)
    requires Inv(s) && Remembers(s) && ContFacts(s, sid, n)
    ensures Remembers(RunCont(s, sid, n))
  {
    if s.conts[n].Handle? {
      HandleHolds(s, sid, n, s.conts[n].job);
      HandleRemembers(s, sid, n, s.conts[n].job);
    } else {
      if s.conts[n].Push? {
        PushQuiet(s, sid, n);
      } else {
        StopQuiet(s, sid, n);
      }
      QuietRemembers(s, RunCont(s, sid, n));
    }
  }

  lemma StepRemembers(s: State, sid: nat, n: nat, now: nat)
    requires Inv(s) && Remembers(s) && sid in s.sessions
    ensures Remembers(StrandStep(s, sid, n, now))
  {
    PhaseFirst(s, sid);
    match s.sessions[sid].phase {
      case Starting(j) =>
        HeadHolds(s, sid, j);
        StartRemembers(s, sid, j, now);
      case Sending(j) =>
        HeadHolds(s, sid, j);
        SendQuiet(s, sid, j);
        QuietRemembers(s, SendOut(s, sid, j));
      case Cancelling(l) =>
        HeadHolds(s, sid, l[0]);
        CancelNextQuiet(s, sid, l);
        QuietRemembers(s, CancelNext(s, sid, l));
      case Idle =>
        if IsHead(s.conts, n) && s.conts[n].session == sid {
          ContHolds(s, sid, n);
          RunContRemembers(s, sid, n);
        }
    }
  }

  lemma NextRemembers(s: State, l: Label)
    requires Inv(s) && Remembers(s)
    ensures Remembers(Next(s, l))
  {
    if l.Step? {
      if l.session in s.sessions {
        StepRemembers(s, l.session, l.cont, l.now);
      }
    } else {
      if l.Expire? || l.Respond? || l.Clear? {
        TableQuiet(s, l);
      } else {
        OtherQuiet(s, l);
      }
      QuietRemembers(s, Next(s, l));
    }
  }

  lemma {:induction false} RunRemembers(s: State, labels: seq<Label>)
    requires Inv(s) && Remembers(s)
    ensures Remembers(Run(s, labels))
    decreases |labels|
  {
    if labels != [] {
      NextKeeps(s, labels[0]);
      NextRemembers(s, labels[0]);
      RunRemembers(Next(s, labels[0]), labels[1..]);
    }
  }

  // ---------------------------------------------------------------- theorems

  /** In every run a room request bears the user of the last login that its session
      finished before it. */
  lemma RequestsBearTheLogin(labels: seq<Label>, j: nat)
    ensures
      var s := Run(Start(), labels);
      j in s.jobs && s.jobs[j].call.Some? ==>
        s.jobs[j].call.value.request.uid == Last(Logins(s.jobs, s.jobs[j].session), j, "")
  {
    StartIsSound();
    RunRemembers(Start(), labels);
    var s := Run(Start(), labels);
    assert j in s.jobs ==> BearsLogin(s.jobs, j);
  }

  /** In every run a session speaks for the user of its last login, and its room is
      decided by its last reply or notice of a kick that says so. */
  lemma SessionsFollowEvents(labels: seq<Label>, sid: nat)
    ensures
      var s := Run(Start(), labels);
      sid in s.sessions ==>
        && s.sessions[sid].uid == Last(Logins(s.jobs, sid), s.next, "")
        && s.sessions[sid].room == Last(Visits(s.jobs, sid), s.next, 0)
  {
    StartIsSound();
    RunRemembers(Start(), labels);
    var s := Run(Start(), labels);
    assert sid in s.sessions ==> SessionKnows(sid, s.sessions[sid], s.jobs, s.next);
  }
}
