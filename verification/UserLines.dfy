/** Every job of the User server is somewhere: still to be pushed, in its session's line,
    or over. The lines only move up, in order, and every job in one gets done. */
module UserLines {
  import opened Basics
  import opened UserServer
  import opened UserInvariants
  import opened UserSteps
  import opened UserProgress

  predicate IsOver(s: State, j: nat)
  {
    j in s.jobs && s.jobs[j].stage.Over?
  }

  function LineOf(s: State, sid: nat): seq<nat>
    requires sid in s.sessions
  {
    Line(s.sessions[sid])
  }

  /** Its session's strand has yet to push job `j`. */
  predicate ToBePushed(s: State, j: nat)
  {
    j in s.jobs && j in s.conts && s.conts[j] == Push(s.jobs[j].session)
  }

  // ---------------------------------------------------------------- how a line moves

  /** Session `sid`'s strand runs the push of job `n` in this step. */
  predicate RunsPush(s: State, l: Label, sid: nat, n: nat)
  {
    && l.Step? && l.session == sid && l.cont == n && sid in s.sessions && s.sessions[sid].phase.Idle?
    && IsHead(s.conts, n) && s.conts[n] == Push(sid)
  }

  /** What a step adds to the line: the job it pushes, unless the session has stopped. */
  function Added(s: State, l: Label, sid: nat): seq<nat>
  {
    if l.Step? && RunsPush(s, l, sid, l.cont) && !s.sessions[sid].sched.stopped then [l.cont] else []
  }

  /** The line after a step: its first job leaves it exactly if it is over then, and what
      is added comes last. */
  predicate LineMoves(s: State, s': State, sid: nat, added: seq<nat>)
    requires sid in s.sessions && sid in s'.sessions
  {
    LineOf(s', sid) ==
      (if LineOf(s, sid) != [] && IsOver(s', LineOf(s, sid)[0]) then LineOf(s, sid)[1..] else LineOf(s, sid)) + added
  }

  /** A step of session `sid`'s strand that touches job `j`. */
  ghost predicate Touches(s: State, s': State, sid: nat, j: nat)
  {
    && sid in s.sessions && s'.sessions.Keys == s.sessions.Keys
    && (forall x :: x in s.sessions && x != sid ==> s'.sessions[x] == s.sessions[x])
    && s'.jobs.Keys == s.jobs.Keys && (forall i :: i in s.jobs && i != j ==> s'.jobs[i] == s.jobs[i])
    && (j in s.jobs ==> s'.jobs[j].session == s.jobs[j].session)
    && (s.sessions[sid].sched.stopped ==> s'.sessions[sid].sched.stopped)
  }

  lemma PutTouches(s: State, s': State, sid: nat, session: Session, j: nat, job: Job)
    requires sid in s.sessions && j in s.jobs && job.session == s.jobs[j].session
    requires s'.sessions == s.sessions[sid := session] && s'.jobs == s.jobs[j := job]
    requires s.sessions[sid].sched.stopped ==> session.sched.stopped
    ensures Touches(s, s', sid, j)
  {
  }

  lemma StartLine(s: State, sid: nat, j: nat, now: nat)
    requires HeadFacts(s, sid, j) && s.sessions[sid].phase == Starting(j)
    ensures
      var s' := StartJob(s, sid, j, now);
      Touches(s, s', sid, j) && s'.conts == s.conts && LineMoves(s, s', sid, [])
  {
    var s' := StartJob(s, sid, j, now);
    if s.jobs[j].kind.LocalJob? {
      DoneLine(AfterLocal(s.sessions[sid], s.jobs[j].kind.effect).(finished := s.sessions[sid].finished + [j]));
      assert LineOf(s, sid)[1..] + [] == LineOf(s, sid)[1..];
    } else {
      assert LineOf(s, sid) + [] == LineOf(s, sid);
    }
    PutTouches(s, s', sid, s'.sessions[sid], j, s'.jobs[j]);
  }

  /** A completion takes the first job out of the line. */
  lemma DoneLine(s: Session)
    requires !s.phase.Cancelling? && s.sched.q != []
    ensures Line(AfterDone(s)) == Line(s)[1..] && AfterDone(s).sched.stopped == s.sched.stopped
  {
  }

  lemma SendLine(s: State, sid: nat, j: nat)
    requires HeadFacts(s, sid, j) && s.sessions[sid].phase == Sending(j)
    ensures
      s.jobs[j].call.Some? && var s' := SendOut(s, sid, j);
      Touches(s, s', sid, j) && s'.conts == s.conts && LineMoves(s, s', sid, []) && (IsOver(s', j) <==> IsOver(s, j))
  {
  }

  lemma CancelLine(s: State, sid: nat, l: seq<nat>)
    requires l != [] && HeadFacts(s, sid, l[0]) && s.sessions[sid].phase == Cancelling(l)
    ensures
      var s' := CancelNext(s, sid, l);
      Touches(s, s', sid, l[0]) && s'.conts == s.conts && LineMoves(s, s', sid, []) && IsOver(s', l[0])
  {
  }

  lemma PushLine(s: State, sid: nat, n: nat)
    requires ContFacts(s, sid, n) && s.conts[n] == Push(sid)
    ensures
      var s' := RunCont(s, sid, n);
      && Touches(s, s', sid, n) && s'.conts == s.conts - {n}
      && (if s.sessions[sid].sched.stopped then LineOf(s', sid) == LineOf(s, sid) && IsOver(s', n)
          else LineOf(s', sid) == LineOf(s, sid) + [n] && s'.jobs[n] == s.jobs[n])
  {
  }

  lemma StopLine(s: State, sid: nat, n: nat)
    requires ContFacts(s, sid, n) && s.conts[n].Stop?
    ensures
      var s' := RunCont(s, sid, n);
      && s'.jobs == s.jobs && s'.conts == s.conts - {n} && s'.sessions.Keys == s.sessions.Keys
      && (forall x :: x in s.sessions && x != sid ==> s'.sessions[x] == s.sessions[x])
      && LineOf(s', sid) == LineOf(s, sid) && s'.sessions[sid].sched.stopped
  {
  }

  lemma HandleLine(s: State, sid: nat, n: nat, j: nat)
    requires HandleFacts(s, sid, n, j)
    ensures
      var s' := RunCont(s, sid, n);
      && Touches(s, s', sid, j) && s'.conts == s.conts - {n}
      && (if s.jobs[j].stage.Running? then LineMoves(s, s', sid, []) else LineOf(s', sid) == LineOf(s, sid) && IsOver(s, j))
  {
    var s' := RunCont(s, sid, n);
    HandleIs(s, sid, n, j);
    if s.jobs[j].stage.Running? && !Misfit(s.jobs[j]) {
      var was, cb := s.sessions[sid], s.jobs[j].call.value.place.what;
      DoneLine(was.(room := RoomAfter(was.room, s.jobs[j].kind.ask, cb), finished := was.finished + [j]));
      assert LineOf(s, sid)[1..] + [] == LineOf(s, sid)[1..];
    } else {
      assert LineOf(s, sid) + [] == LineOf(s, sid);
    }
    PutTouches(s, s', sid, s'.sessions[sid], j, s'.jobs[j]);
  }

  lemma HandleIs(s: State, sid: nat, n: nat, j: nat)
    requires HandleFacts(s, sid, n, j)
    ensures
      var s', job, was := RunCont(s, sid, n), s.jobs[j], s.sessions[sid];
      var cb := job.call.value.place.what;
      && s'.conts == s.conts - {n}
      && (if job.stage.Running? && !Misfit(job) then
            && s'.sessions == s.sessions[sid := AfterReply(was, j, job.kind.ask, cb)]
            && s'.jobs == s.jobs[j := Answered(job, job.kind.ask, cb)]
          else
            && s'.sessions == s.sessions[sid := was] && s'.jobs == s.jobs[j := Place(job, Handled(cb))])
  {
  }

  // ---------------------------------------------------------------- any step

  /** What is known of a line: its jobs are the session's and not over, and have been
      pushed. */
  lemma LineFacts(s: State, sid: nat, i: nat)
    requires Inv(s) && sid in s.sessions && i < |LineOf(s, sid)|
    ensures
      var j := LineOf(s, sid)[i];
      j in s.jobs && s.jobs[j].session == sid && !s.jobs[j].stage.Over? && !ToBePushed(s, j)
  {
    assert SessionOk(sid, s.sessions[sid], s.jobs);
    LineIsPushed(s.conts, s.sessions, sid, i);
  }

  lemma LineIsPushed(conts: Conts, sessions: Sessions, sid: nat, i: nat)
    requires PushesLater(conts, sessions) && sid in sessions && i < |Line(sessions[sid])|
    ensures var j := Line(sessions[sid])[i]; !(j in conts && conts[j] == Push(sid))
  {
    var j := Line(sessions[sid])[i];
    assert j in conts && conts[j] == Push(sid) ==> After(sessions[sid], j);
  }

  lemma FirstIsNotOver(s: State, sid: nat)
    requires Inv(s) && sid in s.sessions && LineOf(s, sid) != []
    ensures !IsOver(s, LineOf(s, sid)[0]) && LineOf(s, sid)[0] in s.jobs && s.jobs[LineOf(s, sid)[0]].session == sid
  {
    LineFacts(s, sid, 0);
  }

  lemma SameLine(s: State, s': State, sid: nat)
    requires sid in s.sessions && sid in s'.sessions && LineOf(s', sid) == LineOf(s, sid)
    requires LineOf(s, sid) != [] ==> !IsOver(s', LineOf(s, sid)[0])
    ensures LineMoves(s, s', sid, [])
  {
    assert LineOf(s, sid) + [] == LineOf(s, sid);
  }

  /** Only session `sid` and its jobs may have changed; jobs stay with their sessions. */
  ghost predicate Elsewhere(s: State, s': State, sid: nat)
  {
    && s'.sessions.Keys == s.sessions.Keys && (forall x :: x in s.sessions && x != sid ==> s'.sessions[x] == s.sessions[x])
    && s'.jobs.Keys == s.jobs.Keys && (forall i :: i in s.jobs ==> s'.jobs[i].session == s.jobs[i].session)
    && (forall i :: i in s.jobs && s.jobs[i].session != sid ==> s'.jobs[i].stage == s.jobs[i].stage)
  }

  /** The jobs that a step finishes: the first in line, or one that is pushed after its
      session has stopped. */
  ghost predicate Finishes(s: State, s': State, l: Label, sid: nat)
  {
    forall i :: IsOver(s', i) && !IsOver(s, i) && i in s.jobs && s.jobs[i].session == sid ==>
      sid in s.sessions && ((LineOf(s, sid) != [] && LineOf(s, sid)[0] == i) || (RunsPush(s, l, sid, i) && s.sessions[sid].sched.stopped))
  }

  lemma PushMovesLine(s: State, sid: nat, n: nat, now: nat)
    requires Inv(s) && ContFacts(s, sid, n) && s.conts[n] == Push(sid)
    ensures
      var s', l := RunCont(s, sid, n), Step(sid, n, now);
      Elsewhere(s, s', sid) && LineMoves(s, s', sid, Added(s, l, sid)) && Finishes(s, s', l, sid)
  {
    PushLine(s, sid, n);
    if LineOf(s, sid) != [] {
      LineFacts(s, sid, 0);
    }
    PushAdds(s, RunCont(s, sid, n), sid, n, now);
  }

  lemma PushAdds(s: State, s': State, sid: nat, n: nat, now: nat)
    requires ContFacts(s, sid, n) && s.conts[n] == Push(sid) && Touches(s, s', sid, n)
    requires if s.sessions[sid].sched.stopped then LineOf(s', sid) == LineOf(s, sid) && IsOver(s', n)
             else LineOf(s', sid) == LineOf(s, sid) + [n] && s'.jobs[n] == s.jobs[n]
    requires LineOf(s, sid) != [] ==> !IsOver(s, LineOf(s, sid)[0]) && LineOf(s, sid)[0] in s.jobs && LineOf(s, sid)[0] != n
    ensures
      var l := Step(sid, n, now);
      Elsewhere(s, s', sid) && LineMoves(s, s', sid, Added(s, l, sid)) && Finishes(s, s', l, sid)
  {
    assert LineOf(s, sid) + [] == LineOf(s, sid);
  }

  lemma StopMovesLine(s: State, sid: nat, n: nat, now: nat)
    requires Inv(s) && ContFacts(s, sid, n) && s.conts[n].Stop?
    ensures
      var s', l := RunCont(s, sid, n), Step(sid, n, now);
      Elsewhere(s, s', sid) && LineMoves(s, s', sid, Added(s, l, sid)) && Finishes(s, s', l, sid)
  {
    StopLine(s, sid, n);
    if LineOf(s, sid) != [] {
      FirstIsNotOver(s, sid);
    }
    SameLine(s, RunCont(s, sid, n), sid);
  }

  lemma HandleMovesLine(s: State, sid: nat, n: nat, j: nat, now: nat)
    requires Inv(s) && HandleFacts(s, sid, n, j)
    ensures
      var s', l := RunCont(s, sid, n), Step(sid, n, now);
      Elsewhere(s, s', sid) && LineMoves(s, s', sid, Added(s, l, sid)) && Finishes(s, s', l, sid)
  {
    var s' := RunCont(s, sid, n);
    HandleLine(s, sid, n, j);
    if !s.jobs[j].stage.Running? {
      if LineOf(s, sid) != [] {
        FirstIsNotOver(s, sid);
      }
      SameLine(s, s', sid);
    }
    HandleFinishes(s, s', sid, n, j, now);
  }

  lemma HandleFinishes(s: State, s': State, sid: nat, n: nat, j: nat, now: nat)
    requires HandleFacts(s, sid, n, j) && Touches(s, s', sid, j) && LineMoves(s, s', sid, [])
    requires !s.jobs[j].stage.Running? ==> IsOver(s, j)
    ensures
      var l := Step(sid, n, now);
      Elsewhere(s, s', sid) && LineMoves(s, s', sid, Added(s, l, sid)) && Finishes(s, s', l, sid)
  {
  }

  lemma ContMovesLine(s: State, sid: nat, n: nat, now: nat)
    requires Inv(s) && ContFacts(s, sid, n)
    ensures
      var s', l := RunCont(s, sid, n), Step(sid, n, now);
      Elsewhere(s, s', sid) && LineMoves(s, s', sid, Added(s, l, sid)) && Finishes(s, s', l, sid) && s'.conts == s.conts - {n}
  {
    match s.conts[n] {
      case Push(_) =>
        PushLine(s, sid, n);
        PushMovesLine(s, sid, n, now);
      case Stop(_) =>
        StopLine(s, sid, n);
        StopMovesLine(s, sid, n, now);
      case Handle(_, j) =>
        HandleHolds(s, sid, n, j);
        HandleLine(s, sid, n, j);
        HandleMovesLine(s, sid, n, j, now);
    }
  }

  lemma HeadMovesLine(s: State, s': State, sid: nat, j: nat, l: Label)
    requires HeadFacts(s, sid, j) && Touches(s, s', sid, j) && LineMoves(s, s', sid, []) && Added(s, l, sid) == []
    ensures Elsewhere(s, s', sid) && LineMoves(s, s', sid, Added(s, l, sid)) && Finishes(s, s', l, sid)
  {
  }

  /** Every step of a session's strand. */
  lemma StrandMovesLine(s: State, sid: nat, n: nat, now: nat)
    requires Inv(s) && sid in s.sessions
    ensures
      var s', l := StrandStep(s, sid, n, now), Step(sid, n, now);
      && Elsewhere(s, s', sid) && LineMoves(s, s', sid, Added(s, l, sid)) && Finishes(s, s', l, sid)
      && (s'.conts == s.conts || (s'.conts == s.conts - {n} && s.sessions[sid].phase.Idle? && IsHead(s.conts, n) && s.conts[n].session == sid))
  {
    var s', l := StrandStep(s, sid, n, now), Step(sid, n, now);
    PhaseFirst(s, sid);
    match s.sessions[sid].phase {
      case Starting(j) =>
        HeadHolds(s, sid, j);
        StartLine(s, sid, j, now);
        HeadMovesLine(s, s', sid, j, l);
      case Sending(j) =>
        HeadHolds(s, sid, j);
        SendLine(s, sid, j);
        HeadMovesLine(s, s', sid, j, l);
      case Cancelling(q) =>
        HeadHolds(s, sid, q[0]);
        CancelLine(s, sid, q);
        HeadMovesLine(s, s', sid, q[0], l);
      case Idle =>
        if IsHead(s.conts, n) && s.conts[n].session == sid {
          ContHolds(s, sid, n);
          ContMovesLine(s, sid, n, now);
        } else {
          SamesLine(s, sid, l);
        }
    }
  }

  lemma SamesLine(s: State, sid: nat, l: Label)
    requires Inv(s) && sid in s.sessions && Added(s, l, sid) == []
    ensures Elsewhere(s, s, sid) && LineMoves(s, s, sid, Added(s, l, sid)) && Finishes(s, s, l, sid)
  {
    if LineOf(s, sid) != [] {
      FirstIsNotOver(s, sid);
    }
    SameLine(s, s, sid);
  }

  /** No other step finishes a job, pushes one or touches a session that is there. */
  lemma OtherMovesNothing(s: State, l: Label, x: nat)
    requires !l.Step? && Located(s.jobs, s.sessions.Keys, s.next) && x in s.sessions
    ensures
      var s' := Next(s, l);
      && x in s'.sessions && s'.sessions[x] == s.sessions[x]
      && (forall i :: i in s.jobs ==> i in s'.jobs && s'.jobs[i].session == s.jobs[i].session && s'.jobs[i].stage == s.jobs[i].stage)
      && (forall i :: i in s'.jobs && i !in s.jobs ==> ToBePushed(s', i) && !IsOver(s', i))
  {
    if l.Expire? || l.Respond? || l.Clear? {
      var w := TableMoves(s, l);
    }
  }

  /** The line of every session, in every step of the server. */
  lemma NextLine(s: State, l: Label, x: nat)
    requires Inv(s) && x in s.sessions
    ensures x in Next(s, l).sessions && LineMoves(s, Next(s, l), x, Added(s, l, x))
    ensures Finishes(s, Next(s, l), l, x)
  {
    if LineOf(s, x) != [] {
      FirstIsNotOver(s, x);
    }
    if l.Step? && l.session in s.sessions {
      StrandMovesLine(s, l.session, l.cont, l.now);
      if x != l.session {
        ElsewhereLine(s, Next(s, l), l, x);
      }
    } else if l.Step? {
      SamesLine(s, x, l);
    } else {
      OtherMovesNothing(s, l, x);
      UntouchedLine(s, Next(s, l), l, x);
    }
  }

  lemma ElsewhereLine(s: State, s': State, l: Label, x: nat)
    requires x in s.sessions && l.Step? && x != l.session && Elsewhere(s, s', l.session)
    requires LineOf(s, x) != [] ==> !IsOver(s, LineOf(s, x)[0]) && LineOf(s, x)[0] in s.jobs && s.jobs[LineOf(s, x)[0]].session == x
    ensures x in s'.sessions && LineMoves(s, s', x, Added(s, l, x)) && Finishes(s, s', l, x)
  {
    SameLine(s, s', x);
  }

  lemma UntouchedLine(s: State, s': State, l: Label, x: nat)
    requires x in s.sessions && !l.Step? && x in s'.sessions && s'.sessions[x] == s.sessions[x]
    requires forall i :: i in s.jobs ==> i in s'.jobs && s'.jobs[i].stage == s.jobs[i].stage
    requires LineOf(s, x) != [] ==> !IsOver(s, LineOf(s, x)[0]) && LineOf(s, x)[0] in s.jobs
    ensures LineMoves(s, s', x, Added(s, l, x)) && Finishes(s, s', l, x)
  {
    SameLine(s, s', x);
  }

  // ---------------------------------------------------------------- every job is somewhere

  /** Job `j` is over, in its session's line, or still to be pushed. */
  predicate Somewhere(s: State, j: nat)
    requires j in s.jobs
  {
    || IsOver(s, j)
    || (s.jobs[j].session in s.sessions && j in LineOf(s, s.jobs[j].session))
    || ToBePushed(s, j)
  }

  ghost predicate AllSomewhere(s: State)
  {
    forall j :: j in s.jobs ==> Somewhere(s, j)
  }

  lemma PushStays(s: State, l: Label, j: nat)
    requires Inv(s) && ToBePushed(s, j)
    ensures j in Next(s, l).jobs && Next(s, l).jobs[j].session == s.jobs[j].session
    ensures ToBePushed(Next(s, l), j) || (l.Step? && RunsPush(s, l, s.jobs[j].session, j))
  {
    assert j < s.next && s.jobs[j].session in s.sessions;
    JobsStay(s, l, j);
    if l.Step? {
      if l.session in s.sessions {
        StrandConts(s, l.session, l.cont, l.now);
        PushOrRun(s, Next(s, l), l, j);
      }
    } else {
      OtherConts(s, l, j);
    }
  }

  lemma StrandConts(s: State, sid: nat, n: nat, now: nat)
    requires Inv(s) && sid in s.sessions
    ensures
      var s' := StrandStep(s, sid, n, now);
      s'.conts == s.conts || (s'.conts == s.conts - {n} && s.sessions[sid].phase.Idle? && IsHead(s.conts, n) && s.conts[n].session == sid)
  {
    StrandMovesLine(s, sid, n, now);
  }

  lemma PushOrRun(s: State, s': State, l: Label, j: nat)
    requires l.Step? && l.session in s.sessions && ToBePushed(s, j) && j in s'.jobs && s'.jobs[j].session == s.jobs[j].session
    requires s'.conts == s.conts
             || (s'.conts == s.conts - {l.cont} && s.sessions[l.session].phase.Idle? && IsHead(s.conts, l.cont)
                 && s.conts[l.cont].session == l.session)
    ensures ToBePushed(s', j) || RunsPush(s, l, s.jobs[j].session, j)
  {
  }

  lemma OtherConts(s: State, l: Label, n: nat)
    requires !l.Step? && n in s.conts && n < s.next
    ensures n in Next(s, l).conts && Next(s, l).conts[n] == s.conts[n]
  {
  }

  /** The push that runs puts its job in the line, or finishes it. */
  lemma PushRuns(s: State, l: Label, j: nat)
    requires Inv(s) && j in s.jobs && l.Step? && RunsPush(s, l, s.jobs[j].session, j)
    ensures
      var s', sid := Next(s, l), s.jobs[j].session;
      && j in s'.jobs && s'.jobs[j].session == sid && sid in s'.sessions
      && (IsOver(s', j) || j in LineOf(s', sid))
  {
    ContHolds(s, s.jobs[j].session, j);
    PushLine(s, s.jobs[j].session, j);
  }

  lemma InLineAfter(q: seq<nat>, q': seq<nat>, popped: bool, added: seq<nat>, j: nat)
    requires q' == (if q != [] && popped then q[1..] else q) + added && j in q
    ensures j in q' || (popped && q[0] == j)
  {
    var i :| 0 <= i < |q| && q[i] == j;
    if popped && i > 0 {
      assert q'[i - 1] == j;
    } else if !popped {
      assert q'[i] == j;
    }
  }

  lemma LineStays(s: State, l: Label, j: nat)
    requires Inv(s) && j in s.jobs && s.jobs[j].session in s.sessions && j in LineOf(s, s.jobs[j].session)
    ensures
      var s', sid := Next(s, l), s.jobs[j].session;
      sid in s'.sessions && (IsOver(s', j) || j in LineOf(s', sid))
  {
    var s', sid := Next(s, l), s.jobs[j].session;
    NextLine(s, l, sid);
    var q := LineOf(s, sid);
    InLineAfter(q, LineOf(s', sid), IsOver(s', q[0]), Added(s, l, sid), j);
  }

  lemma JobsStay(s: State, l: Label, j: nat)
    requires Inv(s) && j in s.jobs
    ensures j in Next(s, l).jobs && Next(s, l).jobs[j].session == s.jobs[j].session
    ensures IsOver(s, j) ==> IsOver(Next(s, l), j)
  {
    if l.Step? {
      if l.session in s.sessions {
        StrandMovesLine(s, l.session, l.cont, l.now);
        StrandStaysOver(s, l.session, l.cont, l.now, j);
      }
    } else {
      OtherMovesNothing(s, l, s.jobs[j].session);
    }
  }

  lemma StepSomewhere(s: State, l: Label, j: nat)
    requires Inv(s) && j in s.jobs && Somewhere(s, j)
    ensures j in Next(s, l).jobs && Somewhere(Next(s, l), j)
  {
    JobsStay(s, l, j);
    if !IsOver(s, j) {
      if ToBePushed(s, j) {
        PushStays(s, l, j);
        if !ToBePushed(Next(s, l), j) {
          PushRuns(s, l, j);
        }
      } else {
        LineStays(s, l, j);
      }
    }
  }

  lemma NewSomewhere(s: State, l: Label, j: nat)
    requires Inv(s) && j in Next(s, l).jobs && j !in s.jobs
    ensures Somewhere(Next(s, l), j)
  {
    if l.Step? {
      if l.session in s.sessions {
        StrandMovesLine(s, l.session, l.cont, l.now);
      }
    } else if l.Submit? {
      OtherMovesNothing(s, l, l.session);
    } else if l.Expire? || l.Respond? || l.Clear? {
      var w := TableMoves(s, l);
    }
  }

  lemma NextSomewhere(s: State, l: Label)
    requires Inv(s) && AllSomewhere(s)
    ensures AllSomewhere(Next(s, l))
  {
    forall j | j in Next(s, l).jobs ensures Somewhere(Next(s, l), j) {
      if j in s.jobs {
        StepSomewhere(s, l, j);
      } else {
        NewSomewhere(s, l, j);
      }
    }
  }

  lemma {:induction false} RunSomewhere(s: State, labels: seq<Label>)
    requires Inv(s) && AllSomewhere(s)
    ensures AllSomewhere(Run(s, labels))
    decreases |labels|
  {
    if labels != [] {
      NextSomewhere(s, labels[0]);
      NextKeeps(s, labels[0]);
      RunSomewhere(Next(s, labels[0]), labels[1..]);
    }
  }

  /** No job is ever lost. In every run each job is exactly one of: still to be pushed by
      its session's strand, in its session's line, where it stands once, or over; and
      over by shutdown only if its session has stopped. */
  lemma EveryJobIsSomewhere(labels: seq<Label>, j: nat)
    requires j in Run(Start(), labels).jobs
    ensures
      var s := Run(Start(), labels);
      var sid := s.jobs[j].session;
      && sid in s.sessions
      && (ToBePushed(s, j) || j in LineOf(s, sid) || IsOver(s, j))
      && !(ToBePushed(s, j) && (j in LineOf(s, sid) || IsOver(s, j))) && !(j in LineOf(s, sid) && IsOver(s, j))
      && Increasing(LineOf(s, sid))
      && (s.jobs[j].stage == Over(true) ==> s.sessions[sid].sched.stopped)
  {
    var s := Run(Start(), labels);
    StartIsSound();
    RunKeeps(Start(), labels);
    RunSomewhere(Start(), labels);
    assert Somewhere(s, j);
    PlacesAreApart(s, j);
  }

  lemma PlacesAreApart(s: State, j: nat)
    requires Inv(s) && j in s.jobs
    ensures
      var sid := s.jobs[j].session;
      && sid in s.sessions && Increasing(LineOf(s, sid))
      && (j in LineOf(s, sid) ==> !IsOver(s, j) && !ToBePushed(s, j))
      && (ToBePushed(s, j) ==> !IsOver(s, j))
      && (s.jobs[j].stage == Over(true) ==> s.sessions[sid].sched.stopped)
  {
    var sid := s.jobs[j].session;
    assert sid in s.sessions;
    assert SessionOk(sid, s.sessions[sid], s.jobs);
    SuffixIncreasing(s.sessions[sid].finished, LineOf(s, sid));
    if j in LineOf(s, sid) {
      var i :| 0 <= i < |LineOf(s, sid)| && LineOf(s, sid)[i] == j;
      LineFacts(s, sid, i);
    }
  }

  lemma SuffixIncreasing(a: seq<nat>, b: seq<nat>)
    requires Increasing(a + b)
    ensures Increasing(b)
  {
    forall i, j | 0 <= i < j < |b| ensures b[i] < b[j] {
      assert (a + b)[|a| + i] == b[i] && (a + b)[|a| + j] == b[j];
    }
  }

  // ---------------------------------------------------------------- what is asked is queued

  /** What a client asks for is a new job of its session, still to be pushed, with
      nothing done for it yet; and so a disconnect is a stop, behind all that was
      asked. */
  lemma SubmitIsQueued(labels: seq<Label>, sid: nat, kind: Kind)
    requires sid in Run(Start(), labels).sessions
    ensures
      var s := Run(Start(), labels);
      var asked, left := Next(s, Submit(sid, kind)), Next(s, Disconnect(sid));
      && s.next !in s.jobs && s.next !in s.conts && (forall n :: n in s.conts ==> n < s.next)
      && asked.jobs == s.jobs[s.next := Job(sid, kind, Waiting, None, 0, 0, None)] && ToBePushed(asked, s.next)
      && (forall n :: n in s.conts ==> n in asked.conts && asked.conts[n] == s.conts[n])
      && left.jobs == s.jobs && left.conts == s.conts[s.next := Stop(sid)]
  {
    StartIsSound();
    RunKeeps(Start(), labels);
  }

  /** Session `sid`'s strand runs a stop in this step. */
  predicate RunsStop(s: State, l: Label, sid: nat)
  {
    && l.Step? && l.session == sid && sid in s.sessions && s.sessions[sid].phase.Idle?
    && IsHead(s.conts, l.cont) && s.conts[l.cont] == Stop(sid)
  }

  lemma StrandStops(s: State, sid: nat, n: nat, now: nat)
    requires Inv(s) && sid in s.sessions
    ensures
      var s' := StrandStep(s, sid, n, now);
      && sid in s'.sessions
      && (s'.sessions[sid].sched.stopped <==> s.sessions[sid].sched.stopped || RunsStop(s, Step(sid, n, now), sid))
  {
    PhaseFirst(s, sid);
    match s.sessions[sid].phase {
      case Idle =>
        if IsHead(s.conts, n) && s.conts[n].session == sid {
          ContHolds(s, sid, n);
          ContStops(s, sid, n);
        }
      case Starting(j) =>
        HeadHolds(s, sid, j);
        HeadStops(s, sid, j, now);
      case Sending(j) =>
        HeadHolds(s, sid, j);
        HeadStops(s, sid, j, now);
      case Cancelling(l) =>
    }
  }

  lemma HeadStops(s: State, sid: nat, j: nat, now: nat)
    requires HeadFacts(s, sid, j)
    ensures s.sessions[sid].phase == Starting(j) ==>
      j in s.jobs && var s' := StartJob(s, sid, j, now); sid in s'.sessions && s'.sessions[sid].sched.stopped == s.sessions[sid].sched.stopped
    ensures s.sessions[sid].phase == Sending(j) ==>
      j in s.jobs && s.jobs[j].call.Some? && var s' := SendOut(s, sid, j);
      sid in s'.sessions && s'.sessions[sid].sched.stopped == s.sessions[sid].sched.stopped
  {
  }

  lemma ContStops(s: State, sid: nat, n: nat)
    requires ContFacts(s, sid, n)
    ensures
      var s' := RunCont(s, sid, n);
      sid in s'.sessions && (s'.sessions[sid].sched.stopped <==> s.sessions[sid].sched.stopped || s.conts[n].Stop?)
  {
    match s.conts[n] {
      case Push(_) =>
      case Stop(_) => StopLine(s, sid, n);
      case Handle(_, j) => HandleIsStopped(s, sid, n, j);
    }
  }

  lemma HandleIsStopped(s: State, sid: nat, n: nat, j: nat)
    requires sid in s.sessions && n in s.conts && s.conts[n] == Handle(sid, j)
    ensures
      var s' := RunCont(s, sid, n);
      sid in s'.sessions && s'.sessions[sid].sched.stopped == s.sessions[sid].sched.stopped
  {
  }

  /** A session is stopped exactly by its strand running a stop; with that every job
      still in its line is on its way to being cancelled, and none is taken in any
      more. */
  lemma StopsExactly(s: State, l: Label, sid: nat)
    requires Inv(s) && sid in s.sessions
    ensures sid in Next(s, l).sessions
    ensures Next(s, l).sessions[sid].sched.stopped <==> s.sessions[sid].sched.stopped || RunsStop(s, l, sid)
    ensures Next(s, l).sessions[sid].sched.stopped ==>
      Next(s, l).sessions[sid].phase == if LineOf(Next(s, l), sid) == [] then Idle else Cancelling(LineOf(Next(s, l), sid))
  {
    NextKeeps(s, l);
    StoppedPhase(Next(s, l), sid);
    if l.Step? {
      if l.session in s.sessions {
        StrandMovesLine(s, l.session, l.cont, l.now);
        StrandStops(s, l.session, l.cont, l.now);
      }
    } else {
      OtherMovesNothing(s, l, sid);
    }
  }

  lemma StoppedPhase(s: State, sid: nat)
    requires Inv(s)
    ensures sid in s.sessions && s.sessions[sid].sched.stopped ==>
      s.sessions[sid].phase == if LineOf(s, sid) == [] then Idle else Cancelling(LineOf(s, sid))
  {
    if sid in s.sessions {
      assert SessionOk(sid, s.sessions[sid], s.jobs);
    }
  }

  // ---------------------------------------------------------------- responses of the wrong kind

  /** A response that answers another kind of request than the job made. */
  predicate WrongKind(ask: Ask, resp: Resp)
  {
    match ask
    case AskCreate => !resp.of.CreateRoom?
    case AskJoin(_) => !resp.of.JoinRoom?
    case AskLeave => !resp.of.LeaveRoom?
  }

  /** The strand of a session runs the continuation of a response of the wrong kind, for a
      job that is not over. */
  predicate RunsWrong(s: State, l: Label)
  {
    && l.Step? && l.session in s.sessions && s.sessions[l.session].phase.Idle?
    && IsHead(s.conts, l.cont) && s.conts[l.cont].session == l.session && s.conts[l.cont].Handle?
    && var j := s.conts[l.cont].job;
       && j in s.jobs && IsPosted(s.jobs[j]) && !s.jobs[j].stage.Over? && s.jobs[j].kind.RoomJob?
       && s.jobs[j].call.value.place.what.OnResponse?
       && WrongKind(s.jobs[j].kind.ask, s.jobs[j].call.value.place.what.resp)
  }

  lemma HandleFaults(s: State, sid: nat, n: nat, j: nat)
    requires sid in s.sessions && n in s.conts && s.conts[n] == Handle(sid, j)
    ensures RunCont(s, sid, n).fault <==>
      || s.fault
      || (j in s.jobs && IsPosted(s.jobs[j]) && !s.jobs[j].stage.Over? && s.jobs[j].kind.RoomJob?
          && s.jobs[j].call.value.place.what.OnResponse?
          && WrongKind(s.jobs[j].kind.ask, s.jobs[j].call.value.place.what.resp))
  {
  }

  /** The server faults exactly when it runs such a continuation. */
  lemma FaultsExactly(s: State, l: Label)
    requires Inv(s)
    ensures Next(s, l).fault <==> s.fault || RunsWrong(s, l)
  {
    if l.Step? {
      if l.session in s.sessions {
        StrandFaults(s, l.session, l.cont, l.now);
      }
    } else {
      OthersStayOver(s, l, 0);
    }
  }

  lemma StrandFaults(s: State, sid: nat, n: nat, now: nat)
    requires Inv(s) && sid in s.sessions
    ensures StrandStep(s, sid, n, now).fault <==> s.fault || RunsWrong(s, Step(sid, n, now))
  {
    PhaseFirst(s, sid);
    match s.sessions[sid].phase {
      case Idle =>
        if IsHead(s.conts, n) && s.conts[n].session == sid {
          if s.conts[n].Handle? {
            HandleFaults(s, sid, n, s.conts[n].job);
          } else {
            OtherContFaults(s, sid, n);
          }
        }
      case Starting(j) =>
        HeadHolds(s, sid, j);
        HeadStaysOver(s, sid, j, now, 0);
      case Sending(j) =>
        HeadHolds(s, sid, j);
        HeadStaysOver(s, sid, j, now, 0);
      case Cancelling(_) =>
    }
  }

  lemma OtherContFaults(s: State, sid: nat, n: nat)
    requires sid in s.sessions && n in s.conts && !s.conts[n].Handle?
    ensures RunCont(s, sid, n).fault == s.fault
  {
  }

  // ---------------------------------------------------------------- lines move up

  /** Over every run a line loses jobs only at its front, each when it is over, and gains
      jobs only at its end. */
  lemma {:induction false} LinesMoveUp(s: State, labels: seq<Label>, sid: nat) returns (m: nat, more: seq<nat>)
    requires Inv(s) && sid in s.sessions
    ensures
      var s' := Run(s, labels);
      && sid in s'.sessions && m <= |LineOf(s, sid)| && LineOf(s', sid) == LineOf(s, sid)[m..] + more
      && (forall i :: 0 <= i < m ==> IsOver(s', LineOf(s, sid)[i]))
    decreases |labels|
  {
    m, more := 0, [];
    var q := LineOf(s, sid);
    assert q[0..] + [] == q;
    if labels != [] {
      var s1 := Next(s, labels[0]);
      var added := Added(s, labels[0], sid);
      NextLine(s, labels[0], sid);
      NextKeeps(s, labels[0]);
      var m1, more1 := LinesMoveUp(s1, labels[1..], sid);
      var popped := q != [] && IsOver(s1, q[0]);
      m, more := Compose(q, LineOf(s1, sid), popped, added, m1, more1);
      forall i | 0 <= i < m ensures IsOver(Run(s, labels), q[i]) {
        if popped && i == 0 {
          RunStaysOver(s1, labels[1..], q[0]);
        } else {
          var k := if popped then i - 1 else i;
          assert q[i] == LineOf(s1, sid)[k];
        }
      }
    }
  }

  lemma Compose(q: seq<nat>, q1: seq<nat>, popped: bool, added: seq<nat>, m1: nat, more1: seq<nat>) returns (m: nat, more: seq<nat>)
    requires popped ==> q != []
    requires q1 == (if popped then q[1..] else q) + added && m1 <= |q1|
    ensures m <= |q| && q1[m1..] + more1 == q[m..] + more && m <= m1 + if popped then 1 else 0
  {
    var kept := if popped then q[1..] else q;
    if m1 <= |kept| {
      m, more := m1 + (if popped then 1 else 0), added + more1;
      assert kept[m1..] == q[m..];
      assert q1[m1..] == kept[m1..] + added;
      assert kept[m1..] + added + more1 == q[m..] + (added + more1);
    } else {
      m, more := |q|, q1[m1..] + more1;
      assert q[m..] == [];
    }
  }

  lemma {:induction false} RunStaysOver(s: State, labels: seq<Label>, j: nat)
    requires Inv(s) && IsOver(s, j)
    ensures IsOver(Run(s, labels), j)
    decreases |labels|
  {
    if labels != [] {
      JobsStay(s, labels[0], j);
      NextKeeps(s, labels[0]);
      RunStaysOver(Next(s, labels[0]), labels[1..], j);
    }
  }
}
