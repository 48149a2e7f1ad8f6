/** The job at the head of a session's line gets done: whatever else happens, every run
    in which the clock, the callbacks and the session's own strand do their part
    finishes it. */
module UserProgress {
  import opened UserServer
  import opened UserInvariants
  import opened UserSteps

  // ---------------------------------------------------------------- how far it is

  /** What the strand has still to do before it is idle again. */
  function PhaseLeft(phase: Phase): nat
  {
    match phase
    case Starting(_) => 2
    case Sending(_) => 1
    case _ => 0
  }

  /** What is still to happen to the request before its continuation is posted. A job
      that completes inside `run` has none. */
  function CallLeft(job: Job): nat
  {
    if job.kind.LocalJob? then 0
    else if job.call.None? || job.call.value.place.InTable? then 3
    else if job.call.value.place.Taken? then 2 else 1
  }

  /** Zero when shutdown has come to the job, one when its strand is idle and its
      continuation posted. */
  function Left(s: Session, job: Job): nat
  {
    if s.phase.Cancelling? then 0 else PhaseLeft(s.phase) + CallLeft(job)
  }

  /** Is continuation `k` one of session `sid`? */
  predicate Of(conts: Conts, sid: nat, k: nat)
  {
    k in conts && conts[k].session == sid
  }

  /** The steps that session `sid` takes from continuation `k` to the end of `n`: one
      for each continuation, unless a stop comes first, which takes one for itself and
      one to cancel the job at the head. */
  function Until(conts: Conts, sid: nat, k: nat, n: nat): nat
    decreases n - k
  {
    if k > n then 0
    else if !Of(conts, sid, k) then Until(conts, sid, k + 1, n)
    else if conts[k].Stop? then 2
    else 1 + Until(conts, sid, k + 1, n)
  }

  /** Steps of the strand that will then finish the job: the one in which shutdown
      cancels it, or those to the end of the continuation it waits for. */
  function Needed(conts: Conts, sid: nat, s: Session, job: Job): nat
  {
    if s.phase.Cancelling? then 1
    else if IsPosted(job) then Until(conts, sid, 0, job.call.value.place.cont) else 0
  }

  lemma {:induction false} UntilSame(conts: Conts, conts': Conts, sid: nat, k: nat, n: nat)
    requires forall m :: k <= m <= n ==> (Of(conts, sid, m) <==> Of(conts', sid, m))
    requires forall m :: k <= m <= n && Of(conts, sid, m) && Of(conts', sid, m) ==> conts'[m] == conts[m]
    ensures Until(conts', sid, k, n) == Until(conts, sid, k, n)
    decreases n - k
  {
    if k <= n {
      UntilSame(conts, conts', sid, k + 1, n);
    }
  }

  /** Session `sid` runs its first continuation `m`. */
  lemma {:induction false} UntilLess(conts: Conts, sid: nat, m: nat, k: nat, n: nat)
    requires k <= m <= n && Of(conts, sid, m) && forall i :: Of(conts, sid, i) ==> m <= i
    ensures Until(conts, sid, k, n) == if conts[m].Stop? then 2 else 1 + Until(conts - {m}, sid, k, n)
    decreases n - k
  {
    if k < m {
      UntilLess(conts, sid, m, k + 1, n);
    } else {
      UntilSame(conts, conts - {m}, sid, k + 1, n);
    }
  }

  lemma {:induction false} UntilNone(conts: Conts, sid: nat, k: nat, n: nat)
    requires forall m :: k <= m <= n ==> !Of(conts, sid, m)
    ensures Until(conts, sid, k, n) == 0
    decreases n - k
  {
    if k <= n {
      UntilNone(conts, sid, k + 1, n);
    }
  }

  lemma {:induction false} UntilSome(conts: Conts, sid: nat, k: nat, n: nat)
    requires k <= n && Of(conts, sid, n)
    ensures Until(conts, sid, k, n) >= 1
    decreases n - k
  {
    if k < n {
      UntilSome(conts, sid, k + 1, n);
    }
  }

  // ---------------------------------------------------------------- at the head

  /** Job `j` is over, or the server has faulted on a response of the wrong kind. */
  predicate Settled(s: State, j: nat)
  {
    s.fault || (j in s.jobs && s.jobs[j].stage.Over?)
  }

  /** Job `j` is first in the line of `sid`, and the channel's timer runs. */
  ghost predicate AtHead(s: State, sid: nat, j: nat)
  {
    Inv(s) && s.up && sid in s.sessions && First(s.sessions[sid], j) && j in s.jobs
  }

  /** A label that does the next thing job `j`, not yet over, is waiting for: its own
      strand's next step, an expiry at or past its deadline or a response while its
      request is in the table, or the callback that has been taken for it. */
  ghost predicate Useful(s: State, sid: nat, j: nat, l: Label)
  {
    && sid in s.sessions && j in s.jobs && !Settled(s, j)
    && match l
       case Step(x, n, _) =>
         && x == sid
         && (!s.sessions[sid].phase.Idle? || (IsPosted(s.jobs[j]) && IsHead(s.conts, n) && s.conts[n].session == sid))
       case Expire(id, now) =>
         !s.sessions[sid].phase.Cancelling? && Issued(s, id) && s.byId[id] == j && CallOf(s, id).place.InTable? && CallOf(s, id).deadline <= now
       case Respond(id, _, _) =>
         !s.sessions[sid].phase.Cancelling? && Issued(s, id) && s.byId[id] == j && CallOf(s, id).place.InTable?
       case Fire(id) =>
         !s.sessions[sid].phase.Cancelling? && Issued(s, id) && s.byId[id] == j && CallOf(s, id).place.Taken?
       case _ => false
  }

  /** How far job `j` has come in a step. A useful step brings it exactly one closer; no
      other step moves it, but shutdown may come to it; and it is finished exactly by
      the useful step that was the last one needed. */
  ghost predicate Closer(s: State, s': State, sid: nat, j: nat, useful: bool)
  {
    && sid in s.sessions && j in s.jobs && j in s'.jobs
    && var r, n := Left(s.sessions[sid], s.jobs[j]), Needed(s.conts, sid, s.sessions[sid], s.jobs[j]);
       || s'.fault
       || (s'.jobs[j].stage.Over? && useful && r <= 2 && (r <= 1 ==> n == 1))
       || (!s'.jobs[j].stage.Over? && s'.up && sid in s'.sessions && First(s'.sessions[sid], j) &&
           var r', n' := Left(s'.sessions[sid], s'.jobs[j]), Needed(s'.conts, sid, s'.sessions[sid], s'.jobs[j]);
           && (if useful && r > 1 then r' == r - 1 else r' == r || r' == 0)
           && (r <= 1 ==> n' + (if useful then 1 else 0) == n))
  }

  // ---------------------------------------------------------------- steps elsewhere

  /** Nothing of job `j` and its session has changed but what comes later. */
  ghost predicate Apart(s: State, s': State, sid: nat, j: nat)
  {
    && (s.up ==> s'.up) && sid in s.sessions && sid in s'.sessions && s'.sessions[sid] == s.sessions[sid]
    && j in s.jobs && j in s'.jobs && s'.jobs[j] == s.jobs[j]
    && (forall k: nat :: k < s.next ==> (Of(s.conts, sid, k) <==> Of(s'.conts, sid, k)))
    && (forall k: nat :: k < s.next && Of(s.conts, sid, k) && Of(s'.conts, sid, k) ==> s'.conts[k] == s.conts[k])
  }

  lemma ApartCloser(s: State, s': State, sid: nat, j: nat)
    requires Apart(s, s', sid, j) && s.up && First(s.sessions[sid], j) && !s.jobs[j].stage.Over?
    requires IsPosted(s.jobs[j]) ==> s.jobs[j].call.value.place.cont < s.next
    ensures Closer(s, s', sid, j, false)
  {
    if IsPosted(s.jobs[j]) {
      UntilSame(s.conts, s'.conts, sid, 0, s.jobs[j].call.value.place.cont);
    }
  }

  /** Session `sid` with its job `j`, seen from another session `x`. */
  ghost predicate Elsewhere(s: State, x: nat, sid: nat, j: nat)
  {
    x != sid && sid in s.sessions && j in s.jobs && s.jobs[j].session == sid
  }

  lemma HeadApart(s: State, x: nat, k: nat, now: nat, sid: nat, j: nat)
    requires Elsewhere(s, x, sid, j) && HeadFacts(s, x, k)
    ensures s.sessions[x].phase == Starting(k) ==> Apart(s, StartJob(s, x, k, now), sid, j)
    ensures s.sessions[x].phase == Sending(k) ==> s.jobs[k].call.Some? && Apart(s, SendOut(s, x, k), sid, j)
  {
  }

  lemma CancelApart(s: State, x: nat, l: seq<nat>, sid: nat, j: nat)
    requires Elsewhere(s, x, sid, j) && l != [] && HeadFacts(s, x, l[0])
    ensures Apart(s, CancelNext(s, x, l), sid, j)
  {
  }

  lemma HandleApart(s: State, x: nat, k: nat, sid: nat, j: nat)
    requires Elsewhere(s, x, sid, j) && x in s.sessions && k in s.jobs && s.jobs[k].session == x
    requires s.jobs[k].call.Some? && s.jobs[k].call.value.place.Posted?
    ensures Apart(s, HandleJob(s, x, k), sid, j)
  {
  }

  lemma RemovedApart(s: State, s1: State, s': State, n: nat, sid: nat, j: nat)
    requires n in s.conts && s.conts[n].session != sid && s1 == s.(conts := s.conts - {n}) && Apart(s1, s', sid, j)
    ensures Apart(s, s', sid, j)
  {
  }

  lemma PushApart(s: State, x: nat, n: nat, sid: nat, j: nat)
    requires Elsewhere(s, x, sid, j) && ContFacts(s, x, n) && !s.conts[n].Handle?
    ensures Apart(s, RunCont(s, x, n), sid, j)
  {
  }

  lemma ContApart(s: State, x: nat, n: nat, sid: nat, j: nat)
    requires Elsewhere(s, x, sid, j) && ContFacts(s, x, n)
    ensures Apart(s, RunCont(s, x, n), sid, j)
  {
    if s.conts[n].Handle? {
      var s1 := s.(conts := s.conts - {n});
      HandleApart(s1, x, s.conts[n].job, sid, j);
      RemovedApart(s, s1, RunCont(s, x, n), n, sid, j);
    } else {
      PushApart(s, x, n, sid, j);
    }
  }

  lemma SameApart(s: State, sid: nat, j: nat)
    requires sid in s.sessions && j in s.jobs
    ensures Apart(s, s, sid, j)
  {
  }

  /** A step of another session changes that session, one job of it and one of its
      continuations. */
  lemma OtherStrand(s: State, x: nat, n: nat, now: nat, sid: nat, j: nat)
    requires Inv(s) && x in s.sessions && Elsewhere(s, x, sid, j)
    ensures Apart(s, StrandStep(s, x, n, now), sid, j)
  {
    PhaseFirst(s, x);
    match s.sessions[x].phase {
      case Starting(k) =>
        HeadHolds(s, x, k);
        HeadApart(s, x, k, now, sid, j);
      case Sending(k) =>
        HeadHolds(s, x, k);
        HeadApart(s, x, k, now, sid, j);
      case Cancelling(l) =>
        HeadHolds(s, x, l[0]);
        CancelApart(s, x, l, sid, j);
      case Idle =>
        if IsHead(s.conts, n) && s.conts[n].session == x {
          ContHolds(s, x, n);
          ContApart(s, x, n, sid, j);
        } else {
          SameApart(s, sid, j);
        }
    }
  }

  lemma MoveApart(s: State, id: nat, w: Where, sid: nat, j: nat)
    requires Issued(s, id) && s.byId[id] != j && sid in s.sessions && j in s.jobs
    ensures Apart(s, Move(s, id, w), sid, j)
  {
  }

  lemma FireApart(s: State, k: nat, sid: nat, j: nat)
    requires k in s.jobs && s.jobs[k].call.Some? && s.jobs[k].call.value.place.Taken? && k != j && sid in s.sessions && j in s.jobs
    ensures Apart(s, FireCall(s, k), sid, j)
  {
  }

  lemma ClientApart(s: State, l: Label, sid: nat, j: nat)
    requires (l.Connect? || l.Submit? || l.Disconnect?) && sid in s.sessions && j in s.jobs && j < s.next
    ensures Apart(s, Next(s, l), sid, j)
  {
  }

  // ---------------------------------------------------------------- steps of its own

  /** The job at the head with what is known of it. */
  ghost predicate Here(s: State, sid: nat, j: nat)
  {
    HeadFacts(s, sid, j) && s.up && !s.fault && !s.jobs[j].stage.Over?
  }

  lemma StartsCloser(s: State, sid: nat, j: nat, now: nat)
    requires Here(s, sid, j) && s.sessions[sid].phase == Starting(j)
    ensures Closer(s, StartJob(s, sid, j, now), sid, j, true)
  {
  }

  lemma SendsCloser(s: State, sid: nat, j: nat)
    requires Here(s, sid, j) && s.sessions[sid].phase == Sending(j)
    ensures s.jobs[j].call.Some? && Closer(s, SendOut(s, sid, j), sid, j, true)
  {
  }

  lemma CancelsCloser(s: State, sid: nat, l: seq<nat>, j: nat)
    requires Here(s, sid, j) && s.sessions[sid].phase == Cancelling(l)
    ensures l != [] && Closer(s, CancelNext(s, sid, l), sid, j, true)
  {
  }

  /** A job whose own request moves on. */
  lemma MovesCloser(s: State, sid: nat, j: nat, id: nat, w: Where)
    requires Here(s, sid, j) && Issued(s, id) && s.byId[id] == j && CallOf(s, id).place.InTable? && w.Taken?
    ensures Closer(s, Move(s, id, w), sid, j, !s.sessions[sid].phase.Cancelling?)
  {
  }

  lemma FiresCloser(s: State, sid: nat, j: nat)
    requires Here(s, sid, j) && s.jobs[j].call.Some? && s.jobs[j].call.value.place.Taken?
    ensures Closer(s, FireCall(s, j), sid, j, !s.sessions[sid].phase.Cancelling?)
  {
  }

  /** The strand is idle and runs its first continuation. */
  lemma ContCloser(s: State, sid: nat, j: nat, n: nat)
    requires Here(s, sid, j) && ContFacts(s, sid, n)
    requires s.conts[n].Handle? && s.conts[n].job != j ==> s.conts[n].job in s.jobs && s.jobs[s.conts[n].job].stage.Over?
    requires IsPosted(s.jobs[j]) ==> Of(s.conts, sid, s.jobs[j].call.value.place.cont)
    ensures Closer(s, RunCont(s, sid, n), sid, j, IsPosted(s.jobs[j]))
  {
    if IsPosted(s.jobs[j]) {
      var own := s.jobs[j].call.value.place.cont;
      assert forall m :: Of(s.conts, sid, m) ==> n <= m;
      UntilLess(s.conts, sid, n, 0, own);
      if n == own {
        UntilNone(s.conts - {n}, sid, 0, own);
      }
    }
  }

  lemma OtherIsOver(s: State, sid: nat, j: nat, n: nat)
    requires Inv(s) && HeadFacts(s, sid, j) && ContFacts(s, sid, n)
    ensures s.conts[n].Handle? && s.conts[n].job != j ==> s.conts[n].job in s.jobs && s.jobs[s.conts[n].job].stage.Over?
  {
    if s.conts[n].Handle? && s.conts[n].job != j {
      assert JobOk(s.jobs[s.conts[n].job]);
    }
  }

  lemma IdleCloser(s: State, sid: nat, j: nat, n: nat)
    requires Inv(s) && Here(s, sid, j) && s.sessions[sid].phase.Idle? && IsHead(s.conts, n) && s.conts[n].session == sid
    ensures Closer(s, RunCont(s, sid, n), sid, j, IsPosted(s.jobs[j]))
  {
    ContHolds(s, sid, n);
    OtherIsOver(s, sid, j, n);
    ContCloser(s, sid, j, n);
  }

  lemma OwnStrand(s: State, sid: nat, j: nat, n: nat, now: nat)
    requires Inv(s) && Here(s, sid, j)
    ensures Closer(s, StrandStep(s, sid, n, now), sid, j, Useful(s, sid, j, Step(sid, n, now)))
  {
    match s.sessions[sid].phase {
      case Starting(k) => StartsCloser(s, sid, j, now);
      case Sending(k) => SendsCloser(s, sid, j);
      case Cancelling(l) => CancelsCloser(s, sid, l, j);
      case Idle =>
        if IsHead(s.conts, n) && s.conts[n].session == sid {
          IdleCloser(s, sid, j, n);
        } else {
          SameCloser(s, sid, j);
        }
    }
  }

  lemma SameCloser(s: State, sid: nat, j: nat)
    requires Here(s, sid, j)
    ensures Closer(s, s, sid, j, false)
  {
  }

  // ---------------------------------------------------------------- any step

  lemma PostedBefore(s: State, sid: nat, j: nat)
    requires AtHead(s, sid, j)
    ensures HeadFacts(s, sid, j) && j < s.next && (IsPosted(s.jobs[j]) ==> s.jobs[j].call.value.place.cont < s.next)
  {
    HeadHolds(s, sid, j);
  }

  lemma StepCloser(s: State, sid: nat, j: nat, l: Label)
    requires AtHead(s, sid, j) && Here(s, sid, j) && l.Step?
    ensures Closer(s, Next(s, l), sid, j, Useful(s, sid, j, l))
  {
    PostedBefore(s, sid, j);
    if l.session == sid {
      OwnStrand(s, sid, j, l.cont, l.now);
    } else if l.session in s.sessions {
      OtherStrand(s, l.session, l.cont, l.now, sid, j);
      ApartCloser(s, Next(s, l), sid, j);
    } else {
      SameCloser(s, sid, j);
    }
  }

  lemma TableCloser(s: State, sid: nat, j: nat, l: Label)
    requires Here(s, sid, j) && (l.Expire? || l.Respond? || l.Clear?)
    requires IsPosted(s.jobs[j]) ==> s.jobs[j].call.value.place.cont < s.next
    ensures Closer(s, Next(s, l), sid, j, Useful(s, sid, j, l))
  {
    var w := TableMoves(s, l);
    if w.None? {
      SameCloser(s, sid, j);
    } else if s.byId[l.id] == j {
      MovesCloser(s, sid, j, l.id, w.value);
    } else {
      MoveApart(s, l.id, w.value, sid, j);
      ApartCloser(s, Next(s, l), sid, j);
    }
  }

  lemma FireCloser(s: State, sid: nat, j: nat, id: nat)
    requires Here(s, sid, j)
    requires IsPosted(s.jobs[j]) ==> s.jobs[j].call.value.place.cont < s.next
    ensures Closer(s, Next(s, Fire(id)), sid, j, Useful(s, sid, j, Fire(id)))
  {
    if !(Issued(s, id) && CallOf(s, id).place.Taken?) {
      SameCloser(s, sid, j);
    } else if s.byId[id] == j {
      FiresCloser(s, sid, j);
    } else {
      FireApart(s, s.byId[id], sid, j);
      ApartCloser(s, Next(s, Fire(id)), sid, j);
    }
  }

  /** Whatever happens, short of stopping the channel, the head comes no further from
      its end, and a useful label brings it closer. */
  lemma NextCloser(s: State, sid: nat, j: nat, l: Label)
    requires AtHead(s, sid, j) && !Settled(s, j) && !l.StopChannel?
    ensures Closer(s, Next(s, l), sid, j, Useful(s, sid, j, l))
  {
    PostedBefore(s, sid, j);
    if l.Step? {
      StepCloser(s, sid, j, l);
    } else if l.Expire? || l.Respond? || l.Clear? {
      TableCloser(s, sid, j, l);
    } else if l.Fire? {
      FireCloser(s, sid, j, l.id);
    } else {
      ClientApart(s, l, sid, j);
      ApartCloser(s, Next(s, l), sid, j);
    }
  }

  // ---------------------------------------------------------------- settled for good

  predicate StaysOver(jobs: Jobs, jobs': Jobs, j: nat)
  {
    j in jobs && jobs[j].stage.Over? ==> j in jobs' && jobs'[j].stage.Over?
  }

  lemma HeadStaysOver(s: State, sid: nat, k: nat, now: nat, j: nat)
    requires HeadFacts(s, sid, k)
    ensures s.sessions[sid].phase == Starting(k) ==>
      StaysOver(s.jobs, StartJob(s, sid, k, now).jobs, j) && StartJob(s, sid, k, now).fault == s.fault
    ensures s.sessions[sid].phase == Sending(k) ==>
      s.jobs[k].call.Some? && StaysOver(s.jobs, SendOut(s, sid, k).jobs, j) && SendOut(s, sid, k).fault == s.fault
  {
  }

  lemma HandleStaysOver(s: State, sid: nat, k: nat, j: nat)
    requires sid in s.sessions && k in s.jobs && s.jobs[k].call.Some? && s.jobs[k].call.value.place.Posted?
    ensures StaysOver(s.jobs, HandleJob(s, sid, k).jobs, j) && (s.fault ==> HandleJob(s, sid, k).fault)
  {
  }

  lemma ContStaysOver(s: State, sid: nat, n: nat, j: nat)
    requires sid in s.sessions && n in s.conts
    ensures StaysOver(s.jobs, RunCont(s, sid, n).jobs, j) && (s.fault ==> RunCont(s, sid, n).fault)
  {
    if s.conts[n].Handle? {
      var k := s.conts[n].job;
      if k in s.jobs && s.jobs[k].call.Some? && s.jobs[k].call.value.place.Posted? {
        HandleStaysOver(s.(conts := s.conts - {n}), sid, k, j);
      }
    }
  }

  lemma CancelStaysOver(s: State, sid: nat, l: seq<nat>, j: nat)
    requires sid in s.sessions && l != [] && l[0] in s.jobs
    ensures StaysOver(s.jobs, CancelNext(s, sid, l).jobs, j) && CancelNext(s, sid, l).fault == s.fault
  {
  }

  lemma StrandStaysOver(s: State, sid: nat, n: nat, now: nat, j: nat)
    requires Inv(s) && sid in s.sessions
    ensures var s' := StrandStep(s, sid, n, now); StaysOver(s.jobs, s'.jobs, j) && (s.fault ==> s'.fault)
  {
    PhaseFirst(s, sid);
    match s.sessions[sid].phase {
      case Starting(k) =>
        HeadHolds(s, sid, k);
        HeadStaysOver(s, sid, k, now, j);
      case Sending(k) =>
        HeadHolds(s, sid, k);
        HeadStaysOver(s, sid, k, now, j);
      case Cancelling(l) =>
        HeadHolds(s, sid, l[0]);
        CancelStaysOver(s, sid, l, j);
      case Idle =>
        if IsHead(s.conts, n) && s.conts[n].session == sid {
          ContStaysOver(s, sid, n, j);
        }
    }
  }

  lemma OthersStayOver(s: State, l: Label, j: nat)
    requires !l.Step? && Located(s.jobs, s.sessions.Keys, s.next)
    ensures StaysOver(s.jobs, Next(s, l).jobs, j) && Next(s, l).fault == s.fault
  {
    if l.Expire? || l.Respond? || l.Clear? {
      var w := TableMoves(s, l);
    }
  }

  lemma NextSettled(s: State, l: Label, j: nat)
    requires Inv(s) && Settled(s, j)
    ensures Settled(Next(s, l), j)
  {
    if l.Step? {
      if l.session in s.sessions {
        StrandStaysOver(s, l.session, l.cont, l.now, j);
      }
    } else {
      OthersStayOver(s, l, j);
    }
  }

  lemma {:induction false} RunSettled(s: State, labels: seq<Label>, j: nat)
    requires Inv(s) && Settled(s, j)
    ensures Settled(Run(s, labels), j)
    decreases |labels|
  {
    if labels != [] {
      NextSettled(s, labels[0], j);
      NextKeeps(s, labels[0]);
      RunSettled(Next(s, labels[0]), labels[1..], j);
    }
  }

  lemma {:induction false} RunFaulty(s: State, labels: seq<Label>)
    requires Inv(s) && s.fault
    ensures Run(s, labels).fault
    decreases |labels|
  {
    if labels != [] {
      NextFaulty(s, labels[0]);
      NextKeeps(s, labels[0]);
      RunFaulty(Next(s, labels[0]), labels[1..]);
    }
  }

  lemma NextFaulty(s: State, l: Label)
    requires Inv(s) && s.fault
    ensures Next(s, l).fault
  {
    if l.Step? {
      if l.session in s.sessions {
        StrandStaysOver(s, l.session, l.cont, l.now, 0);
      }
    } else {
      OthersStayOver(s, l, 0);
    }
  }

  // ---------------------------------------------------------------- runs

  predicate NoStop(labels: seq<Label>)
  {
    forall i :: 0 <= i < |labels| ==> !labels[i].StopChannel?
  }

  /** How many labels are useful to job `j` when their turn comes. */
  ghost function UsefulIn(s: State, labels: seq<Label>, sid: nat, j: nat): nat
    decreases |labels|
  {
    if labels == [] then 0
    else (if Useful(s, sid, j, labels[0]) then 1 else 0) + UsefulIn(Next(s, labels[0]), labels[1..], sid, j)
  }

  /** `Left` of a job that is not settled. */
  ghost function LeftOf(s: State, sid: nat, j: nat): nat
  {
    if sid in s.sessions && j in s.jobs && !Settled(s, j) then Left(s.sessions[sid], s.jobs[j]) else 0
  }

  /** `Needed` of a job that is not settled. */
  ghost function NeededOf(s: State, sid: nat, j: nat): nat
  {
    if sid in s.sessions && j in s.jobs && !Settled(s, j) then Needed(s.conts, sid, s.sessions[sid], s.jobs[j]) else 0
  }

  /** One label on, `u` of them useful. */
  ghost predicate Nearer(s: State, s': State, sid: nat, j: nat, u: nat)
  {
    && (LeftOf(s', sid, j) <= 1 || LeftOf(s', sid, j) + u == LeftOf(s, sid, j))
    && (u > 0 && LeftOf(s, sid, j) > 2 ==> LeftOf(s', sid, j) + u >= LeftOf(s, sid, j))
    && (LeftOf(s, sid, j) <= 1 ==> LeftOf(s', sid, j) <= 1 && NeededOf(s', sid, j) + u == NeededOf(s, sid, j))
  }

  lemma CloserIsNearer(s: State, s': State, sid: nat, j: nat, useful: bool)
    requires Closer(s, s', sid, j, useful) && !Settled(s, j) && !s'.fault
    ensures Nearer(s, s', sid, j, if useful then 1 else 0)
  {
  }

  lemma StepOn(s: State, sid: nat, j: nat, l: Label)
    requires AtHead(s, sid, j) && !Settled(s, j) && !l.StopChannel?
    ensures
      || Next(s, l).fault
      || (&& (Settled(Next(s, l), j) || AtHead(Next(s, l), sid, j))
          && Nearer(s, Next(s, l), sid, j, if Useful(s, sid, j, l) then 1 else 0))
  {
    NextCloser(s, sid, j, l);
    NextKeeps(s, l);
    if !Next(s, l).fault {
      CloserIsNearer(s, Next(s, l), sid, j, Useful(s, sid, j, l));
    }
  }

  lemma {:induction false} NoneUseful(s: State, labels: seq<Label>, sid: nat, j: nat)
    requires Inv(s) && Settled(s, j)
    ensures UsefulIn(s, labels, sid, j) == 0
    decreases |labels|
  {
    if labels != [] {
      NextSettled(s, labels[0], j);
      NextKeeps(s, labels[0]);
      NoneUseful(Next(s, labels[0]), labels[1..], sid, j);
    }
  }

  /** Useful labels count down what is left until its continuation is posted. */
  lemma {:induction false} FirstPart(s: State, labels: seq<Label>, sid: nat, j: nat)
    requires AtHead(s, sid, j) && NoStop(labels)
    ensures
      var s' := Run(s, labels);
      || Settled(s', j)
      || (AtHead(s', sid, j) && (LeftOf(s', sid, j) <= 1 || LeftOf(s', sid, j) + UsefulIn(s, labels, sid, j) == LeftOf(s, sid, j)))
    decreases |labels|
  {
    if Settled(s, j) {
      RunSettled(s, labels, j);
    } else if labels != [] {
      var s1 := Next(s, labels[0]);
      StepOn(s, sid, j, labels[0]);
      if Settled(s1, j) {
        NextKeeps(s, labels[0]);
        RunSettled(s1, labels[1..], j);
      } else {
        FirstPart(s1, labels[1..], sid, j);
      }
    }
  }

  /** From there on they count down exactly the steps needed. */
  lemma {:induction false} SecondPart(s: State, labels: seq<Label>, sid: nat, j: nat)
    requires AtHead(s, sid, j) && NoStop(labels) && LeftOf(s, sid, j) <= 1
    ensures
      var s' := Run(s, labels);
      || s'.fault
      || (&& NeededOf(s', sid, j) + UsefulIn(s, labels, sid, j) == NeededOf(s, sid, j)
          && (Settled(s', j) || (AtHead(s', sid, j) && LeftOf(s', sid, j) <= 1)))
    decreases |labels|
  {
    if Settled(s, j) {
      SettledPart(s, labels, sid, j);
    } else if labels != [] {
      var s1 := Next(s, labels[0]);
      StepOn(s, sid, j, labels[0]);
      if Settled(s1, j) {
        NextKeeps(s, labels[0]);
        SettledPart(s1, labels[1..], sid, j);
      } else {
        SecondPart(s1, labels[1..], sid, j);
      }
    }
  }

  lemma SettledPart(s: State, labels: seq<Label>, sid: nat, j: nat)
    requires Inv(s) && Settled(s, j)
    ensures Settled(Run(s, labels), j) && (s.fault ==> Run(s, labels).fault)
    ensures UsefulIn(s, labels, sid, j) == 0 && NeededOf(s, sid, j) == 0 && NeededOf(Run(s, labels), sid, j) == 0
  {
    RunSettled(s, labels, j);
    NoneUseful(s, labels, sid, j);
    if s.fault {
      RunFaulty(s, labels);
    }
  }

  /** A head whose continuation is posted, or that shutdown has come to, is not over
      before at least one more step. */
  lemma NeedsOne(s: State, sid: nat, j: nat)
    requires AtHead(s, sid, j) && !Settled(s, j) && LeftOf(s, sid, j) <= 1
    ensures NeededOf(s, sid, j) >= 1
  {
    HeadHolds(s, sid, j);
    if !s.sessions[sid].phase.Cancelling? {
      IdleFacts(s, sid, j);
      UntilSome(s.conts, sid, 0, s.jobs[j].call.value.place.cont);
    }
  }

  /** `first` takes job `j` as far as its posted continuation, or to its shutdown: it
      has all the labels useful to the job that are left until there, or it has got
      there sooner. */
  ghost predicate Approaches(s: State, first: seq<Label>, sid: nat, j: nat)
  {
    UsefulIn(s, first, sid, j) + 1 >= LeftOf(s, sid, j) || LeftOf(Run(s, first), sid, j) <= 1
  }

  /** Exactly when the head of the line is finished, in every run in which the channel
      is not stopped and no response is of the wrong kind, whatever is interleaved.
      Let `first` hold what is left until the job's continuation is posted (at most
      two steps that start it, one expiry at or past its deadline or a response, and
      the callback). Then the job is over after `rest` if and only if `rest` holds
      the steps of its strand that it still needs. */
  lemma HeadFinishes(s: State, sid: nat, j: nat, first: seq<Label>, rest: seq<Label>)
    requires AtHead(s, sid, j) && NoStop(first) && NoStop(rest)
    requires Approaches(s, first, sid, j)
    ensures
      var s' := Run(Run(s, first), rest);
      || s'.fault
      || (j in s'.jobs && s'.jobs[j].stage.Over? <==> UsefulIn(Run(s, first), rest, sid, j) >= NeededOf(Run(s, first), sid, j))
  {
    var s1 := Run(s, first);
    FirstPart(s, first, sid, j);
    RunKeeps(s, first);
    if Settled(s1, j) {
      SettledPart(s1, rest, sid, j);
    } else {
      SecondPart(s1, rest, sid, j);
      var s2 := Run(s1, rest);
      if !s2.fault && !Settled(s2, j) {
        NeedsOne(s2, sid, j);
      }
    }
  }

  // ---------------------------------------------------------------- never stuck

  lemma {:induction false} HeadCont(conts: Conts, n: nat) returns (m: nat)
    requires n in conts
    ensures IsHead(conts, m) && conts[m].session == conts[n].session
    decreases n
  {
    if IsHead(conts, n) {
      m := n;
    } else {
      var k :| k in conts && conts[k].session == conts[n].session && k < n;
      m := HeadCont(conts, k);
    }
  }

  /** Where the request of the job at the head of an idle strand can be. */
  lemma IdleFacts(s: State, sid: nat, j: nat)
    requires AtHead(s, sid, j) && !s.fault && HeadFacts(s, sid, j) && s.sessions[sid].phase.Idle?
    ensures s.jobs[j].call.Some?
    ensures var c := s.jobs[j].call.value;
      && Issued(s, c.id) && s.byId[c.id] == j
      && (c.place.InTable? || c.place.Taken? || c.place.Posted?)
      && (c.place.Posted? ==> c.place.cont in s.conts && s.conts[c.place.cont] == Handle(sid, j))
  {
  }

  predicate ByItself(l: Label, sid: nat)
  {
    l.Expire? || l.Fire? || (l.Step? && l.session == sid)
  }

  /** Until the head is settled, the clock, a callback or its own strand can always do
      something useful to it. */
  lemma SomeUseful(s: State, sid: nat, j: nat) returns (l: Label)
    requires AtHead(s, sid, j) && !Settled(s, j)
    ensures Useful(s, sid, j, l) && ByItself(l, sid)
  {
    HeadHolds(s, sid, j);
    if !s.sessions[sid].phase.Idle? {
      l := Step(sid, 0, 0);
    } else {
      IdleFacts(s, sid, j);
      var c := s.jobs[j].call.value;
      if c.place.Posted? {
        var m := HeadCont(s.conts, c.place.cont);
        l := Step(sid, m, 0);
      } else {
        l := if c.place.InTable? then Expire(c.id, c.deadline) else Fire(c.id);
      }
    }
  }

  predicate AllByItself(labels: seq<Label>, sid: nat)
  {
    forall i :: 0 <= i < |labels| ==> ByItself(labels[i], sid)
  }

  lemma UsefulStep(s: State, sid: nat, j: nat) returns (l: Label)
    requires AtHead(s, sid, j) && !Settled(s, j)
    ensures Useful(s, sid, j, l) && ByItself(l, sid)
    ensures
      || Next(s, l).fault
      || ((Settled(Next(s, l), j) || AtHead(Next(s, l), sid, j)) && Nearer(s, Next(s, l), sid, j, 1))
  {
    l := SomeUseful(s, sid, j);
    StepOn(s, sid, j, l);
  }

  lemma OneMore(s: State, l: Label, rest: seq<Label>, sid: nat, j: nat)
    requires Useful(s, sid, j, l) && ByItself(l, sid) && AllByItself(rest, sid)
    ensures AllByItself([l] + rest, sid) && Run(s, [l] + rest) == Run(Next(s, l), rest)
    ensures UsefulIn(s, [l] + rest, sid, j) == UsefulIn(Next(s, l), rest, sid, j) + 1
  {
    assert ([l] + rest)[1..] == rest;
  }

  /** Labels that do what is left until the continuation is posted. */
  lemma {:induction false} CanApproach(s: State, sid: nat, j: nat) returns (labels: seq<Label>)
    requires AtHead(s, sid, j)
    ensures AllByItself(labels, sid)
    ensures Run(s, labels).fault || UsefulIn(s, labels, sid, j) + 1 >= LeftOf(s, sid, j)
    decreases LeftOf(s, sid, j)
  {
    labels := [];
    if LeftOf(s, sid, j) > 1 {
      var l := UsefulStep(s, sid, j);
      var rest := [];
      if !Next(s, l).fault && !Settled(Next(s, l), j) {
        rest := CanApproach(Next(s, l), sid, j);
      }
      OneMore(s, l, rest, sid, j);
      labels := [l] + rest;
    }
  }

  /** And labels that do all that is needed then. */
  lemma {:induction false} CanFinish(s: State, sid: nat, j: nat) returns (labels: seq<Label>)
    requires Settled(s, j) || (AtHead(s, sid, j) && LeftOf(s, sid, j) <= 1)
    ensures AllByItself(labels, sid)
    ensures Run(s, labels).fault || UsefulIn(s, labels, sid, j) >= NeededOf(s, sid, j)
    decreases NeededOf(s, sid, j)
  {
    labels := [];
    if !Settled(s, j) {
      NeedsOne(s, sid, j);
      var l := UsefulStep(s, sid, j);
      var rest := [];
      if !Next(s, l).fault {
        rest := CanFinish(Next(s, l), sid, j);
      }
      OneMore(s, l, rest, sid, j);
      labels := [l] + rest;
    }
  }
}
