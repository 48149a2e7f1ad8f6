/** The User server's requests as the channel's one table sees them: every run of the
    server is a run of the table, message by message. */
module UserTable {
  import opened UserServer
  import opened UserInvariants
  import opened UserSteps
  import P = PendingRequests

  // ---------------------------------------------------------------- the table

  function FateOf(cb: Callback): P.Fate
  {
    match cb
    case OnTimeout(at) => P.TimedOut(at)
    case OnResponse(at, _) => P.Responded(at)
  }

  /** What has ended a request that stands at `w`. */
  function FatesAt(w: Where): seq<P.Fate>
  {
    match w
    case InTable => []
    case Taken(cb) => [FateOf(cb)]
    case Posted(cb, _) => [FateOf(cb)]
    case Handled(cb) => [FateOf(cb)]
    case Dropped(withdrawn) => [if withdrawn then P.Withdrawn else P.Cleared]
  }

  /** A timeout whose callback has not run owes a cancel. */
  predicate Owes(w: Where) { w.Taken? && w.why.OnTimeout? }

  function Quiet(c: P.Channel): P.Channel { c.(out := []) }

  type Calls = map<nat, Call>

  ghost function CallsOf(s: State): Calls
  {
    map id | id in s.byId && Issued(s, id) :: CallOf(s, id)
  }

  ghost function PendingIn(calls: Calls): map<nat, nat>
  {
    map id | id in calls && calls[id].place.InTable? :: calls[id].deadline
  }

  ghost function UnsentIn(calls: Calls): set<nat>
  {
    set id | id in calls && calls[id].sends == 0
  }

  ghost function OwingIn(calls: Calls): set<nat>
  {
    set id | id in calls && Owes(calls[id].place)
  }

  ghost function FatesIn(calls: Calls): map<nat, seq<P.Fate>>
  {
    map id | id in calls :: FatesAt(calls[id].place)
  }

  ghost function DueIn(calls: Calls): map<nat, nat>
  {
    map id | id in calls :: calls[id].deadline
  }

  ghost function TableOf(calls: Calls, nextId: nat): P.Channel
  {
    P.Channel(PendingIn(calls), nextId, UnsentIn(calls), OwingIn(calls), [], FatesIn(calls), DueIn(calls))
  }

  /** The table of a state, without the messages that have left. */
  ghost function Table(s: State): P.Channel { TableOf(CallsOf(s), s.nextId) }

  // ---------------------------------------------------------------- what a step does to it

  function StrandOps(s: State, sid: nat, now: nat): seq<P.Op>
    requires sid in s.sessions
  {
    match s.sessions[sid].phase
    case Starting(j) => if j in s.jobs && s.jobs[j].kind.RoomJob? then [P.EnterOp(now)] else []
    case Sending(j) => if j in s.jobs && s.jobs[j].call.Some? then [P.HandOutOp(s.jobs[j].call.value.id)] else []
    case Cancelling(jobs) =>
      if jobs != [] && jobs[0] in s.jobs && s.jobs[jobs[0]].call.Some? && s.jobs[jobs[0]].call.value.place.InTable?
      then [P.CancelOp(s.jobs[jobs[0]].call.value.id), P.CallOffOp(s.jobs[jobs[0]].call.value.id)] else []
    case _ => []
  }

  /** The operations of the table that a step performs. */
  function OpsBy(s: State, l: Label): seq<P.Op>
  {
    match l
    case Step(sid, _, now) => if sid in s.sessions then StrandOps(s, sid, now) else []
    case Expire(id, now) =>
      if s.up && Issued(s, id) && CallOf(s, id).deadline <= now then [P.CompleteOp(id, now)] else []
    case Respond(id, _, now) => [P.CompleteOp(id, now)]
    case Fire(id) => [P.CallOffOp(id)]
    case Clear(id) => if s.up then [] else [P.DropOp(id)]
    case _ => []
  }

  /** The step does to the table what its operations do. */
  ghost predicate Follows(s: State, l: Label)
  {
    Table(Next(s, l)) == Quiet(P.RunOps(Table(s), OpsBy(s, l)))
  }

  lemma RunOne(c: P.Channel, op: P.Op)
    ensures P.RunOps(c, [op]) == P.Apply(c, op)
  {
    assert [op][1..] == [];
  }

  lemma RunTwo(c: P.Channel, a: P.Op, b: P.Op)
    ensures P.RunOps(c, [a, b]) == P.Apply(P.Apply(c, a), b)
  {
    assert [a, b][1..] == [b];
    RunOne(P.Apply(c, a), b);
  }

  // ---------------------------------------------------------------- one call at a time

  /** Nothing that the table knows of the request has changed. */
  predicate SameCall(was: Call, call: Call)
  {
    && call.id == was.id && call.deadline == was.deadline && FatesAt(call.place) == FatesAt(was.place)
    && (call.sends == 0 <==> was.sends == 0) && (Owes(call.place) <==> Owes(was.place))
  }

  lemma CallStays(calls: Calls, id: nat, call: Call, nextId: nat)
    requires id in calls && SameCall(calls[id], call)
    ensures TableOf(calls[id := call], nextId) == TableOf(calls, nextId)
  {
    assert PendingIn(calls[id := call]) == PendingIn(calls);
    assert UnsentIn(calls[id := call]) == UnsentIn(calls);
    assert OwingIn(calls[id := call]) == OwingIn(calls);
    assert FatesIn(calls[id := call]) == FatesIn(calls);
    assert DueIn(calls[id := call]) == DueIn(calls);
  }

  lemma CallEnds(calls: Calls, id: nat, call: Call, fate: P.Fate, nextId: nat)
    requires id in calls && calls[id].place.InTable? && call == calls[id].(place := call.place)
    requires FatesAt(call.place) == [fate] && (Owes(call.place) <==> P.Cancels(fate))
    ensures id in PendingIn(calls)
    ensures TableOf(calls[id := call], nextId) == P.Take(TableOf(calls, nextId), id, fate)
  {
    assert PendingIn(calls[id := call]) == PendingIn(calls) - {id};
    assert UnsentIn(calls[id := call]) == UnsentIn(calls);
    assert OwingIn(calls[id := call]) == OwingIn(calls) + if P.Cancels(fate) then {id} else {};
    assert FatesIn(calls)[id] + [fate] == [fate];
    assert FatesIn(calls[id := call]) == P.Met(FatesIn(calls), id, fate);
    assert DueIn(calls[id := call]) == DueIn(calls);
  }

  lemma CallEnters(calls: Calls, call: Call, now: nat, nextId: nat)
    requires nextId !in calls && call.place.InTable? && call.sends == 0 && call.deadline == now + P.TIMEOUT
    ensures TableOf(calls[nextId := call], nextId + 1) == P.Enter(TableOf(calls, nextId), now)
  {
    assert PendingIn(calls[nextId := call]) == PendingIn(calls)[nextId := now + P.TIMEOUT];
    assert UnsentIn(calls[nextId := call]) == UnsentIn(calls) + {nextId};
    assert OwingIn(calls[nextId := call]) == OwingIn(calls);
    assert FatesIn(calls[nextId := call]) == FatesIn(calls)[nextId := []];
    assert DueIn(calls[nextId := call]) == DueIn(calls)[nextId := now + P.TIMEOUT];
  }

  lemma CallLeaves(calls: Calls, id: nat, call: Call, nextId: nat)
    requires id in calls && calls[id].sends == 0 && call == calls[id].(sends := 1)
    ensures TableOf(calls[id := call], nextId) == Quiet(P.HandOut(TableOf(calls, nextId), id))
  {
    assert PendingIn(calls[id := call]) == PendingIn(calls);
    assert UnsentIn(calls[id := call]) == UnsentIn(calls) - {id};
    assert OwingIn(calls[id := call]) == OwingIn(calls);
    assert FatesIn(calls[id := call]) == FatesIn(calls);
    assert DueIn(calls[id := call]) == DueIn(calls);
  }

  lemma CallPays(calls: Calls, id: nat, call: Call, nextId: nat)
    requires id in calls && Owes(calls[id].place) && !Owes(call.place)
    requires call.deadline == calls[id].deadline && call.sends == calls[id].sends
    requires FatesAt(call.place) == FatesAt(calls[id].place)
    ensures TableOf(calls[id := call], nextId) == Quiet(P.CallOff(TableOf(calls, nextId), id))
  {
    assert PendingIn(calls[id := call]) == PendingIn(calls);
    assert UnsentIn(calls[id := call]) == UnsentIn(calls);
    assert OwingIn(calls[id := call]) == OwingIn(calls) - {id};
    assert FatesIn(calls[id := call]) == FatesIn(calls);
    assert DueIn(calls[id := call]) == DueIn(calls);
  }

  /** A withdrawal takes the request out of the table and sends its cancel. */
  lemma CallIsWithdrawn(calls: Calls, id: nat, call: Call, nextId: nat)
    requires id in calls && calls[id].place.InTable? && call.place == Dropped(true)
    requires call.deadline == calls[id].deadline && call.sends == calls[id].sends
    ensures TableOf(calls[id := call], nextId) == Quiet(P.CallOff(P.Cancel(TableOf(calls, nextId), id), id))
  {
    assert PendingIn(calls[id := call]) == PendingIn(calls) - {id};
    assert UnsentIn(calls[id := call]) == UnsentIn(calls);
    assert OwingIn(calls[id := call]) == OwingIn(calls) + {id} - {id};
    assert FatesIn(calls)[id] + [P.Withdrawn] == [P.Withdrawn];
    assert FatesIn(calls[id := call]) == P.Met(FatesIn(calls), id, P.Withdrawn);
    assert DueIn(calls[id := call]) == DueIn(calls);
  }

  // ---------------------------------------------------------------- one job at a time

  lemma CallsPut(s: State, s': State, j: nat, job: Job)
    requires Index(s.byId, s.jobs, s.nextId) && j in s.jobs && s.jobs[j].call.Some?
    requires s'.jobs == s.jobs[j := job] && s'.byId == s.byId && job.call.Some?
    ensures
      var id := s.jobs[j].call.value.id;
      id in CallsOf(s) && CallsOf(s)[id] == s.jobs[j].call.value && CallsOf(s') == CallsOf(s)[id := job.call.value]
  {
    var id := s.jobs[j].call.value.id;
    assert forall k :: k in s.byId && k != id ==> s.byId[k] != j;
  }

  /** No request is of a job without one. */
  lemma CallsSame(s: State, s': State, j: nat, job: Job)
    requires Index(s.byId, s.jobs, s.nextId) && (j in s.jobs ==> s.jobs[j].call.None?)
    requires s'.jobs == s.jobs[j := job] && s'.byId == s.byId
    ensures CallsOf(s') == CallsOf(s)
  {
    assert forall k :: k in s.byId ==> s.byId[k] != j;
  }

  lemma CallsNew(s: State, s': State, j: nat, job: Job)
    requires Index(s.byId, s.jobs, s.nextId) && j in s.jobs && s.jobs[j].call.None?
    requires s'.jobs == s.jobs[j := job] && s'.byId == s.byId[s.nextId := j] && job.call.Some?
    ensures s.nextId !in CallsOf(s) && CallsOf(s') == CallsOf(s)[s.nextId := job.call.value]
  {
    assert forall k :: k in s.byId ==> s.byId[k] != j && k != s.nextId;
  }

  lemma OtherParts(s: State, s': State)
    requires s'.jobs == s.jobs && s'.byId == s.byId && s'.nextId == s.nextId
    ensures Table(s') == Table(s)
  {
    assert forall id :: Issued(s', id) <==> Issued(s, id);
    assert CallsOf(s') == CallsOf(s);
  }

  predicate SameRequest(was: Job, job: Job)
  {
    (was.call.Some? <==> job.call.Some?) && (was.call.Some? ==> SameCall(was.call.value, job.call.value))
  }

  lemma SameTable(s: State, s': State, j: nat, job: Job)
    requires Index(s.byId, s.jobs, s.nextId) && j in s.jobs && SameRequest(s.jobs[j], job)
    requires s'.jobs == s.jobs[j := job] && s'.byId == s.byId && s'.nextId == s.nextId
    ensures Table(s') == Table(s)
  {
    if job.call.Some? {
      CallsPut(s, s', j, job);
      CallStays(CallsOf(s), job.call.value.id, job.call.value, s.nextId);
    } else {
      CallsSame(s, s', j, job);
    }
  }

  // ---------------------------------------------------------------- the strands' steps

  lemma StartTable(s: State, sid: nat, j: nat, now: nat)
    requires HeadFacts(s, sid, j) && s.sessions[sid].phase == Starting(j) && Index(s.byId, s.jobs, s.nextId)
    ensures Table(StartJob(s, sid, j, now)) == Quiet(P.RunOps(Table(s), StrandOps(s, sid, now)))
  {
    var s' := StartJob(s, sid, j, now);
    if s.jobs[j].kind.RoomJob? {
      CallsNew(s, s', j, s'.jobs[j]);
      CallEnters(CallsOf(s), s'.jobs[j].call.value, now, s.nextId);
      RunOne(Table(s), P.EnterOp(now));
    } else {
      SameTable(s, s', j, s'.jobs[j]);
    }
  }

  lemma SendTable(s: State, sid: nat, j: nat, now: nat)
    requires HeadFacts(s, sid, j) && s.sessions[sid].phase == Sending(j) && Index(s.byId, s.jobs, s.nextId)
    ensures s.jobs[j].call.Some? && Table(SendOut(s, sid, j)) == Quiet(P.RunOps(Table(s), StrandOps(s, sid, now)))
  {
    var s' := SendOut(s, sid, j);
    var call := s'.jobs[j].call.value;
    CallsPut(s, s', j, s'.jobs[j]);
    CallLeaves(CallsOf(s), call.id, call, s.nextId);
    RunOne(Table(s), P.HandOutOp(call.id));
  }

  lemma WithdrawTable(s: State, s': State, j: nat)
    requires Index(s.byId, s.jobs, s.nextId) && j in s.jobs && s.jobs[j].call.Some? && s.jobs[j].call.value.place.InTable?
    requires !s.jobs[j].stage.Over? && s'.jobs == s.jobs[j := CancelJob(s.jobs[j])] && s'.byId == s.byId && s'.nextId == s.nextId
    ensures
      var id := s.jobs[j].call.value.id;
      Table(s') == Quiet(P.RunOps(Table(s), [P.CancelOp(id), P.CallOffOp(id)]))
  {
    var call := CancelJob(s.jobs[j]).call.value;
    CallsPut(s, s', j, CancelJob(s.jobs[j]));
    CallIsWithdrawn(CallsOf(s), call.id, call, s.nextId);
    RunTwo(Table(s), P.CancelOp(call.id), P.CallOffOp(call.id));
  }

  lemma CancelTable(s: State, sid: nat, l: seq<nat>, now: nat)
    requires l != [] && HeadFacts(s, sid, l[0]) && s.sessions[sid].phase == Cancelling(l) && Index(s.byId, s.jobs, s.nextId)
    ensures Table(CancelNext(s, sid, l)) == Quiet(P.RunOps(Table(s), StrandOps(s, sid, now)))
  {
    var s', j := CancelNext(s, sid, l), l[0];
    if s.jobs[j].call.Some? && s.jobs[j].call.value.place.InTable? {
      WithdrawTable(s, s', j);
    } else {
      SameTable(s, s', j, s'.jobs[j]);
    }
  }

  lemma PushTable(s: State, sid: nat, n: nat)
    requires ContFacts(s, sid, n) && s.conts[n].Push? && JobOk(s.jobs[n]) && Index(s.byId, s.jobs, s.nextId)
    ensures Table(RunCont(s, sid, n)) == Table(s)
  {
    var s' := RunCont(s, sid, n);
    SameTable(s, s', n, s'.jobs[n]);
  }

  lemma HandleTable(s: State, sid: nat, n: nat, j: nat)
    requires HandleFacts(s, sid, n, j) && Index(s.byId, s.jobs, s.nextId)
    ensures Table(RunCont(s, sid, n)) == Table(s)
  {
    var s' := RunCont(s, sid, n);
    SameTable(s, s', j, s'.jobs[j]);
  }

  lemma StopTable(s: State, sid: nat, n: nat)
    requires ContFacts(s, sid, n) && s.conts[n].Stop?
    ensures Table(RunCont(s, sid, n)) == Table(s)
  {
    OtherParts(s, RunCont(s, sid, n));
  }

  lemma ContTable(s: State, sid: nat, n: nat)
    requires Inv(s) && ContFacts(s, sid, n)
    ensures Table(RunCont(s, sid, n)) == Table(s)
  {
    match s.conts[n] {
      case Push(_) => PushTable(s, sid, n);
      case Stop(_) => StopTable(s, sid, n);
      case Handle(_, j) =>
        HandleHolds(s, sid, n, j);
        HandleTable(s, sid, n, j);
    }
  }

  lemma StrandTable(s: State, sid: nat, n: nat, now: nat)
    requires Inv(s) && sid in s.sessions
    ensures Table(StrandStep(s, sid, n, now)) == Quiet(P.RunOps(Table(s), StrandOps(s, sid, now)))
  {
    PhaseFirst(s, sid);
    match s.sessions[sid].phase {
      case Starting(j) =>
        HeadHolds(s, sid, j);
        StartTable(s, sid, j, now);
      case Sending(j) =>
        HeadHolds(s, sid, j);
        SendTable(s, sid, j, now);
      case Cancelling(l) =>
        HeadHolds(s, sid, l[0]);
        CancelTable(s, sid, l, now);
      case Idle =>
        if IsHead(s.conts, n) && s.conts[n].session == sid {
          ContHolds(s, sid, n);
          ContTable(s, sid, n);
        }
    }
  }

  lemma StepTable(s: State, sid: nat, n: nat, now: nat)
    requires Inv(s)
    ensures Follows(s, Step(sid, n, now))
  {
    if sid in s.sessions {
      StrandTable(s, sid, n, now);
    }
    StepFollows(s, sid, n, now);
  }

  lemma StepFollows(s: State, sid: nat, n: nat, now: nat)
    requires sid in s.sessions ==> Table(StrandStep(s, sid, n, now)) == Quiet(P.RunOps(Table(s), StrandOps(s, sid, now)))
    ensures Follows(s, Step(sid, n, now))
  {
  }

  // ---------------------------------------------------------------- the table's own steps

  lemma PendingIs(s: State, id: nat)
    ensures id in Table(s).pending <==> Issued(s, id) && CallOf(s, id).place.InTable?
    ensures id in Table(s).pending ==> Table(s).pending[id] == CallOf(s, id).deadline
    ensures id in Table(s).owing <==> Issued(s, id) && Owes(CallOf(s, id).place)
    ensures id in Table(s).unsent <==> Issued(s, id) && CallOf(s, id).sends == 0
  {
  }

  lemma MoveTable(s: State, id: nat, w: Where, fate: P.Fate)
    requires Index(s.byId, s.jobs, s.nextId) && Issued(s, id) && CallOf(s, id).place.InTable?
    requires FatesAt(w) == [fate] && (Owes(w) <==> P.Cancels(fate))
    ensures id in Table(s).pending && Table(Move(s, id, w)) == P.Take(Table(s), id, fate)
  {
    var job := Place(s.jobs[s.byId[id]], w);
    CallsPut(s, Move(s, id, w), s.byId[id], job);
    CallEnds(CallsOf(s), id, job.call.value, fate, s.nextId);
  }

  lemma MoveFollows(s: State, l: Label, id: nat, w: Where, fate: P.Fate, op: P.Op)
    requires Index(s.byId, s.jobs, s.nextId) && Issued(s, id) && CallOf(s, id).place.InTable?
    requires FatesAt(w) == [fate] && (Owes(w) <==> P.Cancels(fate))
    requires Next(s, l) == Move(s, id, w) && OpsBy(s, l) == [op]
    requires id in Table(s).pending && P.Apply(Table(s), op) == P.Take(Table(s), id, fate)
    ensures Follows(s, l)
  {
    MoveTable(s, id, w, fate);
    RunOne(Table(s), op);
  }

  lemma StayFollows(s: State, l: Label)
    requires Next(s, l) == s
    requires OpsBy(s, l) == [] || (|OpsBy(s, l)| == 1 && P.Apply(Table(s), OpsBy(s, l)[0]) == Table(s))
    ensures Follows(s, l)
  {
    if OpsBy(s, l) != [] {
      assert OpsBy(s, l) == [OpsBy(s, l)[0]];
      RunOne(Table(s), OpsBy(s, l)[0]);
    }
  }

  lemma ExpireTable(s: State, id: nat, now: nat)
    requires Index(s.byId, s.jobs, s.nextId)
    ensures Follows(s, Expire(id, now))
  {
    PendingIs(s, id);
    if s.up && Issued(s, id) && CallOf(s, id).place.InTable? && CallOf(s, id).deadline <= now {
      MoveFollows(s, Expire(id, now), id, Taken(OnTimeout(now)), P.TimedOut(now), P.CompleteOp(id, now));
    } else {
      StayFollows(s, Expire(id, now));
    }
  }

  lemma RespondTable(s: State, id: nat, resp: Resp, now: nat)
    requires Index(s.byId, s.jobs, s.nextId)
    ensures Follows(s, Respond(id, resp, now))
  {
    PendingIs(s, id);
    if Issued(s, id) && CallOf(s, id).place.InTable? {
      var cb := if now >= CallOf(s, id).deadline then OnTimeout(now) else OnResponse(now, resp);
      MoveFollows(s, Respond(id, resp, now), id, Taken(cb), FateOf(cb), P.CompleteOp(id, now));
    } else {
      StayFollows(s, Respond(id, resp, now));
    }
  }

  lemma ClearTable(s: State, id: nat)
    requires Index(s.byId, s.jobs, s.nextId)
    ensures Follows(s, Clear(id))
  {
    PendingIs(s, id);
    if !s.up && Issued(s, id) && CallOf(s, id).place.InTable? {
      MoveFollows(s, Clear(id), id, Dropped(false), P.Cleared, P.DropOp(id));
    } else {
      StayFollows(s, Clear(id));
    }
  }

  lemma FiredTable(s: State, id: nat)
    requires Index(s.byId, s.jobs, s.nextId) && Issued(s, id) && CallOf(s, id).place.Taken?
    ensures Table(FireCall(s, s.byId[id])) == Quiet(P.CallOff(Table(s), id))
  {
    var j := s.byId[id];
    var s', job := FireCall(s, j), Fired(s.jobs[j], s.next);
    PendingIs(s, id);
    if Owes(CallOf(s, id).place) {
      CallsPut(s, s', j, job);
      CallPays(CallsOf(s), id, job.call.value, s.nextId);
    } else {
      SameTable(s, s', j, job);
    }
  }

  lemma OpFollows(s: State, l: Label, s': State, op: P.Op)
    requires Next(s, l) == s' && OpsBy(s, l) == [op] && Table(s') == Quiet(P.Apply(Table(s), op))
    ensures Follows(s, l)
  {
    RunOne(Table(s), op);
  }

  lemma FireTable(s: State, id: nat)
    requires Index(s.byId, s.jobs, s.nextId)
    ensures Follows(s, Fire(id))
  {
    PendingIs(s, id);
    if Issued(s, id) && CallOf(s, id).place.Taken? {
      FiredTable(s, id);
      OpFollows(s, Fire(id), FireCall(s, s.byId[id]), P.CallOffOp(id));
    } else {
      StayFollows(s, Fire(id));
    }
  }

  lemma ClientTable(s: State, l: Label)
    requires Located(s.jobs, s.sessions.Keys, s.next) && Index(s.byId, s.jobs, s.nextId)
    requires l.Connect? || l.Submit? || l.Disconnect? || l.StopChannel?
    ensures Follows(s, l)
  {
    if l.Submit? && l.session in s.sessions {
      CallsSame(s, Next(s, l), s.next, NewJob(l.session, l.kind));
    } else {
      OtherParts(s, Next(s, l));
    }
  }

  /** Every step does to the table what one of its operations does, or nothing; the
      step that withdraws a request does two. */
  lemma NextTable(s: State, l: Label)
    requires Inv(s)
    ensures Follows(s, l)
  {
    if l.Step? {
      StepTable(s, l.session, l.cont, l.now);
    } else if l.Fire? {
      FireTable(s, l.id);
    } else if l.Expire? {
      ExpireTable(s, l.id, l.now);
    } else if l.Respond? {
      RespondTable(s, l.id, l.resp, l.now);
    } else if l.Clear? {
      ClearTable(s, l.id);
    } else {
      ClientTable(s, l);
    }
  }

  // ---------------------------------------------------------------- every run

  /** The table's run that goes with a run of the server. */
  ghost function TableOps(s: State, labels: seq<Label>): seq<P.Op>
    decreases |labels|
  {
    if labels == [] then [] else OpsBy(s, labels[0]) + TableOps(Next(s, labels[0]), labels[1..])
  }

  lemma {:induction false} RunOpsAppend(c: P.Channel, a: seq<P.Op>, b: seq<P.Op>)
    ensures P.RunOps(c, a + b) == P.RunOps(P.RunOps(c, a), b)
    decreases |a|
  {
    if a == [] {
      assert a + b == b;
    } else {
      assert (a + b)[1..] == a[1..] + b;
      RunOpsAppend(P.Apply(c, a[0]), a[1..], b);
    }
  }

  lemma QuietApply(c: P.Channel, op: P.Op)
    ensures Quiet(P.Apply(c, op)) == Quiet(P.Apply(Quiet(c), op))
  {
  }

  lemma {:induction false} QuietRun(c: P.Channel, d: P.Channel, ops: seq<P.Op>)
    requires Quiet(c) == Quiet(d)
    ensures Quiet(P.RunOps(c, ops)) == Quiet(P.RunOps(d, ops))
    decreases |ops|
  {
    if ops != [] {
      QuietApply(c, ops[0]);
      QuietApply(d, ops[0]);
      QuietRun(P.Apply(c, ops[0]), P.Apply(d, ops[0]), ops[1..]);
    }
  }

  lemma {:induction false} RunTable(c: P.Channel, s: State, labels: seq<Label>)
    requires Inv(s) && Quiet(c) == Table(s)
    ensures Quiet(P.RunOps(c, TableOps(s, labels))) == Table(Run(s, labels))
    decreases |labels|
  {
    if labels != [] {
      var ops, s1 := OpsBy(s, labels[0]), Next(s, labels[0]);
      NextTable(s, labels[0]);
      QuietRun(c, Table(s), ops);
      NextKeeps(s, labels[0]);
      RunTable(P.RunOps(c, ops), s1, labels[1..]);
      RunOpsAppend(c, ops, TableOps(s1, labels[1..]));
    }
  }

  // ---------------------------------------------------------------- which message is first

  /** The callback of `id`'s timeout runs, and its request has not been sent. */
  predicate FiresEarly(s: State, l: Label, id: nat)
  {
    l == Fire(id) && Issued(s, id) && Owes(CallOf(s, id).place) && CallOf(s, id).sends == 0
  }

  ghost predicate FiresEarlyIn(s: State, labels: seq<Label>, id: nat)
    decreases |labels|
  {
    labels != [] && (FiresEarly(s, labels[0], id) || FiresEarlyIn(Next(s, labels[0]), labels[1..], id))
  }

  lemma {:induction false} EarlyAppend(c: P.Channel, a: seq<P.Op>, b: seq<P.Op>, id: nat)
    ensures P.EarlyIn(c, a + b, id) <==> P.EarlyIn(c, a, id) || P.EarlyIn(P.RunOps(c, a), b, id)
    decreases |a|
  {
    if a == [] {
      assert a + b == b;
    } else {
      assert (a + b)[1..] == a[1..] + b;
      EarlyAppend(P.Apply(c, a[0]), a[1..], b, id);
    }
  }

  lemma EarlyOne(c: P.Channel, op: P.Op, id: nat)
    ensures P.EarlyIn(c, [op], id) <==> P.Early(c, op, id)
  {
    assert [op][1..] == [];
  }

  /** A withdrawn request has been sent. */
  lemma WithdrawnIsSent(s: State, l: Label)
    requires Inv(s) && |OpsBy(s, l)| > 1
    ensures |OpsBy(s, l)| == 2 && OpsBy(s, l)[0].CancelOp? && OpsBy(s, l)[1] == P.CallOffOp(OpsBy(s, l)[0].id)
    ensures OpsBy(s, l)[0].id !in Table(s).unsent
  {
    var j := s.sessions[l.session].phase.jobs[0];
    assert SessionOk(l.session, s.sessions[l.session], s.jobs) && JobOk(s.jobs[j]);
    PendingIs(s, s.jobs[j].call.value.id);
  }

  lemma WithdrawnLate(c: P.Channel, k: nat, id: nat)
    requires k !in c.unsent
    ensures !P.EarlyIn(c, [P.CancelOp(k), P.CallOffOp(k)], id)
  {
    var c1 := P.Apply(c, P.CancelOp(k));
    assert [P.CancelOp(k), P.CallOffOp(k)][1..] == [P.CallOffOp(k)];
    EarlyOne(c1, P.CallOffOp(k), id);
    assert c1.unsent == c.unsent;
  }

  lemma OnlyFireCallsOff(s: State, l: Label, op: P.Op)
    requires OpsBy(s, l) == [op]
    ensures op.CallOffOp? <==> l.Fire?
    ensures l.Fire? ==> op.id == l.id
  {
  }

  lemma SingleEarly(c: P.Channel, s: State, l: Label, op: P.Op, id: nat)
    requires OpsBy(s, l) == [op]
    requires id in c.owing <==> Issued(s, id) && Owes(CallOf(s, id).place)
    requires id in c.unsent <==> Issued(s, id) && CallOf(s, id).sends == 0
    ensures P.EarlyIn(c, [op], id) <==> FiresEarly(s, l, id)
  {
    EarlyOne(c, op, id);
    OnlyFireCallsOff(s, l, op);
  }

  lemma NoneEarly(s: State, l: Label, id: nat)
    requires |OpsBy(s, l)| != 1
    ensures !FiresEarly(s, l, id)
  {
  }

  lemma StepEarly(c: P.Channel, s: State, l: Label, id: nat)
    requires Inv(s) && Quiet(c) == Table(s)
    ensures P.EarlyIn(c, OpsBy(s, l), id) <==> FiresEarly(s, l, id)
  {
    var ops := OpsBy(s, l);
    if |ops| > 1 {
      WithdrawnIsSent(s, l);
      assert ops == [P.CancelOp(ops[0].id), P.CallOffOp(ops[0].id)];
      WithdrawnLate(c, ops[0].id, id);
      NoneEarly(s, l, id);
    } else if |ops| == 1 {
      PendingIs(s, id);
      assert ops == [ops[0]];
      SingleEarly(c, s, l, ops[0], id);
    } else {
      NoneEarly(s, l, id);
    }
  }

  lemma {:induction false} RunEarly(c: P.Channel, s: State, labels: seq<Label>, id: nat)
    requires Inv(s) && Quiet(c) == Table(s)
    ensures P.EarlyIn(c, TableOps(s, labels), id) <==> FiresEarlyIn(s, labels, id)
    decreases |labels|
  {
    if labels != [] {
      var ops, s1 := OpsBy(s, labels[0]), Next(s, labels[0]);
      StepEarly(c, s, labels[0], id);
      NextTable(s, labels[0]);
      QuietRun(c, Table(s), ops);
      NextKeeps(s, labels[0]);
      RunEarly(P.RunOps(c, ops), s1, labels[1..], id);
      EarlyAppend(c, ops, TableOps(s1, labels[1..]), id);
    }
  }

  lemma StartTables()
    ensures Quiet(P.Start()) == Table(Start())
  {
    assert CallsOf(Start()) == map[];
  }

  // ---------------------------------------------------------------- theorem

  /** What the table, with its messages, says of a request. */
  ghost predicate Agrees(call: Call, c: P.Channel, id: nat)
  {
    && (call.place.InTable? <==> id in c.pending)
    && id in c.fates && FatesAt(call.place) == c.fates[id]
    && P.EndedOnce(c.pending, c.fates[id], call.deadline, id)
    && multiset(P.About(c.out, id))[P.Sent(id)] == call.sends
    && multiset(P.About(c.out, id))[P.CancelSent(id)] == call.cancels
    && |P.About(c.out, id)| == call.sends + call.cancels
  }

  /** Every run of the server is a run of the table: the ids issued are exactly those
      the table has given out; each is still in it or has met exactly one end, which is
      what its job is told; as many request messages and cancels bear the id as its job
      has sent; and a cancel is the first of them if and only if its callback ran
      before the request was sent. */
  lemma RunsAreTableRuns(labels: seq<Label>, id: nat)
    ensures
      var s, c := Run(Start(), labels), P.RunOps(P.Start(), TableOps(Start(), labels));
      && (Issued(s, id) <==> 1 <= id < c.nextId)
      && (Issued(s, id) ==> Agrees(CallOf(s, id), c, id))
      && (P.CancelLeads(P.About(c.out, id)) <==> FiresEarlyIn(Start(), labels, id))
  {
    var ops := TableOps(Start(), labels);
    var s, c := Run(Start(), labels), P.RunOps(P.Start(), ops);
    StartIsSound();
    P.StartIsSound();
    StartTables();
    RunTable(P.Start(), Start(), labels);
    RunKeeps(Start(), labels);
    P.RunOpsKeeps(P.Start(), ops);
    IdOfRun(s, c, id);
    P.RunLeads(P.Start(), ops, id);
    RunEarly(P.Start(), Start(), labels, id);
  }

  lemma IdOfRun(s: State, c: P.Channel, id: nat)
    requires Inv(s) && P.Inv(c) && Quiet(c) == Table(s)
    ensures Issued(s, id) <==> 1 <= id < c.nextId
    ensures Issued(s, id) ==> Agrees(CallOf(s, id), c, id)
  {
    assert P.IdOk(c, id);
    assert Issued(s, id) <==> id in CallsOf(s);
    if Issued(s, id) {
      assert JobOk(s.jobs[s.byId[id]]);
      CallAgrees(CallsOf(s), c, id);
    }
  }

  lemma CallAgrees(calls: Calls, c: P.Channel, id: nat)
    requires id in calls && CallOk(calls[id]) && P.IdOk(c, id) && Quiet(c) == TableOf(calls, c.nextId)
    ensures Agrees(calls[id], c, id)
  {
    assert c.pending == PendingIn(calls) && c.unsent == UnsentIn(calls) && c.owing == OwingIn(calls);
    assert c.fates == FatesIn(calls) && c.due == DueIn(calls);
  }
}
