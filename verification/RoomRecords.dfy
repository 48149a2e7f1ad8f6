/** The registry of the Room server in its runs: which calls each step makes on it, and
    what its terminal records do to the asks that come later. */
module RoomRecords {
  import opened QueuedRequests
  import opened Rooms
  import opened RoomServer
  import opened RoomInvariants
  import opened RoomChannel
  import opened RoomHistory

  // ---------------------------------------------------------------- calls on the registry

  /** Is an admitted request over when its message has been handled? */
  predicate EndsAtOnce(s: State, request: Request)
  {
    request.CreateRoom? || NoRoomFor(s.mgr, request)
  }

  /** The calls an ask makes: it is admitted or refused, and finished at once if it is
      not posted to a strand. */
  function AskCalls(p: Setup, s: State, key: Key, request: Request, now: nat, done: nat): seq<Op<nat>>
  {
    var n := TicketNumber(s, request);
    [AdmitOp(key, now, n)] +
    if Admissible(p.cfg, s.reg, key, now) && EndsAtOnce(s, request) then [FinishOp(key, done, n)] else []
  }

  /** The calls that a step makes on the registry. */
  ghost function Calls(p: Setup, s: State, l: Label): seq<Op<nat>>
  {
    match l
    case Receive(route, Ask(id, request), now, done, _) => AskCalls(p, s, Key(route, id), request, now, done)
    case Receive(route, CancelAsk(id), now, _, _) => [CancelOp(Key(route, id), now)]
    case StrandStep(n, now) =>
      if IsHead(s.items, s.strandOf, n) && s.items[n].room in s.rooms && s.items[n].Work? && s.items[n].phase.Completing?
      then [FinishOp(s.items[n].req.key, now, n)] else []
    case _ => []
  }

  ghost function AllCalls(p: Setup, s: State, labels: seq<Label>): seq<Op<nat>>
    requires p.strands > 0
    decreases |labels|
  {
    if labels == [] then [] else Calls(p, s, labels[0]) + AllCalls(p, Next(p, s, labels[0]), labels[1..])
  }

  lemma RunOne(cfg: Config, r: Registry<nat>, op: Op<nat>)
    ensures RunOps(cfg, r, [op]) == Apply(cfg, r, op)
  {
    assert [op][1..] == [];
  }

  lemma {:induction false} RunOpsAppend(cfg: Config, r: Registry<nat>, a: seq<Op<nat>>, b: seq<Op<nat>>)
    ensures RunOps(cfg, r, a + b) == RunOps(cfg, RunOps(cfg, r, a), b)
    decreases |a|
  {
    if a == [] {
      assert a + b == b;
    } else {
      assert (a + b)[1..] == a[1..] + b;
      RunOpsAppend(cfg, Apply(cfg, r, a[0]), a[1..], b);
    }
  }

  lemma HandleReg(p: Setup, s: State, key: Key, request: Request, drawn: RoomId,
                  admitted: Registry<nat>, finished: Registry<nat>)
    requires p.strands > 0
    ensures Handle(p, s, key, request, drawn, admitted, finished).reg == if EndsAtOnce(s, request) then finished else admitted
  {
  }

  lemma AskReg(p: Setup, s: State, key: Key, request: Request, now: nat, done: nat, drawn: RoomId)
    requires p.strands > 0
    ensures ReceiveAsk(p, s, key, request, now, done, drawn).reg == RunOps(p.cfg, s.reg, AskCalls(p, s, key, request, now, done))
  {
    var n := TicketNumber(s, request);
    var admitted := AfterAdmit(p.cfg, s.reg, key, now, n);
    var finished := AfterFinish(p.cfg, admitted, key, n, done);
    HandleReg(p, s, key, request, drawn, admitted, finished);
    RunOne(p.cfg, s.reg, AdmitOp(key, now, n));
    RunOne(p.cfg, admitted, FinishOp(key, done, n));
    RunOpsAppend(p.cfg, s.reg, [AdmitOp(key, now, n)], [FinishOp(key, done, n)]);
  }

  lemma WorkReg(p: Setup, s: State, n: nat, now: nat)
    requires n in s.items && s.items[n].Work? && s.items[n].room in s.rooms
    ensures RunWork(p, s, n, now).reg ==
      if s.items[n].phase.Completing? then Apply(p.cfg, s.reg, FinishOp(s.items[n].req.key, now, n)) else s.reg
  {
  }

  lemma TaskReg(p: Setup, s: State, n: nat, now: nat)
    requires p.strands > 0
    ensures RunTask(p, s, n, now).reg == RunOps(p.cfg, s.reg, Calls(p, s, StrandStep(n, now)))
  {
    if n in s.items && s.items[n].Work? && s.items[n].room in s.rooms {
      WorkReg(p, s, n, now);
    }
    if Calls(p, s, StrandStep(n, now)) != [] {
      RunOne(p.cfg, s.reg, FinishOp(s.items[n].req.key, now, n));
    }
  }

  lemma NextReg(p: Setup, s: State, l: Label)
    requires p.strands > 0
    ensures Next(p, s, l).reg == RunOps(p.cfg, s.reg, Calls(p, s, l))
  {
    match l {
      case Receive(route, Ask(id, request), now, done, drawn) =>
        AskReg(p, s, Key(route, id), request, now, done, drawn);
      case Receive(route, CancelAsk(id), now, _, _) => RunOne(p.cfg, s.reg, CancelOp(Key(route, id), now));
      case StrandStep(n, now) => TaskReg(p, s, n, now);
      case _ =>
    }
  }

  /** The registry of a run of the Room server is what its calls make of it; so all
      that holds of every run of calls holds here. */
  lemma {:induction false} RegistryProjection(p: Setup, s: State, labels: seq<Label>)
    requires p.strands > 0
    ensures Run(p, s, labels).reg == RunOps(p.cfg, s.reg, AllCalls(p, s, labels))
    decreases |labels|
  {
    if labels != [] {
      var s1 := Next(p, s, labels[0]);
      NextReg(p, s, labels[0]);
      RegistryProjection(p, s1, labels[1..]);
      RunOpsAppend(p.cfg, s.reg, Calls(p, s, labels[0]), AllCalls(p, s1, labels[1..]));
    }
  }

  // ---------------------------------------------------------------- every call looks

  lemma AskLooks(p: Setup, s: State, key: Key, request: Request, now: nat, done: nat)
    ensures AllLook(p.cfg, s.reg, AskCalls(p, s, key, request, now, done))
  {
    var n := TicketNumber(s, request);
    var admitted := AfterAdmit(p.cfg, s.reg, key, now, n);
    assert [AdmitOp(key, now, n), FinishOp(key, done, n)][1..] == [FinishOp(key, done, n)];
    assert AskCalls(p, s, key, request, now, done) == [AdmitOp(key, now, n)] ||
           AskCalls(p, s, key, request, now, done) == [AdmitOp(key, now, n), FinishOp(key, done, n)];
    OneLooks(p.cfg, admitted, FinishOp(key, done, n));
  }

  lemma OneLooks(cfg: Config, r: Registry<nat>, op: Op<nat>)
    ensures AllLook(cfg, r, [op]) <==> Looks(r, op)
  {
    assert [op][1..] == [];
  }

  /** A completion is that of the ticket held. */
  lemma TaskLooks(p: Setup, s: State, n: nat, now: nat)
    requires Tracked(s.reg.active, s.items)
    ensures AllLook(p.cfg, s.reg, Calls(p, s, StrandStep(n, now)))
  {
    if Calls(p, s, StrandStep(n, now)) != [] {
      assert Live(s.items[n]);
      OneLooks(p.cfg, s.reg, FinishOp(s.items[n].req.key, now, n));
    }
  }

  lemma CallsLook(p: Setup, s: State, l: Label)
    requires Tracked(s.reg.active, s.items)
    ensures AllLook(p.cfg, s.reg, Calls(p, s, l))
  {
    match l {
      case Receive(route, Ask(id, request), now, done, _) => AskLooks(p, s, Key(route, id), request, now, done);
      case Receive(route, CancelAsk(id), now, _, _) => OneLooks(p.cfg, s.reg, CancelOp(Key(route, id), now));
      case StrandStep(n, now) => TaskLooks(p, s, n, now);
      case _ =>
    }
  }

  lemma {:induction false} LookAppend(cfg: Config, r: Registry<nat>, a: seq<Op<nat>>, b: seq<Op<nat>>)
    requires AllLook(cfg, r, a) && AllLook(cfg, RunOps(cfg, r, a), b)
    ensures AllLook(cfg, r, a + b)
    decreases |a|
  {
    if a == [] {
      assert a + b == b;
    } else {
      assert (a + b)[1..] == a[1..] + b;
      LookAppend(cfg, Apply(cfg, r, a[0]), a[1..], b);
    }
  }

  lemma {:induction false} RunLooks(p: Setup, s: State, labels: seq<Label>)
    requires p.strands > 0 && Inv(p, s)
    ensures AllLook(p.cfg, s.reg, AllCalls(p, s, labels))
    decreases |labels|
  {
    if labels != [] {
      var s1 := Next(p, s, labels[0]);
      CallsLook(p, s, labels[0]);
      NextReg(p, s, labels[0]);
      NextKeeps(p, s, labels[0]);
      RunLooks(p, s1, labels[1..]);
      LookAppend(p.cfg, s.reg, Calls(p, s, labels[0]), AllCalls(p, s1, labels[1..]));
    }
  }

  // ---------------------------------------------------------------- refused asks

  /** An ask that is not admitted leaves all but expired records as it was. */
  lemma RefusedAsk(p: Setup, s: State, ask: Label)
    requires p.strands > 0 && ask.Receive? && ask.message.Ask? && !Admissible(p.cfg, s.reg, KeyOf(ask), ask.now)
    ensures Next(p, s, ask) == s.(reg := s.reg.(terminal := Pruned(s.reg.terminal, ask.now)))
  {
  }

  /** In every run, from a state in which `key` has a terminal record, be it of a
      request that is over or of a cancel that came before its ask, and whatever the
      clocks do: the record stays if and only if no call crowds it out and none comes
      at or after its expiry; and while it stays every ask with that key before its
      expiry is refused and changes nothing. */
  lemma RecordedKeysBringNothing(p: Setup, before: seq<Label>, mid: seq<Label>, ask: Label)
    requires p.strands > 0 && ask.Receive? && ask.message.Ask?
    requires
      var s := Run(p, Start(), before);
      KeyOf(ask) in s.reg.terminal
    ensures
      var s := Run(p, Start(), before);
      var s1 := Run(p, s, mid);
      var calls, e := AllCalls(p, s, mid), s.reg.terminal[KeyOf(ask)];
      && (p.cfg.retention > 0 || AllBefore(calls, e) ==>
            (Lasts(p.cfg, s.reg, calls, KeyOf(ask), e) <==> !Crowded(p.cfg, s.reg, calls, KeyOf(ask)) && AllBefore(calls, e)))
      && (Lasts(p.cfg, s.reg, calls, KeyOf(ask), e) ==>
            && KeyOf(ask) in s1.reg.terminal && s1.reg.terminal[KeyOf(ask)] == e
            && (ask.now < e ==> Next(p, s1, ask) == s1.(reg := s1.reg.(terminal := Pruned(s1.reg.terminal, ask.now)))))
  {
    var s := Run(p, Start(), before);
    StartIsSound(p);
    RunKeeps(p, Start(), before);
    RegistryProjection(p, s, mid);
    RecordLasts(p.cfg, s.reg, AllCalls(p, s, mid), KeyOf(ask), s.reg.terminal[KeyOf(ask)], ask.now);
    RunLooks(p, s, mid);
    OutlivedIs(p.cfg, s.reg, AllCalls(p, s, mid), s.reg.terminal[KeyOf(ask)]);
    if Lasts(p.cfg, s.reg, AllCalls(p, s, mid), KeyOf(ask), s.reg.terminal[KeyOf(ask)]) && ask.now < s.reg.terminal[KeyOf(ask)] {
      RefusedAsk(p, Run(p, s, mid), ask);
    }
  }

  /** A cancel for a key that is neither active nor remembered leaves a record of it,
      for the full retention, unless there is no room for any. */
  lemma CancelRecords(p: Setup, s: State, cancel: Label, key: Key)
    requires p.strands > 0 && CancelsKey(cancel, key)
    requires key !in s.reg.active && key !in Pruned(s.reg.terminal, cancel.now)
    ensures
      var reg := Next(p, s, cancel).reg;
      && reg.active == s.reg.active
      && (if p.cfg.capacity > 0 then key in reg.terminal && reg.terminal[key] == cancel.now + p.cfg.retention
          else key !in reg.terminal)
  {
  }

  /** So does the completion of a request on its strand. */
  lemma CompletionRecords(p: Setup, s: State, n: nat, now: nat)
    requires p.strands > 0 && Inv(p, s) && p.cfg.capacity > 0
    requires IsHead(s.items, s.strandOf, n) && s.items[n].Work? && s.items[n].phase.Completing?
    ensures var reg, key := Next(p, s, StrandStep(n, now)).reg, s.items[n].req.key;
      key in reg.terminal && reg.terminal[key] == now + p.cfg.retention
  {
    assert s.items[n].room in s.rooms;
    assert Holds(s.reg, s.items[n].req.key, n);
  }

  /** And that of a request which is over when its message has been handled. */
  lemma ImmediateRecords(p: Setup, s: State, ask: Label)
    requires p.strands > 0 && ask.Receive? && ask.message.Ask?
    requires Admissible(p.cfg, s.reg, KeyOf(ask), ask.now) && EndsAtOnce(s, ask.message.request)
    ensures var reg := Next(p, s, ask).reg;
      && KeyOf(ask) !in reg.active
      && KeyOf(ask) in reg.terminal && reg.terminal[KeyOf(ask)] == ask.done + p.cfg.retention
  {
    var key, n := KeyOf(ask), TicketNumber(s, ask.message.request);
    AskReg(p, s, key, ask.message.request, ask.now, ask.done, ask.drawn);
    var admitted := AfterAdmit(p.cfg, s.reg, key, ask.now, n);
    RunOne(p.cfg, s.reg, AdmitOp(key, ask.now, n));
    RunOne(p.cfg, admitted, FinishOp(key, ask.done, n));
    RunOpsAppend(p.cfg, s.reg, [AdmitOp(key, ask.now, n)], [FinishOp(key, ask.done, n)]);
  }
}
