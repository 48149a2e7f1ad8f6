/** A cancel that overtakes its ask: the Room server has never heard of the request, so
    it remembers the cancel, and refuses the ask for as long as it does. */
module EndToEndCancels {
  import opened Basics
  import opened QueuedRequests
  import opened Rooms
  import opened EndToEnd
  import U = UserServer
  import R = RoomServer
  import RT = RoomTheorems
  import RH = RoomHistory
  import RR = RoomRecords

  // ---------------------------------------------------------------- which keys a step calls about

  ghost predicate AllAbout(ops: seq<Op<nat>>, keys: set<Key>)
  {
    forall i :: 0 <= i < |ops| ==> ops[i].id in keys
  }

  /** The keys that a step of the Room server may call about: that of the message it
      receives, or those of the requests it holds. */
  function Keys(s: R.State, l: R.Label): set<Key>
  {
    if l.Receive? then {RH.KeyOf(l)}
    else set n | n in s.items && RT.IsRequest(s.items[n]) :: RT.ReqOf(s.items[n]).key
  }

  lemma CallsAbout(p: R.Setup, s: R.State, l: R.Label)
    ensures AllAbout(RR.Calls(p, s, l), Keys(s, l))
  {
  }

  /** Nothing but `ops` has put keys into the registry. */
  lemma {:induction false} OpsAdd(cfg: Config, r: Registry<nat>, ops: seq<Op<nat>>, keys: set<Key>)
    requires AllAbout(ops, keys)
    ensures var r' := RunOps(cfg, r, ops);
      r'.active.Keys <= r.active.Keys + keys && r'.terminal.Keys <= r.terminal.Keys + keys
    decreases |ops|
  {
    if ops != [] {
      OpAdds(cfg, r, ops[0]);
      assert AllAbout(ops[1..], keys) by {
        forall i | 0 <= i < |ops[1..]| ensures ops[1..][i].id in keys {
          assert ops[1..][i] == ops[i + 1];
        }
      }
      assert ops[0].id in keys;
      OpsAdd(cfg, Apply(cfg, r, ops[0]), ops[1..], keys);
    }
  }

  lemma OpAdds(cfg: Config, r: Registry<nat>, op: Op<nat>)
    ensures var r' := Apply(cfg, r, op);
      r'.active.Keys <= r.active.Keys + {op.id} && r'.terminal.Keys <= r.terminal.Keys + {op.id}
  {
    if !op.AdmitOp? {
      RememberAdds(cfg, Pruned(r.terminal, op.now), op.id, op.now);
    }
  }

  lemma RememberAdds(cfg: Config, t: map<Key, nat>, id: Key, now: nat)
    ensures Remembered(cfg, t, id, now).Keys <= t.Keys + {id}
  {
  }

  /** Every key of this route in the registry came with an ask or a cancel. */
  ghost predicate Known(reg: Registry<nat>, route: Route, seen: set<nat>)
  {
    forall k :: k in reg.active.Keys + reg.terminal.Keys && k.route == route ==> k.id in seen
  }

  /** Keys of requests held, of other routes, or of what has arrived. */
  lemma StepKeys(p: R.Setup, route: Route, s: State, l: Label)
    requires p.strands > 0 && Links(route, s.u, s.r.items, s.asked) && RoomPart(s, route, l).Some?
    ensures
      var s' := Next(p, route, s, l);
      forall k :: k in Keys(s.r, RoomPart(s, route, l).value) && k.route == route ==> k.id in s'.asked + s'.cancelled
  {
    var s' := Next(p, route, s, l);
    forall k | k in Keys(s.r, RoomPart(s, route, l).value) && k.route == route ensures k.id in s'.asked + s'.cancelled {
      if !RoomPart(s, route, l).value.Receive? {
        var n :| n in s.r.items && RT.IsRequest(s.r.items[n]) && RT.ReqOf(s.r.items[n]).key == k;
        assert From(s.r.items[n], route);
        assert Sent(RT.ReqOf(s.r.items[n]), s.u.jobs, s.u.byId, s.asked);
      }
    }
  }

  lemma SeenGrows(p: R.Setup, route: Route, s: State, l: Label)
    requires p.strands > 0
    ensures s.asked <= Next(p, route, s, l).asked && s.cancelled <= Next(p, route, s, l).cancelled
  {
  }

  lemma NextKnown(p: R.Setup, route: Route, s: State, l: Label)
    requires p.strands > 0 && Links(route, s.u, s.r.items, s.asked) && Known(s.r.reg, route, s.asked + s.cancelled)
    ensures var s' := Next(p, route, s, l); Known(s'.r.reg, route, s'.asked + s'.cancelled)
  {
    OneStepEach(p, route, s, l);
    SeenGrows(p, route, s, l);
    var part := RoomPart(s, route, l);
    if part.Some? {
      StepKeys(p, route, s, l);
      CallsAbout(p, s.r, part.value);
      RR.NextReg(p, s.r, part.value);
      OpsAdd(p.cfg, s.r.reg, RR.Calls(p, s.r, part.value), Keys(s.r, part.value));
    }
  }

  lemma {:induction false} RunKnown(p: R.Setup, route: Route, s: State, labels: seq<Label>)
    requires p.strands > 0 && Inv(p, route, s) && Known(s.r.reg, route, s.asked + s.cancelled)
    ensures var s' := Run(p, route, s, labels); Known(s'.r.reg, route, s'.asked + s'.cancelled)
    decreases |labels|
  {
    if labels != [] {
      NextKnown(p, route, s, labels[0]);
      NextKeeps(p, route, s, labels[0]);
      RunKnown(p, route, Next(p, route, s, labels[0]), labels[1..]);
    }
  }

  // ---------------------------------------------------------------- until the ask arrives

  lemma {:induction false} RunSeen(p: R.Setup, route: Route, s: State, labels: seq<Label>)
    requires p.strands > 0
    ensures s.asked <= Run(p, route, s, labels).asked
    decreases |labels|
  {
    if labels != [] {
      SeenGrows(p, route, s, labels[0]);
      RunSeen(p, route, Next(p, route, s, labels[0]), labels[1..]);
    }
  }

  ghost predicate NoneAbout(ops: seq<Op<nat>>, key: Key)
  {
    forall i :: 0 <= i < |ops| ==> ops[i].id != key
  }

  /** A step that is not the arrival of the ask or the cancel does not call about them. */
  lemma StepNotAbout(p: R.Setup, route: Route, s: State, l: Label, id: nat)
    requires p.strands > 0 && Links(route, s.u, s.r.items, s.asked) && RoomPart(s, route, l).Some?
    requires id in s.cancelled && id !in Next(p, route, s, l).asked
    ensures NoneAbout(RR.Calls(p, s.r, RoomPart(s, route, l).value), Key(route, id))
  {
    CallsAbout(p, s.r, RoomPart(s, route, l).value);
    SeenGrows(p, route, s, l);
    NotAsked(route, s, id);
  }

  lemma CallsOne(p: R.Setup, r: R.State, l: Option<R.Label>, rest: seq<R.Label>)
    requires p.strands > 0
    ensures RR.AllCalls(p, r, Cons(l, rest)) ==
            if l.Some? then RR.Calls(p, r, l.value) + RR.AllCalls(p, R.Next(p, r, l.value), rest) else RR.AllCalls(p, r, rest)
  {
    if l.Some? {
      assert ([l.value] + rest)[1..] == rest;
    }
  }

  lemma {:induction false} RunNotAbout(p: R.Setup, route: Route, s: State, labels: seq<Label>, id: nat)
    requires p.strands > 0 && Inv(p, route, s) && id in s.cancelled && id !in Run(p, route, s, labels).asked
    ensures NoneAbout(RR.AllCalls(p, s.r, OwnRoom(p, route, s, labels)), Key(route, id))
    decreases |labels|
  {
    if labels != [] {
      var s1 := Next(p, route, s, labels[0]);
      var part := RoomPart(s, route, labels[0]);
      OneStepEach(p, route, s, labels[0]);
      SeenGrows(p, route, s, labels[0]);
      RunSeen(p, route, s1, labels[1..]);
      NextKeeps(p, route, s, labels[0]);
      RunNotAbout(p, route, s1, labels[1..], id);
      CallsOne(p, s.r, part, OwnRoom(p, route, s1, labels[1..]));
      if part.Some? {
        StepNotAbout(p, route, s, labels[0], id);
      }
    }
  }

  lemma NoneAboutRest(ops: seq<Op<nat>>, key: Key)
    requires NoneAbout(ops, key) && ops != []
    ensures ops[0].id != key && NoneAbout(ops[1..], key)
  {
    forall i | 0 <= i < |ops[1..]| ensures ops[1..][i].id != key {
      assert ops[1..][i] == ops[i + 1];
    }
  }

  /** Calls about other keys bring this one neither back nor in. */
  lemma {:induction false} StaysAway(cfg: Config, r: Registry<nat>, ops: seq<Op<nat>>, key: Key)
    requires NoneAbout(ops, key)
    ensures key !in r.active ==> key !in RunOps(cfg, r, ops).active
    ensures key !in r.terminal ==> key !in RunOps(cfg, r, ops).terminal
    decreases |ops|
  {
    if ops != [] {
      NoneAboutRest(ops, key);
      OpAdds(cfg, r, ops[0]);
      StaysAway(cfg, Apply(cfg, r, ops[0]), ops[1..], key);
    }
  }

  /** Calls about other keys leave a record as it is, unless one of them crowds it out
      or finds it expired; then it is gone. */
  lemma {:induction false} RecordStays(cfg: Config, r: Registry<nat>, ops: seq<Op<nat>>, key: Key, e: nat)
    requires Valid(cfg, r) && key in r.terminal && r.terminal[key] == e && NoneAbout(ops, key)
    ensures var r' := RunOps(cfg, r, ops);
      && (key in r'.terminal <==> !Crowded(cfg, r, ops, key) && !Outlived(cfg, r, ops, e))
      && (key in r'.terminal ==> r'.terminal[key] == e)
    decreases |ops|
  {
    if ops != [] {
      var r1 := Apply(cfg, r, ops[0]);
      NoneAboutRest(ops, key);
      ApplyRecord(cfg, r, ops[0], key, e);
      if key in r1.terminal {
        RecordStays(cfg, r1, ops[1..], key, e);
      } else {
        StaysAway(cfg, r1, ops[1..], key);
      }
    }
  }

  // ---------------------------------------------------------------- whether the ask brings a request

  /** The Room server holds no request of this route with this id. */
  ghost predicate Unheard(s: State, route: Route, id: nat)
  {
    forall n :: n in s.r.items && RT.IsRequest(s.r.items[n]) ==> RT.ReqOf(s.r.items[n]).key != Key(route, id)
  }

  lemma NotAsked(route: Route, s: State, id: nat)
    requires Links(route, s.u, s.r.items, s.asked) && id !in s.asked
    ensures Unheard(s, route, id)
  {
    forall n | n in s.r.items && RT.IsRequest(s.r.items[n]) ensures RT.ReqOf(s.r.items[n]).key != Key(route, id) {
      assert From(s.r.items[n], route) ==> Sent(RT.ReqOf(s.r.items[n]), s.u.jobs, s.u.byId, s.asked);
    }
  }

  /** Once its ask has arrived or is lost, no later step brings a request. */
  lemma StepUnheard(p: R.Setup, route: Route, s: State, l: Label, id: nat)
    requires p.strands > 0 && Inv(p, route, s) && id in s.asked && Unheard(s, route, id)
    ensures Unheard(Next(p, route, s, l), route, id)
  {
    OneStepEach(p, route, s, l);
    if RoomPart(s, route, l).Some? {
      var rl := RoomPart(s, route, l).value;
      BooksGrow(p, s.r, rl, route);
      GrowsUnheard(s.r.items, R.Next(p, s.r, rl).items, route, RH.TicketOf(s.r, rl), MessageOf(rl, route), id);
    }
  }

  lemma GrowsUnheard(items: R.Items, items': R.Items, route: Route, at: nat, msg: Option<R.Message>, id: nat)
    requires Grows(items, items', route, at, msg) && !(msg.Some? && msg.value.Ask? && msg.value.id == id)
    requires forall n :: n in items && RT.IsRequest(items[n]) ==> RT.ReqOf(items[n]).key != Key(route, id)
    ensures forall n :: n in items' && RT.IsRequest(items'[n]) ==> RT.ReqOf(items'[n]).key != Key(route, id)
  {
  }

  lemma {:induction false} RunUnheard(p: R.Setup, route: Route, s: State, labels: seq<Label>, id: nat)
    requires p.strands > 0 && Inv(p, route, s) && id in s.asked && Unheard(s, route, id)
    ensures Unheard(Run(p, route, s, labels), route, id)
    decreases |labels|
  {
    if labels != [] {
      StepUnheard(p, route, s, labels[0], id);
      SeenGrows(p, route, s, labels[0]);
      NextKeeps(p, route, s, labels[0]);
      RunUnheard(p, route, Next(p, route, s, labels[0]), labels[1..], id);
    }
  }

  predicate Brought(items: R.Items, n: nat, key: Key)
  {
    n in items && RT.IsRequest(items[n]) && RT.ReqOf(items[n]).key == key
  }

  lemma CreateBrings(p: R.Setup, s: R.State, key: Key, request: R.Request, drawn: RoomId, reg': Registry<nat>)
    requires p.strands > 0
    ensures Brought(R.CreateThrows(s, key, request, reg').items, s.next, key)
    ensures Brought(R.Create(p, s, key, request.uid, drawn, reg').items, s.next + 1, key)
  {
  }

  lemma MissingBrings(s: R.State, key: Key, request: R.Request, reg': Registry<nat>)
    ensures Brought(R.AnswerMissing(s, key, request, reg').items, s.next, key)
  {
  }

  lemma WorkBrings(s: R.State, key: Key, request: R.Request, room: R.Ref, reg': Registry<nat>)
    ensures Brought(R.PostWork(s, key, request, room, reg').items, s.next, key)
  {
  }

  lemma HandleBrings(p: R.Setup, s: R.State, key: Key, request: R.Request, drawn: RoomId,
                     admitted: Registry<nat>, finished: Registry<nat>)
    requires p.strands > 0
    ensures Brought(R.Handle(p, s, key, request, drawn, admitted, finished).items, R.TicketNumber(s, request), key)
  {
    if request.CreateRoom? {
      CreateBrings(p, s, key, request, drawn, finished);
    } else {
      match R.Target(s.mgr, request) {
        case None => MissingBrings(s, key, request, finished);
        case Some(room) => WorkBrings(s, key, request, room, admitted);
      }
    }
  }

  lemma AskBrings(p: R.Setup, s: R.State, ask: R.Label)
    requires p.strands > 0 && ask.Receive? && ask.message.Ask? && Admissible(p.cfg, s.reg, RH.KeyOf(ask), ask.now)
    ensures Brought(R.Next(p, s, ask).items, R.TicketNumber(s, ask.message.request), RH.KeyOf(ask))
  {
    var key, request := RH.KeyOf(ask), ask.message.request;
    var admitted := AfterAdmit(p.cfg, s.reg, key, ask.now, R.TicketNumber(s, request));
    HandleBrings(p, s, key, request, ask.drawn, admitted,
                 AfterFinish(p.cfg, admitted, key, R.TicketNumber(s, request), ask.done));
  }

  lemma AskArrives(p: R.Setup, route: Route, s: State, id: nat, at: nat, done: nat, drawn: RoomId)
    requires p.strands > 0 && Inv(p, route, s) && AskSent(s, id)
    ensures
      var s' := Next(p, route, s, ArriveAsk(id, at, done, drawn));
      id in s'.asked && (Unheard(s', route, id) <==> !Admissible(p.cfg, s.r.reg, Key(route, id), at))
  {
    var ask := R.Receive(route, R.Ask(id, U.CallOf(s.u, id).request), at, done, drawn);
    NotAsked(route, s, id);
    if Admissible(p.cfg, s.r.reg, Key(route, id), at) {
      AskBrings(p, s.r, ask);
    } else {
      RR.RefusedAsk(p, s.r, ask);
    }
  }

  // ---------------------------------------------------------------- theorem

  /** The cancel with this id arrives, and its ask has not. */
  predicate Overtakes(s: State, id: nat)
  {
    CancelSent(s, id) && id !in s.asked
  }

  /** Not active, and remembered until `e` if anything is. */
  predicate OnRecord(cfg: Config, r: Registry<nat>, key: Key, e: nat)
  {
    && key !in r.active
    && if cfg.capacity > 0 then key in r.terminal && r.terminal[key] == e else key !in r.terminal
  }

  /** What the Room server keeps of a cancel it knows nothing of. */
  lemma OvertakingRecords(p: R.Setup, route: Route, s: State, id: nat, now: nat)
    requires p.strands > 0 && Known(s.r.reg, route, s.asked + s.cancelled) && Overtakes(s, id)
    ensures
      var s1 := Next(p, route, s, ArriveCancel(id, now));
      id in s1.cancelled && OnRecord(p.cfg, s1.r.reg, Key(route, id), now + p.cfg.retention)
  {
    RR.CancelRecords(p, s.r, R.Receive(route, R.CancelAsk(id), now, 0, 0), Key(route, id));
  }

  /** The record with expiry `e` no longer counts at time `at`, after these calls: one of
      them crowded it out, or one of them or `at` is at or after its expiry. */
  ghost predicate Forgotten(cfg: Config, r: Registry<nat>, calls: seq<Op<nat>>, key: Key, e: nat, at: nat)
  {
    Crowded(cfg, r, calls, key) || !AllBefore(calls, e) || at >= e
  }

  /** Whether the ask, when it comes, is admitted. */
  lemma OvertakenAsk(p: R.Setup, route: Route, s: State, mid: seq<Label>, id: nat, e: nat, at: nat)
    requires p.strands > 0 && Inv(p, route, s) && id in s.cancelled && id !in Run(p, route, s, mid).asked
    requires OnRecord(p.cfg, s.r.reg, Key(route, id), e)
    ensures
      var calls := RR.AllCalls(p, s.r, OwnRoom(p, route, s, mid));
      var reg := Run(p, route, s, mid).r.reg;
      Admissible(p.cfg, reg, Key(route, id), at) <==>
        Forgotten(p.cfg, s.r.reg, calls, Key(route, id), e, at) && |reg.active| < p.cfg.capacity
  {
    var own, key := OwnRoom(p, route, s, mid), Key(route, id);
    var calls := RR.AllCalls(p, s.r, own);
    RoomProjection(p, route, s, mid);
    RR.RegistryProjection(p, s.r, own);
    RunNotAbout(p, route, s, mid, id);
    StaysAway(p.cfg, s.r.reg, calls, key);
    if p.cfg.capacity > 0 {
      RR.RunLooks(p, s.r, own);
      OutlivedIs(p.cfg, s.r.reg, calls, e);
      RecordStays(p.cfg, s.r.reg, calls, key, e);
    }
  }

  /** A cancel that reaches the Room server before its ask. Whatever the clocks do, the
      ask brings a request if and only if the record of the cancel was crowded out in
      between, or a call in between or the ask itself is at or after its expiry, and
      there is room among the active requests. If it brings none, there is never one:
      nothing is executed, and whatever its client is told is a timeout's failure. */
  lemma CancelOvertakesAsk(p: R.Setup, route: Route, before: seq<Label>, id: nat, now: nat, mid: seq<Label>,
                           at: nat, done: nat, drawn: RoomId, after: seq<Label>, j: nat)
    requires p.strands > 0 && Overtakes(Run(p, route, Start(), before), id)
    requires
      var s1 := Next(p, route, Run(p, route, Start(), before), ArriveCancel(id, now));
      AskSent(Run(p, route, s1, mid), id)
    ensures
      var s1 := Next(p, route, Run(p, route, Start(), before), ArriveCancel(id, now));
      var s2 := Run(p, route, s1, mid);
      var s3 := Next(p, route, s2, ArriveAsk(id, at, done, drawn));
      var s := Run(p, route, s3, after);
      var calls := RR.AllCalls(p, s1.r, OwnRoom(p, route, s1, mid));
      var forgotten := Forgotten(p.cfg, s1.r.reg, calls, Key(route, id), now + p.cfg.retention, at);
      && (Unheard(s3, route, id) <==> !(forgotten && |s2.r.reg.active| < p.cfg.capacity))
      && (Unheard(s3, route, id) ==> Unheard(s, route, id) && OnlyTimeout(s, id, j))
  {
    var s1 := CancelReached(p, route, before, id, now);
    OvertakesFrom(p, route, s1, id, now + p.cfg.retention, mid, at, done, drawn, after, j);
  }

  lemma CancelReached(p: R.Setup, route: Route, before: seq<Label>, id: nat, now: nat) returns (s1: State)
    requires p.strands > 0 && Overtakes(Run(p, route, Start(), before), id)
    ensures s1 == Next(p, route, Run(p, route, Start(), before), ArriveCancel(id, now))
    ensures Inv(p, route, s1) && id in s1.cancelled && OnRecord(p.cfg, s1.r.reg, Key(route, id), now + p.cfg.retention)
  {
    RunAndNext(p, route, before, ArriveCancel(id, now));
    OvertakingRecords(p, route, Run(p, route, Start(), before), id, now);
    s1 := Next(p, route, Run(p, route, Start(), before), ArriveCancel(id, now));
  }

  lemma RunAndNext(p: R.Setup, route: Route, before: seq<Label>, l: Label)
    requires p.strands > 0
    ensures
      var s0 := Run(p, route, Start(), before);
      Known(s0.r.reg, route, s0.asked + s0.cancelled) && Inv(p, route, Next(p, route, s0, l))
  {
    StartIsSound(p, route);
    RunKnown(p, route, Start(), before);
    RunKeeps(p, route, Start(), before);
    NextKeeps(p, route, Run(p, route, Start(), before), l);
  }

  lemma OvertakesFrom(p: R.Setup, route: Route, s1: State, id: nat, e: nat, mid: seq<Label>,
                      at: nat, done: nat, drawn: RoomId, after: seq<Label>, j: nat)
    requires p.strands > 0 && Inv(p, route, s1) && id in s1.cancelled && OnRecord(p.cfg, s1.r.reg, Key(route, id), e)
    requires AskSent(Run(p, route, s1, mid), id)
    ensures
      var s2 := Run(p, route, s1, mid);
      var s3 := Next(p, route, s2, ArriveAsk(id, at, done, drawn));
      var s := Run(p, route, s3, after);
      var calls := RR.AllCalls(p, s1.r, OwnRoom(p, route, s1, mid));
      var forgotten := Forgotten(p.cfg, s1.r.reg, calls, Key(route, id), e, at);
      && (Unheard(s3, route, id) <==> !(forgotten && |s2.r.reg.active| < p.cfg.capacity))
      && (Unheard(s3, route, id) ==> Unheard(s, route, id) && OnlyTimeout(s, id, j))
  {
    AskDecided(p, route, s1, mid, id, e, at, done, drawn);
    if Unheard(Next(p, route, Run(p, route, s1, mid), ArriveAsk(id, at, done, drawn)), route, id) {
      UnheardFrom(p, route, s1, mid, id, at, done, drawn, after, j);
    }
  }

  /** The ask brings a request exactly if the record is forgotten and there is room. */
  ghost predicate Decided(p: R.Setup, route: Route, s: State, mid: seq<Label>, id: nat, e: nat, at: nat, done: nat, drawn: RoomId)
    requires p.strands > 0
  {
    var s2 := Run(p, route, s, mid);
    var forgotten := Forgotten(p.cfg, s.r.reg, RR.AllCalls(p, s.r, OwnRoom(p, route, s, mid)), Key(route, id), e, at);
    Unheard(Next(p, route, s2, ArriveAsk(id, at, done, drawn)), route, id) <==>
      !(forgotten && |s2.r.reg.active| < p.cfg.capacity)
  }

  lemma AskDecided(p: R.Setup, route: Route, s: State, mid: seq<Label>, id: nat, e: nat, at: nat, done: nat, drawn: RoomId)
    requires p.strands > 0 && Inv(p, route, s)
    requires id in s.cancelled && AskSent(Run(p, route, s, mid), id) && OnRecord(p.cfg, s.r.reg, Key(route, id), e)
    ensures Decided(p, route, s, mid, id, e, at, done, drawn)
  {
    OvertakenAsk(p, route, s, mid, id, e, at);
    RunKeeps(p, route, s, mid);
    AskArrives(p, route, Run(p, route, s, mid), id, at, done, drawn);
  }

  lemma UnheardFrom(p: R.Setup, route: Route, s: State, mid: seq<Label>, id: nat, at: nat, done: nat, drawn: RoomId,
                    after: seq<Label>, j: nat)
    requires p.strands > 0 && Inv(p, route, s) && AskSent(Run(p, route, s, mid), id)
    requires Unheard(Next(p, route, Run(p, route, s, mid), ArriveAsk(id, at, done, drawn)), route, id)
    ensures
      var s' := Run(p, route, Next(p, route, Run(p, route, s, mid), ArriveAsk(id, at, done, drawn)), after);
      Unheard(s', route, id) && OnlyTimeout(s', id, j)
  {
    var s2 := Run(p, route, s, mid);
    RunKeeps(p, route, s, mid);
    NextKeeps(p, route, s2, ArriveAsk(id, at, done, drawn));
    UnheardForGood(p, route, Next(p, route, s2, ArriveAsk(id, at, done, drawn)), after, id, j);
  }

  lemma UnheardForGood(p: R.Setup, route: Route, s: State, after: seq<Label>, id: nat, j: nat)
    requires p.strands > 0 && Inv(p, route, s) && id in s.asked && Unheard(s, route, id)
    ensures Unheard(Run(p, route, s, after), route, id) && OnlyTimeout(Run(p, route, s, after), id, j)
  {
    RunUnheard(p, route, s, after, id);
    RunKeeps(p, route, s, after);
    UnheardReply(p, route, Run(p, route, s, after), id, j);
  }

  /** If job `j` issued request `id` and its client was told anything, it was told a
      timeout's failure. */
  predicate OnlyTimeout(s: State, id: nat, j: nat)
  {
    j in s.u.jobs && s.u.jobs[j].call.Some? && s.u.jobs[j].call.value.id == id && s.u.jobs[j].reply.Some? ==>
      s.u.jobs[j].reply.value.tag.None? && !s.u.jobs[j].reply.value.success
  }

  lemma UnheardReply(p: R.Setup, route: Route, s: State, id: nat, j: nat)
    requires Inv(p, route, s) && Unheard(s, route, id)
    ensures OnlyTimeout(s, id, j)
  {
    if j in s.u.jobs && s.u.jobs[j].reply.Some? {
      TruthOf(p, route, s, j);
    }
  }
}
