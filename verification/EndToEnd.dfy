/** A User server and the Room server joined by a network that may delay, reorder and
    lose messages but does not duplicate them. `route` is this User server's routing
    identity; other routes may send the Room server anything. */
module EndToEnd {
  import opened Basics
  import opened QueuedRequests
  import opened Rooms
  import U = UserServer
  import UI = UserInvariants
  import US = UserSteps
  import UC = UserCalls
  import UM = UserRecords
  import UP = UserProgress
  import R = RoomServer
  import RI = RoomInvariants
  import RC = RoomChannel
  import RT = RoomTheorems
  import RH = RoomHistory
  import RA = RoomAnswers

  /** Request and cancel messages are known by their id, answers by the Room's number
      for the request; the sets hold those that have arrived or are lost. */
  datatype State = State(u: U.State, r: R.State, asked: set<nat>, cancelled: set<nat>, answered: set<nat>)

  datatype Label =
    | User(user: U.Label)
    | Room(room: R.Label)
    | ArriveAsk(id: nat, now: nat, done: nat, drawn: RoomId)
    | ArriveCancel(id: nat, now: nat)
    | ArriveAnswer(n: nat, now: nat)
    | LoseAsk(id: nat)
    | LoseCancel(id: nat)
    | LoseAnswer(n: nat)

  function Start(): State { State(U.Start(), R.Start(), {}, {}, {}) }

  /** A request message with this id is in the network. */
  predicate AskSent(s: State, id: nat)
  {
    U.Issued(s.u, id) && U.CallOf(s.u, id).sends > 0 && id !in s.asked
  }

  predicate CancelSent(s: State, id: nat)
  {
    U.Issued(s.u, id) && U.CallOf(s.u, id).cancels > 0 && id !in s.cancelled
  }

  /** Item `t` is a request from `route`. */
  predicate From(t: R.Item, route: Route)
  {
    RT.IsRequest(t) && RT.ReqOf(t).key.route == route
  }

  predicate AnswerSent(s: State, route: Route, n: nat)
  {
    n in s.r.items && From(s.r.items[n], route) && RT.ReqOf(s.r.items[n]).answer.Some? && n !in s.answered
  }

  function AnswerTo(req: R.Req, n: nat): U.Resp
    requires req.answer.Some?
  {
    U.Resp(req.request, req.answer.value, n)
  }

  ghost function Next(p: R.Setup, route: Route, s: State, l: Label): State
    requires p.strands > 0
  {
    match l
    case User(ul) => if ul.Respond? then s else s.(u := U.Next(s.u, ul))
    case Room(rl) => if rl.Receive? && rl.route == route then s else s.(r := R.Next(p, s.r, rl))
    case ArriveAsk(id, now, done, drawn) =>
      if !AskSent(s, id) then s
      else s.(r := R.Next(p, s.r, R.Receive(route, R.Ask(id, U.CallOf(s.u, id).request), now, done, drawn)),
              asked := s.asked + {id})
    case ArriveCancel(id, now) =>
      if !CancelSent(s, id) then s
      else s.(r := R.Next(p, s.r, R.Receive(route, R.CancelAsk(id), now, 0, 0)), cancelled := s.cancelled + {id})
    case ArriveAnswer(n, now) =>
      if !AnswerSent(s, route, n) then s
      else
        var req := RT.ReqOf(s.r.items[n]);
        s.(u := U.Next(s.u, U.Respond(req.key.id, AnswerTo(req, n), now)), answered := s.answered + {n})
    case LoseAsk(id) => if AskSent(s, id) then s.(asked := s.asked + {id}) else s
    case LoseCancel(id) => if CancelSent(s, id) then s.(cancelled := s.cancelled + {id}) else s
    case LoseAnswer(n) => if AnswerSent(s, route, n) then s.(answered := s.answered + {n}) else s
  }

  ghost function Run(p: R.Setup, route: Route, s: State, labels: seq<Label>): State
    requires p.strands > 0
    decreases |labels|
  {
    if labels == [] then s else Run(p, route, Next(p, route, s, labels[0]), labels[1..])
  }

  // ---------------------------------------------------------------- links

  /** A request the Room server holds was sent by the job that issued its id. */
  predicate Sent(req: R.Req, jobs: U.Jobs, byId: map<nat, nat>, asked: set<nat>)
  {
    && req.key.id in asked && req.key.id in byId && byId[req.key.id] in jobs
    && jobs[byId[req.key.id]].call.Some? && jobs[byId[req.key.id]].call.value.request == req.request
  }

  ghost predicate Traced(items: R.Items, route: Route, jobs: U.Jobs, byId: map<nat, nat>, asked: set<nat>)
  {
    forall n :: n in items && From(items[n], route) ==> Sent(RT.ReqOf(items[n]), jobs, byId, asked)
  }

  predicate Twins(a: R.Item, b: R.Item, route: Route)
  {
    From(a, route) && From(b, route) && RT.ReqOf(a).key == RT.ReqOf(b).key
  }

  /** The Room server holds at most one request per id of this route. */
  ghost predicate Single(items: R.Items, route: Route)
  {
    forall n, m :: n in items && m in items && Twins(items[n], items[m], route) ==> n == m
  }

  /** A response taken by the User server is the Room server's answer to that call. */
  predicate AnswerOf(c: U.Call, resp: U.Resp, items: R.Items, route: Route)
  {
    && resp.tag in items && RT.IsRequest(items[resp.tag])
    && var req := RT.ReqOf(items[resp.tag]);
       req.key == Key(route, c.id) && req.request == c.request == resp.of && req.answer == Some(resp.answer)
  }

  predicate BackedJob(job: U.Job, items: R.Items, route: Route)
  {
    UC.Got(job).Some? ==> job.call.Some? && AnswerOf(job.call.value, UC.Got(job).value, items, route)
  }

  ghost predicate Backed(jobs: U.Jobs, items: R.Items, route: Route)
  {
    forall j :: j in jobs ==> BackedJob(jobs[j], items, route)
  }

  ghost predicate Links(route: Route, u: U.State, items: R.Items, asked: set<nat>)
  {
    && Traced(items, route, u.jobs, u.byId, asked)
    && Single(items, route)
    && Backed(u.jobs, items, route)
    && !u.fault
  }

  ghost predicate Inv(p: R.Setup, route: Route, s: State)
  {
    UI.Inv(s.u) && RI.Inv(p, s.r) && Links(route, s.u, s.r.items, s.asked)
  }

  // ---------------------------------------------------------------- User steps

  lemma BackedFit(route: Route, jobs: U.Jobs, items: R.Items)
    requires Backed(jobs, items, route) && UI.JobsOk(jobs)
    ensures UC.AllFit(jobs)
  {
    forall j | j in jobs && jobs[j].kind.RoomJob? && UC.Got(jobs[j]).Some?
      ensures U.Fits(jobs[j].kind.ask, UC.Got(jobs[j]).value.of)
    {
      assert BackedJob(jobs[j], items, route) && UI.JobOk(jobs[j]);
    }
  }

  lemma UserLinks(route: Route, u: U.State, u': U.State, items: R.Items, asked: set<nat>)
    requires Links(route, u, items, asked) && UI.JobsOk(u.jobs) && UC.AllContinue(u, u')
    ensures Links(route, u', items, asked)
  {
    BackedFit(route, u.jobs, items);
    forall n | n in items && From(items[n], route) ensures Sent(RT.ReqOf(items[n]), u'.jobs, u'.byId, asked) {
      var id := RT.ReqOf(items[n]).key.id;
      assert Sent(RT.ReqOf(items[n]), u.jobs, u.byId, asked);
      assert UC.Continues(u.jobs[u.byId[id]], u'.jobs[u.byId[id]]);
    }
    forall j | j in u'.jobs ensures BackedJob(u'.jobs[j], items, route) {
      if j in u.jobs {
        assert UC.Continues(u.jobs[j], u'.jobs[j]) && BackedJob(u.jobs[j], items, route);
      }
    }
  }

  /** An answer that arrives in time belongs to the call it is taken for. */
  lemma AnswerLinks(route: Route, u: U.State, items: R.Items, asked: set<nat>, n: nat, now: nat)
    requires Links(route, u, items, asked) && UI.Index(u.byId, u.jobs, u.nextId)
    requires n in items && From(items[n], route) && RT.ReqOf(items[n]).answer.Some?
    ensures Links(route, U.Next(u, U.Respond(RT.ReqOf(items[n]).key.id, AnswerTo(RT.ReqOf(items[n]), n), now)), items, asked)
  {
    var req := RT.ReqOf(items[n]);
    var u' := U.Next(u, U.Respond(req.key.id, AnswerTo(req, n), now));
    assert Sent(req, u.jobs, u.byId, asked);
    var j := u.byId[req.key.id];
    forall k | k in items && From(items[k], route) ensures Sent(RT.ReqOf(items[k]), u'.jobs, u'.byId, asked) {
      assert Sent(RT.ReqOf(items[k]), u.jobs, u.byId, asked);
    }
    assert BackedJob(u'.jobs[j], items, route) by {
      assert BackedJob(u.jobs[j], items, route);
    }
    forall i | i in u'.jobs && i != j ensures BackedJob(u'.jobs[i], items, route) {
      assert BackedJob(u.jobs[i], items, route);
    }
  }

  // ---------------------------------------------------------------- Room steps

  /** Requests of `route` stay and keep their answers; what is new is `msg`, under
      number `at`. */
  ghost predicate Grows(items: R.Items, items': R.Items, route: Route, at: nat, msg: Option<R.Message>)
  {
    && (forall n :: n in items && RT.IsRequest(items[n]) ==>
          && n in items' && RT.IsRequest(items'[n])
          && RT.ReqOf(items'[n]).key == RT.ReqOf(items[n]).key && RT.ReqOf(items'[n]).request == RT.ReqOf(items[n]).request
          && (RT.ReqOf(items[n]).answer.Some? ==> RT.ReqOf(items'[n]).answer == RT.ReqOf(items[n]).answer))
    && (forall n :: n in items' && From(items'[n], route) && !(n in items && RT.IsRequest(items[n])) ==>
          && n == at && msg.Some? && msg.value.Ask?
          && RT.ReqOf(items'[n]).key.id == msg.value.id && RT.ReqOf(items'[n]).request == msg.value.request)
  }

  lemma GrowsLinks(route: Route, u: U.State, items: R.Items, items': R.Items, asked: set<nat>, at: nat, msg: Option<R.Message>)
    requires Links(route, u, items, asked) && Grows(items, items', route, at, msg)
    requires msg.Some? && msg.value.Ask? ==>
               U.Issued(u, msg.value.id) && msg.value.id !in asked && U.CallOf(u, msg.value.id).request == msg.value.request
    ensures Links(route, u, items', if msg.Some? && msg.value.Ask? then asked + {msg.value.id} else asked)
  {
    var asked' := if msg.Some? && msg.value.Ask? then asked + {msg.value.id} else asked;
    forall n | n in items' && From(items'[n], route) ensures Sent(RT.ReqOf(items'[n]), u.jobs, u.byId, asked') {
      if n in items && RT.IsRequest(items[n]) {
        assert Sent(RT.ReqOf(items[n]), u.jobs, u.byId, asked);
      }
    }
    forall n, m | n in items' && m in items' && Twins(items'[n], items'[m], route) ensures n == m {
      GrowsSingle(route, u, items, items', asked, at, msg, n, m);
    }
    forall j | j in u.jobs ensures BackedJob(u.jobs[j], items', route) {
      assert BackedJob(u.jobs[j], items, route);
    }
  }

  lemma GrowsSingle(route: Route, u: U.State, items: R.Items, items': R.Items, asked: set<nat>, at: nat, msg: Option<R.Message>,
                    n: nat, m: nat)
    requires Traced(items, route, u.jobs, u.byId, asked) && Single(items, route) && Grows(items, items', route, at, msg)
    requires msg.Some? && msg.value.Ask? ==> msg.value.id !in asked
    requires n in items' && m in items' && Twins(items'[n], items'[m], route)
    ensures n == m
  {
    assert n in items && m in items && RT.IsRequest(items[n]) && RT.IsRequest(items[m]) ==> Twins(items[n], items[m], route);
    assert n in items && RT.IsRequest(items[n]) ==> Sent(RT.ReqOf(items[n]), u.jobs, u.byId, asked);
    assert m in items && RT.IsRequest(items[m]) ==> Sent(RT.ReqOf(items[m]), u.jobs, u.byId, asked);
  }

  function MessageOf(l: R.Label, route: Route): Option<R.Message>
  {
    if l.Receive? && l.route == route then Some(l.message) else None
  }

  lemma AnsweredIsOver(t: R.Item)
    requires RI.ItemOk(t) && RT.IsRequest(t) && RT.ReqOf(t).answer.Some?
    ensures RT.Over(t)
  {
  }

  lemma RoomGrows(p: R.Setup, s: R.State, l: R.Label, route: Route)
    requires p.strands > 0 && RI.AllOk(s.items) && forall n :: n in s.items ==> n < s.next
    ensures Grows(s.items, R.Next(p, s, l).items, route, RH.TicketOf(s, l), MessageOf(l, route))
  {
    var items' := R.Next(p, s, l).items;
    forall n | n in s.items && RT.IsRequest(s.items[n]) ensures
      && n in items' && RT.IsRequest(items'[n])
      && RT.ReqOf(items'[n]).key == RT.ReqOf(s.items[n]).key && RT.ReqOf(items'[n]).request == RT.ReqOf(s.items[n]).request
      && (RT.ReqOf(s.items[n]).answer.Some? ==> RT.ReqOf(items'[n]).answer == RT.ReqOf(s.items[n]).answer)
    {
      assert RI.ItemOk(s.items[n]);
      RT.RequestEvolves(p, s, l, n);
      if RT.ReqOf(s.items[n]).answer.Some? {
        AnsweredIsOver(s.items[n]);
      }
    }
    forall n | n in items' && From(items'[n], route) && !(n in s.items && RT.IsRequest(s.items[n])) ensures
      && n == RH.TicketOf(s, l) && MessageOf(l, route).Some? && MessageOf(l, route).value.Ask?
      && RT.ReqOf(items'[n]).key.id == MessageOf(l, route).value.id
      && RT.ReqOf(items'[n]).request == MessageOf(l, route).value.request
    {
      RH.RoomAppears(p, s, l, n);
    }
  }

  // ---------------------------------------------------------------- every step

  lemma UserKeeps(p: R.Setup, route: Route, s: State, l: U.Label)
    requires p.strands > 0 && Inv(p, route, s) && !l.Respond?
    ensures Inv(p, route, s.(u := U.Next(s.u, l)))
  {
    US.NextKeeps(s.u, l);
    UC.NextContinues(s.u, l);
    UserLinks(route, s.u, U.Next(s.u, l), s.r.items, s.asked);
  }

  lemma AnswerKeeps(p: R.Setup, route: Route, s: State, n: nat, now: nat, l: U.Label)
    requires Inv(p, route, s) && AnswerSent(s, route, n)
    requires l == U.Respond(RT.ReqOf(s.r.items[n]).key.id, AnswerTo(RT.ReqOf(s.r.items[n]), n), now)
    ensures Inv(p, route, s.(u := U.Next(s.u, l), answered := s.answered + {n}))
  {
    US.NextKeeps(s.u, l);
    AnswerLinks(route, s.u, s.r.items, s.asked, n, now);
  }

  lemma BooksGrow(p: R.Setup, s: R.State, l: R.Label, route: Route)
    requires p.strands > 0 && RI.Inv(p, s)
    ensures Grows(s.items, R.Next(p, s, l).items, route, RH.TicketOf(s, l), MessageOf(l, route))
  {
    RoomGrows(p, s, l, route);
  }

  /** What the Room server hears from `route` is something the User server sent. */
  predicate Genuine(s: State, msg: Option<R.Message>)
  {
    msg.Some? && msg.value.Ask? ==> AskSent(s, msg.value.id) && U.CallOf(s.u, msg.value.id).request == msg.value.request
  }

  function AskedAfter(asked: set<nat>, msg: Option<R.Message>): set<nat>
  {
    if msg.Some? && msg.value.Ask? then asked + {msg.value.id} else asked
  }

  lemma RoomKeeps(p: R.Setup, route: Route, s: State, l: R.Label, cancelled: set<nat>)
    requires p.strands > 0 && Inv(p, route, s) && Genuine(s, MessageOf(l, route))
    ensures Inv(p, route, s.(r := R.Next(p, s.r, l), asked := AskedAfter(s.asked, MessageOf(l, route)), cancelled := cancelled))
  {
    RC.NextKeeps(p, s.r, l);
    BooksGrow(p, s.r, l, route);
    GrowsLinks(route, s.u, s.r.items, R.Next(p, s.r, l).items, s.asked, RH.TicketOf(s.r, l), MessageOf(l, route));
  }

  lemma LoseKeeps(p: R.Setup, route: Route, s: State, asked: set<nat>, cancelled: set<nat>, answered: set<nat>)
    requires Inv(p, route, s) && s.asked <= asked
    ensures Inv(p, route, s.(asked := asked, cancelled := cancelled, answered := answered))
  {
  }

  /** A step as a step of the server it belongs to. */
  lemma UserIs(p: R.Setup, route: Route, s: State, l: U.Label)
    requires p.strands > 0
    ensures Next(p, route, s, User(l)) == if l.Respond? then s else s.(u := U.Next(s.u, l))
  {
  }

  lemma RoomIs(p: R.Setup, route: Route, s: State, l: R.Label)
    requires p.strands > 0 && MessageOf(l, route).None?
    ensures Next(p, route, s, Label.Room(l)) ==
      s.(r := R.Next(p, s.r, l), asked := AskedAfter(s.asked, MessageOf(l, route)), cancelled := s.cancelled)
  {
  }

  lemma ArriveAskIs(p: R.Setup, route: Route, s: State, id: nat, now: nat, done: nat, drawn: RoomId, l: R.Label)
    requires p.strands > 0 && AskSent(s, id) && l == R.Receive(route, R.Ask(id, U.CallOf(s.u, id).request), now, done, drawn)
    ensures Genuine(s, MessageOf(l, route))
    ensures Next(p, route, s, ArriveAsk(id, now, done, drawn)) ==
      s.(r := R.Next(p, s.r, l), asked := AskedAfter(s.asked, MessageOf(l, route)), cancelled := s.cancelled)
  {
  }

  lemma ArriveCancelIs(p: R.Setup, route: Route, s: State, id: nat, now: nat, l: R.Label)
    requires p.strands > 0 && CancelSent(s, id) && l == R.Receive(route, R.CancelAsk(id), now, 0, 0)
    ensures Genuine(s, MessageOf(l, route))
    ensures Next(p, route, s, ArriveCancel(id, now)) ==
      s.(r := R.Next(p, s.r, l), asked := AskedAfter(s.asked, MessageOf(l, route)), cancelled := s.cancelled + {id})
  {
  }

  lemma ArriveAnswerIs(p: R.Setup, route: Route, s: State, n: nat, now: nat, l: U.Label)
    requires p.strands > 0 && AnswerSent(s, route, n)
    requires l == U.Respond(RT.ReqOf(s.r.items[n]).key.id, AnswerTo(RT.ReqOf(s.r.items[n]), n), now)
    ensures Next(p, route, s, ArriveAnswer(n, now)) == s.(u := U.Next(s.u, l), answered := s.answered + {n})
  {
  }

  lemma LoseIs(p: R.Setup, route: Route, s: State, l: Label)
    requires p.strands > 0 && (l.LoseAsk? || l.LoseCancel? || l.LoseAnswer?)
    ensures
      var s' := Next(p, route, s, l);
      s.asked <= s'.asked && s' == s.(asked := s'.asked, cancelled := s'.cancelled, answered := s'.answered)
  {
  }

  /** A message that was not sent does not arrive, and a server does nothing of its own
      on a message from the other. */
  predicate Idle(route: Route, s: State, l: Label)
  {
    match l
    case User(ul) => ul.Respond?
    case Room(rl) => MessageOf(rl, route).Some?
    case ArriveAsk(id, _, _, _) => !AskSent(s, id)
    case ArriveCancel(id, _) => !CancelSent(s, id)
    case ArriveAnswer(n, _) => !AnswerSent(s, route, n)
    case _ => false
  }

  lemma IdleIs(p: R.Setup, route: Route, s: State, l: Label)
    requires p.strands > 0 && Idle(route, s, l)
    ensures Next(p, route, s, l) == s
  {
  }

  lemma NextKeeps(p: R.Setup, route: Route, s: State, l: Label)
    requires p.strands > 0 && Inv(p, route, s)
    ensures Inv(p, route, Next(p, route, s, l))
  {
    if Idle(route, s, l) {
      IdleIs(p, route, s, l);
    } else if l.User? {
      UserIs(p, route, s, l.user);
      UserKeeps(p, route, s, l.user);
    } else if l.Room? {
      RoomIs(p, route, s, l.room);
      RoomKeeps(p, route, s, l.room, s.cancelled);
    } else if l.ArriveAsk? {
      var rl := R.Receive(route, R.Ask(l.id, U.CallOf(s.u, l.id).request), l.now, l.done, l.drawn);
      ArriveAskIs(p, route, s, l.id, l.now, l.done, l.drawn, rl);
      RoomKeeps(p, route, s, rl, s.cancelled);
    } else if l.ArriveCancel? {
      var rl := R.Receive(route, R.CancelAsk(l.id), l.now, 0, 0);
      ArriveCancelIs(p, route, s, l.id, l.now, rl);
      RoomKeeps(p, route, s, rl, s.cancelled + {l.id});
    } else if l.ArriveAnswer? {
      var req := RT.ReqOf(s.r.items[l.n]);
      var ul := U.Respond(req.key.id, AnswerTo(req, l.n), l.now);
      ArriveAnswerIs(p, route, s, l.n, l.now, ul);
      AnswerKeeps(p, route, s, l.n, l.now, ul);
    } else {
      var s' := Next(p, route, s, l);
      LoseIs(p, route, s, l);
      LoseKeeps(p, route, s, s'.asked, s'.cancelled, s'.answered);
    }
  }

  lemma {:induction false} RunKeeps(p: R.Setup, route: Route, s: State, labels: seq<Label>)
    requires p.strands > 0 && Inv(p, route, s)
    ensures Inv(p, route, Run(p, route, s, labels))
    decreases |labels|
  {
    if labels != [] {
      NextKeeps(p, route, s, labels[0]);
      RunKeeps(p, route, Next(p, route, s, labels[0]), labels[1..]);
    }
  }

  lemma StartIsSound(p: R.Setup, route: Route)
    ensures Inv(p, route, Start())
  {
    US.StartIsSound();
    RC.StartIsSound(p);
  }

  // ---------------------------------------------------------------- theorems

  /** The one Room request behind a reply: it carries the job's id and content, no
      other request of this route does, it was answered once with what the client was
      told, and no cancel was sent for it. */
  ghost predicate Behind(s: State, route: Route, job: U.Job, n: nat)
    requires n in s.r.items && RT.IsRequest(s.r.items[n])
  {
    var req := RT.ReqOf(s.r.items[n]);
    && job.kind.RoomJob? && job.call.Some? && job.reply.Some?
    && req.key == Key(route, job.call.value.id)
    && req.request == job.call.value.request && UI.Asks(job.kind.ask, req.request)
    && req.sends == 1 && req.answer.Some? && req.answer.value.success == job.reply.value.success
    && job.reply.value.room == (if job.kind.ask.AskLeave? then 0 else req.answer.value.room)
    && job.call.value.cancels == 0
    && (forall m :: m in s.r.items && RT.IsRequest(s.r.items[m]) && RT.ReqOf(s.r.items[m]).key == req.key ==> m == n)
  }

  /** What the Room server did: a success was executed exactly once and took effect, in
      the room the client is told; a failure took no effect on the manager's indexes,
      though it may have been executed (`AnswersHappened` says when). */
  predicate Done(req: R.Req, success: bool)
  {
    && req.ticket.Started? && (success <==> req.commit.Some?) && req.execs <= 1
    && (success ==> req.execs == 1 && RI.Effect(req.commit.value, req.key, req.request))
    && (req.answer.Some? ==> RI.Names(req.answer.value, req.request, req.commit))
  }

  lemma ReplyIsBacked(s: State, route: Route, j: nat)
    requires Links(route, s.u, s.r.items, s.asked) && RI.AllOk(s.r.items)
    requires j in s.u.jobs && UI.JobOk(s.u.jobs[j]) && s.u.jobs[j].reply.Some? && s.u.jobs[j].reply.value.tag.Some?
    ensures var n := s.u.jobs[j].reply.value.tag.value;
      && n in s.r.items && RT.IsRequest(s.r.items[n]) && Behind(s, route, s.u.jobs[j], n)
      && Done(RT.ReqOf(s.r.items[n]), s.u.jobs[j].reply.value.success)
  {
    var job := s.u.jobs[j];
    assert BackedJob(job, s.r.items, route);
    var n := job.reply.value.tag.value;
    assert RI.ItemOk(s.r.items[n]);
    var req := RT.ReqOf(s.r.items[n]);
    forall m | m in s.r.items && RT.IsRequest(s.r.items[m]) && RT.ReqOf(s.r.items[m]).key == req.key ensures m == n {
      assert Twins(s.r.items[m], s.r.items[n], route);
    }
  }

  /** In every run of the two servers and the network: a reply other than a timeout's
      has exactly one Room request behind it, executed exactly once and committed if
      the client was told success, and not committed if it was told failure; and a
      client is told success only so. */
  lemma RepliesAreTrue(p: R.Setup, route: Route, labels: seq<Label>, j: nat)
    requires p.strands > 0
    ensures
      var s := Run(p, route, Start(), labels);
      && !s.u.fault
      && (j in s.u.jobs && s.u.jobs[j].reply.Some? ==>
            var reply := s.u.jobs[j].reply.value;
            && (reply.success ==> reply.tag.Some?)
            && (reply.tag.Some? ==>
                  && reply.tag.value in s.r.items && RT.IsRequest(s.r.items[reply.tag.value])
                  && Behind(s, route, s.u.jobs[j], reply.tag.value)
                  && Done(RT.ReqOf(s.r.items[reply.tag.value]), reply.success)))
  {
    StartIsSound(p, route);
    RunKeeps(p, route, Start(), labels);
    var s := Run(p, route, Start(), labels);
    if j in s.u.jobs && s.u.jobs[j].reply.Some? {
      TruthOf(p, route, s, j);
    }
  }

  lemma TruthOf(p: R.Setup, route: Route, s: State, j: nat)
    requires Inv(p, route, s) && j in s.u.jobs && s.u.jobs[j].reply.Some?
    ensures var reply := s.u.jobs[j].reply.value;
      && (reply.success ==> reply.tag.Some?)
      && (reply.tag.Some? ==>
            && reply.tag.value in s.r.items && RT.IsRequest(s.r.items[reply.tag.value])
            && Behind(s, route, s.u.jobs[j], reply.tag.value)
            && Done(RT.ReqOf(s.r.items[reply.tag.value]), reply.success))
  {
    assert UI.JobOk(s.u.jobs[j]);
    if s.u.jobs[j].reply.value.tag.Some? {
      ReplyIsBacked(s, route, j);
    }
  }

  // ---------------------------------------------------------------- one step each

  /** The step that a label of both makes the User server take, if any. */
  function UserPart(s: State, route: Route, l: Label): Option<U.Label>
  {
    match l
    case User(ul) => if ul.Respond? then None else Some(ul)
    case ArriveAnswer(n, now) =>
      if AnswerSent(s, route, n)
      then Some(U.Respond(RT.ReqOf(s.r.items[n]).key.id, AnswerTo(RT.ReqOf(s.r.items[n]), n), now)) else None
    case _ => None
  }

  function RoomPart(s: State, route: Route, l: Label): Option<R.Label>
  {
    match l
    case Room(rl) => if rl.Receive? && rl.route == route then None else Some(rl)
    case ArriveAsk(id, now, done, drawn) =>
      if AskSent(s, id) then Some(R.Receive(route, R.Ask(id, U.CallOf(s.u, id).request), now, done, drawn)) else None
    case ArriveCancel(id, now) =>
      if CancelSent(s, id) then Some(R.Receive(route, R.CancelAsk(id), now, 0, 0)) else None
    case _ => None
  }

  lemma OneStepEach(p: R.Setup, route: Route, s: State, l: Label)
    requires p.strands > 0
    ensures
      var s' := Next(p, route, s, l);
      && s'.u == (if UserPart(s, route, l).Some? then U.Next(s.u, UserPart(s, route, l).value) else s.u)
      && s'.r == (if RoomPart(s, route, l).Some? then R.Next(p, s.r, RoomPart(s, route, l).value) else s.r)
  {
  }

  // ---------------------------------------------------------------- and stay true

  lemma RespondReply(u: U.State, id: nat, resp: U.Resp, now: nat, j: nat)
    requires j in u.jobs
    ensures var u' := U.Next(u, U.Respond(id, resp, now)); j in u'.jobs && u'.jobs[j].reply == u.jobs[j].reply
  {
  }

  lemma UserReply(u: U.State, l: U.Label, j: nat)
    requires UI.Inv(u) && j in u.jobs && u.jobs[j].reply.Some?
    ensures j in U.Next(u, l).jobs && U.Next(u, l).jobs[j].reply == u.jobs[j].reply
  {
    if l.Respond? {
      RespondReply(u, l.id, l.resp, l.now, j);
    } else {
      UC.NextContinues(u, l);
      assert UC.Continues(u.jobs[j], U.Next(u, l).jobs[j]);
    }
  }

  lemma NextReply(p: R.Setup, route: Route, s: State, l: Label, j: nat)
    requires p.strands > 0 && UI.Inv(s.u) && j in s.u.jobs && s.u.jobs[j].reply.Some?
    ensures j in Next(p, route, s, l).u.jobs && Next(p, route, s, l).u.jobs[j].reply == s.u.jobs[j].reply
  {
    OneStepEach(p, route, s, l);
    if UserPart(s, route, l).Some? {
      UserReply(s.u, UserPart(s, route, l).value, j);
    }
  }

  lemma {:induction false} ReplyEndures(p: R.Setup, route: Route, s: State, more: seq<Label>, j: nat)
    requires p.strands > 0 && Inv(p, route, s)
    requires j in s.u.jobs && s.u.jobs[j].reply.Some? && s.u.jobs[j].reply.value.tag.Some?
    ensures
      var s' := Run(p, route, s, more);
      var n := s.u.jobs[j].reply.value.tag.value;
      && j in s'.u.jobs && s'.u.jobs[j].reply == s.u.jobs[j].reply
      && n in s'.r.items && RT.IsRequest(s'.r.items[n]) && Behind(s', route, s'.u.jobs[j], n)
      && Done(RT.ReqOf(s'.r.items[n]), s.u.jobs[j].reply.value.success)
    decreases |more|
  {
    if more == [] {
      TruthOf(p, route, s, j);
    } else {
      NextKeeps(p, route, s, more[0]);
      NextReply(p, route, s, more[0], j);
      ReplyEndures(p, route, Next(p, route, s, more[0]), more[1..], j);
    }
  }

  /** What a client has been told stays true: in every later state the same Room
      request is behind it, and still no cancel has been sent for it. */
  lemma RepliesStayTrue(p: R.Setup, route: Route, labels: seq<Label>, more: seq<Label>, j: nat)
    requires p.strands > 0
    ensures
      var s := Run(p, route, Start(), labels);
      var s' := Run(p, route, s, more);
      j in s.u.jobs && s.u.jobs[j].reply.Some? && s.u.jobs[j].reply.value.tag.Some? ==>
        var n := s.u.jobs[j].reply.value.tag.value;
        && j in s'.u.jobs && s'.u.jobs[j].reply == s.u.jobs[j].reply
        && n in s'.r.items && RT.IsRequest(s'.r.items[n]) && Behind(s', route, s'.u.jobs[j], n)
        && Done(RT.ReqOf(s'.r.items[n]), s.u.jobs[j].reply.value.success)
  {
    var s := Run(p, route, Start(), labels);
    StartIsSound(p, route);
    RunKeeps(p, route, Start(), labels);
    if j in s.u.jobs && s.u.jobs[j].reply.Some? && s.u.jobs[j].reply.value.tag.Some? {
      ReplyEndures(p, route, s, more, j);
    }
  }

  // ---------------------------------------------------------------- each server's own run

  lemma {:induction false} UserRunOne(u: U.State, l: Option<U.Label>, rest: seq<U.Label>)
    ensures U.Run(u, Cons(l, rest)) == U.Run(if l.Some? then U.Next(u, l.value) else u, rest)
  {
    if l.Some? {
      assert ([l.value] + rest)[1..] == rest;
    }
  }

  function Cons<T>(l: Option<T>, rest: seq<T>): seq<T>
  {
    if l.Some? then [l.value] + rest else rest
  }

  /** The labels of the User server in a run of both. */
  ghost function OwnUser(p: R.Setup, route: Route, s: State, labels: seq<Label>): seq<U.Label>
    requires p.strands > 0
    decreases |labels|
  {
    if labels == [] then []
    else Cons(UserPart(s, route, labels[0]), OwnUser(p, route, Next(p, route, s, labels[0]), labels[1..]))
  }

  ghost function OwnRoom(p: R.Setup, route: Route, s: State, labels: seq<Label>): seq<R.Label>
    requires p.strands > 0
    decreases |labels|
  {
    if labels == [] then []
    else Cons(RoomPart(s, route, labels[0]), OwnRoom(p, route, Next(p, route, s, labels[0]), labels[1..]))
  }

  /** What the User server does in a run of both is a run of its own; so all that
      holds of every run of the User server holds here. */
  lemma {:induction false} UserProjection(p: R.Setup, route: Route, s: State, labels: seq<Label>)
    requires p.strands > 0
    ensures Run(p, route, s, labels).u == U.Run(s.u, OwnUser(p, route, s, labels))
    decreases |labels|
  {
    if labels != [] {
      var s1 := Next(p, route, s, labels[0]);
      OneStepEach(p, route, s, labels[0]);
      UserProjection(p, route, s1, labels[1..]);
      UserRunOne(s.u, UserPart(s, route, labels[0]), OwnUser(p, route, s1, labels[1..]));
    }
  }

  lemma {:induction false} RoomRunOne(p: R.Setup, r: R.State, l: Option<R.Label>, rest: seq<R.Label>)
    requires p.strands > 0
    ensures R.Run(p, r, Cons(l, rest)) == R.Run(p, if l.Some? then R.Next(p, r, l.value) else r, rest)
  {
    if l.Some? {
      assert ([l.value] + rest)[1..] == rest;
    }
  }

  /** And so is what the Room server does. */
  lemma {:induction false} RoomProjection(p: R.Setup, route: Route, s: State, labels: seq<Label>)
    requires p.strands > 0
    ensures Run(p, route, s, labels).r == R.Run(p, s.r, OwnRoom(p, route, s, labels))
    decreases |labels|
  {
    if labels != [] {
      var s1 := Next(p, route, s, labels[0]);
      OneStepEach(p, route, s, labels[0]);
      RoomProjection(p, route, s1, labels[1..]);
      RoomRunOne(p, s.r, RoomPart(s, route, labels[0]), OwnRoom(p, route, s1, labels[1..]));
    }
  }

  /** The Room request behind a reply is in the name of the last user that the
      client's session had logged in when it was made. */
  lemma RepliesBearTheLogin(p: R.Setup, route: Route, labels: seq<Label>, j: nat)
    requires p.strands > 0
    ensures
      var s := Run(p, route, Start(), labels);
      j in s.u.jobs && s.u.jobs[j].reply.Some? && s.u.jobs[j].reply.value.tag.Some? ==>
        var n := s.u.jobs[j].reply.value.tag.value;
        && n in s.r.items && RT.IsRequest(s.r.items[n])
        && RT.ReqOf(s.r.items[n]).request.uid == UM.Last(UM.Logins(s.u.jobs, s.u.jobs[j].session), j, "")
  {
    RepliesAreTrue(p, route, labels, j);
    UserProjection(p, route, Start(), labels);
    UM.RequestsBearTheLogin(OwnUser(p, route, Start(), labels), j);
  }

  /** What an answer that has reached a client meant, in the Room server's own run. It
      is a success if and only if nothing went wrong with the request there; a success
      was true of one of its states; and after a failure the request had changed its
      room all the same if and only if the manager's index refused, in one of its
      steps, the change it had made. */
  lemma AnswersHappened(p: R.Setup, route: Route, labels: seq<Label>, j: nat)
    requires p.strands > 0
    ensures
      var s := Run(p, route, Start(), labels);
      var own := OwnRoom(p, route, Start(), labels);
      && s.r == R.Run(p, R.Start(), own)
      && (j in s.u.jobs && s.u.jobs[j].reply.Some? && s.u.jobs[j].reply.value.tag.Some? ==>
            var n := s.u.jobs[j].reply.value.tag.value;
            && (s.u.jobs[j].reply.value.success <==> !exists k :: RA.FailsAt(p, own, k, n))
            && n in s.r.items && RT.IsRequest(s.r.items[n])
            && var req := RT.ReqOf(s.r.items[n]);
               if s.u.jobs[j].reply.value.success
               then req.commit.Some? && exists k :: RH.CommittedAt(p, own, k, req.commit.value)
               else req.commit.None? && (req.execs == 1 <==> exists k :: RH.RefusedAt(p, own, k, n)))
  {
    var s := Run(p, route, Start(), labels);
    var own := OwnRoom(p, route, Start(), labels);
    RoomProjection(p, route, Start(), labels);
    RepliesAreTrue(p, route, labels, j);
    if j in s.u.jobs && s.u.jobs[j].reply.Some? && s.u.jobs[j].reply.value.tag.Some? {
      var n := s.u.jobs[j].reply.value.tag.value;
      RH.SuccessIsApplied(p, own, n);
      RH.FailureIsExplained(p, own, n);
      RA.AnswersAreExact(p, own, n);
    }
  }

  // ---------------------------------------------------------------- a cancel that came in time

  /** The Room server holds the request with this id, and it has not begun. */
  predicate StillWaits(s: State, route: Route, id: nat, n: nat)
  {
    n in s.r.items && RH.Waits(s.r.items[n]) && s.r.items[n].req.key == Key(route, id)
  }

  lemma CancelTakes(p: R.Setup, route: Route, s: State, id: nat, now: nat, n: nat)
    requires p.strands > 0 && RI.Inv(p, s.r) && CancelSent(s, id) && StillWaits(s, route, id, n)
    ensures
      var s' := Next(p, route, s, ArriveCancel(id, now));
      && n in s'.r.items && RT.IsRequest(s'.r.items[n])
      && RT.ReqOf(s'.r.items[n]).ticket.Cancelled? && RT.ReqOf(s'.r.items[n]).key == Key(route, id)
  {
    OneStepEach(p, route, s, ArriveCancel(id, now));
    RH.CancelTakes(p, s.r, R.Receive(route, R.CancelAsk(id), now, 0, 0), n);
  }

  /** A request that is waiting at the Room server when its cancel arrives is never
      executed and never answered; so whatever its client is told is a timeout's
      failure. */
  lemma CancelledInTime(p: R.Setup, route: Route, before: seq<Label>, id: nat, now: nat, after: seq<Label>, n: nat, j: nat)
    requires p.strands > 0
    requires var s := Run(p, route, Start(), before); CancelSent(s, id) && StillWaits(s, route, id, n)
    ensures
      var s := Run(p, route, Next(p, route, Run(p, route, Start(), before), ArriveCancel(id, now)), after);
      && n in s.r.items && RT.IsRequest(s.r.items[n])
      && RT.ReqOf(s.r.items[n]).execs == 0 && RT.ReqOf(s.r.items[n]).commit.None? && RT.ReqOf(s.r.items[n]).sends == 0
      && (j in s.u.jobs && s.u.jobs[j].call.Some? && s.u.jobs[j].call.value.id == id && s.u.jobs[j].reply.Some? ==>
            s.u.jobs[j].reply.value.tag.None? && !s.u.jobs[j].reply.value.success)
  {
    var s0 := Run(p, route, Start(), before);
    var s1 := Next(p, route, s0, ArriveCancel(id, now));
    var s := Run(p, route, s1, after);
    StartIsSound(p, route);
    RunKeeps(p, route, Start(), before);
    NextKeeps(p, route, s0, ArriveCancel(id, now));
    RunKeeps(p, route, s1, after);
    CancelTakes(p, route, s0, id, now, n);
    StaysCancelled(p, route, s1, after, n);
    if j in s.u.jobs && s.u.jobs[j].reply.Some? {
      TruthOf(p, route, s, j);
    }
  }

  lemma StaysCancelled(p: R.Setup, route: Route, s: State, after: seq<Label>, n: nat)
    requires p.strands > 0 && RI.Inv(p, s.r) && n in s.r.items && RT.IsRequest(s.r.items[n]) && RT.ReqOf(s.r.items[n]).ticket.Cancelled?
    ensures
      var s' := Run(p, route, s, after);
      && n in s'.r.items && RT.IsRequest(s'.r.items[n]) && RT.ReqOf(s'.r.items[n]).key == RT.ReqOf(s.r.items[n]).key
      && RT.ReqOf(s'.r.items[n]).execs == 0 && RT.ReqOf(s'.r.items[n]).commit.None? && RT.ReqOf(s'.r.items[n]).sends == 0
  {
    var own := OwnRoom(p, route, s, after);
    RoomProjection(p, route, s, after);
    RC.RunKeeps(p, s.r, own);
    RT.RunEvolves(p, s.r, own, n);
    RH.CancelledItem(p, R.Run(p, s.r, own), n, 0);
  }

  // ---------------------------------------------------------------- nobody waits for ever

  /** Whatever is lost, delayed or interleaved, as long as the channel is not stopped:
      in every run of both servers that takes the job at the head of a session's line
      as far as its posted continuation, the job is over if and only if its strand has
      then taken the steps it still needed. */
  lemma HeadFinishesInEveryRun(p: R.Setup, route: Route, before: seq<Label>, first: seq<Label>, rest: seq<Label>, sid: nat, j: nat)
    requires p.strands > 0 && UP.AtHead(Run(p, route, Start(), before).u, sid, j)
    requires
      var s := Run(p, route, Start(), before);
      var own := OwnUser(p, route, s, first);
      UP.NoStop(own) && UP.Approaches(s.u, own, sid, j)
    requires UP.NoStop(OwnUser(p, route, Run(p, route, Run(p, route, Start(), before), first), rest))
    ensures
      var s1 := Run(p, route, Run(p, route, Start(), before), first);
      var u := Run(p, route, s1, rest).u;
      j in u.jobs && u.jobs[j].stage.Over? <==>
        UP.UsefulIn(s1.u, OwnUser(p, route, s1, rest), sid, j) >= UP.NeededOf(s1.u, sid, j)
  {
    var s := Run(p, route, Start(), before);
    var s1 := Run(p, route, s, first);
    UserProjection(p, route, s, first);
    UserProjection(p, route, s1, rest);
    UP.HeadFinishes(s.u, sid, j, OwnUser(p, route, s, first), OwnUser(p, route, s1, rest));
    NeverFaults(p, route, before, first, rest);
  }

  lemma NeverFaults(p: R.Setup, route: Route, before: seq<Label>, first: seq<Label>, rest: seq<Label>)
    requires p.strands > 0
    ensures var s1 := Run(p, route, Run(p, route, Start(), before), first); !s1.u.fault && !Run(p, route, s1, rest).u.fault
  {
    var s := Run(p, route, Start(), before);
    StartIsSound(p, route);
    RunKeeps(p, route, Start(), before);
    RunKeeps(p, route, s, first);
    RunKeeps(p, route, Run(p, route, s, first), rest);
    NoFault(p, route, Run(p, route, s, first));
    NoFault(p, route, Run(p, route, Run(p, route, s, first), rest));
  }

  function Lift(ul: seq<U.Label>): seq<Label>
  {
    if ul == [] then [] else [User(ul[0])] + Lift(ul[1..])
  }

  /** Labels of the User server alone, among the labels of both. */
  lemma {:induction false} LiftRuns(p: R.Setup, route: Route, s: State, ul: seq<U.Label>)
    requires p.strands > 0 && forall i :: 0 <= i < |ul| ==> !ul[i].Respond?
    ensures OwnUser(p, route, s, Lift(ul)) == ul
    ensures Run(p, route, s, Lift(ul)) == s.(u := U.Run(s.u, ul))
    decreases |ul|
  {
    if ul != [] {
      assert Lift(ul)[0] == User(ul[0]) && Lift(ul)[1..] == Lift(ul[1..]);
      assert ul == [ul[0]] + ul[1..];
      LiftRuns(p, route, Next(p, route, s, User(ul[0])), ul[1..]);
    }
  }

  lemma {:induction false} LiftLabels(ul: seq<U.Label>, sid: nat)
    requires UP.AllByItself(ul, sid)
    ensures UP.NoStop(ul) && OnItsOwn(Lift(ul), sid)
    decreases |ul|
  {
    if ul != [] {
      LiftLabels(ul[1..], sid);
    }
  }

  /** Only expiries, callbacks and steps of session `sid`. */
  predicate OnItsOwn(labels: seq<Label>, sid: nat)
  {
    forall l :: l in labels ==>
      l.User? && (l.user.Expire? || l.user.Fire? || (l.user.Step? && l.user.session == sid))
  }

  /** And such a run can always be had: while the channel's timer runs, expiries,
      callbacks and steps of the session's own strand, and nothing else, give the job
      first in its line all that `HeadFinishesInEveryRun` asks for, and so finish it. */
  lemma HeadAlwaysFinishes(p: R.Setup, route: Route, before: seq<Label>, sid: nat, j: nat)
    returns (first: seq<Label>, rest: seq<Label>)
    requires p.strands > 0 && UP.AtHead(Run(p, route, Start(), before).u, sid, j)
    ensures OnItsOwn(first, sid) && OnItsOwn(rest, sid)
    ensures
      var s := Run(p, route, Start(), before);
      var s1 := Run(p, route, s, first);
      var own, own1 := OwnUser(p, route, s, first), OwnUser(p, route, s1, rest);
      && UP.NoStop(own) && UP.UsefulIn(s.u, own, sid, j) + 1 >= UP.LeftOf(s.u, sid, j)
      && UP.NoStop(own1) && UP.UsefulIn(s1.u, own1, sid, j) >= UP.NeededOf(s1.u, sid, j)
      && var u := Run(p, route, s1, rest).u; j in u.jobs && u.jobs[j].stage.Over?
  {
    var s := Run(p, route, Start(), before);
    var ul := UP.CanApproach(s.u, sid, j);
    first := Lift(ul);
    LiftRuns(p, route, s, ul);
    LiftLabels(ul, sid);
    var s1 := Run(p, route, s, first);
    NeverFaults(p, route, before, first, []);
    UP.FirstPart(s.u, ul, sid, j);
    var ul1 := UP.CanFinish(s1.u, sid, j);
    rest := Lift(ul1);
    LiftRuns(p, route, s1, ul1);
    LiftLabels(ul1, sid);
    NeverFaults(p, route, before, first, rest);
    HeadFinishesInEveryRun(p, route, before, first, rest, sid, j);
  }

  lemma NoFault(p: R.Setup, route: Route, s: State)
    requires Inv(p, route, s)
    ensures !s.u.fault
  {
  }
}
