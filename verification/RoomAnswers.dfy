/** Why the Room server answers as it does: a request fails for one of three reasons,
    each an event of the run, and succeeds if none of them happened to it. */
module RoomAnswers {
  import opened QueuedRequests
  import opened Rooms
  import opened RoomServer
  import opened RoomInvariants
  import opened RoomChannel
  import opened RoomTheorems
  import opened RoomHistory

  // ---------------------------------------------------------------- what can go wrong

  /** Message `l` is admitted as request `n` and there is no room for it: none with the
      number a join asks for, none that the user of a leave is known to be in. */
  predicate Misses(p: Setup, s: State, l: Label, n: nat)
  {
    && l.Receive? && l.message.Ask? && !l.message.request.CreateRoom?
    && Admissible(p.cfg, s.reg, KeyOf(l), l.now) && n == s.next
    && NoRoomFor(s.mgr, l.message.request)
  }

  /** The strand comes to request `n`, which was not cancelled, and finds its room
      closed, or the user of a leave not in it. */
  ghost predicate TurnsAway(s: State, n: nat)
  {
    && IsHead(s.items, s.strandOf, n) && Waits(s.items[n]) && s.items[n].room in s.rooms
    && s.items[n].req.ticket.Queued? && !Takes(s.rooms[s.items[n].room], s.items[n].req.request)
  }

  /** Request `n` goes wrong in step `l`: it finds no room, it is turned away on the
      strand, or the manager refuses what it has changed. */
  ghost predicate Fails(p: Setup, s: State, l: Label, n: nat)
  {
    Misses(p, s, l, n) || (OwnLabel(l, n) && (TurnsAway(s, n) || Refuses(s, n)))
  }

  ghost predicate FailsAt(p: Setup, labels: seq<Label>, k: nat, n: nat)
    requires p.strands > 0
  {
    k < |labels| && Fails(p, Run(p, Start(), labels[..k]), labels[k], n)
  }

  /** Started, decided, and not committed. */
  predicate Failing(t: Item)
  {
    && IsRequest(t) && Decided(t) && ReqOf(t).ticket.Started?
    && ReqOf(t).commit.None? && !ReqOf(t).request.CreateRoom?
  }

  /** An answered create is committed. */
  predicate CreateOk(t: Item)
  {
    IsRequest(t) && ReqOf(t).request.CreateRoom? && ReqOf(t).answer.Some? ==> ReqOf(t).commit.Some?
  }

  // ---------------------------------------------------------------- one step

  lemma OwnFails(p: Setup, s: State, n: nat, now: nat)
    requires n in s.items && IsRequest(s.items[n]) && ItemOk(s.items[n])
    ensures
      var s' := RunTask(p, s, n, now);
      n in s'.items && (Failing(s'.items[n]) <==> Failing(s.items[n]) || TurnsAway(s, n) || Refuses(s, n))
  {
    if IsHead(s.items, s.strandOf, n) && s.items[n].room in s.rooms {
      HeadAdvances(p, s, n, now);
    }
  }

  lemma OthersFail(t: Item, t': Item)
    requires IsRequest(t) && ItemOk(t) && Evolves(t, t') && UpToTicket(t, t')
    ensures Failing(t') <==> Failing(t)
  {
  }

  lemma StepFails(p: Setup, s: State, l: Label, n: nat)
    requires p.strands > 0 && Inv(p, s) && n in s.items && IsRequest(s.items[n])
    ensures
      var s' := Next(p, s, l);
      && n in s'.items && (Failing(s'.items[n]) <==> Failing(s.items[n]) || Fails(p, s, l, n))
      && (CreateOk(s.items[n]) ==> CreateOk(s'.items[n]))
  {
    assert n < s.next && ItemOk(s.items[n]);
    RequestEvolves(p, s, l, n);
    if OwnLabel(l, n) {
      OwnFails(p, s, n, l.now);
    } else {
      OthersLeaveItAlone(p, s, l, n);
      OthersFail(s.items[n], Next(p, s, l).items[n]);
    }
  }

  lemma PutMissing(s: State, key: Key, request: Request, reg': Registry<nat>)
    ensures var items' := AnswerMissing(s, key, request, reg').items; s.next in items' && items'[s.next].Past?
  {
  }

  lemma PutWork(s: State, key: Key, request: Request, room: Ref, reg': Registry<nat>)
    ensures
      var items' := PostWork(s, key, request, room, reg').items;
      s.next in items' && items'[s.next] == Work(room, NewReq(key, request, Queued), Waiting)
  {
  }

  /** A new join or leave is over at once exactly if there is no room for it, and waits
      in that room otherwise. */
  lemma HandleMisses(p: Setup, s: State, key: Key, request: Request, drawn: RoomId,
                     admitted: Registry<nat>, finished: Registry<nat>)
    requires p.strands > 0 && !request.CreateRoom?
    ensures
      var items' := Handle(p, s, key, request, drawn, admitted, finished).items;
      && s.next in items' && IsRequest(items'[s.next])
      && if NoRoomFor(s.mgr, request) then items'[s.next].Past?
         else items'[s.next] == Work(RoomFor(s.mgr, request), NewReq(key, request, Queued), Waiting)
  {
    TargetIs(s.mgr, request);
    match Target(s.mgr, request) {
      case None => PutMissing(s, key, request, finished);
      case Some(room) => PutWork(s, key, request, room, admitted);
    }
  }

  /** A join or leave that is not refused waits in the room there is for it, or, if
      there is none, is over. */
  lemma AskMisses(p: Setup, s: State, l: Label)
    requires p.strands > 0 && l.Receive? && l.message.Ask? && !l.message.request.CreateRoom?
    ensures
      var items' := Next(p, s, l).items;
      if Admissible(p.cfg, s.reg, KeyOf(l), l.now) then
        && s.next in items' && IsRequest(items'[s.next])
        && (if Misses(p, s, l, s.next) then items'[s.next].Past?
            else
              && !NoRoomFor(s.mgr, l.message.request)
              && items'[s.next] == Work(RoomFor(s.mgr, l.message.request), NewReq(KeyOf(l), l.message.request, Queued), Waiting))
      else items' == s.items && !Misses(p, s, l, s.next)
  {
    var key, request := KeyOf(l), l.message.request;
    var admitted := AfterAdmit(p.cfg, s.reg, key, l.now, TicketNumber(s, request));
    HandleMisses(p, s, key, request, l.drawn, admitted,
                 AfterFinish(p.cfg, admitted, key, TicketNumber(s, request), l.done));
  }

  lemma NewFails(p: Setup, s: State, l: Label, n: nat)
    requires p.strands > 0 && Appears(s.items, Next(p, s, l).items, n)
    ensures ItemOk(Next(p, s, l).items[n]) ==> CreateOk(Next(p, s, l).items[n])
    ensures Failing(Next(p, s, l).items[n]) <==> Fails(p, s, l, n)
  {
    RoomAppears(p, s, l, n);
    if !l.message.request.CreateRoom? {
      AskMisses(p, s, l);
    }
  }

  // ---------------------------------------------------------------- whole runs

  /** What goes wrong with a request goes wrong with one that is there. */
  lemma FailsThere(p: Setup, labels: seq<Label>, k: nat, n: nat)
    requires p.strands > 0 && FailsAt(p, labels, k, n)
    ensures n in Run(p, Start(), labels).items && IsRequest(Run(p, Start(), labels).items[n])
  {
    var s, l := Run(p, Start(), labels[..k]), labels[k];
    if Misses(p, s, l, n) {
      AskMisses(p, s, l);
      assert labels[..k + 1] == labels[..k] + [l];
      RunSnoc(p, Start(), labels[..k], l);
      StillThere(p, labels, k + 1, n);
    } else {
      StillThere(p, labels, k, n);
    }
  }

  lemma FailsSame(p: Setup, init: seq<Label>, l: Label, k: nat, n: nat)
    requires p.strands > 0 && k <= |init|
    ensures FailsAt(p, init + [l], k, n) <==> if k < |init| then FailsAt(p, init, k, n) else Fails(p, Run(p, Start(), init), l, n)
  {
    assert (init + [l])[..k] == init[..k];
    if k == |init| {
      assert init[..k] == init;
    }
  }

  lemma FailsOn(p: Setup, init: seq<Label>, l: Label, n: nat)
    requires p.strands > 0
    ensures (exists k :: FailsAt(p, init + [l], k, n)) <==>
            (exists k :: FailsAt(p, init, k, n)) || Fails(p, Run(p, Start(), init), l, n)
  {
    FailsSame(p, init, l, |init|, n);
    if k: nat :| FailsAt(p, init, k, n) {
      FailsSame(p, init, l, k, n);
      assert FailsAt(p, init + [l], k, n);
    }
    if k: nat :| FailsAt(p, init + [l], k, n) {
      FailsSame(p, init, l, k, n);
    }
    if Fails(p, Run(p, Start(), init), l, n) {
      assert FailsAt(p, init + [l], |init|, n);
    }
  }

  lemma {:induction false} RunFails(p: Setup, labels: seq<Label>, n: nat)
    requires p.strands > 0 && n in Run(p, Start(), labels).items && IsRequest(Run(p, Start(), labels).items[n])
    ensures Failing(Run(p, Start(), labels).items[n]) <==> exists k :: FailsAt(p, labels, k, n)
    ensures CreateOk(Run(p, Start(), labels).items[n])
    decreases |labels|
  {
    if labels != [] {
      var m := |labels| - 1;
      var init, l := labels[..m], labels[m];
      assert labels == init + [l];
      var s := Run(p, Start(), init);
      RunSnoc(p, Start(), init, l);
      FailsOn(p, init, l, n);
      if n in s.items && IsRequest(s.items[n]) {
        StartIsSound(p);
        RunKeeps(p, Start(), init);
        RunFails(p, init, n);
        StepFails(p, s, l, n);
      } else {
        forall k: nat ensures !FailsAt(p, init, k, n) {
          if FailsAt(p, init, k, n) {
            FailsThere(p, init, k, n);
          }
        }
        ItemIsOk(p, labels, n);
        NewFails(p, s, l, n);
      }
    }
  }

  /** In every run an answer is a success if and only if nothing went wrong with its
      request: it found its room, the strand did not turn it away, and the manager did
      not refuse it. */
  lemma AnswersAreExact(p: Setup, labels: seq<Label>, n: nat)
    requires p.strands > 0
    ensures
      var s := Run(p, Start(), labels);
      n in s.items && IsRequest(s.items[n]) && ReqOf(s.items[n]).answer.Some? ==>
        (ReqOf(s.items[n]).answer.value.success <==> !exists k :: FailsAt(p, labels, k, n))
  {
    var s := Run(p, Start(), labels);
    if n in s.items && IsRequest(s.items[n]) && ReqOf(s.items[n]).answer.Some? {
      ItemIsOk(p, labels, n);
      RunFails(p, labels, n);
    }
  }
}
